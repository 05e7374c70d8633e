/**
 * ToolbarButtonOptions: the option set of toolbar buttons, a 64-bit raw
 * value in which each button is one bit. A set literal is the bitwise union
 * of its elements.
 */
module ToolbarOptions {

  datatype ToolbarButtonOptions = ToolbarButtonOptions(rawValue: bv64)
  {
    /** Every bit of `other` is set in this set. */
    predicate IsSupersetOf(other: ToolbarButtonOptions)
    {
      rawValue & other.rawValue == other.rawValue
    }

    /** `contains(_:)` for a member. */
    predicate Contains(member: ToolbarButtonOptions)
    {
      IsSupersetOf(member)
    }

    /** `union(_:)`: the least set containing both operands. */
    function Union(other: ToolbarButtonOptions): (r: ToolbarButtonOptions)
      ensures r.IsSupersetOf(this) && r.IsSupersetOf(other)
    {
      ToolbarButtonOptions(rawValue | other.rawValue)
    }
  }

  /** The union is the least such set: any set holding both operands holds their union. */
  lemma UnionIsLeast(a: ToolbarButtonOptions, b: ToolbarButtonOptions, c: ToolbarButtonOptions)
    requires c.IsSupersetOf(a) && c.IsSupersetOf(b)
    ensures c.IsSupersetOf(a.Union(b))
  {
  }

  const CounterclockwiseRotate := ToolbarButtonOptions(1 << 0)
  const ClockwiseRotate := ToolbarButtonOptions(1 << 1)
  const Reset := ToolbarButtonOptions(1 << 2)
  const Ratio := ToolbarButtonOptions(1 << 3)
  const AlterImageSnapper90Degree := ToolbarButtonOptions(1 << 4)

  /** Holding every bit of a set that holds every bit of `c` means holding every bit of `c`. */
  lemma SupersetIsTransitive(a: ToolbarButtonOptions, b: ToolbarButtonOptions, c: ToolbarButtonOptions)
    requires a.IsSupersetOf(b) && b.IsSupersetOf(c)
    ensures a.IsSupersetOf(c)
  {
  }

  /** The set a literal `[a, b, ...]` denotes: the union of its elements (the empty set for none). */
  function SetOf(elements: seq<ToolbarButtonOptions>): ToolbarButtonOptions
  {
    if elements == [] then ToolbarButtonOptions(0)
    else SetOf(elements[..|elements| - 1]).Union(elements[|elements| - 1])
  }

  /** A set literal contains each of its elements. */
  lemma {:induction false} SetOfContainsElements(elements: seq<ToolbarButtonOptions>)
    ensures forall i :: 0 <= i < |elements| ==> SetOf(elements).Contains(elements[i])
  {
    if elements != [] {
      var n := |elements| - 1;
      var init := SetOf(elements[..n]);
      SetOfContainsElements(elements[..n]);
      forall i | 0 <= i < n
        ensures SetOf(elements).Contains(elements[i])
      {
        assert elements[..n][i] == elements[i];
        SupersetIsTransitive(SetOf(elements), init, elements[i]);
      }
    }
  }

  const Default := SetOf([CounterclockwiseRotate, Reset, Ratio])
  const All := SetOf([CounterclockwiseRotate, ClockwiseRotate, Reset, Ratio])

  /** The five buttons are distinct single bits 1, 2, 4, 8 and 16. */
  lemma OptionsAreDistinctBits()
    ensures CounterclockwiseRotate.rawValue == 1 && ClockwiseRotate.rawValue == 2 && Reset.rawValue == 4
    ensures Ratio.rawValue == 8 && AlterImageSnapper90Degree.rawValue == 16
    ensures var bits := [CounterclockwiseRotate, ClockwiseRotate, Reset, Ratio, AlterImageSnapper90Degree];
            forall i, j :: 0 <= i < j < |bits| ==> bits[i].rawValue & bits[j].rawValue == 0
  {
  }

  /** `default` is raw 13: the counterclockwise rotation, reset and ratio. */
  lemma DefaultSet()
    ensures Default.rawValue == 13
    ensures Default.Contains(CounterclockwiseRotate) && Default.Contains(Reset) && Default.Contains(Ratio)
    ensures !Default.Contains(ClockwiseRotate) && !Default.Contains(AlterImageSnapper90Degree)
  {
    var a, b, c := CounterclockwiseRotate, Reset, Ratio;
    assert [a, b, c][..2] == [a, b] && [a, b][..1] == [a] && [a][..0] == [];
    assert SetOf([a]).rawValue == 1;
    assert SetOf([a, b]).rawValue == 5;
  }

  /** `all` is raw 15: every button except the 90-degree crop-box flip. */
  lemma AllSet()
    ensures All.rawValue == 15
    ensures All.Contains(CounterclockwiseRotate) && All.Contains(ClockwiseRotate)
    ensures All.Contains(Reset) && All.Contains(Ratio)
    ensures !All.Contains(AlterImageSnapper90Degree)
  {
    var a, b, c, d := CounterclockwiseRotate, ClockwiseRotate, Reset, Ratio;
    assert [a, b, c, d][..3] == [a, b, c] && [a, b, c][..2] == [a, b];
    assert [a, b][..1] == [a] && [a][..0] == [];
    assert SetOf([a]).rawValue == 1;
    assert SetOf([a, b]).rawValue == 3;
    assert SetOf([a, b, c]).rawValue == 7;
  }

  lemma DefaultIsSubsetOfAll()
    ensures All.IsSupersetOf(Default)
  {
    DefaultSet();
    AllSet();
  }
}
