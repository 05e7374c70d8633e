/**
 * Optional values, as ImageSnap uses them: the updaters' edge-to-delta table
 * look-ups, the failable `ImageRotationType(rawValue:)`, the rotation dial's
 * frame and the null rectangle of `insetBy`.
 */
module Wrappers {

  datatype Option<+T> = None | Some(value: T)

}
