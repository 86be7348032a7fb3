/** The Some/None datatype standing in for the source's `null`-able values. */
module Wrappers {

  datatype Option<+T> = None | Some(value: T)
}

/** Shared value types of the viewer (src/types/index.ts). */
module Types {

  /** A point in viewport pixels, measured from the map's top-left corner.
      JavaScript numbers are not integral, so coordinates are reals. */
  datatype Position = Position(x: real, y: real)
}
