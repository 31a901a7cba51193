/** The null-able references of the mod, as an explicit Option. */
module Wrappers {

  /** `None` stands for a C# `null` reference. */
  datatype Option<+T> = None | Some(value: T)
}
