/** The Option type: `None` stands where the C# program uses `null`. */
module Wrappers {
  datatype Option<+T> = None | Some(value: T)
}
