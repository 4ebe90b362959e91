/**
 JavaScript values as the bridge and the store see them.

 The shell never looks inside a value beyond comparing it with `''`, `null`
 and `undefined`, so every other JSON value (a number, a boolean, an object,
 an array) is kept only as its JSON text.
 */
module Js {

  /** The conventional Some/None datatype. */
  datatype Option<+T> = None | Some(value: T)

  /**
   A JavaScript value. `Undefined` and `Str("")` are different values: the
   first is what a cleared token holds, the second what a fresh store holds.
   */
  datatype Value =
    | Undefined
    | Null
    | Str(s: string)
    | Other(text: string)  // a number, boolean, object or array, by its JSON text
}
