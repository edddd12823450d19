/** A value that may be absent: models the C# `null` of a reference or nullable type. */
module Options {

  datatype Option<+T> = None | Some(value: T)

}
