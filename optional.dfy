/** The usual Some/None wrapper, used wherever the C# code returns or stores null. */
module Optional {
  datatype Option<+T> = None | Some(value: T)
}
