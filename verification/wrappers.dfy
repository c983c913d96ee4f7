/** The optional value used wherever the Java code returns or stores a possibly-null reference. */
module Wrappers {

  datatype Option<+T> = None | Some(value: T)

  /** Java's string conversion of a possibly-null string: its text, or `null`. */
  function JavaText(s: Option<string>): string
  {
    if s.Some? then s.value else "null"
  }
}
