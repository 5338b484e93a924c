/** Small value types shared by the whole model. */
module Basics {

  /** Python's `None` or a value. */
  datatype Option<+T> = None | Some(value: T)

  /** Python truthiness of a value that is either None or a string: None and "" are false. */
  predicate Truthy(o: Option<string>) {
    o.Some? && o.value != ""
  }

  predicate StartsWith(s: string, prefix: string) {
    |prefix| <= |s| && s[..|prefix|] == prefix
  }

  /** The text every caught exception is turned into: `f"Error: {str(e)}"`. */
  function ErrorText(message: string): (t: string)
    ensures StartsWith(t, "Error: ") && t[7..] == message
  {
    "Error: " + message
  }
}
