/** The few JavaScript value notions the API layer depends on: values that
    may be absent, keys that are a string or a number, truthiness, and the
    text a template literal `${x}` makes of a key. */
module JsValues {
  import opened Strings

  /** A value that may be absent (`undefined`, a missing property, Java's null). */
  datatype Option<T> = None | Some(value: T)

  /** `string | number`. Numbers are integral here. */
  datatype Scalar = Str(s: string) | Num(n: int)

  /** JavaScript truthiness of a key part: "" and 0 are falsy. */
  predicate Truthy(x: Scalar) {
    match x
    case Str(s) => s != ""
    case Num(n) => n != 0
  }

  /** What `${x}` yields for a key part. */
  function ScalarText(x: Scalar): string {
    match x
    case Str(s) => s
    case Num(n) => IntText(n)
  }

  /** A number's text never holds a '/', so a numeric part is one path segment. */
  lemma NumberTextHasNoSlash(n: int)
    ensures '/' !in ScalarText(Num(n))
  {
  }
}
