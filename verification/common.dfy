/** Vocabulary shared by every part of the storefront model. */
module Common {

  /** A value that may be absent: JavaScript's `undefined`/`null` next to a value. */
  datatype Option<+T> = None | Some(value: T)

  /** Product ids and user ids are opaque strings. */
  type ProductId = string
  type UserId = string

  /** `s.startsWith(prefix)` on JavaScript strings. */
  predicate StartsWith(s: string, prefix: string)
  {
    |prefix| <= |s| && s[..|prefix|] == prefix
  }
}
