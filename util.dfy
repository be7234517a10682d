/**
 * Small shared vocabulary: an Option type, file contents as bytes, and the
 * string predicates the rest of the model is written in.
 */
module Util {

  datatype Option<T> = None | Some(value: T)

  /** The contents of a file on disk. */
  type Bytes = seq<bv8>

  /** ASCII decimal digit (the model's reading of `\d`). */
  predicate IsDigit(c: char) {
    '0' <= c <= '9'
  }

  /** A character of the class `[a-fA-F0-9]`. */
  predicate IsHexDigit(c: char) {
    IsDigit(c) || 'a' <= c <= 'f' || 'A' <= c <= 'F'
  }

  predicate AllDigits(s: string) {
    forall i :: 0 <= i < |s| ==> IsDigit(s[i])
  }

  /** `p` occurs in `s` starting at index `i`. */
  predicate OccursAt(s: string, i: nat, p: string) {
    i + |p| <= |s| && s[i..i + |p|] == p
  }

  /** Python's `p in s` for strings: `p` is a substring of `s`. */
  predicate Contains(s: string, p: string) {
    exists i: nat :: i <= |s| && OccursAt(s, i, p)
  }

  /** `os.path.join(a, b)` for a relative, non-empty `b`. */
  function Join(a: string, b: string): string {
    a + "/" + b
  }
}
