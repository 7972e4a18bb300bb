/**
 * C string operations used throughout the control plane.  A C string is
 * modelled by its contents up to (and excluding) the terminating NUL, so a
 * Dafny `string` here never contains '\0'.
 */
module CStrings {

  /** No embedded NUL: the contents of a well-formed C string. */
  predicate IsCString(s: string) {
    forall i :: 0 <= i < |s| ==> s[i] != '\0'
  }

  /**
   * `strncpy(dst, s, size); dst[size - 1] = '\0';` into a buffer of `size`
   * bytes: at most `size - 1` characters of `s` survive.
   */
  function Truncate(s: string, size: nat): (r: string)
    requires size > 0
    ensures |r| == if |s| < size then |s| else size - 1
    ensures r == s[..|r|]
    ensures |s| < size ==> r == s
  {
    if |s| < size then s else s[..size - 1]
  }

  /** The first `n` characters of `s` (all of them when `s` is shorter). */
  function Prefix(s: string, n: nat): string {
    if |s| <= n then s else s[..n]
  }

  /** `strncmp(a, b, n) == 0` for NUL-free strings. */
  predicate StrnEqual(a: string, b: string, n: nat) {
    Prefix(a, n) == Prefix(b, n)
  }

  /** `isalpha` in the C locale. */
  predicate IsAlpha(c: char) {
    ('a' <= c <= 'z') || ('A' <= c <= 'Z')
  }

  /** `isspace` in the C locale. */
  predicate IsSpace(c: char) {
    c == ' ' || ('\t' <= c <= '\r')  // space, \t, \n, \v, \f, \r
  }

  /** The text `"%s/<leaf>"` formats to for `dir`, before any buffer bound applies. */
  function PathJoin(dir: string, leaf: string): (r: string)
    ensures |r| == |dir| + 1 + |leaf|
    ensures r[..|dir|] == dir && r[|dir|] == '/' && r[|dir| + 1..] == leaf
  {
    dir + "/" + leaf
  }
}
