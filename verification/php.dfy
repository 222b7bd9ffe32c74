/**
  The few pieces of PHP and Laravel value semantics the webhook relies on:
  boolean conversion of strings and integers, `empty`, the null-coalescing
  operator `??`, `trim` (as used by Laravel's `required` rule) and `floor`
  of a division by 1000.
 */
module Php {
  import opened Options

  /** PHP's boolean conversion of a string: only "" and "0" are false. */
  predicate Truthy(s: string) {
    s != "" && s != "0"
  }

  /** `$v = $tx[key] ?? null; if (!$v) ...` passes: the key is present, non-null and truthy. */
  predicate PresentAndTruthy(o: Option<string>) {
    o.Some? && Truthy(o.value)
  }

  /** `empty($tx[key])` for an integer field: absent, null or 0. */
  predicate EmptyInt(o: Option<int>) {
    o.None? || o.value == 0
  }

  /** `$o ?? $fallback`: falls back only when the key is absent or null. */
  function Coalesce<T>(o: Option<T>, fallback: T): (r: T)
    ensures o.Some? ==> r == o.value
    ensures o.None? ==> r == fallback
  {
    o.GetOr(fallback)
  }

  /** `floor($ms / 1000)`: Dafny's division by a positive constant already rounds toward minus infinity. */
  function FloorSeconds(ms: int): (r: int)
    ensures r * 1000 <= ms < r * 1000 + 1000
  {
    ms / 1000
  }

  /** The characters PHP's `trim` removes by default: space, tab, newline, return, NUL, vertical tab. */
  predicate Blank(c: char) {
    c == ' ' || c == '\t' || c == '\n' || c == '\r' || c == '\0' || c == '\U{0B}'
  }

  predicate AllBlank(s: string) {
    forall i | 0 <= i < |s| :: Blank(s[i])
  }

  /** `ltrim`: drops the leading blank characters. */
  function TrimLeft(s: string): (r: string)
    ensures |r| <= |s| && r == s[|s| - |r|..]
    ensures AllBlank(s[..|s| - |r|])
    ensures |r| > 0 ==> !Blank(r[0])
  {
    if |s| > 0 && Blank(s[0]) then TrimLeft(s[1..]) else s
  }

  /** `rtrim`: drops the trailing blank characters. */
  function TrimRight(s: string): (r: string)
    ensures |r| <= |s| && r == s[..|r|]
    ensures AllBlank(s[|r|..])
    ensures |r| > 0 ==> !Blank(r[|r| - 1])
  {
    if |s| > 0 && Blank(s[|s| - 1]) then TrimRight(s[..|s| - 1]) else s
  }

  function Trim(s: string): string {
    TrimRight(TrimLeft(s))
  }

  /** `trim($s) === ''` holds exactly for the strings made only of blank characters. */
  lemma TrimEmptyIffAllBlank(s: string)
    ensures Trim(s) == "" <==> AllBlank(s)
  {
  }

  /**
    Laravel's `required` rule on a string value: present, non-null, and
    `trim($value) !== ''` -- by TrimEmptyIffAllBlank, not made only of blanks.
   */
  predicate RequiredString(o: Option<string>) {
    o.Some? && !AllBlank(o.value)
  }

  lemma RequiredStringIsTrimCheck(o: Option<string>)
    ensures RequiredString(o) <==> o.Some? && Trim(o.value) != ""
  {
  }
}
