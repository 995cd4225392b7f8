/** The string operations of the JVM and of the database that the core relies on. */
module Text {
  import opened Wrappers

  /** Character.isWhitespace: the Unicode space, line and paragraph separators other
      than the non-breaking ones, plus the ASCII control separators. */
  predicate IsWhitespace(c: char)
  {
    || c == ' ' || c == '\t' || c == '\n' || c == '\U{000B}' || c == '\U{000C}' || c == '\r'
    || ('\U{001C}' <= c <= '\U{001F}')
    || c == '\U{1680}' || ('\U{2000}' <= c <= '\U{2006}') || ('\U{2008}' <= c <= '\U{200A}')
    || c == '\U{2028}' || c == '\U{2029}' || c == '\U{205F}' || c == '\U{3000}'
  }

  /** String.isBlank: empty, or whitespace only. */
  predicate IsBlank(s: string)
  {
    forall i | 0 <= i < |s| :: IsWhitespace(s[i])
  }

  /** UPPER on one character; only the ASCII letters are mapped. */
  function UpperChar(c: char): char
  {
    if 'a' <= c <= 'z' then (c as int - 32) as char else c
  }

  function Upper(s: string): (r: string)
    ensures |r| == |s|
  {
    seq(|s|, i requires 0 <= i < |s| => UpperChar(s[i]))
  }

  /** `p` occurs in `s` as a contiguous piece (SQL `s LIKE '%' || p || '%'` without wildcards in p). */
  predicate IsSubstring(p: string, s: string)
  {
    exists i | 0 <= i <= |s| - |p| :: OccursAt(p, s, i)
  }

  predicate OccursAt(p: string, s: string, i: nat)
  {
    i + |p| <= |s| && s[i..i + |p|] == p
  }

  /** `UPPER(s) LIKE UPPER('%' || p || '%')` */
  predicate ContainsIgnoreCase(s: string, p: string)
  {
    IsSubstring(Upper(p), Upper(s))
  }

  function DigitChar(d: nat): char
    requires d < 10
  {
    "0123456789"[d]
  }

  function NatToString(n: nat): string
  {
    if n < 10 then [DigitChar(n)] else NatToString(n / 10) + [DigitChar(n % 10)]
  }

  /** The decimal text of a long, as `"%d".formatted(n)` and string concatenation print it. */
  function IntToString(n: int): string
  {
    if n < 0 then "-" + NatToString(-n) else NatToString(n)
  }

  /** A Long that may be null, as string concatenation prints it. */
  function LongToString(n: Option<int>): string
  {
    if n.None? then "null" else IntToString(n.value)
  }
}
