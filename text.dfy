/**
 * String helpers standing in for the Python `str` methods the core uses:
 * `strip`, `lower`, `startswith`, `endswith`, `in`, `" ".join` and `str(int)`.
 * `lower` and the whitespace class cover ASCII and the Russian alphabet, which is
 * what the sofa vocabulary and the NER labels are written in.
 */
module Text {
  import opened Wrappers

  predicate IsSpace(c: char) {
    c == ' ' || c == '\t' || c == '\n' || c == '\r' || c == '\U{000B}' || c == '\U{000C}'
  }

  predicate IsDigit(c: char) { '0' <= c <= '9' }

  /** Python `str.isdigit` restricted to ASCII digits: non-empty and all digits. */
  predicate IsDigits(s: string) { |s| > 0 && forall i :: 0 <= i < |s| ==> IsDigit(s[i]) }

  function LowerChar(c: char): (r: char)
    ensures 'A' <= c <= 'Z' ==> r as int == c as int + 32
    ensures !('A' <= c <= 'Z') && !('А' <= c <= 'Я') && c != 'Ё' ==> r == c
  {
    if 'A' <= c <= 'Z' then (c as int + 32) as char
    else if 'А' <= c <= 'Я' then (c as int + 32) as char
    else if c == 'Ё' then 'ё'
    else c
  }

  function Lower(s: string): (r: string)
    ensures |r| == |s|
    ensures forall i :: 0 <= i < |s| ==> r[i] == LowerChar(s[i])
  {
    seq(|s|, i requires 0 <= i < |s| => LowerChar(s[i]))
  }

  function UpperChar(c: char): (r: char)
    ensures 'a' <= c <= 'z' ==> r as int == c as int - 32
    ensures !('a' <= c <= 'z') && !('а' <= c <= 'я') && c != 'ё' ==> r == c
  {
    if 'a' <= c <= 'z' then (c as int - 32) as char
    else if 'а' <= c <= 'я' then (c as int - 32) as char
    else if c == 'ё' then 'Ё'
    else c
  }

  /** Python `str.upper`. */
  function Upper(s: string): (r: string)
    ensures |r| == |s|
  {
    seq(|s|, i requires 0 <= i < |s| => UpperChar(s[i]))
  }

  lemma UpperAt(s: string)
    ensures forall i :: 0 <= i < |s| ==> Upper(s)[i] == UpperChar(s[i])
  {
  }

  /** Text already in upper case is left alone. */
  lemma UpperKeeps(s: string)
    requires forall i :: 0 <= i < |s| ==> UpperChar(s[i]) == s[i]
    ensures Upper(s) == s
  {
    UpperAt(s);
  }

  function TrimLeft(s: string): (r: string)
    ensures |r| <= |s| && r == s[|s| - |r|..]
    ensures r == [] || !IsSpace(r[0])
    ensures forall i :: 0 <= i < |s| - |r| ==> IsSpace(s[i])
  {
    if s != [] && IsSpace(s[0]) then TrimLeft(s[1..]) else s
  }

  function TrimRight(s: string): (r: string)
    ensures |r| <= |s| && r == s[..|r|]
    ensures r == [] || !IsSpace(r[|r| - 1])
    ensures forall i :: |r| <= i < |s| ==> IsSpace(s[i])
  {
    if s != [] && IsSpace(s[|s| - 1]) then TrimRight(s[..|s| - 1]) else s
  }

  /** Python `str.strip()`. */
  function Strip(s: string): (r: string)
    ensures r == [] || (!IsSpace(r[0]) && !IsSpace(r[|r| - 1]))
  {
    TrimRight(TrimLeft(s))
  }

  /** Text that neither starts nor ends with white space is left alone. */
  lemma StripKeeps(s: string)
    requires s != [] && !IsSpace(s[0]) && !IsSpace(s[|s| - 1])
    ensures Strip(s) == s
  {
    assert TrimLeft(s) == s;
    assert TrimRight(s) == s;
  }

  /** `str(value or "").strip().lower()`, the normalisation used by every vocabulary lookup. */
  function Canon(s: string): string { Lower(Strip(s)) }

  predicate IsLowerWord(w: string) {
    |w| > 0 && forall i :: 0 <= i < |w| ==> 'a' <= w[i] <= 'z' || w[i] == '_'
  }

  /** A non-empty word of lower-case letters and underscores is its own canonical form. */
  lemma CanonOfLowerWord(w: string)
    requires IsLowerWord(w)
    ensures Canon(w) == w
  {
    assert TrimLeft(w) == w;
    assert TrimRight(w) == w;
    assert Lower(w) == w;
  }

  predicate StartsWith(s: string, prefix: string) { |prefix| <= |s| && s[..|prefix|] == prefix }

  predicate EndsWith(s: string, suffix: string) { |suffix| <= |s| && s[|s| - |suffix|..] == suffix }

  /** Python `needle in s` for strings. */
  predicate Contains(s: string, needle: string) {
    StartsWith(s, needle) || (s != [] && Contains(s[1..], needle))
  }

  /** `sep.join(parts)`. */
  function Join(parts: seq<string>, sep: string): (r: string)
    ensures parts == [] ==> r == []
    ensures |parts| == 1 ==> r == parts[0]
  {
    if parts == [] then []
    else if |parts| == 1 then parts[0]
    else Join(parts[..|parts| - 1], sep) + sep + parts[|parts| - 1]
  }

  function DigitValue(c: char): nat requires IsDigit(c) { c as int - '0' as int }

  function DigitChar(d: nat): (c: char)
    requires d < 10
    ensures IsDigit(c) && DigitValue(c) == d
  {
    ('0' as int + d) as char
  }

  /** The value of a run of decimal digits, most significant first. */
  function DigitsValue(s: string): nat
    requires forall i :: 0 <= i < |s| ==> IsDigit(s[i])
  {
    if s == [] then 0 else 10 * DigitsValue(s[..|s| - 1]) + DigitValue(s[|s| - 1])
  }

  function Pow10(n: nat): (r: nat)
    ensures r >= 1
  {
    if n == 0 then 1 else 10 * Pow10(n - 1)
  }

  /** Python `str(n)` for a non-negative integer. */
  function NatToString(n: nat): (r: string)
    ensures IsDigits(r)
  {
    if n < 10 then [DigitChar(n)] else NatToString(n / 10) + [DigitChar(n % 10)]
  }

  /** `str(n)` for any integer. */
  function IntToString(n: int): string {
    if n < 0 then "-" + NatToString(-n) else NatToString(n)
  }

  lemma {:induction false} NatToStringValue(n: nat)
    ensures DigitsValue(NatToString(n)) == n
  {
    var s := NatToString(n);
    if n >= 10 {
      NatToStringValue(n / 10);
      assert s[..|s| - 1] == NatToString(n / 10);
    }
  }

  function IndexOfChar(s: string, c: char): (r: Option<nat>)
    ensures r.Some? ==> r.value < |s| && s[r.value] == c && forall j :: 0 <= j < r.value ==> s[j] != c
    ensures r.None? ==> forall j :: 0 <= j < |s| ==> s[j] != c
  {
    if s == [] then None
    else if s[0] == c then Some(0)
    else match IndexOfChar(s[1..], c)
      case None => None
      case Some(k) => Some(k + 1)
  }
}
