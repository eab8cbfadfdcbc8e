/**
 * The demo's bridge from NER entities to a sofa request: lengths written with a unit
 * ("44 см", "1,2 м", "600") become whole millimetres, counts become the first run of digits,
 * and `normalize_entities` turns the grouped entity texts into the request's fields.
 */
module NerToSchema {
  import opened Wrappers
  import opened Text
  import opened Numeric

  // ---------------------------------------------------------------------------------------------
  // Digit runs and the `\d+` / `\d+(?:\.\d+)?` searches
  // ---------------------------------------------------------------------------------------------

  predicate NoDigit(s: string) {
    forall j :: 0 <= j < |s| ==> !IsDigit(s[j])
  }

  /** The first position holding a decimal digit (where a search for `\d` starts its match). */
  function FirstDigit(s: string): (r: Option<nat>)
    ensures r.Some? ==> r.value < |s| && IsDigit(s[r.value]) && NoDigit(s[..r.value])
    ensures r.None? <==> NoDigit(s)
  {
    if s == [] then None
    else if IsDigit(s[0]) then Some(0)
    else match FirstDigit(s[1..])
      case None => None
      case Some(k) =>
        assert s[..k + 1] == [s[0]] + s[1..][..k];
        Some(k + 1)
  }

  /** The end of the run of digits starting at `i`: `\d+` is greedy. */
  function RunEnd(s: string, i: nat): (j: nat)
    requires i <= |s|
    ensures i <= j <= |s|
    ensures forall k :: i <= k < j ==> IsDigit(s[k])
    ensures j == |s| || !IsDigit(s[j])
    ensures i < |s| && IsDigit(s[i]) ==> i < j
    decreases |s| - i
  {
    if i < |s| && IsDigit(s[i]) then RunEnd(s, i + 1) else i
  }

  /**
   * A match of `\d+(?:\.\d+)?`: the whole part is `t[start..dot]`; the fraction, when there is
   * one, is `t[dot + 1..end]`, and `end == dot` when there is none.
   */
  datatype Match = Match(start: nat, dot: nat, end: nat)

  predicate WellFormed(t: string, m: Match) {
    && m.start < m.dot <= m.end <= |t|
    && (forall k :: m.start <= k < m.dot ==> IsDigit(t[k]))
    && (m.start == 0 || !IsDigit(t[m.start - 1]))
    && (m.end == m.dot || (t[m.dot] == '.' && m.dot + 1 < m.end && forall k :: m.dot < k < m.end ==> IsDigit(t[k])))
  }

  /** `re.search(r"(\d+(?:\.\d+)?)", t)`: the leftmost match, each part as long as it can be. */
  function SearchNumber(t: string): (r: Option<Match>)
    ensures r.None? <==> NoDigit(t)
    ensures r.Some? ==> WellFormed(t, r.value) && NoDigit(t[..r.value.start])
    ensures r.Some? ==> r.value.dot == |t| || !IsDigit(t[r.value.dot])
  {
    match FirstDigit(t)
    case None => None
    case Some(i) =>
      var j := RunEnd(t, i);
      if j + 1 < |t| && t[j] == '.' && IsDigit(t[j + 1]) then
        assert !IsDigit(t[j]);
        Some(Match(i, j, RunEnd(t, j + 1)))
      else Some(Match(i, j, j))
  }

  /** `float(m.group(1))`, on exact reals. */
  function MatchValue(t: string, m: Match): (v: real)
    requires WellFormed(t, m)
    ensures v >= DigitsValue(t[m.start..m.dot]) as real
    ensures m.end == m.dot ==> v == DigitsValue(t[m.start..m.dot]) as real
  {
    var whole := DigitsValue(t[m.start..m.dot]) as real;
    if m.end == m.dot then whole
    else whole + DigitsValue(t[m.dot + 1..m.end]) as real / Pow10(m.end - m.dot - 1) as real
  }

  // ---------------------------------------------------------------------------------------------
  // parse_length_to_mm and parse_int
  // ---------------------------------------------------------------------------------------------

  /** `s.replace(a, b)` for single characters. */
  function ReplaceChar(s: string, a: char, b: char): (r: string)
    ensures |r| == |s|
    ensures forall i :: 0 <= i < |s| ==> r[i] == (if s[i] == a then b else s[i])
  {
    seq(|s|, i requires 0 <= i < |s| => if s[i] == a then b else s[i])
  }

  /** `s.lower().replace(",", ".")`: a decimal comma becomes a decimal point. */
  function LengthText(s: string): (t: string)
    ensures |t| == |s|
  {
    ReplaceChar(Lower(s), ',', '.')
  }

  /** Lower-casing and the comma replacement neither add nor remove a digit. */
  lemma LengthTextDigits(s: string)
    ensures NoDigit(LengthText(s)) <==> NoDigit(s)
  {
    assert forall i :: 0 <= i < |s| ==> (IsDigit(LengthText(s)[i]) <==> IsDigit(s[i]));
  }

  /** The text has a number after the replacements exactly when it has a digit before them. */
  lemma LengthHasNumber(s: string)
    ensures NumberIn(LengthText(s)).None? <==> NoDigit(s)
  {
    LengthTextDigits(s);
  }

  /** The millimetres in one unit: "мм" is looked for first, then "см", then "м", anywhere in the text. */
  function UnitScale(t: string): (k: real)
    ensures k >= 1.0
  {
    if Contains(t, "мм") then 1.0
    else if Contains(t, "см") then 10.0
    else if Contains(t, "м") then 1000.0
    else 1.0
  }

  /** The first number of a text, `float(m.group(1))`; None when the text has no digit. */
  function NumberIn(t: string): (r: Option<real>)
    ensures r.None? <==> NoDigit(t)
    ensures r.Some? ==> r.value >= 0.0
  {
    match SearchNumber(t)
    case None => None
    case Some(m) => Some(MatchValue(t, m))
  }

  /**
   * `parse_length_to_mm`: the first number of the text times its unit, rounded half to even;
   * a text without a digit is an error.
   */
  function ParseLengthToMm(s: string): (r: Result<int>)
    ensures r.Err? <==> NoDigit(s)
    ensures r.Ok? ==> r.value >= 0
  {
    var t := LengthText(s);
    LengthHasNumber(s);
    match NumberIn(t)
    case None => Err("Cannot parse length: " + s)
    case Some(v) => Ok(Scaled(v, UnitScale(t)))
  }

  /** A length times its unit, rounded half to even. */
  function Scaled(v: real, k: real): (r: int)
    requires v >= 0.0 && k >= 1.0
    ensures r >= 0
  {
    MulNonNegative(v, k);
    RoundHalfEven(v * k)
  }

  /** `parse_int`: the first run of digits; a text without a digit is an error. */
  function ParseInt(s: string): (r: Result<nat>)
    ensures r.Err? <==> NoDigit(s)
  {
    match FirstDigit(s)
    case None => Err("Cannot parse int: " + s)
    case Some(i) => Ok(DigitsValue(s[i..RunEnd(s, i)]))
  }

  /** `[int(x) for x in re.findall(r"\d+", s)]`: every maximal run of digits, left to right. */
  function Numbers(s: string): seq<nat>
    decreases |s|
  {
    match FirstDigit(s)
    case None => []
    case Some(i) =>
      var j := RunEnd(s, i);
      [DigitsValue(s[i..j])] + Numbers(s[j..])
  }

  /** `parse_int` reads exactly the first number `findall` reports. */
  lemma ParseIntIsFirstNumber(s: string)
    ensures ParseInt(s).Ok? <==> Numbers(s) != []
    ensures ParseInt(s).Ok? ==> ParseInt(s).value == Numbers(s)[0]
  {
  }

  lemma {:induction false} NoDigitNumbers(s: string)
    requires NoDigit(s)
    ensures Numbers(s) == []
  {
  }

  /** Text before the number holds no digit and text after it does not start with one. */
  predicate Framed(p: string, q: string) {
    NoDigit(p) && (q == [] || !IsDigit(q[0]))
  }

  lemma SearchFramed(p: string, d: string, q: string)
    requires Framed(p, q) && IsDigits(d)
    ensures FirstDigit(p + d + q) == Some(|p|)
    ensures RunEnd(p + d + q, |p|) == |p| + |d|
    ensures (p + d + q)[|p|..|p| + |d|] == d
    ensures (p + d + q)[|p| + |d|..] == q
  {
    var s := p + d + q;
    FirstDigitFramed(p, s);
    RunEndFramed(s, |p|, |p| + |d|);
  }

  lemma {:induction false} FirstDigitFramed(p: string, s: string)
    requires NoDigit(p) && |p| < |s| && s[..|p|] == p && IsDigit(s[|p|])
    ensures FirstDigit(s) == Some(|p|)
  {
    if p != [] {
      assert !IsDigit(s[0]) by { assert s[0] == p[0]; }
      assert s[1..][..|p| - 1] == p[1..];
      FirstDigitFramed(p[1..], s[1..]);
    }
  }

  lemma {:induction false} RunEndFramed(s: string, i: nat, j: nat)
    requires i <= j <= |s|
    requires forall k :: i <= k < j ==> IsDigit(s[k])
    requires j == |s| || !IsDigit(s[j])
    ensures RunEnd(s, i) == j
    decreases j - i
  {
    if i < j {
      RunEndFramed(s, i + 1, j);
    }
  }

  /** `findall` on a run of digits between digit-free text and text not starting with a digit. */
  lemma NumbersFramed(p: string, d: string, q: string)
    requires Framed(p, q) && IsDigits(d)
    ensures Numbers(p + d + q) == [DigitsValue(d)] + Numbers(q)
  {
    SearchFramed(p, d, q);
  }

  /** `parse_int` reads back a number written between text with no digits and a non-digit. */
  lemma ParseIntRoundTrip(p: string, n: nat, q: string)
    requires Framed(p, q)
    ensures ParseInt(p + NatToString(n) + q) == Ok(n)
  {
    SearchFramed(p, NatToString(n), q);
    NatToStringValue(n);
  }

  lemma DigitsRange(da: string, sep: string, db: string)
    requires IsDigits(da) && IsDigits(db) && sep != [] && NoDigit(sep)
    ensures Numbers(da + sep + db) == [DigitsValue(da), DigitsValue(db)]
  {
    var q := sep + db;
    assert da + sep + db == da + q;
    assert !IsDigit(q[0]);
    NumbersAfterFirst(da, q);
    NumbersOfLast(sep, db);
    assert [DigitsValue(da)] + [DigitsValue(db)] == [DigitsValue(da), DigitsValue(db)];
  }

  lemma NumbersAfterFirst(d: string, q: string)
    requires IsDigits(d) && q != [] && !IsDigit(q[0])
    ensures Numbers(d + q) == [DigitsValue(d)] + Numbers(q)
  {
    var s := d + q;
    assert s[..0] == [] && s[0] == d[0];
    FirstDigitFramed([], s);
    assert s[|d|] == q[0];
    RunEndFramed(s, 0, |d|);
    assert s[0..|d|] == d && s[|d|..] == q;
    NumbersAt(s, 0, |d|);
  }

  lemma NumbersOfLast(p: string, d: string)
    requires NoDigit(p) && IsDigits(d)
    ensures Numbers(p + d) == [DigitsValue(d)]
  {
    var s := p + d;
    assert s[..|p|] == p && s[|p|] == d[0];
    FirstDigitFramed(p, s);
    RunEndFramed(s, |p|, |s|);
    assert s[|p|..|s|] == d && s[|s|..] == [];
    NumbersAt(s, |p|, |s|);
    NoDigitNumbers([]);
  }

  /** `findall` once the first digit and the end of its run are known. */
  lemma NumbersAt(s: string, i: nat, j: nat)
    requires i < j <= |s| && FirstDigit(s) == Some(i) && RunEnd(s, i) == j
    ensures Numbers(s) == [DigitsValue(s[i..j])] + Numbers(s[j..])
  {
  }

  /** A range written "A-B" (or with any digit-free separator) yields exactly the numbers A and B. */
  lemma NumbersOfRange(a: nat, sep: string, b: nat)
    requires sep != [] && NoDigit(sep)
    ensures Numbers(NatToString(a) + sep + NatToString(b)) == [a, b]
  {
    DigitsRange(NatToString(a), sep, NatToString(b));
    NatToStringValue(a);
    NatToStringValue(b);
  }

  // ---------------------------------------------------------------------------------------------
  // Lengths written as a number and a unit
  // ---------------------------------------------------------------------------------------------

  /** Lower-casing and the comma replacement work character by character. */
  lemma LengthTextConcat(x: string, y: string)
    ensures LengthText(x + y) == LengthText(x) + LengthText(y)
  {
    var a, b := LengthText(x + y), LengthText(x) + LengthText(y);
    forall i | 0 <= i < |a|
      ensures a[i] == b[i]
    {
      if i < |x| {
        assert (x + y)[i] == x[i];
      } else {
        assert (x + y)[i] == y[i - |x|];
      }
    }
  }

  /** Digits and the decimal point are left alone. */
  lemma LengthTextOfNumber(d: string)
    requires forall i :: 0 <= i < |d| ==> IsDigit(d[i]) || d[i] == '.'
    ensures LengthText(d) == d
  {
  }

  lemma LengthTextOfMillimetres()
    ensures LengthText(" мм") == " мм"
  {
    assert LengthText(" мм")[1] == 'м';
  }

  lemma LengthTextOfCentimetres()
    ensures LengthText(" см") == " см"
  {
    assert LengthText(" см")[1] == 'с';
  }

  /** A character neither unit name starts with. */
  predicate NotUnitStart(c: char) { c != 'м' && c != 'с' }

  lemma {:induction false} ContainsPastPrefix(p: string, w: string, needle: string)
    requires needle != [] && forall i :: 0 <= i < |p| ==> p[i] != needle[0]
    ensures Contains(p + w, needle) == Contains(w, needle)
  {
    if p != [] {
      assert (p + w)[1..] == p[1..] + w;
      ContainsPastPrefix(p[1..], w, needle);
      assert (p + w)[0] == p[0];
    } else {
      assert p + w == w;
    }
  }

  /** Text in front of the unit that holds no "м" or "с" does not change the unit. */
  lemma UnitScalePastPrefix(p: string, w: string)
    requires forall i :: 0 <= i < |p| ==> NotUnitStart(p[i])
    ensures UnitScale(p + w) == UnitScale(w)
  {
    ContainsPastPrefix(p, w, "мм");
    ContainsPastPrefix(p, w, "см");
    ContainsPastPrefix(p, w, "м");
  }

  lemma UnitOfMillimetres()
    ensures UnitScale(" мм") == 1.0
  {
    assert Contains(" мм"[1..], "мм");
  }

  lemma UnitOfCentimetres()
    ensures UnitScale(" см") == 10.0
  {
    assert " см"[1..] == "см";
    assert StartsWith("см", "см");
    assert !StartsWith(" см", "мм") && !StartsWith("см", "мм") && !StartsWith("м", "мм");
    assert "см"[1..] == "м" && "м"[1..] == [];
    assert !Contains("м", "мм");
  }

  lemma UnitOfNothing()
    ensures UnitScale("") == 1.0
  {
  }

  /** A run of digits followed by text that continues with neither a digit nor a point reads as that run. */
  lemma NumberInWhole(d: string, u: string)
    requires IsDigits(d) && (u == [] || (!IsDigit(u[0]) && u[0] != '.'))
    ensures NumberIn(d + u) == Some(DigitsValue(d) as real)
  {
    SearchFramed([], d, u);
    assert [] + d + u == d + u;
    assert SearchNumber(d + u) == Some(Match(0, |d|, |d|));
  }

  /** "D.C" followed by text not starting with a digit reads as D + C/10. */
  lemma NumberInDecimal(d: string, c: char, u: string)
    requires IsDigits(d) && IsDigit(c) && (u == [] || !IsDigit(u[0]))
    ensures NumberIn(d + "." + [c] + u) == Some(DigitsValue(d) as real + DigitValue(c) as real / 10.0)
  {
    var t := d + "." + [c] + u;
    var m := SearchDecimal(d, c, u);
    DecimalValue(t, m, d, c);
  }

  /** The match found in "D.C" followed by text not starting with a digit. */
  lemma SearchDecimal(d: string, c: char, u: string) returns (m: Match)
    requires IsDigits(d) && IsDigit(c) && (u == [] || !IsDigit(u[0]))
    ensures var t := d + "." + [c] + u;
      m == Match(0, |d|, |d| + 2) && |d| + 2 <= |t| && SearchNumber(t) == Some(m)
      && t[0..|d|] == d && t[|d| + 1..|d| + 2] == [c]
  {
    var t := d + "." + [c] + u;
    assert t[..|d|] == d && t[|d|] == '.' && t[|d| + 1] == c;
    FirstDigitFramed([], t);
    RunEndFramed(t, 0, |d|);
    RunEndFramed(t, |d| + 1, |d| + 2);
    m := Match(0, |d|, |d| + 2);
    assert t[0..|d|] == d;
    assert t[|d| + 1..|d| + 2] == [c];
  }

  lemma DecimalValue(t: string, m: Match, d: string, c: char)
    requires WellFormed(t, m) && m == Match(0, |d|, |d| + 2)
    requires IsDigits(d) && IsDigit(c) && t[0..|d|] == d && t[|d| + 1..|d| + 2] == [c]
    ensures MatchValue(t, m) == DigitsValue(d) as real + DigitValue(c) as real / 10.0
  {
    assert DigitsValue([c]) == DigitValue(c) by {
      assert [c][..0] == [];
    }
    assert Pow10(1) == 10;
  }

  lemma RoundWhole(k: int)
    ensures RoundHalfEven(k as real) == k
  {
  }

  /** `parse_length_to_mm` once the number and the unit of the text are known. */
  lemma ParseLengthVia(s: string, v: real, k: real)
    requires NumberIn(LengthText(s)) == Some(v) && UnitScale(LengthText(s)) == k
    ensures ParseLengthToMm(s) == Ok(RoundHalfEven(v * k))
  {
  }

  lemma MillimetresText(d: string)
    requires IsDigits(d)
    ensures LengthText(d + " мм") == d + " мм"
    ensures UnitScale(d + " мм") == 1.0
  {
    LengthTextConcat(d, " мм");
    LengthTextOfNumber(d);
    LengthTextOfMillimetres();
    UnitScalePastPrefix(d, " мм");
    UnitOfMillimetres();
  }

  lemma CentimetresText(d: string)
    requires IsDigits(d)
    ensures LengthText(d + " см") == d + " см"
    ensures UnitScale(d + " см") == 10.0
  {
    LengthTextConcat(d, " см");
    LengthTextOfNumber(d);
    LengthTextOfCentimetres();
    UnitScalePastPrefix(d, " см");
    UnitOfCentimetres();
  }

  lemma DigitsMillimetres(d: string)
    requires IsDigits(d)
    ensures ParseLengthToMm(d + " мм") == Ok(DigitsValue(d))
  {
    MillimetresText(d);
    NumberInWhole(d, " мм");
    ParseLengthVia(d + " мм", DigitsValue(d) as real, 1.0);
    RoundWhole(DigitsValue(d));
  }

  /** A whole number of millimetres reads back unchanged. */
  lemma WholeMillimetres(n: nat)
    ensures ParseLengthToMm(NatToString(n) + " мм") == Ok(n)
  {
    DigitsMillimetres(NatToString(n));
    NatToStringValue(n);
  }

  lemma DigitsCentimetres(d: string)
    requires IsDigits(d)
    ensures ParseLengthToMm(d + " см") == Ok(10 * DigitsValue(d))
  {
    CentimetresText(d);
    NumberInWhole(d, " см");
    ParseLengthVia(d + " см", DigitsValue(d) as real, 10.0);
    RoundWhole(10 * DigitsValue(d));
  }

  /** A whole number of centimetres is ten times as many millimetres. */
  lemma WholeCentimetres(n: nat)
    ensures ParseLengthToMm(NatToString(n) + " см") == Ok(10 * n)
  {
    DigitsCentimetres(NatToString(n));
    NatToStringValue(n);
  }

  lemma BareText(d: string)
    requires IsDigits(d)
    ensures LengthText(d) == d
    ensures UnitScale(d) == 1.0
  {
    LengthTextOfNumber(d);
    UnitScalePastPrefix(d, "");
    assert d + "" == d;
    UnitOfNothing();
  }

  lemma DigitsBare(d: string)
    requires IsDigits(d)
    ensures ParseLengthToMm(d) == Ok(DigitsValue(d))
  {
    BareText(d);
    NumberInWhole(d, "");
    assert d + "" == d;
    ParseLengthVia(d, DigitsValue(d) as real, 1.0);
    RoundWhole(DigitsValue(d));
  }

  /** A number with no unit is read as millimetres. */
  lemma BareNumber(n: nat)
    ensures ParseLengthToMm(NatToString(n)) == Ok(n)
  {
    DigitsBare(NatToString(n));
    NatToStringValue(n);
  }

  lemma DecimalCommaText(d: string, c: char)
    requires IsDigits(d) && IsDigit(c)
    ensures LengthText(d + "," + [c] + " см") == d + "." + [c] + " см"
    ensures UnitScale(d + "." + [c] + " см") == 10.0
  {
    LengthTextConcat(d + "," + [c], " см");
    LengthTextConcat(d + ",", [c]);
    LengthTextConcat(d, ",");
    LengthTextOfNumber(d);
    LengthTextOfNumber([c]);
    assert LengthText(",") == ".";
    LengthTextOfCentimetres();
    UnitScalePastPrefix(d + "." + [c], " см");
    UnitOfCentimetres();
  }

  /** A decimal comma is a decimal point: "A,D см" is 10·A + D millimetres. */
  lemma DecimalCommaCentimetres(d: string, c: char)
    requires IsDigits(d) && IsDigit(c)
    ensures ParseLengthToMm(d + "," + [c] + " см") == Ok(10 * DigitsValue(d) + DigitValue(c))
  {
    DecimalCommaRounded(d, c);
    TenthsRound(DigitsValue(d), DigitValue(c));
  }

  /** "A,D см" reads as A + D/10 in centimetres, before rounding. */
  lemma DecimalCommaRounded(d: string, c: char)
    requires IsDigits(d) && IsDigit(c)
    ensures ParseLengthToMm(d + "," + [c] + " см")
      == Ok(RoundHalfEven((DigitsValue(d) as real + DigitValue(c) as real / 10.0) * 10.0))
  {
    DecimalCommaText(d, c);
    NumberInDecimal(d, c, " см");
    ParseViaText(d + "," + [c] + " см", d + "." + [c] + " см", DigitsValue(d) as real + DigitValue(c) as real / 10.0, 10.0);
  }

  /** `parse_length_to_mm` once the normalised text, its number and its unit are known. */
  lemma ParseViaText(s: string, t: string, v: real, k: real)
    requires LengthText(s) == t && NumberIn(t) == Some(v) && UnitScale(t) == k
    ensures ParseLengthToMm(s) == Ok(RoundHalfEven(v * k))
  {
    ParseLengthVia(s, v, k);
  }

  lemma TenthsRound(a: nat, dd: nat)
    ensures RoundHalfEven((a as real + dd as real / 10.0) * 10.0) == 10 * a + dd
  {
    TenthsScale(a, dd);
    RoundWhole(10 * a + dd);
  }

  lemma TenthsScale(a: nat, dd: nat)
    ensures (a as real + dd as real / 10.0) * 10.0 == (10 * a + dd) as real
  {
  }

  // ---------------------------------------------------------------------------------------------
  // normalize_entities
  // ---------------------------------------------------------------------------------------------

  /** A field of the request dict `normalize_entities` builds. */
  datatype Field = TextField(s: string) | IntField(n: int) | RangeField(lo: nat, hi: nat) | BoolField(b: bool)

  const StringKeys: seq<string> := ["type", "style", "layout", "orientation", "leg_family", "armrests"]

  /** `entities[K][0]` when the entities have a non-empty list under `K`. */
  function FirstEntity(entities: map<string, seq<string>>, k: string): (r: Option<string>)
    ensures r.Some? <==> k in entities && entities[k] != []
    ensures r.Some? ==> r.value == entities[k][0]
  {
    if k in entities && entities[k] != [] then Some(entities[k][0]) else None
  }

  /** The plain string fields among `keys`: each takes its upper-cased entity's first text, stripped. */
  function StringFields(entities: map<string, seq<string>>, keys: seq<string>): map<string, Field> {
    map k | k in keys && FirstEntity(entities, Upper(k)).Some? :: TextField(Strip(FirstEntity(entities, Upper(k)).value))
  }

  /** The text a list of entities joins into, `" ".join(entities[K])`. */
  function Joined(entities: map<string, seq<string>>, k: string): string
    requires k in entities
  {
    Join(entities[k], " ")
  }

  /** `not ("без" in t or "нет" in t)` on the lower-cased joined text: "without" or "no" negates. */
  function Transformable(text: string): bool {
    var t := Lower(text);
    !(Contains(t, "без") || Contains(t, "нет"))
  }

  /** The error a length entity raises: its first text holds no digit. */
  function LengthError(entities: map<string, seq<string>>, k: string): (r: Option<string>)
    ensures r.Some? <==> FirstEntity(entities, k).Some? && NoDigit(FirstEntity(entities, k).value)
  {
    match FirstEntity(entities, k)
    case None => None
    case Some(x) => if ParseLengthToMm(x).Err? then Some(ParseLengthToMm(x).error) else None
  }

  /** The error the seat count raises: its first text holds no digit. */
  function CountError(entities: map<string, seq<string>>): (r: Option<string>)
    ensures r.Some? <==> FirstEntity(entities, "SEAT_COUNT").Some? && NoDigit(FirstEntity(entities, "SEAT_COUNT").value)
  {
    match FirstEntity(entities, "SEAT_COUNT")
    case None => None
    case Some(x) => if ParseInt(x).Err? then Some(ParseInt(x).error) else None
  }

  /** The error of the first length or count that holds no digit, in the order they are read. */
  function NormalizeError(entities: map<string, seq<string>>): Option<string> {
    if LengthError(entities, "SEAT_HEIGHT_MM").Some? then LengthError(entities, "SEAT_HEIGHT_MM")
    else if LengthError(entities, "SEAT_DEPTH_MM").Some? then LengthError(entities, "SEAT_DEPTH_MM")
    else CountError(entities)
  }

  const NumericKeys: set<string> := {"seat_height_mm", "seat_depth_mm", "seat_count", "seat_width_range_mm", "transformable"}

  /** `data[key] = value` when there is a value. */
  function Put(d: map<string, Field>, key: string, f: Option<Field>): map<string, Field> {
    if f.Some? then d[key := f.value] else d
  }

  /** A length entity's field: its first text in millimetres (None when absent or unreadable). */
  function LengthField(entities: map<string, seq<string>>, k: string): Option<Field> {
    match FirstEntity(entities, k)
    case None => None
    case Some(x) => if ParseLengthToMm(x).Ok? then Some(IntField(ParseLengthToMm(x).value)) else None
  }

  /** The seat count's field: the first number of its first text. */
  function CountField(entities: map<string, seq<string>>): Option<Field> {
    match FirstEntity(entities, "SEAT_COUNT")
    case None => None
    case Some(x) => if ParseInt(x).Ok? then Some(IntField(ParseInt(x).value)) else None
  }

  /** The width range's field: the first two numbers of all its texts joined, when there are two. */
  function WidthRangeField(entities: map<string, seq<string>>): Option<Field> {
    if FirstEntity(entities, "SEAT_WIDTH_RANGE_MM").None? then None
    else
      var nums := Numbers(Joined(entities, "SEAT_WIDTH_RANGE_MM"));
      if |nums| >= 2 then Some(RangeField(nums[0], nums[1])) else None
  }

  function TransformableField(entities: map<string, seq<string>>): Option<Field> {
    if FirstEntity(entities, "TRANSFORMABLE").None? then None
    else Some(BoolField(Transformable(Joined(entities, "TRANSFORMABLE"))))
  }

  /** The numeric keys written after the string fields `d`, in the order they are written. */
  function Fill(d: map<string, Field>, height: Option<Field>, depth: Option<Field>, count: Option<Field>,
                range: Option<Field>, flag: Option<Field>): map<string, Field>
  {
    var d := Put(d, "seat_height_mm", height);
    var d := Put(d, "seat_depth_mm", depth);
    var d := Put(d, "seat_count", count);
    var d := Put(d, "seat_width_range_mm", range);
    Put(d, "transformable", flag)
  }

  /** Each numeric key holds its own value when it has one; every other key is left as it was. */
  lemma FillAt(d: map<string, Field>, height: Option<Field>, depth: Option<Field>, count: Option<Field>,
               range: Option<Field>, flag: Option<Field>)
    requires forall k :: k in d ==> k !in NumericKeys
    ensures var r := Fill(d, height, depth, count, range, flag);
      && ("seat_height_mm" in r <==> height.Some?) && (height.Some? ==> r["seat_height_mm"] == height.value)
      && ("seat_depth_mm" in r <==> depth.Some?) && (depth.Some? ==> r["seat_depth_mm"] == depth.value)
      && ("seat_count" in r <==> count.Some?) && (count.Some? ==> r["seat_count"] == count.value)
      && ("seat_width_range_mm" in r <==> range.Some?) && (range.Some? ==> r["seat_width_range_mm"] == range.value)
      && ("transformable" in r <==> flag.Some?) && (flag.Some? ==> r["transformable"] == flag.value)
      && (forall k :: k !in NumericKeys ==> (k in r <==> k in d) && (k in d ==> r[k] == d[k]))
  {
  }

  /** The dict `normalize_entities` fills, in the order it fills it. */
  function NormalizedFields(entities: map<string, seq<string>>): map<string, Field> {
    Fill(StringFields(entities, StringKeys), LengthField(entities, "SEAT_HEIGHT_MM"), LengthField(entities, "SEAT_DEPTH_MM"),
         CountField(entities), WidthRangeField(entities), TransformableField(entities))
  }

  /** No string key is a numeric key. */
  lemma StringFieldsApart(entities: map<string, seq<string>>)
    ensures forall k :: k in StringFields(entities, StringKeys) ==> k !in NumericKeys
  {
    assert forall k :: k in StringKeys ==> k !in NumericKeys;
  }

  /** What `normalize_entities` writes under each key. */
  lemma NormalizedAt(entities: map<string, seq<string>>)
    ensures var r := NormalizedFields(entities);
      var h, p, c := LengthField(entities, "SEAT_HEIGHT_MM"), LengthField(entities, "SEAT_DEPTH_MM"), CountField(entities);
      var w, t := WidthRangeField(entities), TransformableField(entities);
      && ("seat_height_mm" in r <==> h.Some?) && (h.Some? ==> r["seat_height_mm"] == h.value)
      && ("seat_depth_mm" in r <==> p.Some?) && (p.Some? ==> r["seat_depth_mm"] == p.value)
      && ("seat_count" in r <==> c.Some?) && (c.Some? ==> r["seat_count"] == c.value)
      && ("seat_width_range_mm" in r <==> w.Some?) && (w.Some? ==> r["seat_width_range_mm"] == w.value)
      && ("transformable" in r <==> t.Some?) && (t.Some? ==> r["transformable"] == t.value)
      && (forall k :: k !in NumericKeys ==> (k in r <==> k in StringFields(entities, StringKeys)))
      && (forall k :: k !in NumericKeys && k in r ==> r[k] == StringFields(entities, StringKeys)[k])
  {
    var d := StringFields(entities, StringKeys);
    StringFieldsApart(entities);
    FillAt(d, LengthField(entities, "SEAT_HEIGHT_MM"), LengthField(entities, "SEAT_DEPTH_MM"),
           CountField(entities), WidthRangeField(entities), TransformableField(entities));
  }

  /** `normalize_entities`: the first unreadable length or count raises; otherwise the filled dict. */
  function Normalize(entities: map<string, seq<string>>): Result<map<string, Field>> {
    match NormalizeError(entities)
    case Some(e) => Err(e)
    case None => Ok(NormalizedFields(entities))
  }

  /** `normalize_entities` fails exactly when a height, depth or count it reads holds no digit. */
  lemma NormalizeFailsIff(entities: map<string, seq<string>>)
    ensures Normalize(entities).Err? <==>
      || (FirstEntity(entities, "SEAT_HEIGHT_MM").Some? && NoDigit(FirstEntity(entities, "SEAT_HEIGHT_MM").value))
      || (FirstEntity(entities, "SEAT_DEPTH_MM").Some? && NoDigit(FirstEntity(entities, "SEAT_DEPTH_MM").value))
      || (FirstEntity(entities, "SEAT_COUNT").Some? && NoDigit(FirstEntity(entities, "SEAT_COUNT").value))
  {
  }

  /**
   * Each plain string field is present exactly when its upper-cased entity has a text, and holds
   * that entity's first text, stripped.
   */
  lemma NormalizeStringFields(entities: map<string, seq<string>>)
    requires NormalizeError(entities).None?
    ensures var d := NormalizedFields(entities);
      forall k :: k in StringKeys ==>
        && (k in d <==> FirstEntity(entities, Upper(k)).Some?)
        && (k in d ==> d[k] == TextField(Strip(FirstEntity(entities, Upper(k)).value)))
  {
    NormalizedAt(entities);
    assert forall k :: k in StringKeys ==> k !in NumericKeys;
  }

  /** The seat height is present exactly when its entity is, and holds its first text in millimetres. */
  lemma NormalizeHeight(entities: map<string, seq<string>>)
    requires NormalizeError(entities).None?
    ensures var d := NormalizedFields(entities); var h := FirstEntity(entities, "SEAT_HEIGHT_MM");
      && ("seat_height_mm" in d <==> h.Some?)
      && (h.Some? ==> d["seat_height_mm"] == IntField(ParseLengthToMm(h.value).value))
  {
    NormalizedAt(entities);
  }

  /** The seat depth is present exactly when its entity is, and holds its first text in millimetres. */
  lemma NormalizeDepth(entities: map<string, seq<string>>)
    requires NormalizeError(entities).None?
    ensures var d := NormalizedFields(entities); var p := FirstEntity(entities, "SEAT_DEPTH_MM");
      && ("seat_depth_mm" in d <==> p.Some?)
      && (p.Some? ==> d["seat_depth_mm"] == IntField(ParseLengthToMm(p.value).value))
  {
    NormalizedAt(entities);
  }

  /** The seat count is present exactly when its entity is, and holds its first number. */
  lemma NormalizeCount(entities: map<string, seq<string>>)
    requires NormalizeError(entities).None?
    ensures var d := NormalizedFields(entities); var c := FirstEntity(entities, "SEAT_COUNT");
      && ("seat_count" in d <==> c.Some?)
      && (c.Some? ==> d["seat_count"] == IntField(ParseInt(c.value).value))
  {
    NormalizedAt(entities);
  }

  /** The width range is set only when the joined texts hold at least two numbers, and then to the first two. */
  lemma NormalizeWidthRange(entities: map<string, seq<string>>)
    ensures var d := NormalizedFields(entities);
      && ("seat_width_range_mm" in d <==>
            FirstEntity(entities, "SEAT_WIDTH_RANGE_MM").Some? && |Numbers(Joined(entities, "SEAT_WIDTH_RANGE_MM"))| >= 2)
      && ("seat_width_range_mm" in d ==>
            var nums := Numbers(Joined(entities, "SEAT_WIDTH_RANGE_MM"));
            d["seat_width_range_mm"] == RangeField(nums[0], nums[1]))
  {
    NormalizedAt(entities);
  }

  /** Transformable is set whenever its entity has a text, and is false iff the text says "без" or "нет". */
  lemma NormalizeTransformable(entities: map<string, seq<string>>)
    ensures var d := NormalizedFields(entities);
      && ("transformable" in d <==> FirstEntity(entities, "TRANSFORMABLE").Some?)
      && ("transformable" in d ==>
            var t := Lower(Joined(entities, "TRANSFORMABLE"));
            d["transformable"] == BoolField(!(Contains(t, "без") || Contains(t, "нет"))))
  {
    NormalizedAt(entities);
  }

  /** No other key is ever written. */
  lemma NormalizeKeys(entities: map<string, seq<string>>)
    requires NormalizeError(entities).None?
    ensures forall k :: k in NormalizedFields(entities) ==> k in StringKeys || k in NumericKeys
  {
  }

  /** The loop over the plain string keys of `normalize_entities`. */
  method CollectStringFields(entities: map<string, seq<string>>) returns (data: map<string, Field>)
    ensures data == StringFields(entities, StringKeys)
  {
    data := map[];
    var keys := StringKeys;
    for i := 0 to |keys|
      invariant forall k :: k in data <==> k in keys[..i] && FirstEntity(entities, Upper(k)).Some?
      invariant forall k :: k in data ==> data[k] == TextField(Strip(FirstEntity(entities, Upper(k)).value))
    {
      assert forall k :: k in keys[..i + 1] <==> k in keys[..i] || k == keys[i] by {
        assert keys[..i + 1] == keys[..i] + [keys[i]];
      }
      var key := keys[i];
      var upper := Upper(key);
      if upper in entities && entities[upper] != [] {
        data := data[key := TextField(Strip(entities[upper][0]))];
      }
    }
    assert keys[..|keys|] == keys;
    ghost var want := StringFields(entities, keys);
    assert data.Keys == want.Keys;
  }

  /** One length of `normalize_entities`: raises when its text holds no digit, else writes the millimetres. */
  method ReadLength(entities: map<string, seq<string>>, k: string, key: string, data: map<string, Field>)
    returns (r: Result<map<string, Field>>)
    ensures LengthError(entities, k).Some? ==> r == Err(LengthError(entities, k).value)
    ensures LengthError(entities, k).None? ==> r == Ok(Put(data, key, LengthField(entities, k)))
  {
    r := Ok(data);
    if k in entities && entities[k] != [] {
      var v := ParseLengthToMm(entities[k][0]);
      if v.Err? {
        return Err(v.error);
      }
      r := Ok(data[key := IntField(v.value)]);
    }
  }

  /** The seat count of `normalize_entities`: raises when its text holds no digit, else writes the number. */
  method ReadCount(entities: map<string, seq<string>>, data: map<string, Field>) returns (r: Result<map<string, Field>>)
    ensures CountError(entities).Some? ==> r == Err(CountError(entities).value)
    ensures CountError(entities).None? ==> r == Ok(Put(data, "seat_count", CountField(entities)))
  {
    r := Ok(data);
    if "SEAT_COUNT" in entities && entities["SEAT_COUNT"] != [] {
      var c := ParseInt(entities["SEAT_COUNT"][0]);
      if c.Err? {
        return Err(c.error);
      }
      r := Ok(data["seat_count" := IntField(c.value)]);
    }
  }

  /** The width range and the transformable flag of `normalize_entities`. */
  method AddRangeAndFlag(entities: map<string, seq<string>>, data: map<string, Field>) returns (data': map<string, Field>)
    ensures data' == Put(Put(data, "seat_width_range_mm", WidthRangeField(entities)), "transformable", TransformableField(entities))
  {
    data' := data;
    if "SEAT_WIDTH_RANGE_MM" in entities && entities["SEAT_WIDTH_RANGE_MM"] != [] {
      var joined := Join(entities["SEAT_WIDTH_RANGE_MM"], " ");
      var nums := Numbers(joined);
      if |nums| >= 2 {
        data' := data'["seat_width_range_mm" := RangeField(nums[0], nums[1])];
      }
    }
    ghost var d := data';
    if "TRANSFORMABLE" in entities && entities["TRANSFORMABLE"] != [] {
      var t := Lower(Join(entities["TRANSFORMABLE"], " "));
      data' := data'["transformable" := BoolField(!(Contains(t, "без") || Contains(t, "нет")))];
    }
    assert d == Put(data, "seat_width_range_mm", WidthRangeField(entities));
  }

  /** `normalize_entities`: the string keys in a loop, then the lengths and the count, the range and the flag. */
  method NormalizeEntities(entities: map<string, seq<string>>) returns (r: Result<map<string, Field>>)
    ensures r == Normalize(entities)
  {
    var data := CollectStringFields(entities);
    r := ReadLength(entities, "SEAT_HEIGHT_MM", "seat_height_mm", data);
    if r.Err? {
      return;
    }
    r := ReadLength(entities, "SEAT_DEPTH_MM", "seat_depth_mm", r.value);
    if r.Err? {
      return;
    }
    r := ReadCount(entities, r.value);
    if r.Err? {
      return;
    }
    var filled := AddRangeAndFlag(entities, r.value);
    r := Ok(filled);
  }
}
