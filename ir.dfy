/**
 * The loosely typed intermediate representation (IR): the nested dict/list/scalar
 * value every resolver, preset and debug payload is made of. Python dicts are
 * modelled as maps (key order is not kept); ints and floats are one numeric case.
 */
module Ir {
  import opened Wrappers
  import opened Text
  import opened Numeric

  datatype Json =
    | JNull
    | JBool(b: bool)
    | JNum(n: real)
    | JStr(s: string)
    | JArr(items: seq<Json>)
    | JObj(fields: map<string, Json>)

  type Obj = map<string, Json>

  /** `d.get(key, default)`. */
  function GetOr(d: Obj, key: string, default: Json): (r: Json)
    ensures key in d ==> r == d[key]
    ensures key !in d ==> r == default
  {
    if key in d then d[key] else default
  }

  /** `value if isinstance(value, dict) else {}`. */
  function AsObj(v: Json): (r: Obj)
    ensures v.JObj? ==> r == v.fields
    ensures !v.JObj? ==> r == map[]
  {
    if v.JObj? then v.fields else map[]
  }

  /** `d.get(key) if isinstance(d.get(key), dict) else {}`. */
  function SubObj(d: Obj, key: string): Obj {
    if key in d then AsObj(d[key]) else map[]
  }

  /** Python truthiness. */
  predicate Truthy(v: Json) {
    match v
    case JNull => false
    case JBool(b) => b
    case JNum(n) => n != 0.0
    case JStr(s) => s != ""
    case JArr(items) => items != []
    case JObj(fields) => fields != map[]
  }

  /**
   * Python `str(value)` where the model knows the text: a string is itself, null reads "None",
   * booleans "True" and "False", and a whole number reads as an int's digits. A fractional number's
   * text depends on float formatting and a list's or dict's on `repr`; those have none here.
   */
  function PyStr(v: Json): (r: Option<string>)
    ensures r.None? <==> v.JArr? || v.JObj? || (v.JNum? && v.n.Floor as real != v.n)
  {
    match v
    case JStr(s) => Some(s)
    case JNull => Some("None")
    case JBool(b) => Some(if b then "True" else "False")
    case JNum(n) => if n.Floor as real == n then Some(IntToString(n.Floor)) else None
    case _ => None
  }

  /** The text of an integer: an optional minus sign, then at least one digit. */
  lemma IntToStringShape(n: int)
    ensures var t := IntToString(n);
      && t != [] && IsDigit(t[|t| - 1]) && (t[0] == '-' || IsDigit(t[0]))
      && (forall i :: 0 <= i < |t| ==> IsDigit(t[i]) || t[i] == '-')
      && (n < 0 ==> t == "-" + NatToString(-n)) && (n >= 0 ==> t == NatToString(n))
  {
  }

  /** `int(str(n)) == n` for every integer, the text `str` gives a whole number. */
  lemma PyStrIntRoundTrip(n: int)
    ensures PyStr(JNum(n as real)) == Some(IntToString(n))
    ensures ParseInt(IntToString(n)) == Some(n)
  {
    assert (n as real).Floor == n;
    if n >= 0 {
      ParseIntOfString(n);
    } else {
      var d := NatToString(-n);
      var t := "-" + d;
      assert t[|t| - 1] == d[|d| - 1];
      StripKeeps(t);
      assert SplitSign(t) == (true, d);
      DigitsAreDigitPart(d);
      NatToStringValue(-n);
    }
  }

  /**
   * `str(problem.get("code", "")).strip().upper()` for a problem dict. A code whose text the model
   * does not know (see `PyStr`) can match none of the known codes and reads as "".
   */
  function ProblemCode(problem: Json): string {
    if problem.JObj? then
      match PyStr(GetOr(problem.fields, "code", JStr("")))
      case Some(t) => Upper(Strip(t))
      case None => ""
    else ""
  }

  /**
   * Python's `digitpart`: decimal digits, with single underscores allowed between two digits
   * ("1_000"); `float()` and `int()` accept this form.
   */
  predicate IsDigitPart(s: string) {
    && |s| > 0 && IsDigit(s[0]) && IsDigit(s[|s| - 1])
    && (forall i :: 0 <= i < |s| ==> IsDigit(s[i]) || s[i] == '_')
    && (forall i :: 0 <= i < |s| - 1 && s[i] == '_' ==> s[i + 1] != '_')
  }

  /** The digits of a digit part, its underscores dropped. */
  function DropUnderscores(s: string): (r: string)
    requires forall i :: 0 <= i < |s| ==> IsDigit(s[i]) || s[i] == '_'
    ensures forall i :: 0 <= i < |r| ==> IsDigit(r[i])
    ensures |r| <= |s|
  {
    if s == [] then [] else (if s[0] == '_' then [] else [s[0]]) + DropUnderscores(s[1..])
  }

  /** The value of a digit part (0 for the empty text). */
  function DigitPartValue(s: string): nat
    requires forall i :: 0 <= i < |s| ==> IsDigit(s[i]) || s[i] == '_'
  {
    DigitsValue(DropUnderscores(s))
  }

  /** A digit part starts with a digit, so it keeps at least one digit. */
  lemma DigitPartHasDigits(s: string)
    requires IsDigitPart(s)
    ensures IsDigits(DropUnderscores(s))
  {
    assert DropUnderscores(s) == [s[0]] + DropUnderscores(s[1..]);
  }

  /** Plain digits have no underscore to drop. */
  lemma {:induction false} DropUnderscoresOfDigits(s: string)
    requires forall i :: 0 <= i < |s| ==> IsDigit(s[i])
    ensures DropUnderscores(s) == s
  {
    if s != [] {
      DropUnderscoresOfDigits(s[1..]);
    }
  }

  /** Plain digits are a digit part. */
  lemma DigitsAreDigitPart(s: string)
    requires IsDigits(s)
    ensures IsDigitPart(s) && DigitPartValue(s) == DigitsValue(s)
  {
    DropUnderscoresOfDigits(s);
  }

  /** Optional sign then the rest. */
  function SplitSign(s: string): (bool, string) {
    if s != [] && (s[0] == '-' || s[0] == '+') then (s[0] == '-', s[1..]) else (false, s)
  }

  /** The position of the first exponent mark ('e' or 'E'). */
  function ExponentMark(s: string): (r: Option<nat>)
    ensures r.Some? ==> r.value < |s| && (s[r.value] == 'e' || s[r.value] == 'E')
    ensures r.Some? ==> forall j :: 0 <= j < r.value ==> s[j] != 'e' && s[j] != 'E'
    ensures r.None? ==> forall j :: 0 <= j < |s| ==> s[j] != 'e' && s[j] != 'E'
  {
    if s == [] then None
    else if s[0] == 'e' || s[0] == 'E' then Some(0)
    else match ExponentMark(s[1..])
      case None => None
      case Some(k) => Some(k + 1)
  }

  /**
   * The mantissa of a float: digit parts around at most one decimal point, at least one of them
   * present ("12", "1_2.5", ".5", "5.").
   */
  function ParseMantissa(s: string): (r: Option<real>)
    ensures r.Some? ==> r.value >= 0.0
  {
    match IndexOfChar(s, '.')
    case None =>
      if IsDigitPart(s) then Some(DigitPartValue(s) as real) else None
    case Some(i) =>
      var whole, frac := s[..i], s[i + 1..];
      if (whole == [] || IsDigitPart(whole)) && (frac == [] || IsDigitPart(frac)) && |whole| + |frac| > 0 then
        Some(DigitPartValue(whole) as real + DigitPartValue(frac) as real / Pow10(|DropUnderscores(frac)|) as real)
      else None
  }

  /** `m / p` and `m * p` stay non-negative for a non-negative `m` and a power of ten `p`. */
  function ScaleByPower(m: real, neg: bool, e: nat): (r: real)
    requires m >= 0.0
    ensures r >= 0.0
    ensures !neg ==> r == m * Pow10(e) as real
    ensures neg ==> r * Pow10(e) as real == m
  {
    var p := Pow10(e) as real;
    if neg then m / p else m * p
  }

  /** An unsigned float: a mantissa, then optionally 'e' or 'E', a sign and a digit part. */
  function ParseUnsignedFloat(s: string): (r: Option<real>)
    ensures r.Some? ==> r.value >= 0.0
  {
    match ExponentMark(s)
    case None => ParseMantissa(s)
    case Some(k) =>
      var (neg, exp) := SplitSign(s[k + 1..]);
      var m := ParseMantissa(s[..k]);
      if m.Some? && IsDigitPart(exp) then Some(ScaleByPower(m.value, neg, DigitPartValue(exp))) else None
  }

  /**
   * Python `float(str)` for finite decimal text: surrounding white space, a sign, a mantissa
   * with digit parts and an optional exponent.
   */
  function ParseFloat(s: string): Option<real> {
    var (neg, body) := SplitSign(Strip(s));
    match ParseUnsignedFloat(body)
    case None => None
    case Some(x) => Some(if neg then -x else x)
  }

  /** Python `int(str)`: optional white space and sign around a digit part. */
  function ParseInt(s: string): Option<int> {
    var (neg, body) := SplitSign(Strip(s));
    if IsDigitPart(body) then Some(if neg then -(DigitPartValue(body) as int) else DigitPartValue(body) as int) else None
  }

  /** Python `float(value)`; `None` where Python raises TypeError or ValueError. */
  function ToFloat(v: Json): (r: Option<real>)
    ensures v.JNum? ==> r == Some(v.n)
    ensures v.JBool? ==> r == Some(if v.b then 1.0 else 0.0)
    ensures v.JNull? || v.JArr? || v.JObj? ==> r.None?
  {
    match v
    case JNum(n) => Some(n)
    case JBool(b) => Some(if b then 1.0 else 0.0)
    case JStr(s) => ParseFloat(s)
    case _ => None
  }

  /** Python `int(value)`: floats truncate toward zero; `None` where Python raises. */
  function ToInt(v: Json): (r: Option<int>)
    ensures v.JNum? ==> r == Some(Trunc(v.n))
    ensures v.JBool? ==> r == Some(if v.b then 1 else 0)
    ensures v.JNull? || v.JArr? || v.JObj? ==> r.None?
  {
    match v
    case JNum(n) => Some(Trunc(n))
    case JBool(b) => Some(if b then 1 else 0)
    case JStr(s) => ParseInt(s)
    case _ => None
  }

  /** `_as_float` of the resolver and the validator: Python `float(value)`, or the default where that raises. */
  function AsFloat(value: Json, default: real): (r: real)
    ensures value.JNum? ==> r == value.n
    ensures value.JBool? ==> r == (if value.b then 1.0 else 0.0)
    ensures value.JNull? || value.JArr? || value.JObj? ==> r == default
    ensures value.JStr? ==> r == ParseFloat(value.s).GetOr(default)
  {
    match ToFloat(value)
    case Some(x) => x
    case None => default
  }

  /** `_as_int` of the resolver and the validator: Python `int(value)` (floats truncate toward zero), or the default where that raises. */
  function AsInt(value: Json, default: int): (r: int)
    ensures value.JNum? ==> r == Trunc(value.n)
    ensures value.JBool? ==> r == (if value.b then 1 else 0)
    ensures value.JNull? || value.JArr? || value.JObj? ==> r == default
    ensures value.JStr? ==> r == ParseInt(value.s).GetOr(default)
  {
    match ToInt(value)
    case Some(n) => n
    case None => default
  }

  lemma ParseIntOfString(n: nat)
    ensures ParseInt(NatToString(n)) == Some(n)
  {
    var s := NatToString(n);
    assert s[0] != '-' && s[0] != '+';
    StripKeeps(s);
    DigitsAreDigitPart(s);
    NatToStringValue(n);
  }

  /** `float(str(n)) == n` for every non-negative integer. */
  lemma ParseFloatOfString(n: nat)
    ensures ParseFloat(NatToString(n)) == Some(n as real)
  {
    var s := NatToString(n);
    assert s[0] != '-' && s[0] != '+';
    StripKeeps(s);
    NoMarks(s);
    DigitsAreDigitPart(s);
    NatToStringValue(n);
  }

  /** Digits and underscores contain neither a decimal point nor an exponent mark. */
  lemma NoMarks(s: string)
    requires forall i :: 0 <= i < |s| ==> IsDigit(s[i]) || s[i] == '_'
    ensures IndexOfChar(s, '.').None? && ExponentMark(s).None?
  {
    assert forall j :: 0 <= j < |s| ==> s[j] != '.' && s[j] != 'e' && s[j] != 'E';
  }

  /** Underscores between digits are ignored: `float("1_000") == int("1_000") == 1000`. */
  lemma ParseDigitPart(s: string)
    requires IsDigitPart(s)
    ensures ParseFloat(s) == Some(DigitPartValue(s) as real)
    ensures ParseInt(s) == Some(DigitPartValue(s))
  {
    assert s[0] != '-' && s[0] != '+';
    StripKeeps(s);
    NoMarks(s);
  }

  /** Text starting with a digit and ending without white space is read as an unsigned float. */
  lemma ParseFloatUnsigned(s: string)
    requires s != [] && IsDigit(s[0]) && !IsSpace(s[|s| - 1])
    ensures ParseFloat(s) == ParseUnsignedFloat(s)
  {
    StripKeeps(s);
  }

  /** An exponent form scales its mantissa by the power of ten its exponent names. */
  lemma ParseExponentForm(s: string, k: nat, m: real, neg: bool, exp: string)
    requires ExponentMark(s) == Some(k) && ParseMantissa(s[..k]) == Some(m)
    requires SplitSign(s[k + 1..]) == (neg, exp) && IsDigitPart(exp)
    ensures ParseUnsignedFloat(s) == Some(ScaleByPower(m, neg, DigitPartValue(exp)))
  {
  }

  /** Plain digits are a mantissa worth their value. */
  lemma MantissaOfDigits(d: string)
    requires IsDigits(d)
    ensures ParseMantissa(d) == Some(DigitsValue(d) as real)
  {
    NoMarks(d);
    DigitsAreDigitPart(d);
  }

  /** Where the exponent of `d + "e" + e` or `d + "e-" + e` starts and what its sign is. */
  lemma ExponentLayout(d: string, neg: bool, e: string)
    requires IsDigits(d) && IsDigits(e)
    ensures var s := d + (if neg then "e-" else "e") + e;
      && ExponentMark(s) == Some(|d|) && s[..|d|] == d && SplitSign(s[|d| + 1..]) == (neg, e)
  {
    var mark := if neg then "e-" else "e";
    var s := d + mark + e;
    assert s == d + (mark + e);
    NoMarks(d);
    ExponentAfter(d, mark + e);
    assert s[..|d|] == d;
    assert s[|d| + 1..] == mark[1..] + e;
  }

  /**
   * Scientific notation: `float(d + "e" + e) == d * 10**e` and `float(d + "e-" + e) == d / 10**e`
   * for digit texts `d` and `e`.
   */
  lemma ParseExponent(d: string, neg: bool, e: string)
    requires IsDigits(d) && IsDigits(e)
    ensures ParseFloat(d + (if neg then "e-" else "e") + e)
      == Some(ScaleByPower(DigitsValue(d) as real, neg, DigitsValue(e)))
  {
    ExponentTextUnsigned(d, neg, e);
    ExponentTextValue(d, neg, e);
  }

  /** An exponent text starts with a digit, so it is read as an unsigned float. */
  lemma ExponentTextUnsigned(d: string, neg: bool, e: string)
    requires IsDigits(d) && IsDigits(e)
    ensures var s := d + (if neg then "e-" else "e") + e;
      ParseFloat(s) == ParseUnsignedFloat(s)
  {
    var s := d + (if neg then "e-" else "e") + e;
    assert s[0] == d[0] && s[|s| - 1] == e[|e| - 1];
    ParseFloatUnsigned(s);
  }

  /** The unsigned reading of an exponent text scales the digits of `d` by ten to the `e`. */
  lemma ExponentTextValue(d: string, neg: bool, e: string)
    requires IsDigits(d) && IsDigits(e)
    ensures ParseUnsignedFloat(d + (if neg then "e-" else "e") + e)
      == Some(ScaleByPower(DigitsValue(d) as real, neg, DigitsValue(e)))
  {
    var s := d + (if neg then "e-" else "e") + e;
    ExponentLayout(d, neg, e);
    MantissaOfDigits(d);
    DigitsAreDigitPart(e);
    ParseExponentForm(s, |d|, DigitsValue(d) as real, neg, e);
  }


  /** Text without an exponent mark followed by 'e' has its first mark there. */
  lemma ExponentAfter(d: string, t: string)
    requires ExponentMark(d).None? && t != [] && t[0] == 'e'
    ensures ExponentMark(d + t) == Some(|d|)
  {
    if d != [] {
      assert (d + t)[1..] == d[1..] + t;
      ExponentAfter(d[1..], t);
    } else {
      assert d + t == t;
    }
  }

  /** Dropping underscores works piece by piece. */
  lemma {:induction false} DropUnderscoresAppend(a: string, b: string)
    requires forall i :: 0 <= i < |a| ==> IsDigit(a[i]) || a[i] == '_'
    requires forall i :: 0 <= i < |b| ==> IsDigit(b[i]) || b[i] == '_'
    ensures DropUnderscores(a + b) == DropUnderscores(a) + DropUnderscores(b)
  {
    if a != [] {
      assert (a + b)[1..] == a[1..] + b;
      DropUnderscoresAppend(a[1..], b);
    } else {
      assert a + b == b;
    }
  }

  /** The value of two digit runs written one after the other. */
  lemma {:induction false} DigitsValueAppend(a: string, b: string)
    requires forall i :: 0 <= i < |a| ==> IsDigit(a[i])
    requires forall i :: 0 <= i < |b| ==> IsDigit(b[i])
    ensures DigitsValue(a + b) == DigitsValue(a) * Pow10(|b|) + DigitsValue(b)
  {
    if b == [] {
      assert a + b == a;
    } else {
      var b' := b[..|b| - 1];
      var d := DigitValue(b[|b| - 1]);
      assert (a + b)[..|a + b| - 1] == a + b';
      assert DigitsValue(a + b) == 10 * DigitsValue(a + b') + d;
      DigitsValueAppend(a, b');
      ShiftDigit(DigitsValue(a), Pow10(|b'|), DigitsValue(b'), d);
    }
  }

  /** One more digit shifts the left part by one more power of ten. */
  lemma ShiftDigit(x: nat, p: nat, y: nat, d: nat)
    ensures 10 * (x * p + y) + d == x * (10 * p) + (10 * y + d)
  {
  }

  /** Two digit groups joined by an underscore are a digit part. */
  lemma JoinIsDigitPart(a: string, b: string)
    requires IsDigits(a) && IsDigits(b)
    ensures IsDigitPart(a + "_" + b)
  {
    var s := a + "_" + b;
    forall i | 0 <= i < |s|
      ensures (IsDigit(s[i]) || s[i] == '_') && (s[i] == '_' <==> i == |a|)
    {
      if i < |a| {
        assert s[i] == a[i];
      } else if i > |a| {
        assert s[i] == b[i - |a| - 1];
      }
    }
    assert s[|s| - 1] == b[|b| - 1];
  }

  /** Digit groups joined by an underscore form a digit part worth the digits written together. */
  lemma DigitPartJoin(a: string, b: string)
    requires IsDigits(a) && IsDigits(b)
    ensures IsDigitPart(a + "_" + b)
    ensures DigitPartValue(a + "_" + b) == DigitsValue(a) * Pow10(|b|) + DigitsValue(b)
  {
    JoinIsDigitPart(a, b);
    var s := a + "_" + b;
    assert s == a + ("_" + b);
    DropUnderscoresAppend(a, "_" + b);
    assert DropUnderscores("_" + b) == DropUnderscores(b) by {
      assert ("_" + b)[1..] == b;
    }
    DropUnderscoresOfDigits(a);
    DropUnderscoresOfDigits(b);
    DigitsValueAppend(a, b);
  }
}
