/**
 * The JavaScript and PostgreSQL value conversions that the handlers and models
 * rely on: truthiness of optional strings, ASCII case folding (SQL LOWER),
 * the decimal subset of JavaScript's Number(string) and isNaN, the decimal
 * form of integers, and PostgreSQL's text-to-integer cast.
 */
module Js {

  datatype Option<+T> = None | Some(value: T)

  /** A request field or query parameter in JavaScript: `if (x)` holds when it is present and non-empty. */
  predicate Truthy(o: Option<string>) {
    o.Some? && o.value != ""
  }

  /** `x || fallback` on an optional string. */
  function OrElse(o: Option<string>, fallback: string): (r: string)
    ensures Truthy(o) ==> r == o.value
    ensures !Truthy(o) ==> r == fallback
  {
    if Truthy(o) then o.value else fallback
  }

  // ---------------------------------------------------------------------------
  // Case folding
  // ---------------------------------------------------------------------------

  predicate IsUpper(c: char) { 'A' <= c <= 'Z' }

  function LowerChar(c: char): char {
    if IsUpper(c) then (c as int + 32) as char else c
  }

  /** SQL LOWER on the ASCII letters; every other character is kept. */
  function ToLower(s: string): (r: string)
    ensures |r| == |s|
    ensures forall i :: 0 <= i < |r| ==> !IsUpper(r[i])
    ensures forall i :: 0 <= i < |s| && !IsUpper(s[i]) ==> r[i] == s[i]
    ensures forall i :: 0 <= i < |s| && IsUpper(s[i]) ==> r[i] as int == s[i] as int + 32
  {
    seq(|s|, i requires 0 <= i < |s| => LowerChar(s[i]))
  }

  /** `LOWER(a) = LOWER(b)`. */
  predicate EqualsIgnoringCase(a: string, b: string) {
    ToLower(a) == ToLower(b)
  }

  lemma ToLowerIdempotent(s: string)
    ensures ToLower(ToLower(s)) == ToLower(s)
  {
  }

  /** A string without letters matches, ignoring case, only itself. */
  lemma {:induction false} EqualsIgnoringCaseNoLetters(s: string, t: string)
    requires forall i :: 0 <= i < |t| ==> IsDigit(t[i]) || t[i] == '-'
    requires EqualsIgnoringCase(s, t)
    ensures s == t
  {
    assert |s| == |t|;
    forall i | 0 <= i < |s| ensures s[i] == t[i] {
      assert ToLower(s)[i] == LowerChar(s[i]);
      assert ToLower(t)[i] == LowerChar(t[i]) == t[i];
    }
  }

  // ---------------------------------------------------------------------------
  // Decimal digits
  // ---------------------------------------------------------------------------

  predicate IsDigit(c: char) { '0' <= c <= '9' }

  predicate AllDigits(s: string) {
    forall i :: 0 <= i < |s| ==> IsDigit(s[i])
  }

  function DigitValue(c: char): nat
    requires IsDigit(c)
  {
    c as int - '0' as int
  }

  function DigitChar(d: nat): (c: char)
    requires d < 10
    ensures IsDigit(c) && DigitValue(c) == d
  {
    ('0' as int + d) as char
  }

  /** The value of a string of decimal digits, most significant first. */
  function DigitsValue(s: string): nat
    requires AllDigits(s)
  {
    if s == [] then 0 else DigitsValue(s[..|s| - 1]) * 10 + DigitValue(s[|s| - 1])
  }

  function Pow10(n: nat): (r: nat)
    ensures r > 0
  {
    if n == 0 then 1 else 10 * Pow10(n - 1)
  }

  /** The decimal form of a natural number: `String(n)` in JavaScript, `n::text` in SQL. */
  function NatToString(n: nat): (s: string)
    ensures |s| > 0 && AllDigits(s)
  {
    if n < 10 then [DigitChar(n)] else NatToString(n / 10) + [DigitChar(n % 10)]
  }

  function IntToString(i: int): (s: string)
    ensures |s| > 0
    ensures forall k :: 0 <= k < |s| ==> IsDigit(s[k]) || s[k] == '-'
  {
    if i < 0 then "-" + NatToString(-i) else NatToString(i)
  }

  lemma {:induction false} NatToStringValue(n: nat)
    ensures DigitsValue(NatToString(n)) == n
  {
    var s := NatToString(n);
    if n >= 10 {
      NatToStringValue(n / 10);
      assert s[..|s| - 1] == NatToString(n / 10);
    }
  }

  // ---------------------------------------------------------------------------
  // Whitespace trimming (the ASCII white space both JavaScript and PostgreSQL skip)
  // ---------------------------------------------------------------------------

  predicate IsWhite(c: char) {
    c == ' ' || c == '\t' || c == '\n' || c == '\r' || c as int == 11 || c as int == 12
  }

  function TrimStart(s: string): (r: string)
    ensures r != [] ==> !IsWhite(r[0])
  {
    if |s| > 0 && IsWhite(s[0]) then TrimStart(s[1..]) else s
  }

  /** TrimStart drops a prefix of white space and keeps the rest. */
  lemma {:induction false} TrimStartSuffix(s: string)
    ensures var r := TrimStart(s);
            |r| <= |s| && r == s[|s| - |r|..] && forall i :: 0 <= i < |s| - |r| ==> IsWhite(s[i])
  {
    if |s| > 0 && IsWhite(s[0]) {
      TrimStartSuffix(s[1..]);
    }
  }

  function TrimEnd(s: string): (r: string)
    ensures r != [] ==> !IsWhite(r[|r| - 1])
  {
    if |s| > 0 && IsWhite(s[|s| - 1]) then TrimEnd(s[..|s| - 1]) else s
  }

  /** TrimEnd drops a suffix of white space and keeps the rest. */
  lemma {:induction false} TrimEndPrefix(s: string)
    ensures var r := TrimEnd(s);
            |r| <= |s| && r == s[..|r|] && forall i :: |r| <= i < |s| ==> IsWhite(s[i])
  {
    if |s| > 0 && IsWhite(s[|s| - 1]) {
      TrimEndPrefix(s[..|s| - 1]);
    }
  }

  function Trim(s: string): string {
    TrimEnd(TrimStart(s))
  }

  /** A character that is not white space survives trimming. */
  lemma {:induction false} TrimKeeps(s: string, i: nat)
    requires i < |s| && !IsWhite(s[i])
    ensures exists j :: 0 <= j < |Trim(s)| && Trim(s)[j] == s[i]
  {
    var t := TrimStart(s);
    TrimStartSuffix(s);
    var d := |s| - |t|;
    assert i >= d && t[i - d] == s[i];
    var u := TrimEnd(t);
    TrimEndPrefix(t);
    assert i - d < |u| && u[i - d] == t[i - d];
    assert Trim(s) == u;
  }

  /** A text of white space only trims to nothing. */
  lemma {:induction false} TrimBlank(s: string)
    requires forall i :: 0 <= i < |s| ==> IsWhite(s[i])
    ensures Trim(s) == []
  {
    TrimStartSuffix(s);
  }

  lemma TrimNoWhite(s: string)
    requires forall i :: 0 <= i < |s| ==> !IsWhite(s[i])
    ensures Trim(s) == s
  {
  }

  // ---------------------------------------------------------------------------
  // JavaScript numbers
  // ---------------------------------------------------------------------------

  /** A JavaScript number; Infinity is not modelled. */
  datatype JsNumber = NaN | Finite(value: real)

  /** An unsigned decimal literal: digits, optionally with one '.', at least one digit. */
  function UnsignedDecimal(b: string): Option<real> {
    if b == [] then None
    else if AllDigits(b) then Some(DigitsValue(b) as real)
    else
      var k := DotIndex(b);
      if k < |b| && AllDigits(b[..k]) && AllDigits(b[k + 1..]) && |b| > 1 then
        Some(DigitsValue(b[..k]) as real + DigitsValue(b[k + 1..]) as real / Pow10(|b| - k - 1) as real)
      else None
  }

  /** The index of the first '.', or |s| when there is none. */
  function DotIndex(s: string): (k: nat)
    ensures k <= |s|
    ensures k < |s| ==> s[k] == '.'
    ensures forall i :: 0 <= i < k ==> s[i] != '.'
  {
    if s == [] then 0 else if s[0] == '.' then 0 else 1 + DotIndex(s[1..])
  }

  /**
   * An ASCII character that no JavaScript numeric literal uses: not a digit,
   * a letter, white space, a point or a sign (a comma, '$', '/', ...).
   */
  predicate IsSymbol(c: char) {
    c as int < 128 && !IsDigit(c) && !('a' <= c <= 'z') && !IsUpper(c) && !IsWhite(c) &&
    c != '.' && c != '+' && c != '-'
  }

  predicate HasSymbol(s: string) {
    exists i :: 0 <= i < |s| && IsSymbol(s[i])
  }

  /** No unsigned decimal holds a symbol. */
  lemma UnsignedDecimalSymbol(b: string, m: nat)
    requires m < |b| && IsSymbol(b[m])
    ensures UnsignedDecimal(b).None?
  {
    var k := DotIndex(b);
    if k < |b| {
      if m < k {
        assert b[..k][m] == b[m];
      } else {
        assert b[k + 1..][m - k - 1] == b[m];
      }
    }
  }

  /** The text after an optional leading sign. */
  function Unsigned(t: string): string
    requires t != []
  {
    if t[0] == '-' || t[0] == '+' then t[1..] else t
  }

  /** Trimming keeps every symbol. */
  lemma SymbolSurvivesTrim(s: string)
    requires HasSymbol(s)
    ensures HasSymbol(Trim(s))
  {
    var i :| 0 <= i < |s| && IsSymbol(s[i]);
    TrimKeeps(s, i);
  }

  /** A text with a symbol, its sign removed, is no unsigned decimal. */
  lemma SymbolNotDecimal(t: string)
    requires t != [] && HasSymbol(t)
    ensures UnsignedDecimal(Unsigned(t)).None?
  {
    var j :| 0 <= j < |t| && IsSymbol(t[j]);
    var b := Unsigned(t);
    if t[0] == '-' || t[0] == '+' {
      assert b[j - 1] == t[j];
      UnsignedDecimalSymbol(b, j - 1);
    } else {
      UnsignedDecimalSymbol(b, j);
    }
  }

  /**
   * `Number(s)` for a string: surrounding white space is ignored, the empty
   * string is 0, and otherwise an optional sign precedes an unsigned decimal.
   */
  function ToNumber(s: string): JsNumber {
    var t := Trim(s);
    if t == [] then Finite(0.0)
    else
      match UnsignedDecimal(Unsigned(t))
      case None => NaN
      case Some(v) => Finite(if t[0] == '-' then -v else v)
  }

  /** `!isNaN(s)`: JavaScript's isNaN converts with Number first. */
  predicate IsNumeric(s: string) {
    ToNumber(s).Finite?
  }

  /**
   * Number of a blank text is 0, of a text of digits its value, and of a
   * text with a symbol NaN.
   */
  lemma ToNumberCases(s: string)
    ensures (forall i :: 0 <= i < |s| ==> IsWhite(s[i])) ==> ToNumber(s) == Finite(0.0)
    ensures s != [] && AllDigits(s) ==> ToNumber(s) == Finite(DigitsValue(s) as real)
    ensures HasSymbol(s) ==> ToNumber(s) == NaN
  {
    if forall i :: 0 <= i < |s| ==> IsWhite(s[i]) {
      TrimBlank(s);
    }
    if AllDigits(s) {
      TrimNoWhite(s);
    }
    if HasSymbol(s) {
      SymbolSurvivesTrim(s);
      if Trim(s) != [] {
        SymbolNotDecimal(Trim(s));
      }
    }
  }

  /** isNaN lets digits, and the empty text, through, and stops a text with a symbol. */
  lemma IsNumericCases(s: string)
    ensures AllDigits(s) ==> IsNumeric(s)
    ensures HasSymbol(s) ==> !IsNumeric(s)
  {
    ToNumberCases(s);
  }

  /** The decimal form of an integer reads back, through Number, as the same integer. */
  lemma IntToStringToNumber(i: int)
    ensures ToNumber(IntToString(i)) == Finite(i as real)
    ensures IsNumeric(IntToString(i))
  {
    var s := IntToString(i);
    assert Trim(s) == s by { TrimIntToString(i); }
    var n: nat := if i < 0 then -i else i;
    var d := NatToString(n);
    assert UnsignedDecimal(d) == Some(n as real) by { NatToStringValue(n); }
    if i < 0 {
      assert s[0] == '-' && Unsigned(s) == d;
    } else {
      assert s == d && s[0] != '-' && s[0] != '+';
    }
  }

  lemma TrimIntToString(i: int)
    ensures Trim(IntToString(i)) == IntToString(i)
  {
    NoWhiteInIntToString(i);
    TrimNoWhite(IntToString(i));
  }

  lemma NoWhiteInIntToString(i: int)
    ensures forall k :: 0 <= k < |IntToString(i)| ==> !IsWhite(IntToString(i)[k])
  {
  }

  // ---------------------------------------------------------------------------
  // PostgreSQL integer input
  // ---------------------------------------------------------------------------

  /** The text-to-integer cast PostgreSQL applies to a `$n` parameter compared with an INT column. */
  function ParseInt(s: string): (r: Option<int>)
    ensures r.Some? ==> IsNumeric(s)
  {
    var t := Trim(s);
    if |t| > 1 && t[0] == '-' && AllDigits(t[1..]) then
      assert UnsignedDecimal(t[1..]).Some?;
      var v: int := DigitsValue(t[1..]);
      Some(-v)
    else if |t| > 1 && t[0] == '+' && AllDigits(t[1..]) then
      assert UnsignedDecimal(t[1..]).Some?;
      Some(DigitsValue(t[1..]))
    else if |t| > 0 && AllDigits(t) then
      assert t[0] != '-' && t[0] != '+';
      Some(DigitsValue(t))
    else None
  }

  /** Casting the decimal form of an integer gives back that integer. */
  lemma IntToStringParses(i: int)
    ensures ParseInt(IntToString(i)) == Some(i)
  {
    var s := IntToString(i);
    assert Trim(s) == s by { TrimIntToString(i); }
    var n: nat := if i < 0 then -i else i;
    var d := NatToString(n);
    assert DigitsValue(d) == n by { NatToStringValue(n); }
    if i < 0 {
      assert s[0] == '-' && s[1..] == d;
    } else {
      assert s == d && s[0] != '-' && s[0] != '+';
    }
  }

  // ---------------------------------------------------------------------------
  // JavaScript values in rows and JSON bodies
  // ---------------------------------------------------------------------------

  /** A scalar JavaScript value as the driver returns it in a row. */
  datatype JsValue = JNull | JBool(b: bool) | JNum(n: JsNumber) | JStr(s: string)

  /** An object with string keys; a missing key reads as undefined. */
  type JsObject = map<string, JsValue>

  /** `Number(v)` for a scalar value. */
  function ValueToNumber(v: JsValue): JsNumber {
    match v
    case JNull => Finite(0.0)
    case JBool(b) => Finite(if b then 1.0 else 0.0)
    case JNum(n) => n
    case JStr(s) => ToNumber(s)
  }

  /** `Number(o[k])`: an absent key is undefined, and Number(undefined) is NaN. */
  function NumberOf(o: JsObject, k: string): JsNumber {
    if k in o then ValueToNumber(o[k]) else NaN
  }
}
