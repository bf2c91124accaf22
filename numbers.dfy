/**
 * The number conversions the sources apply to user input: Python's `float()`
 * and `int()` on decoded JSON values, and JavaScript's `Number()`,
 * `parseFloat()` and `parseInt()` on form strings. Literals are decimal
 * (`[+-]digits[.digits]`); JavaScript's NaN is a value of its own.
 */
module Numbers {
  import opened Wrappers
  import opened Text

  /** A decoded JSON value as a Python handler sees it; JOther is an array or an object. */
  datatype Json = JNull | JBool(b: bool) | JNum(n: real) | JStr(s: string) | JOther

  /** A JavaScript number: NaN or a finite value. */
  datatype JsNum = NaN | Fin(v: real)

  /** `x || 0`: NaN and 0 are falsy, so both give 0. */
  function OrZero(x: JsNum): (r: real)
    ensures x.NaN? ==> r == 0.0
    ensures x.Fin? ==> r == x.v
  {
    if x.Fin? then x.v else 0.0
  }

  /** JavaScript truthiness of a number. */
  predicate Truthy(x: JsNum) { x.Fin? && x.v != 0.0 }

  function Pow10(n: nat): (p: nat)
    ensures p >= 1
  {
    if n == 0 then 1 else 10 * Pow10(n - 1)
  }

  /** The longest prefix of s made of digits, and what follows it. */
  function DigitPrefix(s: string): (r: (string, string))
    ensures r.0 + r.1 == s
    ensures AllDigits(r.0)
    ensures r.1 == [] || !IsDigit(r.1[0])
  {
    if s != [] && IsDigit(s[0]) then
      var (d, rest) := DigitPrefix(s[1..]);
      ([s[0]] + d, rest)
    else
      ([], s)
  }

  lemma {:induction false} DigitPrefixOfDigits(s: string)
    requires AllDigits(s)
    ensures DigitPrefix(s) == (s, [])
  {
    if s != [] {
      assert AllDigits(s[1..]);
      DigitPrefixOfDigits(s[1..]);
      assert [s[0]] + s[1..] == s;
    }
  }

  /** A decimal literal read from the front of s. */
  datatype Scan = Scan(ok: bool, value: real, rest: string)

  /**
   * Reads `[+-]? digits* ('.' digits*)?` from the front of s. The scan is ok
   * when at least one digit was read; rest is what was not consumed.
   */
  function ScanDecimal(s: string): (r: Scan)
    ensures |r.rest| <= |s|
  {
    var neg := s != [] && s[0] == '-';
    var a := if s != [] && (s[0] == '-' || s[0] == '+') then s[1..] else s;
    var (intDs, b) := DigitPrefix(a);
    var hasPoint := b != [] && b[0] == '.';
    var (fracDs, c) := if hasPoint then DigitPrefix(b[1..]) else ([], b);
    var magnitude := DigitsValue(intDs) as real + DigitsValue(fracDs) as real / Pow10(|fracDs|) as real;
    var ok := |intDs| + |fracDs| > 0;
    Scan(ok, if neg then -magnitude else magnitude, if ok then c else s)
  }

  /** A whole string that is one decimal literal, with nothing after it. */
  function ParseDecimal(s: string): (r: Option<real>)
    ensures r.Some? <==> ScanDecimal(s).ok && ScanDecimal(s).rest == []
  {
    var sc := ScanDecimal(s);
    if sc.ok && sc.rest == [] then Some(sc.value) else None
  }

  /** A whole string that is `[+-]? digits`. */
  function ParseInteger(s: string): (r: Option<int>)
  {
    var neg := s != [] && s[0] == '-';
    var a := if s != [] && (s[0] == '-' || s[0] == '+') then s[1..] else s;
    if a != [] && AllDigits(a) then Some(if neg then -(DigitsValue(a) as int) else DigitsValue(a)) else None
  }

  /** The rendering of a natural number is a decimal literal denoting it. */
  lemma ParseDecimalShowNat(n: nat)
    ensures ParseDecimal(ShowNat(n)) == Some(n as real)
  {
    var s := ShowNat(n);
    DigitPrefixOfDigits(s);
    ShowNatRoundTrip(n);
    assert DigitPrefix(s) == (s, []);
    assert DigitsValue([]) == 0;
  }

  lemma ParseIntegerShowNat(n: nat)
    ensures ParseInteger(ShowNat(n)) == Some(n)
  {
    ShowNatRoundTrip(n);
  }

  /** A magnitude under a literal's optional leading `+` or `-`. */
  function Signed(sign: string, magnitude: real): real {
    if sign == "-" then -magnitude else magnitude
  }

  /** Reading digits stops at the first character that is not one. */
  lemma {:induction false} DigitPrefixStops(ds: string, rest: string)
    requires AllDigits(ds)
    requires rest == [] || !IsDigit(rest[0])
    ensures DigitPrefix(ds + rest) == (ds, rest)
  {
    if ds != [] {
      assert (ds + rest)[1..] == ds[1..] + rest;
      assert AllDigits(ds[1..]);
      DigitPrefixStops(ds[1..], rest);
      assert [ds[0]] + ds[1..] == ds;
    } else {
      assert ds + rest == rest;
    }
  }

  /** Appending digits shifts the value of the first part by one power of ten per digit. */
  lemma {:induction false} DigitsValueAppend(a: string, b: string)
    requires AllDigits(a) && AllDigits(b)
    ensures AllDigits(a + b)
    ensures DigitsValue(a + b) == DigitsValue(a) * Pow10(|b|) + DigitsValue(b)
  {
    assert AllDigits(a + b) by {
      forall i | 0 <= i < |a + b| ensures IsDigit((a + b)[i]) {
        if i < |a| { assert (a + b)[i] == a[i]; } else { assert (a + b)[i] == b[i - |a|]; }
      }
    }
    if b == [] {
      assert a + b == a;
    } else {
      var b' := b[..|b| - 1];
      assert AllDigits(b');
      assert (a + b)[..|a + b| - 1] == a + b';
      assert (a + b)[|a + b| - 1] == b[|b| - 1];
      DigitsValueAppend(a, b');
      var m, q, k, d := DigitsValue(a), Pow10(|b'|), DigitsValue(b'), DigitValue(b[|b| - 1]);
      assert DigitsValue(a + b) == (m * q + k) * 10 + d;
      assert Pow10(|b|) == 10 * q && DigitsValue(b) == k * 10 + d;
      ShiftOneDigit(m, q, k, d);
    }
  }

  lemma ShiftOneDigit(m: int, q: int, k: int, d: int)
    ensures (m * q + k) * 10 + d == m * (10 * q) + (k * 10 + d)
  {
  }

  /** An optional sign in front of text that does not start with one is read off as that sign. */
  lemma SignStrip(sign: string, a: string)
    requires sign == "" || sign == "+" || sign == "-"
    requires a != [] && a[0] != '-' && a[0] != '+'
    ensures var s := sign + a;
            && (s != [] && s[0] == '-' <==> sign == "-")
            && (if s != [] && (s[0] == '-' || s[0] == '+') then s[1..] else s) == a
  {
    var s := sign + a;
    if sign == "" {
      assert s == a;
    } else {
      assert s[0] == sign[0] && s[1..] == a;
    }
  }

  /** The value the scan gives digits around a point: whole part plus fraction over ten to its length. */
  function PointValue(intDs: string, fracDs: string): real
    requires AllDigits(intDs) && AllDigits(fracDs)
  {
    DigitsValue(intDs) as real + DigitsValue(fracDs) as real / Pow10(|fracDs|) as real
  }

  /** One step of the scan: after the sign come digits, a point and more digits. */
  lemma ScanWithPoint(s: string, sign: string, a: string, intDs: string, b: string, fracDs: string, c: string)
    requires sign == "" || sign == "+" || sign == "-"
    requires a != [] && a[0] != '-' && a[0] != '+' && s == sign + a
    requires DigitPrefix(a) == (intDs, b) && b != [] && b[0] == '.'
    requires DigitPrefix(b[1..]) == (fracDs, c) && |intDs| + |fracDs| > 0
    ensures ScanDecimal(s) == Scan(true, Signed(sign, PointValue(intDs, fracDs)), c)
  {
    SignStrip(sign, a);
  }

  /** One step of the scan: after the sign come digits and no point. */
  lemma ScanWithoutPoint(s: string, sign: string, a: string, intDs: string, b: string)
    requires sign == "" || sign == "+" || sign == "-"
    requires a != [] && a[0] != '-' && a[0] != '+' && s == sign + a
    requires DigitPrefix(a) == (intDs, b) && (b == [] || b[0] != '.') && intDs != []
    ensures ScanDecimal(s) == Scan(true, Signed(sign, PointValue(intDs, [])), b)
  {
    SignStrip(sign, a);
  }

  /** With no fraction digits the value is the whole part. */
  lemma PointValueWhole(intDs: string)
    requires AllDigits(intDs)
    ensures PointValue(intDs, []) == DigitsValue(intDs) as real
  {
    assert DigitsValue([]) == 0 && Pow10(0) == 1;
  }

  /** Scanning `[+-] digits . digits` before text that does not start with a digit stops at that text. */
  lemma ScanPointedLiteral(lit: string, sign: string, intDs: string, fracDs: string, rest: string)
    requires sign == "" || sign == "+" || sign == "-"
    requires AllDigits(intDs) && AllDigits(fracDs) && |intDs| + |fracDs| > 0
    requires lit == sign + intDs + "." + fracDs
    requires rest == [] || !IsDigit(rest[0])
    ensures ScanDecimal(lit + rest) == Scan(true, Signed(sign, PointValue(intDs, fracDs)), rest)
  {
    var b := "." + (fracDs + rest);
    var a := intDs + b;
    ConcatAssoc(sign, intDs, ".", fracDs + rest);
    assert lit + rest == sign + intDs + "." + (fracDs + rest);
    if intDs != [] { assert a[0] == intDs[0]; } else { assert a[0] == '.'; }
    DigitPrefixStops(intDs, b);
    assert b[1..] == fracDs + rest;
    DigitPrefixStops(fracDs, rest);
    ScanWithPoint(lit + rest, sign, a, intDs, b, fracDs, rest);
  }

  /** Scanning `[+-] digits` before text that starts with neither a digit nor a point stops at that text. */
  lemma ScanWholeLiteral(lit: string, sign: string, ds: string, rest: string)
    requires sign == "" || sign == "+" || sign == "-"
    requires AllDigits(ds) && ds != []
    requires lit == sign + ds
    requires rest == [] || (!IsDigit(rest[0]) && rest[0] != '.')
    ensures ScanDecimal(lit + rest) == Scan(true, Signed(sign, DigitsValue(ds) as real), rest)
  {
    assert IsDigit(ds[0]);
    assert lit + rest == sign + (ds + rest);
    assert (ds + rest)[0] == ds[0];
    DigitPrefixStops(ds, rest);
    ScanWithoutPoint(lit + rest, sign, ds + rest, ds, rest);
    PointValueWhole(ds);
  }

  lemma ConcatAssoc<T>(a: seq<T>, b: seq<T>, c: seq<T>, d: seq<T>)
    ensures a + b + c + d == a + (b + (c + d))
  {
  }

  /** The reading of `[+-] digits . digits` as one whole number of all the digits, shifted by the fraction's length. */
  function DecimalReference(sign: string, intDs: string, fracDs: string): real
    requires AllDigits(intDs + fracDs)
  {
    Signed(sign, DigitsValue(intDs + fracDs) as real / Pow10(|fracDs|) as real)
  }

  /** The scan's whole-plus-fraction value is the reference reading. */
  lemma PointValueIsReference(sign: string, intDs: string, fracDs: string)
    requires AllDigits(intDs) && AllDigits(fracDs)
    ensures AllDigits(intDs + fracDs)
    ensures Signed(sign, PointValue(intDs, fracDs)) == DecimalReference(sign, intDs, fracDs)
  {
    DigitsValueAppend(intDs, fracDs);
    ShiftedValue(DigitsValue(intDs + fracDs), DigitsValue(intDs), Pow10(|fracDs|), DigitsValue(fracDs));
  }

  /** A literal with a point has the value of its reference reading. */
  lemma ParseDecimalLiteral(lit: string, sign: string, intDs: string, fracDs: string)
    requires sign == "" || sign == "+" || sign == "-"
    requires AllDigits(intDs) && AllDigits(fracDs) && |intDs| + |fracDs| > 0
    requires lit == sign + intDs + "." + fracDs
    ensures AllDigits(intDs + fracDs)
    ensures ParseDecimal(lit) == Some(DecimalReference(sign, intDs, fracDs))
  {
    ScanPointedLiteral(lit, sign, intDs, fracDs, []);
    assert lit + [] == lit;
    PointValueIsReference(sign, intDs, fracDs);
  }

  /** A literal without a point is its digits' value under its sign. */
  lemma ParseDecimalWhole(lit: string, sign: string, ds: string)
    requires sign == "" || sign == "+" || sign == "-"
    requires AllDigits(ds) && ds != []
    requires lit == sign + ds
    ensures ParseDecimal(lit) == Some(Signed(sign, DigitsValue(ds) as real))
  {
    ScanWholeLiteral(lit, sign, ds, []);
    assert lit + [] == lit;
  }

  /** A whole number made of a shifted head and a tail, divided back by the shift. */
  lemma ShiftedValue(w: nat, m: nat, n: nat, k: nat)
    requires n >= 1 && w == m * n + k
    ensures w as real / n as real == m as real + k as real / n as real
  {
    assert w as real == m as real * n as real + k as real;
  }

  /** The value of `[+-] digits` as Python's `int()` reads it. */
  lemma ParseIntegerLiteral(sign: string, ds: string)
    requires sign == "" || sign == "+" || sign == "-"
    requires AllDigits(ds) && ds != []
    ensures ParseInteger(sign + ds) == Some(if sign == "-" then -(DigitsValue(ds) as int) else DigitsValue(ds))
  {
    assert IsDigit(ds[0]);
    SignStrip(sign, ds);
  }

  /** Truncation toward zero, as Python's `int()` applies to a float. */
  function Truncate(x: real): (r: int)
    ensures x >= 0.0 ==> 0 <= r && r as real <= x < r as real + 1.0
    ensures x < 0.0 ==> r <= 0 && r as real - 1.0 < x <= r as real
  {
    if x >= 0.0 then x.Floor else -((-x).Floor)
  }

  /** Python `float(v)` on a decoded JSON value; a string is stripped first. */
  function PyFloat(v: Json): (r: Result<real, string>)
    ensures v.JNum? ==> r == Success(v.n)
    ensures v.JNull? || v.JOther? ==> r.Failure?
    ensures v.JBool? ==> r == Success(if v.b then 1.0 else 0.0)
    ensures v.JStr? ==> (r.Success? <==> ParseDecimal(Trim(v.s)).Some?)
    ensures v.JStr? && r.Success? ==> r.value == ParseDecimal(Trim(v.s)).value
  {
    match v
    case JNum(n) => Success(n)
    case JBool(b) => Success(if b then 1.0 else 0.0)
    case JStr(s) =>
      (match ParseDecimal(Trim(s))
       case Some(x) => Success(x)
       case None => Failure("could not convert string to float"))
    case JNull => Failure("float() argument must be a string or a real number")
    case JOther => Failure("float() argument must be a string or a real number")
  }

  /** Python `int(v)` on a decoded JSON value: a number is truncated, a string must be an integer literal. */
  function PyInt(v: Json): (r: Result<int, string>)
    ensures v.JNum? ==> r == Success(Truncate(v.n))
    ensures v.JNull? || v.JOther? ==> r.Failure?
    ensures v.JBool? ==> r == Success(if v.b then 1 else 0)
    ensures v.JStr? ==> (r.Success? <==> ParseInteger(Trim(v.s)).Some?)
    ensures v.JStr? && r.Success? ==> r.value == ParseInteger(Trim(v.s)).value
  {
    match v
    case JNum(n) => Success(Truncate(n))
    case JBool(b) => Success(if b then 1 else 0)
    case JStr(s) =>
      (match ParseInteger(Trim(s))
       case Some(k) => Success(k)
       case None => Failure("invalid literal for int()"))
    case JNull => Failure("int() argument must be a string or a real number")
    case JOther => Failure("int() argument must be a string or a real number")
  }

  /** JavaScript `Number(s)`: a blank string is 0, a literal its value, anything else NaN. */
  function JsNumber(s: string): (r: JsNum)
    ensures Trim(s) == [] ==> r == Fin(0.0)
    ensures Trim(s) != [] ==> (r.Fin? <==> ParseDecimal(Trim(s)).Some?)
    ensures Trim(s) != [] && r.Fin? ==> r.v == ParseDecimal(Trim(s)).value
  {
    var t := Trim(s);
    if t == [] then Fin(0.0)
    else match ParseDecimal(t)
      case Some(x) => Fin(x)
      case None => NaN
  }

  /** JavaScript `parseFloat(s)`: the longest decimal literal after leading blanks, else NaN. */
  function JsParseFloat(s: string): (r: JsNum)
    ensures r.Fin? <==> ScanDecimal(TrimStart(s)).ok
  {
    var sc := ScanDecimal(TrimStart(s));
    if sc.ok then Fin(sc.value) else NaN
  }

  /**
   * `parseFloat` on a `[+-] digits . digits` literal, after leading blanks and
   * before text that does not start with a digit, is the literal's reference
   * value: `parseFloat(" 1.5kg") == 1.5`.
   */
  lemma JsParseFloatPointed(s: string, lit: string, sign: string, intDs: string, fracDs: string, rest: string)
    requires sign == "" || sign == "+" || sign == "-"
    requires AllDigits(intDs) && AllDigits(fracDs) && |intDs| + |fracDs| > 0
    requires lit == sign + intDs + "." + fracDs
    requires rest == [] || !IsDigit(rest[0])
    requires TrimStart(s) == lit + rest
    ensures AllDigits(intDs + fracDs)
    ensures JsParseFloat(s) == Fin(DecimalReference(sign, intDs, fracDs))
  {
    ScanPointedLiteral(lit, sign, intDs, fracDs, rest);
    PointValueIsReference(sign, intDs, fracDs);
  }

  /**
   * `parseFloat` on a `[+-] digits` literal, after leading blanks and before
   * text that starts with neither a digit nor a point, is its signed value:
   * `parseFloat("12px") == 12`.
   */
  lemma JsParseFloatWhole(s: string, lit: string, sign: string, ds: string, rest: string)
    requires sign == "" || sign == "+" || sign == "-"
    requires AllDigits(ds) && ds != []
    requires lit == sign + ds
    requires rest == [] || (!IsDigit(rest[0]) && rest[0] != '.')
    requires TrimStart(s) == lit + rest
    ensures JsParseFloat(s) == Fin(Signed(sign, DigitsValue(ds) as real))
  {
    ScanWholeLiteral(lit, sign, ds, rest);
  }

  /** JavaScript `parseInt(s)`: the longest `[+-]digits` prefix after leading blanks; None stands for NaN. */
  function JsParseInt(s: string): (r: Option<int>)
    ensures var t := TrimStart(s);
            var a := if t != [] && (t[0] == '-' || t[0] == '+') then t[1..] else t;
            r.Some? <==> a != [] && IsDigit(a[0])
    ensures r.Some? && r.value < 0 ==> TrimStart(s)[0] == '-'
  {
    var t := TrimStart(s);
    var neg := t != [] && t[0] == '-';
    var a := if t != [] && (t[0] == '-' || t[0] == '+') then t[1..] else t;
    var (ds, _) := DigitPrefix(a);
    if ds == [] then None else Some(if neg then -(DigitsValue(ds) as int) else DigitsValue(ds))
  }

  /** parseInt reads back the rendering of a natural number. */
  lemma JsParseIntShowNat(n: nat)
    ensures JsParseInt(ShowNat(n)) == Some(n)
  {
    JsParseIntDigits(ShowNat(n));
    ShowNatRoundTrip(n);
  }

  /** parseInt reads a string of digits as its value. */
  lemma JsParseIntDigits(ds: string)
    requires AllDigits(ds) && ds != []
    ensures JsParseInt(ds) == Some(DigitsValue(ds))
  {
    assert IsDigit(ds[0]);
    assert TrimStart(ds) == ds;
    DigitPrefixOfDigits(ds);
  }

  /** A blank form field is NaN for parseFloat, so `parseFloat(x) || 0` turns it into 0. */
  lemma BlankParsesToNaN(s: string)
    requires TrimStart(s) == []
    ensures JsParseFloat(s) == NaN && JsParseInt(s) == None
  {
  }
}
