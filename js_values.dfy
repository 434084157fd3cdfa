/** JavaScript value semantics that the scoring and valuation code relies on:
    Math.round, truthiness, property lookup on parsed JSON, parseInt and
    Number() on strings, String.prototype.split, Array.prototype.join and the
    decimal spelling of integral numbers used as object keys.
    Finite numbers are exact reals; NaN and the two infinities are tags. */
module JsValues {

  datatype Option<+T> = None | Some(value: T)

  /** A JavaScript number. */
  datatype JsNumber = Finite(value: real) | PosInfinity | NegInfinity | NaN

  /** A value produced by JSON.parse (JSON has no NaN and no infinities).
      Object fields are kept in textual order. */
  datatype Json =
    | JNull
    | JBool(b: bool)
    | JNumber(n: real)
    | JString(s: string)
    | JArray(items: seq<Json>)
    | JObject(fields: seq<(string, Json)>)

  // ---------------------------------------------------------------- numbers

  /** Math.round: the nearest integer, a half rounded towards +infinity. */
  function Round(x: real): (r: int)
    ensures r as real - 0.5 <= x < r as real + 0.5
  {
    (x + 0.5).Floor
  }

  lemma RoundMonotone(x: real, y: real)
    requires x <= y
    ensures Round(x) <= Round(y)
  {
  }

  lemma RoundOfInteger(n: int)
    ensures Round(n as real) == n
  {
  }

  /** Scaling by a non-negative factor keeps the order. */
  lemma ScaleLe(e: real, x: real, y: real)
    requires 0.0 <= e && x <= y
    ensures e * x <= e * y
  {
    MultiplyNonNegative(e, y - x);
    assert e * (y - x) == e * y - e * x;
  }

  lemma MultiplyNonNegative(x: real, y: real)
    requires 0.0 <= x && 0.0 <= y
    ensures 0.0 <= x * y
  {
  }

  /** Truncation towards zero: what parseInt reads from the decimal spelling of a number. */
  function Trunc(x: real): (r: int)
    ensures 0.0 <= x ==> 0 <= r && r as real <= x < r as real + 1.0
    ensures x < 0.0 ==> r <= 0 && r as real - 1.0 < x <= r as real
  {
    if x >= 0.0 then x.Floor else -((-x).Floor)
  }

  function Min(x: real, y: real): (r: real)
  {
    if x <= y then x else y
  }

  /** `x || d` for an optional number: undefined and 0 both give the default. */
  function OrDefault(x: Option<real>, default: real): (r: real)
    ensures r != 0.0 || default == 0.0
    ensures x.None? || x.value == 0.0 ==> r == default
    ensures x.Some? && x.value != 0.0 ==> r == x.value
  {
    if x.Some? && x.value != 0.0 then x.value else default
  }

  /** `n || d` for the result of parseInt: NaN (None) and 0 both give the default. */
  function IntOrDefault(n: Option<int>, default: int): (r: int)
    ensures r != 0 || default == 0
    ensures n.None? || n.value == 0 ==> r == default
    ensures n.Some? && n.value != 0 ==> r == n.value
  {
    if n.Some? && n.value != 0 then n.value else default
  }

  /** The comparison `x >= n` for a finite x; any comparison with NaN is false. */
  predicate AtLeast(x: real, n: JsNumber)
  {
    match n
    case Finite(v) => x >= v
    case PosInfinity => false
    case NegInfinity => true
    case NaN => false
  }

  /** The comparison `x <= n` for a finite x. */
  predicate AtMost(x: real, n: JsNumber)
  {
    match n
    case Finite(v) => x <= v
    case PosInfinity => true
    case NegInfinity => false
    case NaN => false
  }

  function Pow10(k: nat): (r: real)
    ensures r >= 1.0
  {
    if k == 0 then 1.0 else 10.0 * Pow10(k - 1)
  }

  /** 10 raised to a signed exponent. */
  function Power10(k: int): (r: real)
    ensures r > 0.0
  {
    if k >= 0 then Pow10(k) else 1.0 / Pow10(-k)
  }

  // ------------------------------------------------------------ characters

  /** ECMAScript WhiteSpace and LineTerminator code points: what trimming and
      parseInt skip. */
  predicate IsWhiteSpace(c: char)
  {
    || c == '\t' || c == '\U{B}' || c == '\U{C}' || c == ' ' || c == '\U{A0}' || c == '\U{FEFF}'
    || c == '\U{1680}' || ('\U{2000}' <= c <= '\U{200A}') || c == '\U{202F}' || c == '\U{205F}'
    || c == '\U{3000}'
    || c == '\n' || c == '\r' || c == '\U{2028}' || c == '\U{2029}'
  }

  /** The value of c as a digit in the given radix, if it is one. */
  function DigitValue(c: char, radix: nat): (r: Option<nat>)
    ensures r.Some? ==> r.value < radix
  {
    var d: int :=
      if '0' <= c <= '9' then c as int - '0' as int
      else if 'a' <= c <= 'z' then c as int - 'a' as int + 10
      else if 'A' <= c <= 'Z' then c as int - 'A' as int + 10
      else radix;
    if 0 <= d < radix then Some(d) else None
  }

  predicate IsDigit(c: char, radix: nat)
  {
    DigitValue(c, radix).Some?
  }

  predicate AllDigits(s: string, radix: nat)
  {
    forall i :: 0 <= i < |s| ==> IsDigit(s[i], radix)
  }

  function DigitChar(d: nat): (c: char)
    requires d < 10
    ensures DigitValue(c, 10) == Some(d)
  {
    ('0' as int + d) as char
  }

  // -------------------------------------------------------------- strings

  /** The string with its leading white space removed. */
  function TrimStart(s: string): (r: string)
  {
    if s != [] && IsWhiteSpace(s[0]) then TrimStart(s[1..]) else s
  }

  /** The string with its trailing white space removed. */
  function TrimEnd(s: string): (r: string)
  {
    if s != [] && IsWhiteSpace(s[|s| - 1]) then TrimEnd(s[..|s| - 1]) else s
  }

  /** The index of the first character of s that is in chars, or |s| if there is none. */
  function FirstIndex(s: string, chars: set<char>): (r: nat)
    ensures r <= |s|
  {
    if s == [] || s[0] in chars then 0 else 1 + FirstIndex(s[1..], chars)
  }

  lemma {:induction false} FirstIndexAbsent(s: string, chars: set<char>)
    requires forall i :: 0 <= i < |s| ==> s[i] !in chars
    ensures FirstIndex(s, chars) == |s|
    decreases |s|
  {
    if s != [] {
      FirstIndexAbsent(s[1..], chars);
    }
  }

  lemma {:induction false} FirstIndexSpec(s: string, chars: set<char>)
    ensures forall i :: 0 <= i < FirstIndex(s, chars) ==> s[i] !in chars
    ensures FirstIndex(s, chars) < |s| ==> s[FirstIndex(s, chars)] in chars
    decreases |s|
  {
    if s != [] && s[0] !in chars {
      FirstIndexSpec(s[1..], chars);
    }
  }

  /** String.prototype.split with a one-character separator. */
  function Split(s: string, sep: char): (parts: seq<string>)
    ensures |parts| >= 1
    decreases |s|
  {
    var i := FirstIndex(s, {sep});
    if i == |s| then [s] else [s[..i]] + Split(s[i + 1..], sep)
  }

  /** Array.prototype.join: also what String() and Number() make of an array of strings. */
  function Join(items: seq<string>, sep: string): (r: string)
  {
    if items == [] then ""
    else if |items| == 1 then items[0]
    else Join(items[..|items| - 1], sep) + sep + items[|items| - 1]
  }

  // ------------------------------------------------------ digit sequences

  /** The value of a sequence of digits in the given radix, most significant first. */
  function DigitsValue(z: string, radix: nat): (r: nat)
    requires AllDigits(z, radix)
  {
    if z == [] then 0
    else DigitsValue(z[..|z| - 1], radix) * radix + DigitValue(z[|z| - 1], radix).value
  }

  /** The longest prefix of s made of digits of the radix. */
  function DigitPrefix(s: string, radix: nat): (z: string)
    ensures |z| <= |s| && z == s[..|z|]
    ensures AllDigits(z, radix)
    ensures |z| == |s| || !IsDigit(s[|z|], radix)
  {
    if s != [] && IsDigit(s[0], radix) then [s[0]] + DigitPrefix(s[1..], radix) else []
  }

  /** The decimal spelling of a natural number, without leading zeros. */
  function NatToString(n: nat): (s: string)
    ensures |s| > 0 && AllDigits(s, 10)
    decreases n
  {
    if n < 10 then [DigitChar(n)] else NatToString(n / 10) + [DigitChar(n % 10)]
  }

  /** The decimal spelling of an integer, with a leading '-' when it is negative. */
  function IntToString(n: int): (s: string)
    ensures |s| > 0
  {
    if n < 0 then "-" + NatToString(-n) else NatToString(n)
  }

  lemma {:induction false} NatToStringValue(n: nat)
    ensures DigitsValue(NatToString(n), 10) == n
    decreases n
  {
    var s := NatToString(n);
    if n >= 10 {
      NatToStringValue(n / 10);
      assert s[..|s| - 1] == NatToString(n / 10);
    }
  }

  /** A spelling starts with '0' only for zero itself. */
  lemma {:induction false} NatToStringLeadingDigit(n: nat)
    ensures NatToString(n)[0] == '0' ==> n == 0
    decreases n
  {
    if n >= 10 {
      NatToStringLeadingDigit(n / 10);
      assert NatToString(n)[0] == NatToString(n / 10)[0];
    }
  }

  lemma NoWhiteSpaceDigits(s: string)
    requires AllDigits(s, 10)
    ensures forall i :: 0 <= i < |s| ==> !IsWhiteSpace(s[i]) && s[i] != '-' && s[i] != '.'
    ensures forall i :: 0 <= i < |s| ==> s[i] != 'e' && s[i] != 'E' && s[i] != '+'
  {
  }

  // -------------------------------------------------------------- parseInt

  /** parseInt(s) without a radix argument; None stands for NaN. Leading white space
      is skipped, one sign is read, and the rest is read by ParseUnsigned. */
  function ParseInt(s: string): (r: Option<int>)
  {
    ParseSigned(TrimStart(s))
  }

  /** parseInt after the white space: one optional sign, then ParseUnsigned. */
  function ParseSigned(t: string): (r: Option<int>)
  {
    var negative := t != [] && t[0] == '-';
    var u := if t != [] && (t[0] == '-' || t[0] == '+') then t[1..] else t;
    match ParseUnsigned(u)
    case None => None
    case Some(v) =>
      var w: int := v;
      Some(if negative then -w else w)
  }

  /** The unsigned part of parseInt: a "0x"/"0X" prefix selects radix 16, and the
      longest run of digits that follows is the value. */
  function ParseUnsigned(u: string): (r: Option<nat>)
  {
    var hex := |u| >= 2 && u[0] == '0' && (u[1] == 'x' || u[1] == 'X');
    var radix := if hex then 16 else 10;
    var z := DigitPrefix(if hex then u[2..] else u, radix);
    if z == [] then None else Some(DigitsValue(z, radix))
  }

  /** `parseInt(s) || d` */
  function ParseIntOr(s: string, default: int): (r: int)
  {
    IntOrDefault(ParseInt(s), default)
  }

  lemma {:induction false} TrimStartOfPrefix(ws: string, s: string)
    requires forall i :: 0 <= i < |ws| ==> IsWhiteSpace(ws[i])
    requires s != [] && !IsWhiteSpace(s[0])
    ensures TrimStart(ws + s) == s
    decreases |ws|
  {
    if ws == [] {
      assert ws + s == s;
    } else {
      assert (ws + s)[0] == ws[0];
      assert (ws + s)[1..] == ws[1..] + s;
      TrimStartOfPrefix(ws[1..], s);
    }
  }

  lemma {:induction false} DigitPrefixOfDigits(z: string, rest: string, radix: nat)
    requires AllDigits(z, radix)
    requires rest == [] || !IsDigit(rest[0], radix)
    ensures DigitPrefix(z + rest, radix) == z
    decreases |z|
  {
    if z == [] {
    } else {
      assert (z + rest)[1..] == z[1..] + rest;
      DigitPrefixOfDigits(z[1..], rest, radix);
    }
  }

  lemma ParseUnsignedOfSpelling(m: nat, rest: string)
    requires rest == [] || (!IsDigit(rest[0], 10) && rest[0] != 'x' && rest[0] != 'X')
    ensures ParseUnsigned(NatToString(m) + rest) == Some(m)
  {
    var digits := NatToString(m);
    var u := digits + rest;
    NatToStringValue(m);
    NatToStringLeadingDigit(m);
    DigitPrefixOfDigits(digits, rest, 10);
    if |u| >= 2 && u[0] == '0' {
      assert u[1] == rest[0];
    }
  }

  lemma ParseSignedOfMinus(u: string, m: nat)
    requires ParseUnsigned(u) == Some(m)
    ensures ParseSigned(['-'] + u) == Some(-(m as int))
  {
    var t := ['-'] + u;
    assert t[0] == '-' && t[1..] == u;
  }

  lemma ParseSignedOfUnsigned(u: string, m: nat)
    requires ParseUnsigned(u) == Some(m)
    requires u != [] && u[0] != '-' && u[0] != '+'
    ensures ParseSigned(u) == Some(m)
  {
  }

  lemma ParseSignedOfSpelling(n: int, rest: string)
    requires rest == [] || (!IsDigit(rest[0], 10) && rest[0] != 'x' && rest[0] != 'X')
    ensures ParseSigned(IntToString(n) + rest) == Some(n)
  {
    var m: nat := if n < 0 then -n else n;
    var u := NatToString(m) + rest;
    ParseUnsignedOfSpelling(m, rest);
    if n < 0 {
      assert IntToString(n) + rest == ['-'] + u;
      ParseSignedOfMinus(u, m);
    } else {
      assert IntToString(n) + rest == u;
      assert u[0] == NatToString(m)[0];
      NoWhiteSpaceDigits(NatToString(m));
      ParseSignedOfUnsigned(u, m);
    }
  }

  /** parseInt skips leading white space, reads the decimal spelling of an integer
      and stops at the first character that cannot continue it. */
  lemma ParseIntOfSpelling(ws: string, n: int, rest: string)
    requires forall i :: 0 <= i < |ws| ==> IsWhiteSpace(ws[i])
    requires rest == [] || (!IsDigit(rest[0], 10) && rest[0] != 'x' && rest[0] != 'X')
    ensures ParseInt(ws + IntToString(n) + rest) == Some(n)
  {
    var t := IntToString(n) + rest;
    assert ws + IntToString(n) + rest == ws + t;
    assert !IsWhiteSpace(t[0]) by {
      var m: nat := if n < 0 then -n else n;
      NoWhiteSpaceDigits(NatToString(m));
      assert t[0] == IntToString(n)[0];
    }
    TrimStartOfPrefix(ws, t);
    ParseSignedOfSpelling(n, rest);
  }

  lemma ParseIntOfIntToString(n: int)
    ensures ParseInt(IntToString(n)) == Some(n)
  {
    ParseIntOfSpelling("", n, "");
    assert "" + IntToString(n) + "" == IntToString(n);
  }

  // ---------------------------------------------------------------- Number

  /** SignedInteger of the numeric-string grammar: an optional sign and at least one digit. */
  function SignedInteger(x: string): (r: Option<int>)
  {
    var negative := x != [] && x[0] == '-';
    var digits := if x != [] && (x[0] == '+' || x[0] == '-') then x[1..] else x;
    if digits == [] || !AllDigits(digits, 10) then None
    else
      var v: int := DigitsValue(digits, 10);
      Some(if negative then -v else v)
  }

  /** StrUnsignedDecimalLiteral other than "Infinity": digits with an optional
      fraction (at least one digit in all) and an optional exponent. */
  function UnsignedDecimal(u: string): (r: Option<real>)
  {
    var e := FirstIndex(u, {'e', 'E'});
    var mantissa := u[..e];
    var exponent := if e < |u| then SignedInteger(u[e + 1..]) else Some(0);
    var d := FirstIndex(mantissa, {'.'});
    var whole := mantissa[..d];
    var fraction := if d < |mantissa| then mantissa[d + 1..] else [];
    if exponent.None? || (whole == [] && fraction == []) || !AllDigits(whole, 10) || !AllDigits(fraction, 10)
    then None
    else
      Some((DigitsValue(whole, 10) as real + DigitsValue(fraction, 10) as real / Pow10(|fraction|))
           * Power10(exponent.value))
  }

  /** Number(s) for a string: white space around the literal is ignored, the empty
      string is 0, "0x"/"0o"/"0b" prefixes give unsigned integers in radix 16/8/2,
      otherwise an optionally signed decimal literal or Infinity; anything else is NaN. */
  function StringToNumber(s: string): (r: JsNumber)
  {
    var t := TrimEnd(TrimStart(s));
    if t == [] then Finite(0.0)
    else if |t| >= 2 && t[0] == '0' && t[1] in {'x', 'X', 'o', 'O', 'b', 'B'} then
      var radix := if t[1] in {'x', 'X'} then 16 else if t[1] in {'o', 'O'} then 8 else 2;
      var body := t[2..];
      if body != [] && AllDigits(body, radix) then Finite(DigitsValue(body, radix) as real) else NaN
    else
      var negative := t[0] == '-';
      var u := if t[0] == '-' || t[0] == '+' then t[1..] else t;
      if u == "Infinity" then (if negative then NegInfinity else PosInfinity)
      else match UnsignedDecimal(u)
        case Some(v) => Finite(if negative then -v else v)
        case None => NaN
  }

  lemma UnsignedDecimalOfDigits(z: string)
    requires z != [] && AllDigits(z, 10)
    ensures UnsignedDecimal(z) == Some(DigitsValue(z, 10) as real)
  {
    NoWhiteSpaceDigits(z);
    FirstIndexAbsent(z, {'e', 'E'});
    assert z[..|z|] == z;
    FirstIndexAbsent(z, {'.'});
    var v := DigitsValue(z, 10) as real;
    assert DigitsValue([], 10) == 0;
    assert Pow10(0) == 1.0 && Power10(0) == 1.0;
    assert (v + 0 as real / Pow10(0)) * Power10(0) == v;
  }

  /** Number() reads back the decimal spelling of every integer. */
  lemma StringToNumberOfIntToString(n: int)
    ensures StringToNumber(IntToString(n)) == Finite(n as real)
  {
    var m: nat := if n < 0 then -n else n;
    var digits := NatToString(m);
    NoWhiteSpaceDigits(digits);
    NatToStringValue(m);
    NatToStringLeadingDigit(m);
    var s := IntToString(n);
    assert !IsWhiteSpace(s[0]);
    assert TrimStart(s) == s;
    assert !IsWhiteSpace(s[|s| - 1]);
    assert TrimEnd(s) == s;
    UnsignedDecimalOfDigits(digits);
    if n < 0 {
      assert s[1..] == digits;
      assert s[0] == '-';
    } else {
      assert digits[0] != '+' && digits[0] != '-';
    }
    assert digits != "Infinity" by {
      assert IsDigit(digits[0], 10);
      assert !IsDigit('I', 10);
    }
  }

  lemma {:induction false} FirstIndexAfter(x: string, rest: string, chars: set<char>)
    requires forall i :: 0 <= i < |x| ==> x[i] !in chars
    ensures FirstIndex(x + rest, chars) == |x| + FirstIndex(rest, chars)
    decreases |x|
  {
    if x != [] {
      assert (x + rest)[1..] == x[1..] + rest;
      FirstIndexAfter(x[1..], rest, chars);
    } else {
      assert x + rest == rest;
    }
  }

  /** Splitting "x-y" on '-' when neither part holds a '-' gives back the two parts. */
  lemma SplitTwo(x: string, y: string, sep: char)
    requires sep !in x && sep !in y
    ensures Split(x + [sep] + y, sep) == [x, y]
  {
    var s := x + [sep] + y;
    FirstIndexAfter(x, [sep] + y, {sep});
    assert s == x + ([sep] + y);
    assert FirstIndex(s, {sep}) == |x|;
    assert s[..|x|] == x;
    assert s[|x| + 1..] == y;
    FirstIndexAbsent(y, {sep});
  }

  // --------------------------------------------------------- keys and JSON

  /** Number.prototype.toString as an object key, for the integral values below
      10^21 that print in plain decimal; None for the others, whose spelling
      (a fraction or an exponent) is matched against no key in this model. */
  function NumberKey(x: real): (r: Option<string>)
  {
    if x.Floor as real == x && -1000000000000000000000.0 < x < 1000000000000000000000.0 then
      Some(IntToString(x.Floor))
    else None
  }

  /** A key spelled from a number reads back as that number. */
  lemma NumberKeyReadsBack(x: real)
    ensures NumberKey(x).Some? ==> StringToNumber(NumberKey(x).value) == Finite(x)
  {
    if NumberKey(x).Some? {
      StringToNumberOfIntToString(x.Floor);
    }
  }

  /** JavaScript truthiness of a possibly undefined (None) JSON value. */
  predicate Truthy(v: Option<Json>)
  {
    match v
    case None => false
    case Some(j) =>
      match j
      case JNull => false
      case JBool(b) => b
      case JNumber(n) => n != 0.0
      case JString(s) => s != ""
      case JArray(_) => true
      case JObject(_) => true
  }

  /** The value of the last field named key (JSON.parse keeps the last duplicate). */
  function Lookup(fields: seq<(string, Json)>, key: string): (r: Option<Json>)
  {
    if fields == [] then None
    else if fields[|fields| - 1].0 == key then Some(fields[|fields| - 1].1)
    else Lookup(fields[..|fields| - 1], key)
  }

  /** A lookup finds a field of that name, or there is none. */
  lemma {:induction false} LookupSpec(fields: seq<(string, Json)>, key: string)
    ensures Lookup(fields, key).Some? ==>
      exists i :: 0 <= i < |fields| && fields[i] == (key, Lookup(fields, key).value)
    ensures Lookup(fields, key).None? ==> forall i :: 0 <= i < |fields| ==> fields[i].0 != key
    decreases |fields|
  {
    if fields != [] && fields[|fields| - 1].0 != key {
      var init := fields[..|fields| - 1];
      LookupSpec(init, key);
      if Lookup(fields, key).Some? {
        var i :| 0 <= i < |init| && init[i] == (key, Lookup(init, key).value);
        assert fields[i] == init[i];
      }
    }
  }

  /** A field that no later field shadows is what a lookup of its name finds. */
  lemma {:induction false} LookupLast(fields: seq<(string, Json)>, i: nat)
    requires i < |fields|
    requires forall j :: i < j < |fields| ==> fields[j].0 != fields[i].0
    ensures Lookup(fields, fields[i].0) == Some(fields[i].1)
    decreases |fields|
  {
    if i < |fields| - 1 {
      LookupLast(fields[..|fields| - 1], i);
    }
  }

  /** Property access `j.key`: fields of an object; nothing on other values. */
  function Get(j: Json, key: string): (r: Option<Json>)
  {
    match j
    case JObject(fields) => Lookup(fields, key)
    case _ => None
  }
}
