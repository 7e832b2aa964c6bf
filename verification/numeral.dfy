/**
 * Decimal text: the digit-level helpers behind the weight field of the quote form.
 * Models what the estimator relies on from the JavaScript runtime: `String.prototype.replace`
 * with a one-character pattern (only the first match is replaced), `parseFloat` (the longest
 * numeric prefix after leading white space) and the decimal rendering of a whole number inside
 * a template literal.
 */
module Numeral {
  import opened Base

  predicate IsDigit(c: char) {
    '0' <= c <= '9'
  }

  predicate AllDigits(s: string) {
    forall i :: 0 <= i < |s| ==> IsDigit(s[i])
  }

  function DigitValue(c: char): (d: nat)
    requires IsDigit(c)
    ensures d < 10
  {
    c as int - '0' as int
  }

  function DigitChar(d: nat): (c: char)
    requires d < 10
    ensures IsDigit(c) && DigitValue(c) == d
  {
    ('0' as int + d) as char
  }

  function Pow10(k: nat): (p: nat)
    ensures p >= 1
  {
    if k == 0 then 1 else 10 * Pow10(k - 1)
  }

  /** The number a run of decimal digits denotes, most significant digit first. */
  function DigitsValue(ds: string): (v: nat)
    requires AllDigits(ds)
    ensures v < Pow10(|ds|)
    decreases |ds|
  {
    if ds == [] then 0
    else
      var init := ds[..|ds| - 1];
      assert AllDigits(init);
      DigitsValue(init) * 10 + DigitValue(ds[|ds| - 1])
  }

  /** The length of the run of digits that starts `s`. */
  function LeadingDigits(s: string): (n: nat)
    ensures n <= |s|
    ensures AllDigits(s[..n])
    ensures n < |s| ==> !IsDigit(s[n])
  {
    if s != [] && IsDigit(s[0]) then
      var n := 1 + LeadingDigits(s[1..]);
      assert s[..n] == [s[0]] + s[1..][..n - 1];
      n
    else 0
  }

  /** Decimal rendering of a whole number, as `${n}` prints it: no sign, no leading zero. */
  function NatToString(n: nat): (s: string)
    ensures |s| >= 1 && AllDigits(s)
    ensures s[0] == '0' ==> s == "0"
  {
    if n < 10 then [DigitChar(n)] else NatToString(n / 10) + [DigitChar(n % 10)]
  }

  /** The renderings of the whole weights used in the worked examples. */
  lemma ExampleRenderings()
    ensures NatToString(0) == "0" && NatToString(5) == "5"
    ensures NatToString(100) == "100" && NatToString(200) == "200"
    ensures NatToString(500) == "500" && NatToString(1000) == "1000"
  {
  }

  /** `s.replace(from, to)` for a one-character `from`: only the first occurrence changes. */
  function ReplaceFirst(s: string, from: char, to: char): (r: string)
    ensures |r| == |s|
    ensures forall i :: 0 <= i < |s| ==> r[i] == (if s[i] == from && from !in s[..i] then to else s[i])
  {
    if s == [] then []
    else if s[0] == from then [to] + s[1..]
    else
      var r := [s[0]] + ReplaceFirst(s[1..], from, to);
      assert forall i :: 1 <= i < |s| ==> s[..i] == [s[0]] + s[1..][..i - 1];
      r
  }

  /** Text without the character is left as it is. */
  lemma ReplaceFirstAbsent(s: string, from: char, to: char)
    requires from !in s
    ensures ReplaceFirst(s, from, to) == s
  {
  }

  /** The first occurrence is the one replaced; whatever follows it is kept as it is. */
  lemma {:induction false} ReplaceFirstOccurrence(pre: string, from: char, to: char, post: string)
    requires from !in pre
    ensures ReplaceFirst(pre + [from] + post, from, to) == pre + [to] + post
  {
    if pre != [] {
      assert (pre + [from] + post)[1..] == pre[1..] + [from] + post;
      ReplaceFirstOccurrence(pre[1..], from, to, post);
    } else {
      assert pre + [from] + post == [from] + post;
    }
  }

  /**
   * White space that `parseFloat` skips before the number: the ECMAScript white-space and
   * line-terminator code points.
   */
  predicate IsJsWhitespace(c: char) {
    c == '\t' || c == '\n' || c == '\U{000B}' || c == '\U{000C}' || c == '\r' || c == ' '
    || c == '\U{00A0}' || c == '\U{1680}' || ('\U{2000}' <= c <= '\U{200A}')
    || c == '\U{2028}' || c == '\U{2029}' || c == '\U{202F}' || c == '\U{205F}'
    || c == '\U{3000}' || c == '\U{FEFF}'
  }

  function TrimStart(s: string): (r: string)
    ensures |r| <= |s| && r == s[|s| - |r|..]
    ensures forall i :: 0 <= i < |s| - |r| ==> IsJsWhitespace(s[i])
    ensures r != [] ==> !IsJsWhitespace(r[0])
  {
    if s != [] && IsJsWhitespace(s[0]) then TrimStart(s[1..]) else s
  }

  /** Ten to the power the leading digits of `w` denote; 1 when `w` does not start with a digit. */
  function PowerOfDigits(w: string): (p: real)
    ensures p >= 1.0
  {
    var k := LeadingDigits(w);
    if k == 0 then 1.0 else Pow10(DigitsValue(w[..k])) as real
  }

  /** The factor an exponent suffix `e±ddd` contributes; text that is not a complete exponent contributes 1. */
  function ExponentScale(tail: string): (scale: real)
    ensures scale > 0.0
    ensures tail == [] || tail[0] !in "eE" ==> scale == 1.0
  {
    if tail != [] && (tail[0] == 'e' || tail[0] == 'E') then
      var v := tail[1..];
      if v != [] && v[0] == '-' then 1.0 / PowerOfDigits(v[1..])
      else if v != [] && v[0] == '+' then PowerOfDigits(v[1..])
      else PowerOfDigits(v)
    else 1.0
  }

  /** A digit run followed by a non-digit is worth ten to the run's value. */
  lemma PowerOfRun(ds: string, junk: string)
    requires |ds| > 0 && AllDigits(ds) && (junk == [] || !IsDigit(junk[0]))
    ensures PowerOfDigits(ds + junk) == Pow10(DigitsValue(ds)) as real
  {
    LeadingDigitsOfRun(ds, junk);
    assert (ds + junk)[..|ds|] == ds;
  }

  /** After an `e` or `E`, a minus divides by, a plus or nothing multiplies by, the power of the digits. */
  lemma ScaleAfterMarker(marker: char, v: string)
    requires marker in "eE"
    ensures ExponentScale([marker] + v)
         == if v != [] && v[0] == '-' then 1.0 / PowerOfDigits(v[1..])
            else if v != [] && v[0] == '+' then PowerOfDigits(v[1..])
            else PowerOfDigits(v)
  {
    assert ([marker] + v)[1..] == v;
  }

  /** `e`, an optional `+`, then digits: the number is scaled by ten to the power the digits denote. */
  lemma ExponentUp(marker: char, sign: string, ds: string, junk: string)
    requires marker in "eE" && (sign == "" || sign == "+")
    requires |ds| > 0 && AllDigits(ds) && (junk == [] || !IsDigit(junk[0]))
    ensures ExponentScale([marker] + sign + ds + junk) == Pow10(DigitsValue(ds)) as real
  {
    var v := sign + (ds + junk);
    assert [marker] + sign + ds + junk == [marker] + v;
    ScaleAfterMarker(marker, v);
    if sign == "+" {
      assert v[0] == '+' && v[1..] == ds + junk;
    } else {
      assert v == ds + junk && IsDigit(v[0]);
    }
    PowerOfRun(ds, junk);
  }

  /** `e-` then digits: the number is divided by ten to the power the digits denote. */
  lemma ExponentDown(marker: char, ds: string, junk: string)
    requires marker in "eE"
    requires |ds| > 0 && AllDigits(ds) && (junk == [] || !IsDigit(junk[0]))
    ensures ExponentScale([marker] + "-" + ds + junk) == 1.0 / Pow10(DigitsValue(ds)) as real
  {
    assert [marker] + "-" + ds + junk == [marker] + "-" + (ds + junk);
    PowerOfRun(ds, junk);
    ScaleAfterMinus(marker, ds + junk, Pow10(DigitsValue(ds)) as real);
  }

  /** After `e-` or `E-`, the scale is the reciprocal of the power `p` the following digits name. */
  lemma ScaleAfterMinus(marker: char, w: string, p: real)
    requires marker in "eE" && PowerOfDigits(w) == p
    ensures ExponentScale([marker] + "-" + w) == 1.0 / p
  {
    var v := "-" + w;
    assert [marker] + "-" + w == [marker] + v;
    ScaleAfterMarker(marker, v);
    assert v[1..] == w;
  }

  /** A marker with no digit after it (and its sign) is no exponent: the scale is 1. */
  lemma ExponentWithoutDigits(marker: char, sign: string, junk: string)
    requires marker in "eE" && (sign == "" || sign == "+" || sign == "-")
    requires junk == [] || !(IsDigit(junk[0]) || junk[0] in "+-")
    ensures ExponentScale([marker] + sign + junk) == 1.0
  {
    var v := sign + junk;
    assert [marker] + sign + junk == [marker] + v;
    ScaleAfterMarker(marker, v);
    assert sign != [] ==> v[1..] == junk;
  }

  /** The pieces of a numeric prefix: whole-part digits, fraction digits, and the text after them. */
  datatype Mantissa = Mantissa(whole: string, fraction: string, tail: string)

  /**
   * Splits `u` into the longest `digits [. digits]` prefix and the rest: the whole part is the
   * maximal leading digit run; a point right after it opens a maximal fraction run, otherwise
   * the fraction is empty; the tail is everything after the prefix.
   */
  function ScanMantissa(u: string): (m: Mantissa)
    ensures AllDigits(m.whole) && AllDigits(m.fraction)
    ensures |m.whole| < |u| ==> !IsDigit(u[|m.whole|])
    ensures if |m.whole| < |u| && u[|m.whole|] == '.'
      then u == m.whole + "." + m.fraction + m.tail
      else m.fraction == [] && u == m.whole + m.tail
    ensures m.tail == [] || !IsDigit(m.tail[0])
  {
    var i := LeadingDigits(u);
    var rest := u[i..];
    if rest != [] && rest[0] == '.' then
      var f := LeadingDigits(rest[1..]);
      assert u == u[..i] + "." + rest[1..][..f] + rest[1 + f..];
      Mantissa(u[..i], rest[1..][..f], rest[1 + f..])
    else
      assert u == u[..i] + rest;
      Mantissa(u[..i], [], rest)
  }

  /** The exact value of `whole.fraction`. */
  function MantissaValue(m: Mantissa): real
    requires AllDigits(m.whole) && AllDigits(m.fraction)
  {
    DigitsValue(m.whole) as real + DigitsValue(m.fraction) as real / Pow10(|m.fraction|) as real
  }

  /**
   * `parseFloat(s)`: skips leading white space and reads the longest prefix of the form
   * [sign] digits [. digits] [exponent] (at least one digit in the mantissa); the rest of the
   * text is ignored. `None` stands for NaN.
   */
  function ParseFloat(s: string): Option<real> {
    ParseSigned(TrimStart(s))
  }

  /** Reads an optional sign, then the unsigned number after it. */
  function ParseSigned(t: string): Option<real> {
    if t != [] && t[0] == '-' then
      match ParseUnsigned(t[1..])
      case None => None
      case Some(x) => Some(-x)
    else if t != [] && t[0] == '+' then ParseUnsigned(t[1..])
    else ParseUnsigned(t)
  }

  /** Reads `digits [. digits] [exponent]`; `None` when the mantissa holds no digit. */
  function ParseUnsigned(u: string): Option<real> {
    var m := ScanMantissa(u);
    if |m.whole| + |m.fraction| == 0 then None
    else Some(Scaled(MantissaValue(m), m.tail))
  }

  /** A mantissa value `x` multiplied by the factor of the exponent suffix that starts `tail`. */
  function Scaled(x: real, tail: string): real {
    x * ExponentScale(tail)
  }

  /** Text that starts with a digit is read from its first character on. */
  lemma ParseFromDigit(s: string)
    requires s != [] && IsDigit(s[0])
    ensures ParseFloat(s) == ParseUnsigned(s)
  {
    TrimStartNonBlank(s);
    UnsignedWhenNoSign(s);
  }

  /** Text that does not start with a sign is read by the unsigned reader directly. */
  lemma UnsignedWhenNoSign(t: string)
    requires t == [] || t[0] !in "+-"
    ensures ParseSigned(t) == ParseUnsigned(t)
  {
  }

  /** A run of digits followed by text that cannot continue it is read exactly up to its end. */
  lemma {:induction false} LeadingDigitsOfRun(ds: string, rest: string)
    requires AllDigits(ds)
    requires rest == [] || !IsDigit(rest[0])
    ensures LeadingDigits(ds + rest) == |ds|
  {
    if ds != [] {
      assert (ds + rest)[1..] == ds[1..] + rest;
      LeadingDigitsOfRun(ds[1..], rest);
    }
  }

  /** Rendering a whole number and reading its digits back gives the number. */
  lemma {:induction false} NatToStringValue(n: nat)
    ensures DigitsValue(NatToString(n)) == n
  {
    if n >= 10 {
      NatToStringValue(n / 10);
      var s := NatToString(n);
      assert s[..|s| - 1] == NatToString(n / 10);
    }
  }

  /** The decimal rendering of whole numbers is injective. */
  lemma NatToStringInjective(m: nat, n: nat)
    requires NatToString(m) == NatToString(n)
    ensures m == n
  {
    NatToStringValue(m);
    NatToStringValue(n);
  }

  /** A number with no exponent suffix is read as the exact value of its mantissa. */
  lemma ParseWithoutExponent(u: string)
    requires |ScanMantissa(u).whole| > 0
    requires ScanMantissa(u).tail == [] || ScanMantissa(u).tail[0] !in "eE"
    ensures ParseUnsigned(u) == Some(MantissaValue(ScanMantissa(u)))
  {
    ParseScaled(u);
    ScaledByOne(MantissaValue(ScanMantissa(u)), ScanMantissa(u).tail);
  }

  /** Text that does not start an exponent leaves the mantissa value as it is. */
  lemma ScaledByOne(x: real, tail: string)
    requires tail == [] || tail[0] !in "eE"
    ensures Scaled(x, tail) == x
  {
  }

  /** The mantissa scan of `a.b` stops at the end of the text. */
  lemma ScanDecimal(a: string, b: string)
    requires AllDigits(a) && AllDigits(b)
    ensures ScanMantissa(a + "." + b) == Mantissa(a, b, [])
  {
    var s := a + ("." + b);
    assert a + "." + b == s;
    LeadingDigitsOfRun(a, "." + b);
    assert s[..|a|] == a && s[|a|..] == "." + b;
    LeadingDigitsOfRun(b, []);
    assert b + [] == b;
    assert ("." + b)[1..] == b && b[..|b|] == b && b[|b|..] == [];
  }

  /** The mantissa scan of a digit run stops where the digits do. */
  lemma ScanWhole(d: string, junk: string)
    requires AllDigits(d)
    requires junk == [] || (!IsDigit(junk[0]) && junk[0] != '.')
    ensures ScanMantissa(d + junk) == Mantissa(d, [], junk)
  {
    var s := d + junk;
    LeadingDigitsOfRun(d, junk);
    assert s[..|d|] == d && s[|d|..] == junk;
  }

  /** A plain decimal literal `a.b` is read as its exact value. */
  lemma ParseDecimal(a: string, b: string)
    requires |a| > 0 && AllDigits(a) && AllDigits(b)
    ensures ParseFloat(a + "." + b) == Some(MantissaValue(Mantissa(a, b, [])))
  {
    var s := a + "." + b;
    ScanDecimal(a, b);
    assert s[0] == a[0];
    ParseFromDigit(s);
    ParseWithoutExponent(s);
  }

  /**
   * `parseFloat` reads the decimal rendering of a whole number as that number, whatever text
   * that cannot continue a number follows it (so "150kg" is read as 150).
   */
  lemma ParseNatPrefix(n: nat, junk: string)
    requires junk == [] || (!IsDigit(junk[0]) && junk[0] != '.' && junk[0] != 'e' && junk[0] != 'E')
    ensures ParseFloat(NatToString(n) + junk) == Some(n as real)
  {
    var d := NatToString(n);
    ParseWholeRun(d, junk);
    NatToStringValue(n);
    ParseFromDigit(d + junk);
  }

  /** A run of digits followed by text that cannot continue a number is read as the run's value. */
  lemma ParseWholeRun(d: string, junk: string)
    requires |d| > 0 && AllDigits(d)
    requires junk == [] || (!IsDigit(junk[0]) && junk[0] != '.' && junk[0] != 'e' && junk[0] != 'E')
    ensures ParseUnsigned(d + junk) == Some(DigitsValue(d) as real)
  {
    var m := Mantissa(d, [], junk);
    ScanWhole(d, junk);
    assert ScanMantissa(d + junk) == m;
    ParseWithoutExponent(d + junk);
    WholeMantissaValue(m);
  }

  /** A mantissa without fraction digits is worth its whole part. */
  lemma WholeMantissaValue(m: Mantissa)
    requires AllDigits(m.whole) && m.fraction == []
    ensures MantissaValue(m) == DigitsValue(m.whole) as real
  {
    assert DigitsValue(m.fraction) == 0;
  }

  /** Text that does not start with white space is not trimmed. */
  lemma TrimStartNonBlank(t: string)
    requires t != [] && !IsJsWhitespace(t[0])
    ensures TrimStart(t) == t
  {
  }

  /** A leading minus sign negates the unsigned number read after it. */
  lemma ParseSignedMinus(t: string)
    requires t != [] && t[0] == '-'
    ensures ParseSigned(t) == (if ParseUnsigned(t[1..]).Some? then Some(-ParseUnsigned(t[1..]).value) else None)
  {
  }

  /** A minus sign before a digit negates what `parseFloat` reads after it. */
  lemma ParseMinus(d: string, x: real)
    requires d != [] && IsDigit(d[0]) && ParseUnsigned(d) == Some(x)
    ensures ParseFloat("-" + d) == Some(-x)
  {
    TrimStartNonBlank("-" + d);
    SignedMinusOf(d, x);
  }

  /** The signed reader negates the number `x` read after a minus sign. */
  lemma SignedMinusOf(d: string, x: real)
    requires ParseUnsigned(d) == Some(x)
    ensures ParseSigned("-" + d) == Some(-x)
  {
    var t := "-" + d;
    assert t[1..] == d;
    ParseSignedMinus(t);
  }

  /** `parseFloat` reads a minus sign followed by a rendered whole number as its negation. */
  lemma ParseNegativeNat(n: nat)
    ensures ParseFloat("-" + NatToString(n)) == Some(-(n as real))
  {
    ParseUnsignedNat(n);
    ParseMinus(NatToString(n), n as real);
  }

  /** The unsigned reader reads a rendered whole number as itself. */
  lemma ParseUnsignedNat(n: nat)
    ensures ParseUnsigned(NatToString(n)) == Some(n as real)
  {
    var d := NatToString(n);
    ParseNatPrefix(n, []);
    assert d + [] == d;
    ParseFromDigit(d);
  }

  /** A digit run followed by an exponent marker is read as the run's value times the exponent's factor. */
  lemma ParseScientific(ds: string, e: string)
    requires |ds| > 0 && AllDigits(ds) && e != [] && e[0] in "eE"
    ensures ParseFloat(ds + e) == Some(Scaled(DigitsValue(ds) as real, e))
  {
    ScientificUnsigned(ds, e);
    ParseFromDigit(ds + e);
  }

  /** The unsigned reading behind `ParseScientific`. */
  lemma ScientificUnsigned(ds: string, e: string)
    requires |ds| > 0 && AllDigits(ds) && e != [] && e[0] in "eE"
    ensures ParseUnsigned(ds + e) == Some(Scaled(DigitsValue(ds) as real, e))
  {
    var m := Mantissa(ds, [], e);
    ScanWhole(ds, e);
    WholeMantissaValue(m);
    ParseScaled(ds + e);
  }

  /** A mantissa with at least one digit is read as its value times the factor of what follows it. */
  lemma ParseScaled(u: string)
    requires |ScanMantissa(u).whole| > 0
    ensures ParseUnsigned(u) == Some(Scaled(MantissaValue(ScanMantissa(u)), ScanMantissa(u).tail))
  {
  }

  /** The suffix "e3" multiplies by 1000. */
  lemma ScaleThousand()
    ensures ExponentScale("e3") == 1000.0
  {
    assert "e3" == ['e'] + "" + "3" + [];
    ExponentUp('e', "", "3", []);
    assert DigitsValue("3") == 3;
  }

  /** The suffix "e-3" divides by 1000. */
  lemma ScaleThousandth()
    ensures ExponentScale("e-3") == 0.001
  {
    assert "e-3" == ['e'] + "-" + "3" + [];
    ExponentDown('e', "3", []);
    assert DigitsValue("3") == 3;
  }

  /** A bare "e" with no digits after it leaves the mantissa as it is. */
  lemma ScaleBareMarker()
    ensures ExponentScale("e") == 1.0
  {
    assert "e" == ['e'] + "" + [];
    ExponentWithoutDigits('e', "", []);
  }
}
