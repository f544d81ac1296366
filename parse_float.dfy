/** JavaScript's parseFloat on the text a form field delivers, and the
    "parseFloat(value) || 0" idiom that turns a failed parse into 0.

    parseFloat skips leading white space, reads the longest prefix that is a
    decimal literal (an optional sign, digits with an optional fraction, an
    optional exponent) and ignores whatever follows; when no digit starts the
    literal the result is NaN, modelled here as None. */
module ParseFloat {
  import opened Wrappers

  /** What a change handler receives: the text of a text field, or the number
      a slider reports. */
  datatype Input = TextInput(text: string) | NumberInput(number: real)

  predicate IsDigit(c: char)
  {
    '0' <= c <= '9'
  }

  predicate AllDigits(s: string)
  {
    forall i :: 0 <= i < |s| ==> IsDigit(s[i])
  }

  /** The value of a decimal digit (0 for any other character). */
  function DigitValue(c: char): (d: nat)
    ensures d <= 9
  {
    if IsDigit(c) then c as int - '0' as int else 0
  }

  function DigitChar(d: nat): (c: char)
    requires d <= 9
    ensures IsDigit(c) && DigitValue(c) == d
  {
    ('0' as int + d) as char
  }

  /** ECMAScript's StrWhiteSpaceChar: the white space and line terminator
      code points that parseFloat skips before the literal. */
  predicate IsSpace(c: char)
  {
    var n := c as int;
    n == 0x09 || n == 0x0A || n == 0x0B || n == 0x0C || n == 0x0D || n == 0x20
    || n == 0xA0 || n == 0x1680 || (0x2000 <= n <= 0x200A) || n == 0x2028
    || n == 0x2029 || n == 0x202F || n == 0x205F || n == 0x3000 || n == 0xFEFF
  }

  predicate AllSpaces(s: string)
  {
    forall i :: 0 <= i < |s| ==> IsSpace(s[i])
  }

  /** s without its leading white space. */
  function TrimStart(s: string): (r: string)
    ensures |r| <= |s|
    ensures r == [] || !IsSpace(r[0])
  {
    if |s| > 0 && IsSpace(s[0]) then TrimStart(s[1..]) else s
  }

  /** TrimStart removes a prefix made only of white space: the result is a
      suffix of s, and every character before it is white space. */
  lemma {:induction false} TrimStartSkipsSpaces(s: string)
    ensures TrimStart(s) == s[|s| - |TrimStart(s)|..]
    ensures AllSpaces(s[..|s| - |TrimStart(s)|])
  {
    if |s| > 0 && IsSpace(s[0]) {
      TrimStartSkipsSpaces(s[1..]);
      var k := |s| - |TrimStart(s)|;
      assert s[1..][k - 1..] == s[k..];
      assert s[..k] == [s[0]] + s[1..][..k - 1];
    }
  }

  /** The number of digits s starts with. */
  function DigitRun(s: string): (n: nat)
    ensures n <= |s|
    ensures n == 0 <==> s == [] || !IsDigit(s[0])
  {
    if |s| > 0 && IsDigit(s[0]) then 1 + DigitRun(s[1..]) else 0
  }

  /** The value of a string of decimal digits, most significant first. */
  function IntegerValue(ds: string): nat
  {
    if ds == [] then 0 else IntegerValue(ds[..|ds| - 1]) * 10 + DigitValue(ds[|ds| - 1])
  }

  /** The value of the digits after a decimal point. */
  function FractionValue(ds: string): (v: real)
    ensures 0.0 <= v < 1.0
  {
    if ds == [] then 0.0 else (DigitValue(ds[0]) as real + FractionValue(ds[1..])) / 10.0
  }

  /** m times 10 to the power e, one factor of ten at a time. */
  function ApplyExponent(m: real, e: int): (r: real)
    ensures m > 0.0 ==> r > 0.0
    decreases if e < 0 then -e else e
  {
    if e == 0 then m
    else if e > 0 then ApplyExponent(m, e - 1) * 10.0
    else ApplyExponent(m, e + 1) / 10.0
  }

  /** The exponent part at the head of s ('e' or 'E', an optional sign and at
      least one digit), or 0 when s does not start with a complete one. */
  function ExponentPart(s: string): int
  {
    if |s| >= 2 && (s[0] == 'e' || s[0] == 'E') then
      var ds := if s[1] == '+' || s[1] == '-' then s[2..] else s[1..];
      var n := DigitRun(ds);
      if n == 0 then 0
      else if s[1] == '-' then -(IntegerValue(ds[..n]) as int)
      else IntegerValue(ds[..n]) as int
    else 0
  }

  /** t without a leading sign. */
  function Unsigned(t: string): (u: string)
    ensures |u| <= |t|
  {
    if |t| > 0 && (t[0] == '-' || t[0] == '+') then t[1..] else t
  }

  /** The unsigned decimal literal at the head of u: digits with an optional
      fraction and exponent; None when neither a digit nor a point followed by
      a digit starts u. */
  function ParseUnsigned(u: string): (r: Option<real>)
    ensures r.Some? <==> (|u| > 0 && IsDigit(u[0])) || (|u| > 1 && u[0] == '.' && IsDigit(u[1]))
  {
    var n := DigitRun(u);
    var rest := u[n..];
    var hasPoint := |rest| > 0 && rest[0] == '.';
    var afterPoint := if hasPoint then rest[1..] else [];
    var m := DigitRun(afterPoint);
    var tail := if hasPoint then afterPoint[m..] else rest;
    if n == 0 && m == 0 then None
    else Some(ApplyExponent(IntegerValue(u[..n]) as real + FractionValue(afterPoint[..m]), ExponentPart(tail)))
  }

  /** parseFloat: None stands for NaN. The literal is recognised exactly when,
      after the white space and the sign, a digit or a point followed by a
      digit follows. */
  function ParseFloat(s: string): (r: Option<real>)
    ensures r.Some? <==>
      var u := Unsigned(TrimStart(s));
      (|u| > 0 && IsDigit(u[0])) || (|u| > 1 && u[0] == '.' && IsDigit(u[1]))
  {
    var t := TrimStart(s);
    match ParseUnsigned(Unsigned(t))
    case None => None
    case Some(x) => Some(if |t| > 0 && t[0] == '-' then -x else x)
  }

  /** "parseFloat(value) || 0": NaN (and every other falsy result) becomes 0.
      A number handed over by a slider parses back to itself. */
  function NumberOrZero(v: Input): real
  {
    match v
    case NumberInput(x) => x
    case TextInput(s) =>
      match ParseFloat(s)
      case None => 0.0
      case Some(x) => x
  }

  /** The numeric field receives 0 exactly when its text is not a number or is
      a number equal to 0. */
  lemma NonNumericBecomesZero(s: string)
    ensures NumberOrZero(TextInput(s)) == 0.0 <==> ParseFloat(s).None? || ParseFloat(s) == Some(0.0)
    ensures ParseFloat(s).None? ==> NumberOrZero(TextInput(s)) == 0.0
    ensures ParseFloat(s).Some? ==> NumberOrZero(TextInput(s)) == ParseFloat(s).value
  {
  }

  /** The decimal digits of n, as JavaScript's String(n) writes a natural number. */
  function NatToString(n: nat): (s: string)
    ensures |s| > 0 && AllDigits(s)
  {
    if n < 10 then [DigitChar(n)] else NatToString(n / 10) + [DigitChar(n % 10)]
  }

  lemma {:induction false} NatToStringValue(n: nat)
    ensures IntegerValue(NatToString(n)) == n
  {
    var s := NatToString(n);
    if n < 10 {
      assert s[..|s| - 1] == [];
    } else {
      NatToStringValue(n / 10);
      assert s[..|s| - 1] == NatToString(n / 10);
    }
  }

  lemma {:induction false} DigitRunOfDigits(ds: string, rest: string)
    requires AllDigits(ds)
    requires rest == [] || !IsDigit(rest[0])
    ensures DigitRun(ds + rest) == |ds|
  {
    if ds != [] {
      assert (ds + rest)[1..] == ds[1..] + rest;
      DigitRunOfDigits(ds[1..], rest);
    }
  }

  /** Text starting with a digit keeps its literal where it is: nothing is
      trimmed and there is no sign. */
  lemma {:induction false} ParseFloatOfDigitStart(u: string, x: real)
    requires |u| > 0 && IsDigit(u[0])
    requires ParseUnsigned(u) == Some(x)
    ensures ParseFloat(u) == Some(x)
  {
    assert TrimStart(u) == u;
    assert Unsigned(u) == u;
  }

  lemma {:induction false} ParseFloatOfNegatedDigitStart(u: string, x: real)
    requires |u| > 0 && IsDigit(u[0])
    requires ParseUnsigned(u) == Some(x)
    ensures ParseFloat("-" + u) == Some(-x)
  {
    var neg := "-" + u;
    assert neg[1..] == u;
    assert TrimStart(neg) == neg;
    assert Unsigned(neg) == u;
  }

  lemma {:induction false} ParseUnsignedInteger(ds: string, rest: string)
    requires ds != [] && AllDigits(ds)
    requires rest == [] || !(IsDigit(rest[0]) || rest[0] == '.' || rest[0] == 'e' || rest[0] == 'E')
    ensures ParseUnsigned(ds + rest) == Some(IntegerValue(ds) as real)
  {
    DigitRunOfDigits(ds, rest);
    assert (ds + rest)[..|ds|] == ds;
    assert (ds + rest)[|ds|..] == rest;
    assert ExponentPart(rest) == 0;
  }

  /** A natural number written in decimal, followed by anything that cannot
      continue a literal, parses back to that number, with or without a minus
      sign in front. */
  lemma {:induction false} ParseNatToString(n: nat, rest: string)
    requires rest == [] || !(IsDigit(rest[0]) || rest[0] == '.' || rest[0] == 'e' || rest[0] == 'E')
    ensures ParseFloat(NatToString(n) + rest) == Some(n as real)
    ensures ParseFloat("-" + (NatToString(n) + rest)) == Some(-(n as real))
  {
    var ds := NatToString(n);
    NatToStringValue(n);
    ParseUnsignedInteger(ds, rest);
    ParseFloatOfDigitStart(ds + rest, n as real);
    ParseFloatOfNegatedDigitStart(ds + rest, n as real);
  }

  /** Text that does not start with a literal is NaN. */
  lemma ParseRejects()
    ensures ParseFloat("") == None
    ensures ParseFloat("abc") == None
    ensures ParseFloat(".") == None
    ensures ParseFloat("-") == None
  {
    assert !IsSpace('a') && !IsSpace('.') && !IsSpace('-');
    assert TrimStart("abc") == "abc";
    assert TrimStart(".") == ".";
    assert TrimStart("-") == "-";
    assert Unsigned("-") == [];
  }

  lemma {:induction false} ParseUnsignedDecimal(ip: string, fp: string, rest: string)
    requires ip != [] && AllDigits(ip) && AllDigits(fp)
    requires rest == [] || !(IsDigit(rest[0]) || rest[0] == 'e' || rest[0] == 'E')
    ensures ParseUnsigned(ip + ("." + fp + rest)) == Some(IntegerValue(ip) as real + FractionValue(fp))
  {
    var after := "." + fp + rest;
    var u := ip + after;
    DigitRunOfDigits(ip, after);
    assert u[..|ip|] == ip;
    assert u[|ip|..] == after;
    assert after[1..] == fp + rest;
    DigitRunOfDigits(fp, rest);
    assert (fp + rest)[..|fp|] == fp;
    assert (fp + rest)[|fp|..] == rest;
    assert ExponentPart(rest) == 0;
  }

  /** A literal with digits on both sides of the point, followed by text that
      cannot continue it, is read as the integer part plus the fraction. */
  lemma {:induction false} ParseDecimal(ip: string, fp: string, rest: string)
    requires ip != [] && AllDigits(ip) && AllDigits(fp)
    requires rest == [] || !(IsDigit(rest[0]) || rest[0] == 'e' || rest[0] == 'E')
    ensures ParseFloat(ip + ("." + fp + rest)) == Some(IntegerValue(ip) as real + FractionValue(fp))
  {
    var x := IntegerValue(ip) as real + FractionValue(fp);
    ParseUnsignedDecimal(ip, fp, rest);
    ParseFloatOfDigitStart(ip + ("." + fp + rest), x);
  }

  /** A fraction is read after the point. */
  lemma ParseFraction()
    ensures ParseFloat("9.5") == Some(9.5)
  {
    assert IntegerValue("9") == 9 by { assert "9"[..0] == []; }
    assert FractionValue("5") == 0.5 by { assert "5"[1..] == []; }
    assert "9" + ("." + "5" + "") == "9.5";
    ParseDecimal("9", "5", "");
  }

  /** Text after the literal is ignored. */
  lemma ParseIgnoresTrailingText()
    ensures ParseFloat("3.63s") == Some(3.63)
  {
    assert IntegerValue("3") == 3 by { assert "3"[..0] == []; }
    assert FractionValue("63") == 0.63 by {
      assert "63"[1..] == "3";
      assert "3"[1..] == [];
    }
    assert "3" + ("." + "63" + "s") == "3.63s";
    ParseDecimal("3", "63", "s");
  }

  /** An exponent part scales the mantissa by a power of ten. */
  lemma ParseExponent()
    ensures ParseFloat("1e2") == Some(100.0)
  {
    var u := "1e2";
    assert DigitRun(u) == 1 by { DigitRunOfDigits("1", "e2"); assert "1" + "e2" == u; }
    assert u[..1] == "1" && u[1..] == "e2";
    assert "e2"[1..] == "2";
    assert DigitRun("2") == 1 by { DigitRunOfDigits("2", ""); assert "2" + "" == "2"; }
    assert "2"[..1] == "2";
    assert IntegerValue("1") == 1 by { assert "1"[..0] == []; }
    assert IntegerValue("2") == 2 by { assert "2"[..0] == []; }
    assert ExponentPart("e2") == 2;
    assert ApplyExponent(1.0, 2) == 100.0;
    ParseFloatOfDigitStart(u, 100.0);
  }
}
