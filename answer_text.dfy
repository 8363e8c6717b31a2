/**
 * The text of the answer field as the submit handler reads it: JavaScript's
 * `String.prototype.trim` followed by `parseInt(text, 10)`, which skips
 * leading white space, accepts one optional sign, reads the leading
 * decimal digits and ignores whatever follows them; with no digit at all
 * the result is NaN, modelled here as `None`.
 */
module AnswerText {
  import opened Wrappers

  /** ECMAScript WhiteSpace and LineTerminator code points (what `trim` removes). */
  predicate IsWhiteSpace(c: char) {
    c == '\t' || c == '\n' || c == '\U{000B}' || c == '\U{000C}' || c == '\r' || c == ' '
    || c == '\U{00A0}' || c == '\U{1680}' || ('\U{2000}' <= c <= '\U{200A}')
    || c == '\U{2028}' || c == '\U{2029}' || c == '\U{202F}' || c == '\U{205F}'
    || c == '\U{3000}' || c == '\U{FEFF}'
  }

  predicate IsDigit(c: char) {
    '0' <= c <= '9'
  }

  /** Drops the white space at the start: what remains is a suffix that starts with no white space. */
  function TrimStart(s: string): (r: string)
    ensures |r| <= |s| && r == s[|s| - |r|..]
    ensures forall i :: 0 <= i < |s| - |r| ==> IsWhiteSpace(s[i])
    ensures r == [] || !IsWhiteSpace(r[0])
  {
    if |s| > 0 && IsWhiteSpace(s[0]) then TrimStart(s[1..]) else s
  }

  /** Drops the white space at the end: what remains is a prefix that ends with no white space. */
  function TrimEnd(s: string): (r: string)
    ensures |r| <= |s| && r == s[..|r|]
    ensures forall i :: |r| <= i < |s| ==> IsWhiteSpace(s[i])
    ensures r == [] || !IsWhiteSpace(r[|r| - 1])
  {
    if |s| > 0 && IsWhiteSpace(s[|s| - 1]) then TrimEnd(s[..|s| - 1]) else s
  }

  /** `text.trim()`. */
  function Trim(s: string): string {
    TrimEnd(TrimStart(s))
  }

  /** The length of the run of decimal digits at the start of `s`. */
  function DigitRun(s: string): (n: nat)
    ensures n <= |s|
    ensures forall i :: 0 <= i < n ==> IsDigit(s[i])
    ensures n < |s| ==> !IsDigit(s[n])
  {
    if |s| > 0 && IsDigit(s[0]) then 1 + DigitRun(s[1..]) else 0
  }

  /** The value of a string of decimal digits, most significant first. */
  function DigitsValue(ds: string): nat
    requires forall i :: 0 <= i < |ds| ==> IsDigit(ds[i])
  {
    if |ds| == 0 then 0
    else DigitsValue(ds[..|ds| - 1]) * 10 + DigitValue(ds[|ds| - 1])
  }

  function DigitValue(c: char): (d: nat)
    requires IsDigit(c)
    ensures d < 10
  {
    c as int - '0' as int
  }

  /** The text after at most one leading sign character. */
  function Unsigned(t: string): string {
    if |t| > 0 && (t[0] == '-' || t[0] == '+') then t[1..] else t
  }

  /** `parseInt(s, 10)`: `None` stands for NaN. */
  function ParseInt(s: string): (r: Option<int>)
    ensures r.Some? <==> |Unsigned(TrimStart(s))| > 0 && IsDigit(Unsigned(TrimStart(s))[0])
  {
    ReadNumber(TrimStart(s))
  }

  /** What `parseInt` makes of text with the leading white space gone: a sign, then digits. */
  function ReadNumber(t: string): (r: Option<int>)
    ensures r.Some? <==> |Unsigned(t)| > 0 && IsDigit(Unsigned(t)[0])
  {
    var body := Unsigned(t);
    var n := DigitRun(body);
    if n == 0 then None
    else
      var v: int := DigitsValue(body[..n]);
      Some(if |t| > 0 && t[0] == '-' then -v else v)
  }

  function DigitChar(d: nat): (c: char)
    requires d < 10
    ensures IsDigit(c)
  {
    ('0' as int + d) as char
  }

  /** The decimal numeral of a natural number, as `String(n)` writes it. */
  function NatDecimal(n: nat): (r: string)
    ensures |r| > 0
    ensures forall i :: 0 <= i < |r| ==> IsDigit(r[i])
  {
    if n < 10 then [DigitChar(n)] else NatDecimal(n / 10) + [DigitChar(n % 10)]
  }

  /** The decimal numeral of an integer, as `String(n)` writes it: a minus sign, then the digits. */
  function Decimal(n: int): string {
    if n < 0 then "-" + NatDecimal(-n) else NatDecimal(n)
  }

  lemma {:induction false} NatDecimalValue(n: nat)
    ensures DigitsValue(NatDecimal(n)) == n
  {
    if n >= 10 {
      NatDecimalValue(n / 10);
      var ds := NatDecimal(n);
      assert ds[..|ds| - 1] == NatDecimal(n / 10);
    }
  }

  lemma {:induction false} DigitRunOfDigits(ds: string, rest: string)
    requires forall i :: 0 <= i < |ds| ==> IsDigit(ds[i])
    requires rest == [] || !IsDigit(rest[0])
    ensures DigitRun(ds + rest) == |ds|
  {
    if |ds| > 0 {
      assert (ds + rest)[1..] == ds[1..] + rest;
      DigitRunOfDigits(ds[1..], rest);
    }
  }

  /** Text that does not start with white space is left alone by `TrimStart`. */
  lemma TrimStartNoSpace(s: string)
    requires s == [] || !IsWhiteSpace(s[0])
    ensures TrimStart(s) == s
  {
  }

  /**
   * An optional sign, a run of digits, then anything that does not start
   * with a digit: `parseInt` reads the signed value of the digits.
   */
  lemma ParseIntOfDigits(sign: string, ds: string, rest: string)
    requires sign == "" || sign == "-" || sign == "+"
    requires |ds| > 0 && forall i :: 0 <= i < |ds| ==> IsDigit(ds[i])
    requires rest == [] || !IsDigit(rest[0])
    ensures ParseInt(sign + (ds + rest)) == Some(if sign == "-" then -(DigitsValue(ds) as int) else DigitsValue(ds) as int)
  {
    var s := sign + (ds + rest);
    assert (ds + rest)[0] == ds[0];
    SignThenDigits(sign, ds + rest);
    TrimStartNoSpace(s);
    ReadSignedDigits(sign, ds, rest);
  }

  lemma ReadSignedDigits(sign: string, ds: string, rest: string)
    requires sign == "" || sign == "-" || sign == "+"
    requires |ds| > 0 && forall i :: 0 <= i < |ds| ==> IsDigit(ds[i])
    requires rest == [] || !IsDigit(rest[0])
    ensures ReadNumber(sign + (ds + rest)) == Some(if sign == "-" then -(DigitsValue(ds) as int) else DigitsValue(ds) as int)
  {
    var body := ds + rest;
    var s := sign + body;
    SignThenDigits(sign, body);
    DigitRunOfDigits(ds, rest);
    ReadNumberOf(s, body, ds);
  }

  lemma ReadNumberOf(s: string, body: string, ds: string)
    requires Unsigned(s) == body
    requires |ds| > 0 && forall i :: 0 <= i < |ds| ==> IsDigit(ds[i])
    requires DigitRun(body) == |ds| <= |body| && body[..|ds|] == ds
    ensures ReadNumber(s) == Some(if |s| > 0 && s[0] == '-' then -(DigitsValue(ds) as int) else DigitsValue(ds) as int)
  {
  }

  /** After an optional sign, text that starts with a digit is what `Unsigned` keeps. */
  lemma SignThenDigits(sign: string, body: string)
    requires sign == "" || sign == "-" || sign == "+"
    requires |body| > 0 && IsDigit(body[0])
    ensures Unsigned(sign + body) == body
    ensures (sign + body)[0] == '-' <==> sign == "-"
    ensures !IsWhiteSpace((sign + body)[0])
  {
    var s := sign + body;
    if sign != "" {
      assert s[1..] == body;
    } else {
      assert s == body;
    }
  }

  /**
   * Typing the decimal numeral of `n`, followed by anything that does not
   * start with a digit, parses back to `n`: "12abc" reads as 12.
   */
  lemma ParseIntOfDecimal(n: int, rest: string)
    requires rest == [] || !IsDigit(rest[0])
    ensures ParseInt(Decimal(n) + rest) == Some(n)
  {
    var m: nat := if n < 0 then -n else n;
    NatDecimalValue(m);
    ParseIntOfDigits(if n < 0 then "-" else "", NatDecimal(m), rest);
    DecimalThenText(n, rest);
  }

  /** The numeral of `n` followed by `rest`, split into its sign, its digits and `rest`. */
  lemma DecimalThenText(n: int, rest: string)
    ensures Decimal(n) + rest == (if n < 0 then "-" else "") + (NatDecimal(if n < 0 then -n else n) + rest)
  {
    if n >= 0 {
      assert Decimal(n) == NatDecimal(n);
    }
  }

  /** The numeral of an integer has no white space to trim. */
  lemma TrimDecimal(n: int)
    ensures Trim(Decimal(n)) == Decimal(n)
  {
    var s := Decimal(n);
    assert !IsWhiteSpace(s[0]);
    assert TrimStart(s) == s;
    assert !IsWhiteSpace(s[|s| - 1]);
  }

  /** The numeral of an integer, as the submit handler reads it, is that integer. */
  lemma ReadDecimal(n: int)
    ensures ParseInt(Trim(Decimal(n))) == Some(n)
  {
    TrimDecimal(n);
    ParseIntOfDecimal(n, "");
    assert Decimal(n) + "" == Decimal(n);
  }

  /** Text with no digit after the optional sign is not a number. */
  lemma ParseIntRejectsEmpty()
    ensures ParseInt("") == None
  {
    assert TrimStart("") == "";
  }

  lemma ParseIntRejectsLetters()
    ensures ParseInt("abc") == None
  {
    var abc := "abc";
    assert !IsWhiteSpace(abc[0]);
    assert TrimStart(abc) == abc;
  }

  lemma ParseIntRejectsLoneSign()
    ensures ParseInt("-") == None
  {
    var dash := "-";
    assert !IsWhiteSpace(dash[0]);
    assert TrimStart(dash) == dash;
    assert Unsigned(dash) == "";
  }

  /** A leading minus sign negates: "-7" is -7. */
  lemma ParseIntNegative()
    ensures ParseInt("-7") == Some(-7)
  {
    var seven := "7";
    assert IsDigit(seven[0]);
    ParseIntOfDigits("-", seven, "");
    assert "-" + (seven + "") == "-7";
    assert DigitsValue(seven) == 7;
  }

  /** A leading plus sign is accepted and ignored: "+12" reads as "12" does. */
  lemma ParseIntPlusIgnored(ds: string, rest: string)
    requires |ds| > 0 && forall i :: 0 <= i < |ds| ==> IsDigit(ds[i])
    requires rest == [] || !IsDigit(rest[0])
    ensures ParseInt("+" + (ds + rest)) == ParseInt(ds + rest) == Some(DigitsValue(ds) as int)
  {
    ParseIntOfDigits("+", ds, rest);
    ParseIntOfDigits("", ds, rest);
    assert "" + (ds + rest) == ds + rest;
  }
}
