/**
 * The number conversions the supervisor relies on: parseInt with no radix
 * (used on PID files and on the `limit` query parameter) and the decimal
 * text that String(n) and template literals give for an integer (used
 * when a PID file is written and in exit-code messages).
 * Only integers are modelled; a JavaScript number that is not an integer
 * never arises from parseInt except NaN.
 */
module JsNumbers {
  import opened JsStrings
  import opened Optional

  /** A parseInt result: an integer or NaN. */
  datatype Num = Int(n: int) | NaN

  /** Unary minus on a parseInt result (`-NaN` is NaN; `-0` is treated as 0). */
  function Neg(x: Num): (r: Num)
    ensures x.NaN? <==> r.NaN?
    ensures x.Int? ==> r.n + x.n == 0
  {
    match x
    case Int(n) => Int(-n)
    case NaN => NaN
  }

  /** The value of a digit in radixes up to 36 ('0'-'9', then 'a'/'A' = 10 ... 'z'/'Z' = 35);
      36 for a character that is not a digit in any radix. */
  function DigitValue(c: char): (d: nat)
    ensures d <= 36
  {
    if '0' <= c <= '9' then c as int - '0' as int
    else if 'a' <= c <= 'z' then c as int - 'a' as int + 10
    else if 'A' <= c <= 'Z' then c as int - 'A' as int + 10
    else 36
  }

  predicate IsDigit(c: char, radix: nat) {
    DigitValue(c) < radix
  }

  /** The length of the longest prefix of `s` made of radix digits. */
  function DigitRun(s: string, radix: nat): (k: nat)
    ensures k <= |s|
    ensures forall i :: 0 <= i < k ==> IsDigit(s[i], radix)
    ensures k < |s| ==> !IsDigit(s[k], radix)
  {
    if s == [] || !IsDigit(s[0], radix) then 0 else 1 + DigitRun(s[1..], radix)
  }

  lemma ProductOfNats(a: nat, b: nat)
    ensures a * b >= 0
  {
  }

  /** The number a string of radix digits denotes, most significant first. */
  function ValueOf(digits: string, radix: nat): nat
    requires forall i :: 0 <= i < |digits| ==> IsDigit(digits[i], radix)
  {
    if digits == [] then 0
    else
      var init := digits[..|digits| - 1];
      assert forall i :: 0 <= i < |init| ==> init[i] == digits[i];
      var high: nat := ValueOf(init, radix);
      ProductOfNats(high, radix);
      high * radix + DigitValue(digits[|digits| - 1])
  }

  /** The digits that follow the sign: radix 16 after a "0x"/"0X" prefix,
      radix 10 otherwise; the longest run of digits, or NaN when it is empty. */
  function ParseMagnitude(u: string): (r: Num)
    ensures r.Int? ==> r.n >= 0
  {
    var hex := |u| >= 2 && u[0] == '0' && (u[1] == 'x' || u[1] == 'X');
    var radix := if hex then 16 else 10;
    var body := if hex then u[2..] else u;
    var k := DigitRun(body, radix);
    if k == 0 then NaN else Int(ValueOf(body[..k], radix))
  }

  /** parseInt(s) with the radix left undefined: skip leading white space,
      take one optional sign, then read the magnitude. */
  function ParseInt(s: string): Num {
    ParseTrimmed(TrimStart(s))
  }

  function ParseTrimmed(t: string): Num {
    if t != [] && t[0] == '-' then Neg(ParseMagnitude(t[1..]))
    else if t != [] && t[0] == '+' then ParseMagnitude(t[1..])
    else ParseMagnitude(t)
  }

  function DigitChar(d: nat): char
    requires d < 10
  {
    ('0' as int + d) as char
  }

  /** String(n) for a non-negative integer: its decimal digits, no leading zeros. */
  function Decimal(n: nat): (s: string)
    ensures |s| > 0
    ensures forall i :: 0 <= i < |s| ==> IsDigit(s[i], 10)
    ensures s[0] == '0' ==> n == 0
  {
    if n < 10 then [DigitChar(n)] else Decimal(n / 10) + [DigitChar(n % 10)]
  }

  /** String(i) for any integer. */
  function IntText(i: int): string {
    if i < 0 then "-" + Decimal(-i) else Decimal(i)
  }

  /** `${code}` for a child's exit code, which is null when a signal ended it. */
  function CodeText(code: Option<int>): string {
    match code
    case Some(c) => IntText(c)
    case None => "null"
  }

  /** String(child.pid): the pid, or "undefined" when the spawn produced no process. */
  function PidText(pid: Option<int>): string {
    match pid
    case Some(p) => IntText(p)
    case None => "undefined"
  }

  lemma {:induction false} ValueOfDecimal(n: nat)
    ensures ValueOf(Decimal(n), 10) == n
    decreases n
  {
    var s := Decimal(n);
    if n >= 10 {
      ValueOfDecimal(n / 10);
      assert s[..|s| - 1] == Decimal(n / 10);
    }
  }

  /** A run of digits followed by a non-digit (or nothing) is exactly that long. */
  lemma {:induction false} DigitRunOfDigits(d: string, rest: string, radix: nat)
    requires forall i :: 0 <= i < |d| ==> IsDigit(d[i], radix)
    requires rest == [] || !IsDigit(rest[0], radix)
    ensures DigitRun(d + rest, radix) == |d|
    decreases |d|
  {
    if d != [] {
      assert (d + rest)[1..] == d[1..] + rest;
      DigitRunOfDigits(d[1..], rest, radix);
    } else {
      assert d + rest == rest;
    }
  }

  /** The digits of String(n), followed by a non-digit, denote n. */
  lemma MagnitudeOfDecimal(n: nat, rest: string)
    requires rest == [] || DigitValue(rest[0]) == 36
    ensures ParseMagnitude(Decimal(n) + rest) == Int(n)
  {
    var d := Decimal(n);
    var s := d + rest;
    assert s[0] == d[0];
    if |s| >= 2 && s[0] == '0' {
      assert n == 0 && |d| == 1;
      assert s[1] == rest[0];
    }
    assert !(|s| >= 2 && s[0] == '0' && (s[1] == 'x' || s[1] == 'X'));
    DigitRunOfDigits(d, rest, 10);
    assert s[..|d|] == d;
    ValueOfDecimal(n);
  }

  /** parseInt of a string that starts with a digit reads its magnitude. */
  lemma ParseIntOfDigitFirst(s: string)
    requires s != [] && IsDigit(s[0], 10)
    ensures ParseInt(s) == ParseMagnitude(s)
  {
    assert !IsSpace(s[0]);
    assert TrimStart(s) == s;
  }

  /** parseInt reads the decimal text of n back as n, and stops at the first
      character that is neither a digit nor a letter ("12.5", "12 px", "12\n"). */
  lemma ParseIntOfDecimal(n: nat, rest: string)
    requires rest == [] || DigitValue(rest[0]) == 36
    ensures ParseInt(Decimal(n) + rest) == Int(n)
  {
    assert (Decimal(n) + rest)[0] == Decimal(n)[0];
    ParseIntOfDigitFirst(Decimal(n) + rest);
    MagnitudeOfDecimal(n, rest);
  }

  /** Writing an integer with String() and reading it with parseInt is the identity. */
  lemma ParseIntOfIntText(i: int)
    ensures ParseInt(IntText(i)) == Int(i)
  {
    if i >= 0 {
      ParseIntOfDecimal(i, []);
      assert Decimal(i) + [] == Decimal(i);
    } else {
      var d := Decimal(-i);
      var s := "-" + d;
      assert !IsSpace(s[0]);
      assert TrimStart(s) == s;
      assert s[1..] == d + [];
      MagnitudeOfDecimal(-i, []);
    }
  }

  /** A PID file that was written for a spawn without a pid reads back as NaN. */
  lemma ParseIntOfUndefined()
    ensures ParseInt(PidText(None)).NaN?
  {
    var s := PidText(None);
    assert s[0] == 'u' && !IsSpace(s[0]);
    assert TrimStart(s) == s;
    assert !IsDigit(s[0], 10);
  }

  /** parseInt ignores leading white space. */
  lemma ParseIntSkipsLeadingSpace(ws: string, s: string)
    requires IsBlank(ws)
    ensures ParseInt(ws + s) == ParseInt(s)
  {
    TrimStartPastBlank(ws, s);
  }

  lemma {:induction false} TrimStartPastBlank(ws: string, s: string)
    requires IsBlank(ws)
    ensures TrimStart(ws + s) == TrimStart(s)
    decreases |ws|
  {
    if ws != [] {
      assert (ws + s)[0] == ws[0];
      assert (ws + s)[1..] == ws[1..] + s;
      TrimStartPastBlank(ws[1..], s);
    } else {
      assert ws + s == s;
    }
  }
}
