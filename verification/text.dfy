/**
 * The string operations of the JavaScript runtime that the trading and chat
 * engine relies on: trim, includes, toLowerCase/toUpperCase (ASCII letters
 * only), parseInt with its default radix, and the number-to-text conversions
 * used in the log and in chat replies.
 */
module Text {
  import opened Wrappers

  /** White space and line terminators as String.prototype.trim and parseInt skip them (ECMAScript WhiteSpace, LineTerminator). */
  predicate IsJsSpace(c: char) {
    c in {'\t', '\U{000B}', '\U{000C}', ' ', '\U{00A0}', '\U{FEFF}', '\n', '\r', '\U{2028}', '\U{2029}',
          '\U{1680}', '\U{202F}', '\U{205F}', '\U{3000}'}
    || ('\U{2000}' <= c <= '\U{200A}')
  }

  predicate IsBlank(s: string) {
    forall c | c in s :: IsJsSpace(c)
  }

  /** s without its leading white space. */
  function TrimStart(s: string): (r: string)
    ensures |r| <= |s| && r == s[|s| - |r|..]
    ensures forall i :: 0 <= i < |s| - |r| ==> IsJsSpace(s[i])
    ensures r == [] || !IsJsSpace(r[0])
    decreases |s|
  {
    if |s| > 0 && IsJsSpace(s[0]) then TrimStart(s[1..]) else s
  }

  /** s without its trailing white space. */
  function TrimEnd(s: string): (r: string)
    ensures |r| <= |s| && r == s[..|r|]
    ensures forall i :: |r| <= i < |s| ==> IsJsSpace(s[i])
    ensures r == [] || !IsJsSpace(r[|r| - 1])
    decreases |s|
  {
    if |s| > 0 && IsJsSpace(s[|s| - 1]) then TrimEnd(s[..|s| - 1]) else s
  }

  /** String.prototype.trim: empty exactly when s is all white space, otherwise bounded by non-space characters. */
  function Trim(s: string): (r: string)
    ensures r == [] <==> IsBlank(s)
    ensures r == [] || (!IsJsSpace(r[0]) && !IsJsSpace(r[|r| - 1]))
    ensures |r| <= |s|
  {
    var t := TrimStart(s);
    assert t == [] ==> IsBlank(s);
    TrimEnd(t)
  }

  /** Trim cuts only white space: its result is s with a blank prefix and a blank suffix removed. */
  lemma TrimIsSlice(s: string)
    ensures exists i, j :: 0 <= i <= j <= |s| && Trim(s) == s[i..j] && IsBlank(s[..i]) && IsBlank(s[j..])
  {
    var t := TrimStart(s);
    TrimmedSlice(s, t, TrimEnd(t));
  }

  /**
   * White space cut off the front of s, then off the back of what is left,
   * leaves a slice of s with a blank prefix and a blank suffix around it.
   */
  lemma TrimmedSlice(s: string, t: string, r: string)
    requires |t| <= |s| && t == s[|s| - |t|..]
    requires forall k :: 0 <= k < |s| - |t| ==> IsJsSpace(s[k])
    requires |r| <= |t| && r == t[..|r|]
    requires forall k :: |r| <= k < |t| ==> IsJsSpace(t[k])
    ensures exists i, j :: 0 <= i <= j <= |s| && r == s[i..j] && IsBlank(s[..i]) && IsBlank(s[j..])
  {
    var i := |s| - |t|;
    var j := i + |r|;
    assert r == s[i..j];
    BlankSlice(s, 0, i);
    forall k | j <= k < |s| ensures IsJsSpace(s[k]) {
      assert s[k] == t[k - i];
    }
    BlankSlice(s, j, |s|);
    assert s[0..i] == s[..i] && s[j..|s|] == s[j..];
  }

  /** A stretch of white space is blank. */
  lemma BlankSlice(s: string, i: int, j: int)
    requires 0 <= i <= j <= |s|
    requires forall k :: i <= k < j ==> IsJsSpace(s[k])
    ensures IsBlank(s[i..j])
  {
    forall c | c in s[i..j] ensures IsJsSpace(c) {
      var k :| 0 <= k < j - i && s[i..j][k] == c;
      assert s[i + k] == c;
    }
  }

  /** sub occurs in s starting at index i. */
  predicate OccursAt(s: string, sub: string, i: int) {
    0 <= i && i + |sub| <= |s| && s[i..i + |sub|] == sub
  }

  /** String.prototype.includes: plain substring containment, no word boundaries. */
  predicate Contains(s: string, sub: string) {
    exists i | 0 <= i <= |s| - |sub| :: OccursAt(s, sub, i)
  }

  function LowerChar(c: char): char {
    if 'A' <= c <= 'Z' then (c as int + 32) as char else c
  }

  function UpperChar(c: char): char {
    if 'a' <= c <= 'z' then (c as int - 32) as char else c
  }

  function ToLower(s: string): (r: string)
    ensures |r| == |s|
    ensures forall i :: 0 <= i < |s| ==> r[i] == LowerChar(s[i])
    ensures (forall i | 0 <= i < |s| :: !('A' <= s[i] <= 'Z')) ==> r == s
  {
    seq(|s|, i requires 0 <= i < |s| => LowerChar(s[i]))
  }

  function ToUpper(s: string): (r: string)
    ensures |r| == |s|
    ensures forall i :: 0 <= i < |s| ==> r[i] == UpperChar(s[i])
  {
    seq(|s|, i requires 0 <= i < |s| => UpperChar(s[i]))
  }

  // ---------------------------------------------------------------------
  // Numbers as text
  // ---------------------------------------------------------------------

  /** The value of c as a digit of radix up to 16, or -1 when it is none. */
  function DigitValue(c: char): int {
    if '0' <= c <= '9' then c as int - '0' as int
    else if 'a' <= c <= 'f' then c as int - 'a' as int + 10
    else if 'A' <= c <= 'F' then c as int - 'A' as int + 10
    else -1
  }

  predicate IsDigit(c: char, radix: nat) {
    0 <= DigitValue(c) < radix
  }

  function DigitChar(d: nat): (c: char)
    requires d < 10
    ensures DigitValue(c) == d
  {
    "0123456789"[d]
  }

  /** Decimal notation of n, most significant digit first. */
  function ToDecimal(n: nat): (r: string)
    ensures |r| >= 1
    ensures forall i :: 0 <= i < |r| ==> IsDigit(r[i], 10)
  {
    if n < 10 then [DigitChar(n)] else ToDecimal(n / 10) + [DigitChar(n % 10)]
  }

  /** Template-literal text of an integer. */
  function IntToString(i: int): string {
    if i < 0 then "-" + ToDecimal(-i) else ToDecimal(i)
  }

  /** The length of the longest prefix of s made of radix digits. */
  function LeadingDigits(s: string, radix: nat): (n: nat)
    ensures n <= |s|
    ensures forall i :: 0 <= i < n ==> IsDigit(s[i], radix)
    ensures n == |s| || !IsDigit(s[n], radix)
    decreases |s|
  {
    if |s| > 0 && IsDigit(s[0], radix) then 1 + LeadingDigits(s[1..], radix) else 0
  }

  /** The number that a string of radix digits denotes, most significant digit first. */
  function DigitsValue(d: string, radix: nat): int {
    if |d| == 0 then 0 else DigitsValue(d[..|d| - 1], radix) * radix + DigitValue(d[|d| - 1])
  }

  /**
   * parseInt(s) with no radix argument: skip leading white space, take an
   * optional sign, then read the magnitude; None stands for NaN.
   */
  function ParseInt(s: string): Option<int> {
    var t := TrimStart(s);
    if |t| > 0 && t[0] == '-' then
      match ParseMagnitude(t[1..])
      case None => None
      case Some(m) => Some(-m)
    else if |t| > 0 && t[0] == '+' then ParseMagnitude(t[1..])
    else ParseMagnitude(t)
  }

  /**
   * The unsigned part of parseInt: radix 16 after a "0x" or "0X" prefix,
   * radix 10 otherwise, then the longest run of digits; None when that run
   * is empty.
   */
  function ParseMagnitude(u: string): Option<int> {
    var hex := |u| >= 2 && u[0] == '0' && (u[1] == 'x' || u[1] == 'X');
    var radix := if hex then 16 else 10;
    var body := if hex then u[2..] else u;
    var n := LeadingDigits(body, radix);
    if n == 0 then None else Some(DigitsValue(body[..n], radix))
  }

  lemma {:induction false} DigitsValueOfDecimal(n: nat)
    ensures DigitsValue(ToDecimal(n), 10) == n
  {
    if n >= 10 {
      var d := ToDecimal(n);
      assert d[..|d| - 1] == ToDecimal(n / 10);
      DigitsValueOfDecimal(n / 10);
    }
  }

  /**
   * parseInt reads back the decimal text of any n, and of -n after a minus
   * sign, whatever non-digit text follows ("3" gives 3, "3.7" gives 3,
   * "-1" gives -1, "5x" gives 5). Only after the text "0" is a following
   * 'x' or 'X' excluded, because "0x..." is read in radix 16.
   */
  lemma ParseIntOfDecimal(n: nat, tail: string)
    requires tail == [] || (!IsDigit(tail[0], 10) && (n != 0 || (tail[0] != 'x' && tail[0] != 'X')))
    ensures ParseInt(ToDecimal(n) + tail) == Some(n)
    ensures ParseInt("-" + (ToDecimal(n) + tail)) == Some(-(n as int))
  {
    var d := ToDecimal(n);
    var s := d + tail;
    assert s[0] == d[0];
    MagnitudeOfDecimal(n, tail);
    UnsignedText(s);
    NegatedText(s, n);
  }

  /** parseInt of empty or all-white-space text is NaN. */
  lemma ParseIntOfBlank(s: string)
    requires IsBlank(s)
    ensures ParseInt(s) == None
  {
    assert TrimStart(s) == [];
  }

  /** parseInt of text whose first non-blank character is neither a sign nor a decimal digit is NaN. */
  lemma ParseIntOfNonNumeric(s: string)
    requires |TrimStart(s)| > 0
    requires var c := TrimStart(s)[0]; c != '-' && c != '+' && !IsDigit(c, 10)
    ensures ParseInt(s) == None
  {
    var t := TrimStart(s);
    assert t[0] != '0' by { assert IsDigit('0', 10); }
    assert LeadingDigits(t, 10) == 0;
    assert ParseMagnitude(t) == None;
  }

  /** Text that starts with a digit is its own magnitude. */
  lemma UnsignedText(s: string)
    requires |s| > 0 && IsDigit(s[0], 10)
    ensures ParseInt(s) == ParseMagnitude(s)
  {
    assert !IsJsSpace(s[0]) && s[0] != '-' && s[0] != '+';
    assert TrimStart(s) == s;
  }

  /** A minus sign in front of text that starts with a digit negates its magnitude. */
  lemma NegatedText(s: string, v: int)
    requires |s| > 0 && IsDigit(s[0], 10)
    requires ParseMagnitude(s) == Some(v)
    ensures ParseInt("-" + s) == Some(-v)
  {
    var m := "-" + s;
    assert m[0] == '-' && m[1..] == s;
    assert !IsJsSpace(m[0]);
    assert TrimStart(m) == m;
    assert ParseInt(m) == Some(-v);
  }

  /** The magnitude read from the decimal text of n followed by non-digit text is n. */
  lemma MagnitudeOfDecimal(n: nat, tail: string)
    requires tail == [] || (!IsDigit(tail[0], 10) && (n != 0 || (tail[0] != 'x' && tail[0] != 'X')))
    ensures ParseMagnitude(ToDecimal(n) + tail) == Some(n)
  {
    DigitsValueOfDecimal(n);
    var d := ToDecimal(n);
    if n < 10 {
      assert DigitValue(d[0]) == n;
    } else {
      assert |d| == |ToDecimal(n / 10)| + 1;
    }
    MagnitudeOfDigits(d, tail);
  }

  /** A run of decimal digits followed by non-digit text is read in radix 10, up to the run's end. */
  lemma MagnitudeOfDigits(d: string, tail: string)
    requires |d| >= 1 && forall i :: 0 <= i < |d| ==> IsDigit(d[i], 10)
    requires tail == [] || (!IsDigit(tail[0], 10) && (|d| > 1 || d[0] != '0' || (tail[0] != 'x' && tail[0] != 'X')))
    ensures ParseMagnitude(d + tail) == Some(DigitsValue(d, 10))
  {
    var s := d + tail;
    var hex := |s| >= 2 && s[0] == '0' && (s[1] == 'x' || s[1] == 'X');
    if |s| >= 2 {
      assert s[1] == (if |d| >= 2 then d[1] else tail[0]);
    }
    assert !hex;
    var k := LeadingDigits(s, 10);
    assert forall i :: 0 <= i < |d| ==> s[i] == d[i];
    assert |s| > |d| ==> s[|d|] == tail[0];
    assert k == |d|;
    assert s[..k] == d;
  }

  // ---------------------------------------------------------------------
  // Amounts of money, held as integer kuruş (hundredths of a lira)
  // ---------------------------------------------------------------------

  /** Two-digit fraction text of a kuruş remainder below 100. */
  function Cents(f: nat): string
    requires f < 100
  {
    [DigitChar(f / 10), DigitChar(f % 10)]
  }

  /** Number.prototype.toString of kurus / 100: no trailing zeros in the fraction, no point for whole amounts. */
  function FormatAmount(kurus: int): string {
    var a := if kurus < 0 then -kurus else kurus;
    var frac := a % 100;
    (if kurus < 0 then "-" else "") + ToDecimal(a / 100)
    + (if frac == 0 then ""
       else if frac % 10 == 0 then "." + [DigitChar(frac / 10)]
       else "." + Cents(frac))
  }

  /** Number.prototype.toFixed(2) of kurus / 100. */
  function Fixed2(kurus: int): string {
    var a := if kurus < 0 then -kurus else kurus;
    (if kurus < 0 then "-" else "") + ToDecimal(a / 100) + "." + Cents(a % 100)
  }

  /** A whole amount prints with no fraction: 100 TL is "100". */
  lemma WholeAmountText(kurus: nat)
    requires kurus % 100 == 0
    ensures FormatAmount(kurus) == ToDecimal(kurus / 100)
  {
  }

  /** Half a lira prints with one decimal: 100.50 TL is "100.5". */
  lemma HalfAmountText(kurus: nat)
    requires kurus % 100 == 50
    ensures FormatAmount(kurus) == ToDecimal(kurus / 100) + ".5"
  {
    assert [DigitChar(5)] == "5";
  }

  /** toFixed(2) pads a single-digit fraction with a zero: 100 TL is "100.00", 100.05 TL is "100.05". */
  lemma FixedTwoDecimals(kurus: nat, f: nat)
    requires f < 10 && kurus % 100 == f
    ensures Fixed2(kurus) == ToDecimal(kurus / 100) + ".0" + [DigitChar(f)]
  {
    assert Cents(f) == "0" + [DigitChar(f)];
  }
}
