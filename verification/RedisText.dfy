/** The platform's text functions that RedisMessage uses, and decimal numbers. */
module RedisText {
  const CRLF: string := "\r\n"
  const I32: int := 0x8000_0000

  predicate IsDigit(c: char) { '0' <= c <= '9' }

  function DigitValue(c: char): nat
    requires IsDigit(c)
  {
    c as int - '0' as int
  }

  /** IntegerToString of a number that is not negative. */
  function Decimal(n: nat): (s: string)
    ensures s != ""
    ensures forall k :: 0 <= k < |s| ==> IsDigit(s[k])
  {
    var digit := ('0' as int + n % 10) as char;
    if n < 10 then [digit] else Decimal(n / 10) + [digit]
  }

  /** The number that the leading digits of a text denote. */
  function LeadingNumber(s: string, acc: nat): nat
    decreases |s|
  {
    if s == "" || !IsDigit(s[0]) then acc else LeadingNumber(s[1..], 10 * acc + DigitValue(s[0]))
  }

  /** The conversion of a 64-bit value to int. */
  function ToInt32(n: int): int { (n + I32) % (2 * I32) - I32 }

  function WithoutBlanks(s: string): string {
    if s != "" && s[0] == ' ' then WithoutBlanks(s[1..]) else s
  }

  function SignedNumber(s: string): int {
    if s != "" && s[0] == '-' then 0 - LeadingNumber(s[1..], 0)
    else LeadingNumber(if s != "" && s[0] == '+' then s[1..] else s, 0)
  }

  /** (int)StringToInteger: blanks, an optional sign, digits; anything else ends the number. */
  function ToInteger(s: string): int { ToInt32(SignedNumber(WithoutBlanks(s))) }

  /** StringGetCharacter: 0 outside the text. */
  function CharAt(s: string, i: int): char {
    if 0 <= i < |s| then s[i] else '\0'
  }

  /** StringSubstr: a negative length means up to the end; a start outside the text gives "". */
  function Substr(s: string, start: int, length: int): string {
    if start < 0 || start >= |s| then ""
    else if length < 0 || start + length > |s| then s[start..]
    else s[start..start + length]
  }

  /** Distance from `start` to the next CRLF, or to the end of the text. */
  function Skip(s: string, start: int): (n: nat)
    ensures start <= |s| ==> start + n <= |s|
    decreases |s| - start
  {
    if start >= |s| then 0
    else if CharAt(s, start) == '\r' && CharAt(s, start + 1) == '\n' then 0
    else 1 + Skip(s, start + 1)
  }

  ghost predicate HasCrlf(s: string) {
    exists k :: 0 <= k && k + 1 < |s| && s[k] == '\r' && s[k + 1] == '\n'
  }

  // ---------------------------------------------------------------------------------------------

  lemma {:induction false} LeadingNumberSplit(s: string, t: string, acc: nat)
    requires forall k :: 0 <= k < |s| ==> IsDigit(s[k])
    ensures LeadingNumber(s + t, acc) == LeadingNumber(t, LeadingNumber(s, acc))
    decreases |s|
  {
    if s == "" {
      assert s + t == t;
    } else {
      assert (s + t)[1..] == s[1..] + t;
      LeadingNumberSplit(s[1..], t, 10 * acc + DigitValue(s[0]));
    }
  }

  lemma {:induction false} DecimalValue(n: nat)
    ensures LeadingNumber(Decimal(n), 0) == n
  {
    if n >= 10 {
      DecimalValue(n / 10);
      LeadingNumberSplit(Decimal(n / 10), [('0' as int + n % 10) as char], 0);
    }
  }

  /** StringToInteger undoes IntegerToString on the range of int. */
  lemma DecimalRoundTrip(n: nat)
    requires n < I32
    ensures ToInteger(Decimal(n)) == n
  {
    DecimalValue(n);
    assert IsDigit(Decimal(n)[0]);
  }

  /** Blanks in front are passed over, a sign is read, and the number ends at the first other character. */
  lemma {:induction false} IntegerExamples()
    ensures ToInteger("  12") == 12 && ToInteger("+7") == 7 && ToInteger("-30;4") == -30 && ToInteger("") == 0
  {
    assert "  12"[1..] == " 12" && " 12"[1..] == "12" && "12"[1..] == "2" && "2"[1..] == "";
    assert LeadingNumber("12", 0) == LeadingNumber("2", 1) == LeadingNumber("", 12);
    assert "+7"[1..] == "7" && LeadingNumber("7", 0) == LeadingNumber("", 7);
    assert "-30;4"[1..] == "30;4" && "30;4"[1..] == "0;4" && "0;4"[1..] == ";4";
    assert LeadingNumber("30;4", 0) == LeadingNumber("0;4", 3) == LeadingNumber(";4", 30);
  }

  /** A number has no more digits than its value, unless it is zero. */
  lemma {:induction false} DecimalLength(n: nat)
    ensures |Decimal(n)| <= n || n == 0
    ensures n < 10 <==> |Decimal(n)| == 1
  {
    if n >= 10 { DecimalLength(n / 10); }
  }

  // ---------------------------------------------------------------------------------------------

  /** The search finds the end of `data` when the text goes on with a CRLF and none is in `data`. */
  lemma {:induction false} SkipFinds(pre: string, data: string, rest: string)
    requires !HasCrlf(data)
    ensures Skip(pre + data + CRLF + rest, |pre|) == |data|
    decreases |data|
  {
    var s := pre + data + CRLF + rest;
    if data == "" {
      assert s[|pre|] == '\r' && s[|pre| + 1] == '\n';
    } else {
      assert s[|pre|] == data[0];
      assert s[|pre| + 1] == if |data| > 1 then data[1] else '\r';
      var tail := data[1..];
      forall k | 0 <= k && k + 1 < |tail| ensures !(tail[k] == '\r' && tail[k + 1] == '\n') {
        assert tail[k] == data[k + 1] && tail[k + 1] == data[k + 2];
      }
      assert s == (pre + [data[0]]) + tail + CRLF + rest;
      SkipFinds(pre + [data[0]], tail, rest);
      assert !(s[|pre|] == '\r' && s[|pre| + 1] == '\n');
    }
  }

  /** It stops before the end of `data` when there is a CRLF in `data`, and at the end of `data` at the latest. */
  lemma {:induction false} SkipStopsEarly(pre: string, data: string, rest: string)
    ensures Skip(pre + data + CRLF + rest, |pre|) <= |data|
    ensures HasCrlf(data) ==> Skip(pre + data + CRLF + rest, |pre|) < |data|
    decreases |data|
  {
    var s := pre + data + CRLF + rest;
    if data == "" {
      assert s[|pre|] == '\r' && s[|pre| + 1] == '\n';
    } else {
      assert s[|pre|] == data[0];
      assert s[|pre| + 1] == if |data| > 1 then data[1] else '\r';
      var tail := data[1..];
      assert s == (pre + [data[0]]) + tail + CRLF + rest;
      SkipStopsEarly(pre + [data[0]], tail, rest);
      if HasCrlf(data) && !(data[0] == '\r' && |data| > 1 && data[1] == '\n') {
        var k :| 0 <= k && k + 1 < |data| && data[k] == '\r' && data[k + 1] == '\n';
        assert tail[k - 1] == '\r' && tail[k] == '\n';
        assert HasCrlf(tail);
      }
    }
  }

  lemma DigitsHaveNoCrlf(n: nat)
    ensures !HasCrlf(Decimal(n))
  {
  }
}
