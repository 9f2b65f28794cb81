/**
 * The two pure helpers of `src/utils/formatters.ts`: the end-of-service clock time and the
 * lenient number parser used by every numeric form field.
 */
module Formatters {
  import opened JsValues

  /** The value of an `<input type="time">`: two digits, a colon, two digits. */
  predicate IsClockText(s: string)
  {
    |s| == 5 && IsDigit(s[0]) && IsDigit(s[1]) && s[2] == ':' && IsDigit(s[3]) && IsDigit(s[4])
  }

  /** `Number` of the part before the colon. */
  function ClockHour(s: string): nat
    requires IsClockText(s)
  {
    DecimalValue(s[..2])
  }

  /** `Number` of the part after the colon. */
  function ClockMinute(s: string): nat
    requires IsClockText(s)
  {
    DecimalValue(s[3..])
  }

  /** JavaScript's `a % b` for a positive divisor: the remainder has the sign of `a`. */
  function JsRemainder(a: int, b: int): (r: int)
    requires b > 0
    ensures a >= 0 ==> r == a % b
  {
    if a >= 0 then a % b else -((-a) % b)
  }

  /** JavaScript's `%` is the remainder of division truncated toward zero: smaller than the
      divisor in size, with the sign of the dividend, and leaving a multiple of the divisor. */
  lemma JsRemainderTruncates(a: int, b: int)
    requires b > 0
    ensures -b < JsRemainder(a, b) < b
    ensures a >= 0 ==> JsRemainder(a, b) >= 0
    ensures a < 0 ==> JsRemainder(a, b) <= 0
    ensures (a - JsRemainder(a, b)) % b == 0
  {
    if a < 0 {
      var n := -a;
      var q := n / b;
      var m := n % b;
      assert n == q * b + m;
      assert a - JsRemainder(a, b) == (-q) * b;
      MultipleModulo(-q, b);
    } else {
      var q := a / b;
      assert a == q * b + a % b;
      MultipleModulo(q, b);
    }
  }

  /** A multiple of `b` leaves no remainder. */
  lemma MultipleModulo(q: int, b: int)
    requires b > 0
    ensures (q * b) % b == 0
  {
    var r := (q * b) % b;
    var d := (q * b) / b;
    var k := q - d;
    assert k * b == q * b - d * b;
    assert k * b == r;
    if k >= 1 {
      assert k * b == (k - 1) * b + b;
      NonNegativeProduct(k - 1, b);
    } else if k <= -1 {
      assert k * b == -((-k - 1) * b) - b;
      NonNegativeProduct(-k - 1, b);
    }
  }

  lemma NonNegativeProduct(x: int, y: int)
    requires x >= 0 && y >= 0
    ensures x * y >= 0
  {
  }

  /** Whole hours move the clock by exactly that many hours: dividing by 60 splits the
      total back into hours and the start minute. */
  lemma SplitMinutes(q: int, m: nat)
    ensures (q * 60 + m) / 60 == q + m / 60
    ensures (q * 60 + m) % 60 == m % 60
  {
    var x := q * 60 + m;
    assert x == (q + m / 60) * 60 + m % 60;
  }

  /** A number below 100 padded to two digits reads back as itself. */
  lemma PaddedTwoDigits(x: nat)
    requires x < 100
    ensures |PadStart2(IntToString(x))| == 2
    ensures AllDigits(PadStart2(IntToString(x)))
    ensures DecimalValue(PadStart2(IntToString(x))) == x
  {
    var t := NatToString(x);
    if x < 10 {
      var p := "0" + t;
      assert p[..1] == "0";
    } else {
      assert NatToString(x / 10) == [DigitChar(x / 10)];
      assert |t| == 2;
    }
  }

  /** `calculateEndTime(startTime, hours)`: the clock time `hours` after `startTime`,
      wrapping past midnight. An empty start time or zero hours gives the empty string. */
  function CalculateEndTime(startTime: string, hours: int): (r: string)
    requires startTime == "" || IsClockText(startTime)
    ensures r == "" <==> (startTime == "" || hours == 0)
    ensures startTime != "" && hours > 0 ==>
      && IsClockText(r)
      && ClockHour(r) == (ClockHour(startTime) + hours + ClockMinute(startTime) / 60) % 24
      && ClockMinute(r) == ClockMinute(startTime) % 60
  {
    if startTime == "" || hours == 0 then ""
    else
      var totalMinutes := ClockHour(startTime) * 60 + ClockMinute(startTime) + hours * 60;
      var endHour := JsRemainder(totalMinutes / 60, 24);
      var endMinute := JsRemainder(totalMinutes, 60);
      var hh := PadStart2(IntToString(endHour));
      var mm := PadStart2(IntToString(endMinute));
      var r := hh + ":" + mm;
      if hours > 0 then
        SplitMinutes(ClockHour(startTime) + hours, ClockMinute(startTime));
        assert endHour == (ClockHour(startTime) + hours + ClockMinute(startTime) / 60) % 24;
        assert endMinute == ClockMinute(startTime) % 60;
        PaddedTwoDigits(endHour);
        PaddedTwoDigits(endMinute);
        assert r[..2] == hh && r[3..] == mm;
        r
      else
        r
  }

  /** The value of two decimal digits. */
  lemma TwoDigitValue(x: string)
    requires |x| == 2 && AllDigits(x)
    ensures DecimalValue(x) == DigitValue(x[0]) * 10 + DigitValue(x[1])
  {
    var p := x[..1];
    assert p == [x[0]];
    assert DecimalValue(x) == DecimalValue(p) * 10 + DigitValue(x[1]);
    assert p[..0] == [];
    assert DecimalValue(p) == DecimalValue(p[..0]) * 10 + DigitValue(p[0]);
  }

  /** Two clock texts with the same hour and minute are the same text. */
  lemma ClockTextDeterminedByValue(a: string, b: string)
    requires IsClockText(a) && IsClockText(b)
    requires ClockHour(a) == ClockHour(b) && ClockMinute(a) == ClockMinute(b)
    ensures a == b
  {
    TwoDigitValue(a[..2]);
    TwoDigitValue(b[..2]);
    TwoDigitValue(a[3..]);
    TwoDigitValue(b[3..]);
    assert a[0] == b[0] && a[1] == b[1] && a[3] == b[3] && a[4] == b[4];
  }

  /** Reads the hour and minute of a literal clock text. */
  lemma ClockFields(s: string, h: nat, m: nat)
    requires IsClockText(s)
    requires DigitValue(s[0]) * 10 + DigitValue(s[1]) == h
    requires DigitValue(s[3]) * 10 + DigitValue(s[4]) == m
    ensures ClockHour(s) == h && ClockMinute(s) == m
  {
    TwoDigitValue(s[..2]);
    TwoDigitValue(s[3..]);
  }

  /** A clock text whose hour and minute are the ones `calculateEndTime` computes is its
      result. */
  lemma EndTimeFromFields(startTime: string, hours: int, endTime: string)
    requires IsClockText(startTime) && IsClockText(endTime) && hours > 0
    requires ClockHour(endTime) == (ClockHour(startTime) + hours + ClockMinute(startTime) / 60) % 24
    requires ClockMinute(endTime) == ClockMinute(startTime) % 60
    ensures CalculateEndTime(startTime, hours) == endTime
  {
    ClockTextDeterminedByValue(CalculateEndTime(startTime, hours), endTime);
  }

  /** Three hours after 18:00 is 21:00. */
  lemma CalculateEndTimeEvening(startTime: string, hours: int, endTime: string)
    requires startTime == "18:00" && hours == 3 && endTime == "21:00"
    ensures CalculateEndTime(startTime, hours) == endTime
  {
    ClockFields(startTime, 18, 0);
    ClockFields(endTime, 21, 0);
    EndTimeFromFields(startTime, hours, endTime);
  }

  /** Two hours after 18:00 is 20:00. */
  lemma CalculateEndTimeTwoHours(startTime: string, hours: int, endTime: string)
    requires startTime == "18:00" && hours == 2 && endTime == "20:00"
    ensures CalculateEndTime(startTime, hours) == endTime
  {
    ClockFields(startTime, 18, 0);
    ClockFields(endTime, 20, 0);
    EndTimeFromFields(startTime, hours, endTime);
  }

  /** Three hours after 23:00 wraps past midnight to 02:00. */
  lemma CalculateEndTimeWrapsMidnight(startTime: string, hours: int, endTime: string)
    requires startTime == "23:00" && hours == 3 && endTime == "02:00"
    ensures CalculateEndTime(startTime, hours) == endTime
  {
    ClockFields(startTime, 23, 0);
    ClockFields(endTime, 2, 0);
    EndTimeFromFields(startTime, hours, endTime);
  }

  /** A whole day more makes no difference to the end time. */
  lemma CalculateEndTimeDayPeriodic(startTime: string, hours: int)
    requires startTime == "" || IsClockText(startTime)
    requires hours > 0
    ensures CalculateEndTime(startTime, hours + 24) == CalculateEndTime(startTime, hours)
  {
    if startTime != "" {
      var a := CalculateEndTime(startTime, hours + 24);
      var b := CalculateEndTime(startTime, hours);
      var x := ClockHour(startTime) + hours + ClockMinute(startTime) / 60;
      assert (x + 24) % 24 == x % 24;
      ClockTextDeterminedByValue(a, b);
    }
  }

  /** Negative hours (which the form's minimum of 1 does not stop a user from typing) leave
      the clock range: JavaScript's remainder keeps the sign, and both fields print negative. */
  lemma CalculateEndTimeNegativeHours(startTime: string, hours: int, endTime: string)
    requires startTime == "00:30" && hours == -1 && endTime == "-1:-30"
    ensures CalculateEndTime(startTime, hours) == endTime
  {
    ClockFields(startTime, 0, 30);
    EndTimeText(startTime, hours, -1, -30);
    NegativeTexts(-1, -30, endTime);
  }

  /** The text `calculateEndTime` prints for given end fields. */
  lemma EndTimeText(startTime: string, hours: int, h: int, m: int)
    requires IsClockText(startTime) && hours != 0
    requires h == JsRemainder((ClockHour(startTime) * 60 + ClockMinute(startTime) + hours * 60) / 60, 24)
    requires m == JsRemainder(ClockHour(startTime) * 60 + ClockMinute(startTime) + hours * 60, 60)
    ensures CalculateEndTime(startTime, hours) == PadStart2(IntToString(h)) + ":" + PadStart2(IntToString(m))
  {
  }

  /** The printed fields of the negative example. */
  lemma NegativeTexts(h: int, m: int, endTime: string)
    requires h == -1 && m == -30 && endTime == "-1:-30"
    ensures PadStart2(IntToString(h)) + ":" + PadStart2(IntToString(m)) == endTime
  {
    assert NatToString(1) == [DigitChar(1)];
    assert NatToString(30) == NatToString(3) + [DigitChar(0)];
  }

  /** `value.replace(/,/g, "")`. */
  function RemoveCommas(s: string): (r: string)
    ensures |r| <= |s|
    ensures forall i | 0 <= i < |r| :: r[i] != ','
    ensures (forall i | 0 <= i < |s| :: s[i] != ',') ==> r == s
    decreases |s|
  {
    if |s| == 0 then ""
    else (if s[0] == ',' then "" else [s[0]]) + RemoveCommas(s[1..])
  }

  lemma {:induction false} RemoveCommasAppend(a: string, b: string)
    ensures RemoveCommas(a + b) == RemoveCommas(a) + RemoveCommas(b)
    decreases |a|
  {
    if |a| == 0 {
      assert a + b == b;
    } else {
      assert (a + b)[1..] == a[1..] + b;
      RemoveCommasAppend(a[1..], b);
    }
  }

  /** The white space `parseFloat` skips before the number: the white space and line
      terminators of section 12.2 and 12.3 of ECMA-262, that is tab, vertical tab, form
      feed, the byte order mark, every space separator (Unicode category Zs), line feed,
      carriage return and the line and paragraph separators. */
  predicate IsWhiteSpace(c: char)
  {
    || c == '\t' || c == '\U{000B}' || c == '\U{000C}' || c == '\U{FEFF}'
    || c == ' ' || c == '\U{00A0}' || c == '\U{1680}' || '\U{2000}' <= c <= '\U{200A}'
    || c == '\U{202F}' || c == '\U{205F}' || c == '\U{3000}'
    || c == '\n' || c == '\r' || c == '\U{2028}' || c == '\U{2029}'
  }

  /** The text after its leading white space: what is dropped is all white space, and what
      is kept does not start with any. */
  function TrimStart(s: string): (r: string)
    ensures |r| <= |s| && r == s[|s| - |r|..]
    ensures forall i | 0 <= i < |s| - |r| :: IsWhiteSpace(s[i])
    ensures |r| > 0 ==> !IsWhiteSpace(r[0])
    decreases |s|
  {
    if |s| > 0 && IsWhiteSpace(s[0]) then TrimStart(s[1..]) else s
  }

  /** Leading white space is skipped up to the first character that is not white space. */
  lemma {:induction false} TrimStartSkips(ws: string, x: string)
    requires forall i | 0 <= i < |ws| :: IsWhiteSpace(ws[i])
    requires |x| > 0 && !IsWhiteSpace(x[0])
    ensures TrimStart(ws + x) == x
    decreases |ws|
  {
    if |ws| == 0 {
      assert ws + x == x;
    } else {
      assert (ws + x)[0] == ws[0];
      assert (ws + x)[1..] == ws[1..] + x;
      TrimStartSkips(ws[1..], x);
    }
  }

  /** The longest prefix of decimal digits. */
  function LeadingDigits(s: string): (r: string)
    ensures |r| <= |s| && r == s[..|r|] && AllDigits(r)
    ensures |r| < |s| ==> !IsDigit(s[|r|])
    decreases |s|
  {
    if |s| > 0 && IsDigit(s[0]) then [s[0]] + LeadingDigits(s[1..]) else ""
  }

  /** Text that starts like a number: a digit, or a sign followed by a digit. */
  predicate StartsNumber(t: string)
  {
    |t| > 0 && (IsDigit(t[0]) || ((t[0] == '-' || t[0] == '+') && |t| > 1 && IsDigit(t[1])))
  }

  /** `parseFloat` read as an integer: optional white space, an optional sign, then the
      digits that follow; no digits is NaN, which the caller turns into 0. */
  function ParseLeadingInteger(s: string): (r: int)
    ensures !StartsNumber(TrimStart(s)) ==> r == 0
    ensures r < 0 ==> |TrimStart(s)| > 0 && TrimStart(s)[0] == '-'
  {
    var t := TrimStart(s);
    var signed := |t| > 0 && (t[0] == '-' || t[0] == '+');
    var ds := LeadingDigits(if signed then t[1..] else t);
    if ds == "" then 0
    else if signed && t[0] == '-' then 0 - DecimalValue(ds)
    else DecimalValue(ds)
  }

  /** A string of digits parses to its decimal value. */
  lemma ParseAllDigits(s: string)
    requires AllDigits(s)
    ensures ParseLeadingInteger(s) == DecimalValue(s)
  {
    if |s| > 0 {
      assert !IsWhiteSpace(s[0]);
      assert TrimStart(s) == s;
      LeadingDigitsOfDigits(s);
    }
  }

  lemma {:induction false} LeadingDigitsOfDigits(s: string)
    requires AllDigits(s)
    ensures LeadingDigits(s) == s
    decreases |s|
  {
    if |s| > 0 {
      LeadingDigitsOfDigits(s[1..]);
    }
  }

  /** A string without digits parses to NaN, read as 0. */
  lemma ParseNoDigits(s: string)
    requires forall i | 0 <= i < |s| :: !IsDigit(s[i])
    ensures ParseLeadingInteger(s) == 0
  {
    var t := TrimStart(s);
    if |t| > 1 {
      assert !IsDigit(t[1..][0]);
    }
  }

  /** `parseNumber(value)`: strip every comma, parse, and fall back to 0. */
  function ParseNumber(value: string): (r: int)
    ensures AllDigits(RemoveCommas(value)) ==> r == DecimalValue(RemoveCommas(value))
    ensures (forall i | 0 <= i < |value| :: !IsDigit(value[i])) ==> r == 0
    ensures !StartsNumber(TrimStart(RemoveCommas(value))) ==> r == 0
  {
    ParseCleanText(value);
    ParseLeadingInteger(RemoveCommas(value))
  }

  lemma ParseCleanText(value: string)
    ensures AllDigits(RemoveCommas(value)) ==> ParseLeadingInteger(RemoveCommas(value)) == DecimalValue(RemoveCommas(value))
    ensures (forall i | 0 <= i < |value| :: !IsDigit(value[i])) ==> ParseLeadingInteger(RemoveCommas(value)) == 0
  {
    var clean := RemoveCommas(value);
    NoDigitsSurviveRemoval(value);
    if AllDigits(clean) {
      ParseAllDigits(clean);
    }
    if forall i | 0 <= i < |clean| :: !IsDigit(clean[i]) {
      ParseNoDigits(clean);
    }
  }

  lemma {:induction false} NoDigitsSurviveRemoval(s: string)
    ensures (forall i | 0 <= i < |s| :: !IsDigit(s[i])) ==>
      forall i | 0 <= i < |RemoveCommas(s)| :: !IsDigit(RemoveCommas(s)[i])
    decreases |s|
  {
    if |s| > 0 {
      NoDigitsSurviveRemoval(s[1..]);
    }
  }

  lemma RemoveCommasOfComma(c: string)
    requires c == ","
    ensures RemoveCommas(c) == ""
  {
    assert c[1..] == "";
  }

  /** A comma anywhere in the text leaves the parsed number unchanged. */
  lemma ParseNumberIgnoresComma(value: string, i: nat)
    requires i <= |value|
    ensures ParseNumber(value[..i] + "," + value[i..]) == ParseNumber(value)
  {
    var a, b, c := value[..i], value[i..], ",";
    RemoveCommasOfComma(c);
    RemoveCommasAppend(a + c, b);
    RemoveCommasAppend(a, c);
    RemoveCommasAppend(a, b);
    assert RemoveCommas(a + c) == RemoveCommas(a);
    assert a + b == value;
    assert RemoveCommas(a + c + b) == RemoveCommas(value);
  }

  /** Parsing inverts printing for every integer. */
  lemma ParseNumberRoundTrip(n: int)
    ensures ParseNumber(IntToString(n)) == n
  {
    var s := IntToString(n);
    var sign := if n < 0 then "-" else "";
    var d := NatToString(if n < 0 then -n else n);
    assert s == sign + d + "";
    DigitsHaveNoComma(d);
    assert forall i | 0 <= i < |s| :: s[i] != ',' by {
      forall i | 0 <= i < |s|
        ensures s[i] != ','
      {
        if i >= |sign| {
          assert s[i] == d[i - |sign|];
        }
      }
    }
    ParseNumberReadsPrefix(s, "", sign, d, "");
  }

  lemma DigitsHaveNoComma(d: string)
    requires AllDigits(d)
    ensures forall i | 0 <= i < |d| :: d[i] != ','
  {
  }

  /** Text with no digit at all parses to 0, as `parseNumber("abc")` does. */
  lemma ParseNumberOfText(value: string)
    requires value == "abc"
    ensures ParseNumber(value) == 0
  {
    assert forall i | 0 <= i < |value| :: !IsDigit(value[i]);
  }

  /** The digit prefix stops at the first character that is not a digit. */
  lemma {:induction false} LeadingDigitsStop(d: string, rest: string)
    requires AllDigits(d) && |rest| > 0 && !IsDigit(rest[0])
    ensures LeadingDigits(d + rest) == d
    decreases |d|
  {
    if |d| == 0 {
      assert d + rest == rest;
    } else {
      assert (d + rest)[1..] == d[1..] + rest;
      LeadingDigitsStop(d[1..], rest);
    }
  }

  /** An optional sign: nothing, "-" or "+". */
  predicate IsSign(sign: string)
  {
    |sign| <= 1 && (|sign| == 1 ==> sign[0] == '-' || sign[0] == '+')
  }

  /** The value of a run of digits under an optional sign. */
  function SignedValue(sign: string, d: string): int
    requires IsSign(sign) && AllDigits(d)
  {
    if |sign| == 1 && sign[0] == '-' then 0 - DecimalValue(d) else DecimalValue(d)
  }

  /** Once the commas are gone, white space, an optional sign and a run of digits followed by
      anything but a digit read as the signed value of those digits: `parseNumber(" -12abc")`
      is -12 and `parseNumber("1,234 baht")` is 1234. */
  lemma ParseNumberReadsPrefix(value: string, ws: string, sign: string, d: string, rest: string)
    requires RemoveCommas(value) == ws + sign + d + rest
    requires forall i | 0 <= i < |ws| :: IsWhiteSpace(ws[i])
    requires IsSign(sign)
    requires |d| > 0 && AllDigits(d)
    requires |rest| == 0 || !IsDigit(rest[0])
    ensures ParseNumber(value) == SignedValue(sign, d)
  {
    var clean, x := RemoveCommas(value), sign + d + rest;
    assert clean == ws + x;
    SignedDigitsStart(sign, d, rest);
    TrimStartSkips(ws, x);
    ParseAfterTrim(clean);
    ParseSignedDigits(sign, d, rest);
  }

  /** Parsing reads the text after its leading white space. */
  lemma ParseAfterTrim(s: string)
    ensures ParseLeadingInteger(s) == ParseLeadingInteger(TrimStart(s))
  {
    var t := TrimStart(s);
    assert TrimStart(t) == t;
  }

  /** Text that opens with a sign or a digit opens without white space. */
  lemma SignedDigitsStart(sign: string, d: string, rest: string)
    requires IsSign(sign)
    requires |d| > 0 && AllDigits(d)
    ensures |sign + d + rest| > 0 && !IsWhiteSpace((sign + d + rest)[0])
  {
    if |sign| == 0 {
      assert (sign + d + rest)[0] == d[0];
    } else {
      assert (sign + d + rest)[0] == sign[0];
    }
  }

  /** With no white space to skip, a sign and digits read as the signed value of the digits. */
  lemma ParseSignedDigits(sign: string, d: string, rest: string)
    requires IsSign(sign)
    requires |d| > 0 && AllDigits(d)
    requires |rest| == 0 || !IsDigit(rest[0])
    ensures ParseLeadingInteger(sign + d + rest) == SignedValue(sign, d)
  {
    var x := sign + d + rest;
    SignedDigitsStart(sign, d, rest);
    assert TrimStart(x) == x;
    LeadingDigitsBeforeRest(d, rest);
    if |sign| == 0 {
      assert x == d + rest;
    } else {
      assert x[0] == sign[0];
      assert x[1..] == d + rest;
    }
  }

  /** The digit prefix of digits followed by a non-digit, or by nothing, is those digits. */
  lemma LeadingDigitsBeforeRest(d: string, rest: string)
    requires AllDigits(d)
    requires |rest| == 0 || !IsDigit(rest[0])
    ensures LeadingDigits(d + rest) == d
  {
    if |rest| > 0 {
      LeadingDigitsStop(d, rest);
    } else {
      assert d + rest == d;
      LeadingDigitsOfDigits(d);
    }
  }

  /** The digits after a decimal point are dropped: `parseNumber` of a whole number followed
      by a fraction reads the whole number, as `parseNumber("1234.50")` gives 1234 in the
      integer model. Together with `ParseNumberIgnoresComma` this covers "1,234.50". */
  lemma ParseNumberDropsFraction(n: nat, fraction: string)
    requires AllDigits(fraction)
    ensures ParseNumber(NatToString(n) + "." + fraction) == n
  {
    var d := NatToString(n);
    var rest := "." + fraction;
    var s := d + rest;
    assert s == NatToString(n) + "." + fraction;
    DigitsHaveNoComma(fraction);
    DigitsHaveNoComma(d);
    forall i | 0 <= i < |s|
      ensures s[i] != ','
    {
      if i > |d| {
        assert s[i] == fraction[i - |d| - 1];
      }
    }
    assert s == "" + "" + d + rest;
    ParseNumberReadsPrefix(s, "", "", d, rest);
  }
}
