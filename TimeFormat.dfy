/**
 * The session clock text of the challenge engine: elapsed milliseconds as
 * "MM:SS", or "HH:MM:SS" once a whole hour has passed. Integer division and
 * remainder are the JVM's, which truncate toward zero; fields are printed
 * with Java's "%02d" (at least two digits, a leading minus for negatives),
 * in ASCII digits: the default locale is taken to have '0' as its zero digit.
 */
module TimeFormat {
  import opened Wrappers

  /** JVM `Long` division: rounds toward zero. */
  function TruncDiv(a: int, b: int): (q: int)
    requires b > 0
    ensures a >= 0 ==> q == a / b
    ensures a < 0 ==> q <= 0 && a <= q * b
    ensures -b < a - q * b < b
  {
    if a >= 0 then a / b else -((-a) / b)
  }

  /** JVM `Long` remainder: takes the sign of the dividend. */
  function TruncMod(a: int, b: int): (r: int)
    requires b > 0
    ensures a >= 0 ==> r == a % b && 0 <= r < b
    ensures a < 0 ==> -b < r <= 0
    ensures a == TruncDiv(a, b) * b + r
  {
    a - TruncDiv(a, b) * b
  }

  /** The three clock fields of a duration in milliseconds. */
  datatype Clock = Clock(hours: int, minutes: int, seconds: int)

  /**
   * The fields of `ms`: minutes and seconds lie strictly within one
   * minute/hour either side of zero, and for a non-negative duration they
   * are ordinary clock digits that add back up to the duration.
   */
  function Fields(ms: int): (c: Clock)
    ensures -60 < c.seconds < 60 && -60 < c.minutes < 60
    ensures ms >= 0 ==> 0 <= c.seconds < 60 && 0 <= c.minutes < 60 && c.hours >= 0
    ensures ms >= 0 ==> c.hours * 3600000 + c.minutes * 60000 + c.seconds * 1000 + ms % 1000 == ms
    ensures c.hours > 0 <==> ms >= 3600000
  {
    var c := Clock(
      hours := TruncDiv(ms, 1000 * 60 * 60),
      minutes := TruncMod(TruncDiv(ms, 1000 * 60), 60),
      seconds := TruncMod(TruncDiv(ms, 1000), 60));
    FieldsAddUp(ms);
    c
  }

  lemma FieldsAddUp(ms: int)
    ensures ms >= 0 ==> (ms / 3600000) * 3600000 + ((ms / 60000) % 60) * 60000 + ((ms / 1000) % 60) * 1000 + ms % 1000 == ms
  {
    if ms < 0 {
      return;
    }
    var s := ms / 1000;
    var m := s / 60;
    assert ms == s * 1000 + ms % 1000;
    assert s == m * 60 + s % 60;
    DivDiv(ms);
    assert m == (m / 60) * 60 + m % 60;
  }

  /** Dividing by 60000 (or 3600000) is dividing by 1000 (or 60000) and then by 60. */
  lemma DivDiv(a: nat)
    ensures a / 60000 == (a / 1000) / 60
    ensures a / 3600000 == (a / 60000) / 60
  {
    var s := a / 1000;
    assert a == (s / 60) * 60000 + ((s % 60) * 1000 + a % 1000);
    var m := a / 60000;
    assert a == (m / 60) * 3600000 + ((m % 60) * 60000 + a % 60000);
  }

  /** The clock fields of a non-negative duration count its whole seconds. */
  lemma WholeSeconds(ms: nat)
    ensures ms / 1000 == Fields(ms).hours * 3600 + Fields(ms).minutes * 60 + Fields(ms).seconds
  {
    var s := ms / 1000;
    var m := s / 60;
    DivDiv(ms);
    assert s == m * 60 + s % 60;
    assert m == (m / 60) * 60 + m % 60;
  }

  function DigitChar(d: int): (ch: char)
    requires 0 <= d < 10
    ensures '0' <= ch <= '9' && ch as int - '0' as int == d
  {
    (d + '0' as int) as char
  }

  predicate IsDigits(s: string)
  {
    forall i :: 0 <= i < |s| ==> '0' <= s[i] <= '9'
  }

  /** Decimal digits of a natural number, most significant first, no leading zero. */
  function NatToString(n: nat): (s: string)
    ensures |s| >= 1 && IsDigits(s)
    ensures n >= 10 <==> |s| >= 2
  {
    if n < 10 then [DigitChar(n)] else NatToString(n / 10) + [DigitChar(n % 10)]
  }

  /** The value of a digit string. */
  function DigitsValue(s: string): nat
    requires IsDigits(s)
  {
    if s == [] then 0 else DigitsValue(s[..|s| - 1]) * 10 + (s[|s| - 1] as int - '0' as int)
  }

  lemma {:induction false} NatToStringValue(n: nat)
    ensures DigitsValue(NatToString(n)) == n
  {
    if n >= 10 {
      var s := NatToString(n);
      assert s[..|s| - 1] == NatToString(n / 10);
      NatToStringValue(n / 10);
    }
  }

  /** Java's "%02d": zero-padded to two characters, sign first. */
  function Pad2(n: int): (s: string)
    ensures n >= 0 ==> |s| >= 2 && IsDigits(s)
    ensures 0 <= n < 100 ==> |s| == 2
  {
    if n < 0 then "-" + NatToString(-n)
    else if n < 10 then "0" + NatToString(n)
    else NatToString(n)
  }

  lemma Pad2Value(n: nat)
    ensures DigitsValue(Pad2(n)) == n
  {
    NatToStringValue(n);
    if n < 10 {
      assert Pad2(n)[..1] == "0";
    }
  }

  /** The clock text of an elapsed time in milliseconds. */
  function FormatTime(milliseconds: int): (s: string)
    ensures Fields(milliseconds).hours > 0 ==> s == Pad2(Fields(milliseconds).hours) + ":" + Pad2(Fields(milliseconds).minutes) + ":" + Pad2(Fields(milliseconds).seconds)
    ensures Fields(milliseconds).hours <= 0 ==> s == Pad2(Fields(milliseconds).minutes) + ":" + Pad2(Fields(milliseconds).seconds)
  {
    var c := Fields(milliseconds);
    if c.hours > 0 then
      Pad2(c.hours) + ":" + Pad2(c.minutes) + ":" + Pad2(c.seconds)
    else
      Pad2(c.minutes) + ":" + Pad2(c.seconds)
  }

  /** Reads "MM:SS" back into seconds. */
  function ParseMinSec(t: string): (r: Option<int>)
    ensures r.Some? ==> r.value >= 0
  {
    if |t| == 5 && t[2] == ':' && IsDigits(t[..2]) && IsDigits(t[3..]) then
      Some(DigitsValue(t[..2]) * 60 + DigitsValue(t[3..]))
    else None
  }

  /**
   * The short form is used exactly for durations under an hour, and is
   * always five characters for a non-negative duration.
   */
  lemma ShortFormUnderAnHour(ms: nat)
    ensures ms < 3600000 <==> |FormatTime(ms)| == 5
  {
    var c := Fields(ms);
    if c.hours > 0 {
      assert |Pad2(c.hours)| >= 2;
    }
  }

  /** "MM:SS" reads back as minutes and seconds. */
  lemma ParseShort(mm: string, ss: string)
    requires |mm| == 2 && |ss| == 2 && IsDigits(mm) && IsDigits(ss)
    ensures ParseMinSec(mm + ":" + ss) == Some(DigitsValue(mm) * 60 + DigitsValue(ss))
  {
    var t := mm + ":" + ss;
    assert t[..2] == mm;
    assert t[3..] == ss;
  }

  /** Every duration under an hour formats to "MM:SS" text that reads back as its whole seconds. */
  lemma FormatTimeRoundTrip(ms: nat)
    requires ms < 3600000
    ensures ParseMinSec(FormatTime(ms)) == Some(ms / 1000)
  {
    var c := Fields(ms);
    var mm, ss := Pad2(c.minutes), Pad2(c.seconds);
    assert FormatTime(ms) == mm + ":" + ss;
    assert DigitsValue(mm) == c.minutes && DigitsValue(ss) == c.seconds by {
      Pad2Value(c.minutes);
      Pad2Value(c.seconds);
    }
    assert ParseMinSec(mm + ":" + ss) == Some(c.minutes * 60 + c.seconds) by {
      ParseShort(mm, ss);
    }
    assert ms / 1000 == c.minutes * 60 + c.seconds by {
      WholeSeconds(ms);
    }
  }

  /** The minute and second fields do not depend on whole hours. */
  lemma FieldsBelowHour(ms: nat)
    ensures Fields(ms % 3600000).minutes == Fields(ms).minutes
    ensures Fields(ms % 3600000).seconds == Fields(ms).seconds
    ensures Fields(ms % 3600000).hours == 0
  {
    var h := ms / 3600000;
    var r := ms % 3600000;
    assert ms == h * 3600000 + r;
    assert ms / 60000 == h * 60 + r / 60000;
    assert ms / 1000 == h * 3600 + r / 1000;
  }

  /**
   * From an hour on, the text is the hour field, a colon, and the short
   * text of what is left below the hour.
   */
  lemma LongFormSplits(ms: nat)
    requires ms >= 3600000
    ensures FormatTime(ms) == Pad2(ms / 3600000) + ":" + FormatTime(ms % 3600000)
    ensures |Pad2(ms / 3600000)| >= 2 && DigitsValue(Pad2(ms / 3600000)) == ms / 3600000
  {
    FieldsBelowHour(ms);
    Pad2Value(ms / 3600000);
  }
}
