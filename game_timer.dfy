/** The session clock's "m:ss" rendering of elapsed milliseconds. */
module GameTimer {
  import opened JsString

  /** A multiple of `b` at least once over is at least `b`. */
  lemma {:induction false} MultipleAtLeast(k: int, b: int)
    requires b > 0 && k >= 1
    ensures k * b >= b
    decreases k
  {
    if k > 1 {
      MultipleAtLeast(k - 1, b);
      assert k * b == (k - 1) * b + b;
    }
  }

  /** Every multiple of `b` leaves remainder zero. */
  lemma MultipleRem(q: int, b: int)
    requires b > 0
    ensures (q * b) % b == 0
  {
    var d, m := (q * b) / b, (q * b) % b;
    assert q * b == d * b + m && 0 <= m < b;
    assert (q - d) * b == m;
    if q - d >= 1 {
      MultipleAtLeast(q - d, b);
    } else if q - d <= -1 {
      MultipleAtLeast(d - q, b);
    }
  }

  /**
   * JavaScript `%` on integers: the remainder takes the sign of the
   * dividend, is smaller than the divisor in magnitude, and differs from the
   * dividend by a multiple of the divisor.
   */
  function JsRem(a: int, b: int): (r: int)
    requires b > 0
    ensures a >= 0 ==> 0 <= r < b
    ensures a < 0 ==> -b < r <= 0
    ensures (a - r) % b == 0
  {
    if a >= 0 then
      MultipleRem(a / b, b);
      assert a - a % b == (a / b) * b;
      a % b
    else
      MultipleRem(-((-a) / b), b);
      assert a + (-a) % b == (-((-a) / b)) * b;
      -((-a) % b)
  }

  /**
   * Whole minutes and the remaining seconds of `elapsedMs`: `Math.floor(ms / 1000)`
   * seconds (a floor division, which for a positive divisor is Dafny's `/`),
   * their `Math.floor(seconds / 60)` minutes and `seconds % 60`.
   */
  function Clock(elapsedMs: int): (r: (int, int))
    ensures elapsedMs >= 0 ==> r.0 >= 0 && 0 <= r.1 < 60
    ensures elapsedMs >= 0 ==>
      (r.0 * 60 + r.1) * 1000 <= elapsedMs < (r.0 * 60 + r.1 + 1) * 1000
  {
    var seconds := elapsedMs / 1000;
    var minutes := seconds / 60;
    var remainingSeconds := JsRem(seconds, 60);
    (minutes, remainingSeconds)
  }

  /** `s.padStart(2, '0')`. */
  function PadStart2(s: string): (r: string)
    ensures |r| == if |s| >= 2 then |s| else 2
    ensures r[|r| - |s|..] == s
    ensures forall k :: 0 <= k < |r| - |s| ==> r[k] == '0'
  {
    if |s| >= 2 then s else seq(2 - |s|, _ => '0') + s
  }

  /** `${minutes}:${remainingSeconds.toString().padStart(2, '0')}`. */
  function FormatTime(elapsedMs: int): string {
    var (minutes, remainingSeconds) := Clock(elapsedMs);
    IntToString(minutes) + ":" + PadStart2(IntToString(remainingSeconds))
  }

  /** For a non-negative time the text is the minutes, a colon and exactly two second digits. */
  lemma FormatTimeShape(elapsedMs: int)
    requires elapsedMs >= 0
    ensures var (m, r) := Clock(elapsedMs);
      FormatTime(elapsedMs) == NatToDecimal(m) + [':', DigitChar(r / 10), DigitChar(r % 10)]
  {
    var (m, r) := Clock(elapsedMs);
    var digits := NatToDecimal(r);
    if r < 10 {
      assert digits == [DigitChar(r)];
      assert PadStart2(digits) == ['0', DigitChar(r)];
    } else {
      assert NatToDecimal(r / 10) == [DigitChar(r / 10)];
      assert digits == [DigitChar(r / 10), DigitChar(r % 10)];
    }
  }

  /** Two digits read back as the number below 100 they were made from. */
  lemma TwoDigitsReadBack(r: int)
    requires 0 <= r < 100
    ensures ReadsAs([DigitChar(r / 10), DigitChar(r % 10)], r)
  {
    var tail := [DigitChar(r / 10), DigitChar(r % 10)];
    assert tail[..1] == [DigitChar(r / 10)];
    assert DecimalValue(tail[..1]) == r / 10 by {
      assert tail[..1][..0] == [];
    }
  }

  /** A text ending in a colon and two characters splits back into its parts. */
  lemma SplitAtColon(x: string, a: char, b: char)
    ensures var s := x + [':', a, b];
      |s| == |x| + 3 && s[..|s| - 3] == x && s[|s| - 3] == ':' && s[|s| - 2..] == [a, b]
  {
    var s := x + [':', a, b];
    assert s[..|x|] == x;
    assert s[|x| + 1..] == [a, b];
  }

  /**
   * Reading the text back: the digits before the colon are the minutes, the
   * two after it the seconds past the minute, together the whole seconds
   * elapsed.
   */
  lemma FormatTimeReadsBack(elapsedMs: int)
    requires elapsedMs >= 0
    ensures var s := FormatTime(elapsedMs);
      var (m, r) := Clock(elapsedMs);
      |s| >= 4 && s[|s| - 3] == ':' &&
      ReadsAs(s[..|s| - 3], m) && ReadsAs(s[|s| - 2..], r) &&
      m * 60 + r == elapsedMs / 1000
  {
    var (m, r) := Clock(elapsedMs);
    FormatTimeShape(elapsedMs);
    SplitAtColon(NatToDecimal(m), DigitChar(r / 10), DigitChar(r % 10));
    DecimalRoundTrip(m);
    TwoDigitsReadBack(r);
  }

  /** Sub-second milliseconds never show: a time renders as its whole seconds do. */
  lemma FormatTimeTruncatesMilliseconds(elapsedMs: int)
    requires elapsedMs >= 0
    ensures FormatTime(elapsedMs) == FormatTime(elapsedMs - elapsedMs % 1000)
  {
    assert (elapsedMs - elapsedMs % 1000) / 1000 == elapsedMs / 1000;
  }

  /** A two-digit decimal reading of minutes and seconds, for the fixed examples. */
  lemma FormatTimeIs(elapsedMs: int, text: string)
    requires elapsedMs >= 0
    requires var (m, r) := Clock(elapsedMs);
      text == NatToDecimal(m) + [':', DigitChar(r / 10), DigitChar(r % 10)]
    ensures FormatTime(elapsedMs) == text
  {
    FormatTimeShape(elapsedMs);
  }

  /** Zero and the last second of the first minute. */
  lemma FormatTimeUnderAMinute()
    ensures FormatTime(0) == "0:00"
    ensures FormatTime(59000) == "0:59"
  {
    FormatTimeIs(0, "0:00");
    FormatTimeIs(59000, "0:59");
  }

  /** Milliseconds are dropped: 1999 ms shows as 1000 ms does, 2001 ms as two seconds. */
  lemma FormatTimeDropsMilliseconds()
    ensures FormatTime(1999) == "0:01" && FormatTime(1000) == "0:01"
    ensures FormatTime(2001) == "0:02"
  {
    FormatTimeIs(1000, "0:01");
    FormatTimeTruncatesMilliseconds(1999);
    FormatTimeIs(2000, "0:02");
    FormatTimeTruncatesMilliseconds(2001);
  }

  /** 65 s and ten minutes. */
  lemma FormatTimeMinutes()
    ensures FormatTime(65000) == "1:05"
    ensures FormatTime(600000) == "10:00"
  {
    FormatTimeIs(65000, "1:05");
    assert NatToDecimal(10) == "10";
    FormatTimeIs(600000, "10:00");
  }

  /** An hour is sixty minutes: minutes are not reduced modulo 60. */
  lemma FormatTimeHours()
    ensures FormatTime(3600000) == "60:00"
    ensures FormatTime(3661000) == "61:01"
  {
    assert NatToDecimal(60) == "60";
    FormatTimeIs(3600000, "60:00");
    assert NatToDecimal(61) == "61";
    FormatTimeIs(3661000, "61:01");
  }
}
