/**
 * `formatTime` of both timers: `mm:ss` with each part zero-padded to at least
 * two digits, and a reader for that text that inverts it.
 */
module Clock {
  import opened Wrappers
  import opened Text

  /** JavaScript's `%`: the remainder takes the sign of the dividend (divisor assumed non-zero). */
  function JsRem(a: int, b: int): (r: int)
    requires b != 0
    ensures a >= 0 ==> r == a % b
    ensures a < 0 ==> r == -((-a) % b)
  {
    if a >= 0 then a % b else -((-a) % b)
  }

  /**
   * `formatTime(seconds)`: `Math.floor(seconds / 60)` and `seconds % 60`, each
   * turned into text and padded to two characters with zeros.
   */
  function FormatTime(seconds: int): string {
    PadStart2(IntToString(seconds / 60)) + ":" + PadStart2(IntToString(JsRem(seconds, 60)))
  }

  /** Reads `m:ss` back: digits, a colon, digits, as minutes and seconds. */
  function ParseClock(t: string): (r: Option<int>)
    ensures r.Some? ==> ':' in t
  {
    var mins := BeforeFirst(t, ':');
    if |mins| == |t| then None
    else
      match (ParseNat(mins), ParseNat(t[|mins| + 1..]))
      case (Some(m), Some(s)) => Some(m * 60 + s)
      case _ => None
  }

  /** A padded decimal text of a non-negative number: digits only, value preserved. */
  lemma PaddedDigits(n: nat)
    ensures AllDigits(PadStart2(NatToString(n)))
    ensures ParseNat(PadStart2(NatToString(n))) == Some(n)
    ensures ':' !in PadStart2(NatToString(n))
  {
    PadStart2Digits(NatToString(n));
    DigitsValueOfNatToString(n);
    var p := PadStart2(NatToString(n));
    assert forall i :: 0 <= i < |p| ==> p[i] != ':' by {
      assert forall i :: 0 <= i < |p| ==> IsDigit(p[i]);
    }
  }

  /** For a non-negative count, the two parts are the plain decimal quotient and remainder. */
  lemma FormatTimeOfNat(s: nat)
    ensures FormatTime(s) == PadStart2(NatToString(s / 60)) + ":" + PadStart2(NatToString(s % 60))
  {
    assert JsRem(s, 60) == s % 60;
    assert IntToString(s / 60) == NatToString(s / 60);
    assert IntToString(s % 60) == NatToString(s % 60);
  }

  /** The decimal text of a number below 60 has at most two digits. */
  lemma SecondsDigits(r: nat)
    requires r < 60
    ensures |NatToString(r)| <= 2
  {
    if r >= 10 {
      assert NatToString(r) == NatToString(r / 10) + [DigitChar(r % 10)];
    }
  }

  /**
   * For a non-negative count of seconds the text is the minutes, a colon and
   * the seconds, each a digit string of at least two digits (the seconds of
   * exactly two) whose values are `seconds / 60` and `seconds % 60`.
   */
  lemma FormatTimeShape(s: nat)
    ensures var mm, ss := PadStart2(NatToString(s / 60)), PadStart2(NatToString(s % 60));
      FormatTime(s) == mm + ":" + ss &&
      |mm| >= 2 && |ss| == 2 && AllDigits(mm) && AllDigits(ss) &&
      ParseNat(mm) == Some(s / 60) && ParseNat(ss) == Some(s % 60)
  {
    FormatTimeOfNat(s);
    SecondsDigits(s % 60);
    PaddedDigits(s / 60);
    PaddedDigits(s % 60);
  }

  /** Reading `a:b` where `a` has no colon and both parts are numbers. */
  lemma ParseClockOfJoin(a: string, b: string, mins: nat, secs: nat)
    requires ':' !in a && ParseNat(a) == Some(mins) && ParseNat(b) == Some(secs)
    ensures ParseClock(a + ":" + b) == Some(mins * 60 + secs)
  {
    var t := a + ":" + b;
    BeforeFirstOfJoin(a, ':', b);
    assert t[|a| + 1..] == b;
  }

  /** Padded minutes, a colon and padded seconds read back as `mins * 60 + secs`. */
  lemma PaddedPartsRoundTrip(mins: nat, secs: nat)
    ensures ParseClock(PadStart2(NatToString(mins)) + ":" + PadStart2(NatToString(secs))) == Some(mins * 60 + secs)
  {
    PaddedDigits(mins);
    PaddedDigits(secs);
    ParseClockOfJoin(PadStart2(NatToString(mins)), PadStart2(NatToString(secs)), mins, secs);
  }

  /** Reading the formatted text gives back the seconds: `mins * 60 + secs == seconds`. */
  lemma FormatTimeRoundTrip(s: nat)
    ensures ParseClock(FormatTime(s)) == Some(s)
  {
    var m, r := s / 60, s % 60;
    assert s == m * 60 + r;
    FormatTimeOfNat(s);
    PaddedPartsRoundTrip(m, r);
  }

  /**
   * A negative count, which a negative study-time input makes reachable, mixes
   * floor division with a truncating remainder and does not read back.
   */
  lemma NegativeTimeDoesNotRoundTrip()
    ensures FormatTime(-61) == "-2:-1"
    ensures ParseClock(FormatTime(-61)) == None
  {
    assert -61 / 60 == -2 && JsRem(-61, 60) == -1;
    assert NatToString(2) == "2" && NatToString(1) == "1";
    assert IntToString(-2) == "-2" && IntToString(-1) == "-1";
    assert PadStart2("-2") == "-2" && PadStart2("-1") == "-1";
    var t := FormatTime(-61);
    assert t == "-2:-1";
    assert BeforeFirst(t, ':') == "-2" by {
      BeforeFirstOfJoin("-2", ':', "-1");
    }
    assert !AllDigits("-2") by {
      assert !IsDigit("-2"[0]);
    }
  }

  /** Different non-negative second counts are shown as different texts. */
  lemma FormatTimeInjective(s: nat, u: nat)
    requires FormatTime(s) == FormatTime(u)
    ensures s == u
  {
    FormatTimeRoundTrip(s);
    FormatTimeRoundTrip(u);
  }
}
