/**
  `formatMinutes` from src/utils.ts: a duration rendered as `H:MM:SS`.
  The core works on whole seconds, the value `Math.round(minutes * 60)`
  produces; `FormatMinutesOf` adds that rounding step over exact reals.
 */
module Utils {
  import opened Wrappers
  import opened JsText

  const SecondsPerMinute: nat := 60
  const SecondsPerHour: nat := 3600

  /** The three fields of a rendered duration. */
  datatype Clock = Clock(hours: nat, minutes: nat, seconds: nat)

  /** The unique split of `totalSeconds` into hours, minutes below 60 and seconds below 60. */
  function ClockOf(totalSeconds: nat): (c: Clock)
    ensures c.minutes < 60 && c.seconds < 60
    ensures c.hours * SecondsPerHour + c.minutes * SecondsPerMinute + c.seconds == totalSeconds
  {
    Clock(totalSeconds / SecondsPerHour, (totalSeconds % SecondsPerHour) / SecondsPerMinute, totalSeconds % SecondsPerMinute)
  }

  /**
    A clock field as `n.toString().padStart(2, "0")` renders it: at least two
    digits, exactly two below 100, reading back as `n`.
   */
  function TwoDigits(n: nat): (t: string)
    ensures |t| >= 2 && AllDigits(t)
    ensures n < 100 ==> |t| == 2
    ensures ParseDigits(t) == n
  {
    var s := NatToString(n);
    ParseNatToString(n);
    if |s| >= 2 then
      assert n < 100 ==> |s| == 2 by {
        if n >= 10 && n < 100 {
          assert NatToString(n) == NatToString(n / 10) + [DigitChar(n % 10)];
        }
      }
      s
    else
      var t := PadStart(s, 2, '0');
      assert t == ['0', s[0]];
      assert t[..1] == ['0'];
      assert t[..1][..0] == [];
      assert s[..0] == [];
      t
  }

  /** The `H:MM:SS` layout: decimal hours, a colon, two digits, a colon, two digits. */
  predicate HasClockShape(s: string) {
    && |s| >= 7
    && s[|s| - 6] == ':' && s[|s| - 3] == ':'
    && AllDigits(s[..|s| - 6])
    && AllDigits(s[|s| - 5..|s| - 3])
    && AllDigits(s[|s| - 2..])
  }

  /** Joining decimal hours and two two-digit fields with colons gives the clock shape, with each field in place. */
  lemma ClockText(h: string, m: string, sec: string)
    requires |h| >= 1 && AllDigits(h)
    requires |m| == 2 && AllDigits(m)
    requires |sec| == 2 && AllDigits(sec)
    ensures var r := h + ":" + m + ":" + sec;
      && HasClockShape(r)
      && |r| == |h| + 6
      && r[0] == h[0]
      && r[..|r| - 6] == h
      && r[|r| - 5..|r| - 3] == m
      && r[|r| - 2..] == sec
  {
    var r := h + ":" + m + ":" + sec;
    assert r == h + (":" + m + ":" + sec);
    assert r[..|r| - 6] == h;
    assert r[|r| - 5..|r| - 3] == m;
    assert r[|r| - 2..] == sec;
  }

  /** `formatMinutes`, taking the already-rounded total number of seconds. */
  function FormatMinutes(totalSeconds: nat): (r: string)
    ensures HasClockShape(r)
    ensures r[0] == '0' ==> totalSeconds < SecondsPerHour && |r| == 7
  {
    var c := ClockOf(totalSeconds);
    var h := NatToString(c.hours);
    var m := TwoDigits(c.minutes);
    var sec := TwoDigits(c.seconds);
    ClockText(h, m, sec);
    h + ":" + m + ":" + sec
  }

  /** Reads an `H:MM:SS` text back into seconds; `None` for anything else. */
  function ParseClock(s: string): Option<nat> {
    if !HasClockShape(s) then None
    else
      var h := ParseDigits(s[..|s| - 6]);
      var m := ParseDigits(s[|s| - 5..|s| - 3]);
      var sec := ParseDigits(s[|s| - 2..]);
      if m < 60 && sec < 60 then Some(h * SecondsPerHour + m * SecondsPerMinute + sec) else None
  }

  /** Parsing a text of clock shape reads its three fields from their fixed places. */
  lemma ParseClockFields(r: string)
    requires HasClockShape(r)
    requires ParseDigits(r[|r| - 5..|r| - 3]) < 60 && ParseDigits(r[|r| - 2..]) < 60
    ensures ParseClock(r) == Some(ParseDigits(r[..|r| - 6]) * SecondsPerHour
                                  + ParseDigits(r[|r| - 5..|r| - 3]) * SecondsPerMinute
                                  + ParseDigits(r[|r| - 2..]))
  {
  }

  /** Parsing the rendered text recovers the number of seconds. */
  lemma {:induction false} FormatMinutesRoundTrip(totalSeconds: nat)
    ensures ParseClock(FormatMinutes(totalSeconds)) == Some(totalSeconds)
  {
    var c := ClockOf(totalSeconds);
    var h := NatToString(c.hours);
    var m := TwoDigits(c.minutes);
    var sec := TwoDigits(c.seconds);
    ParseNatToString(c.hours);
    FormatMinutesFields(totalSeconds);
    var r := FormatMinutes(totalSeconds);
    ClockText(h, m, sec);
    assert r[..|r| - 6] == h && r[|r| - 5..|r| - 3] == m && r[|r| - 2..] == sec;
    ParseClockFields(r);
  }

  /** Distinct durations never render alike. */
  lemma FormatMinutesInjective(a: nat, b: nat)
    requires FormatMinutes(a) == FormatMinutes(b)
    ensures a == b
  {
    FormatMinutesRoundTrip(a);
    FormatMinutesRoundTrip(b);
  }

  /** A text of clock shape has exactly two colons: every other character is a digit. */
  lemma ClockShapeColons(r: string)
    requires HasClockShape(r)
    ensures forall i :: 0 <= i < |r| ==> (r[i] == ':' <==> i == |r| - 6 || i == |r| - 3)
  {
    forall i | 0 <= i < |r|
      ensures r[i] == ':' <==> i == |r| - 6 || i == |r| - 3
    {
      if i < |r| - 6 {
        assert r[i] == r[..|r| - 6][i];
      } else if |r| - 6 < i < |r| - 3 {
        assert r[i] == r[|r| - 5..|r| - 3][i - (|r| - 5)];
      } else if |r| - 3 < i {
        assert r[i] == r[|r| - 2..][i - (|r| - 2)];
      }
    }
  }

  /** `FormatMinutes` as the three rendered fields joined by colons. */
  lemma FormatMinutesFields(totalSeconds: nat)
    ensures var c := ClockOf(totalSeconds);
      FormatMinutes(totalSeconds) == NatToString(c.hours) + ":" + TwoDigits(c.minutes) + ":" + TwoDigits(c.seconds)
  {
  }

  /** The first example in the documentation of `formatMinutes`: 75.5 minutes. */
  lemma FormatMinutesDocExample1()
    ensures FormatMinutes(4530) == "1:15:30"
  {
    FormatMinutesFields(4530);
    assert ClockOf(4530) == Clock(1, 15, 30);
    assert NatToString(1) == "1";
    assert TwoDigits(15) == "15";
    assert TwoDigits(30) == "30";
  }

  /** The second example in the documentation of `formatMinutes`: 960.75 minutes. */
  lemma FormatMinutesDocExample2()
    ensures FormatMinutes(57645) == "16:00:45"
  {
    FormatMinutesFields(57645);
    assert ClockOf(57645) == Clock(16, 0, 45);
    assert NatToString(16) == "16";
    assert TwoDigits(0) == "00";
    assert TwoDigits(45) == "45";
  }

  /** `Math.round`: the nearest integer, halves rounded up. */
  function RoundHalfUp(x: real): (n: int)
    ensures n as real - 0.5 <= x < n as real + 0.5
  {
    (x + 0.5).Floor
  }

  /** `formatMinutes(minutes)` for a non-negative number of minutes, rounding to whole seconds first. */
  function FormatMinutesOf(minutes: real): (r: string)
    requires minutes >= 0.0
    ensures HasClockShape(r)
    ensures ParseClock(r).Some?
    ensures r[0] == '0' ==> |r| == 7
    ensures var secs := ParseClock(r).value as real;
      secs - 0.5 <= minutes * 60.0 < secs + 0.5
  {
    var secs := RoundHalfUp(minutes * 60.0);
    FormatMinutesRoundTrip(secs);
    FormatMinutes(secs)
  }
}
