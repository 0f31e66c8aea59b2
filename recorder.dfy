/**
 * The sound recorder screen (RecorderApp in components/Apps.tsx): the elapsed-time
 * counter and its m:ss display.
 */
module Recorder {

  predicate IsDigit(c: char) {
    '0' <= c <= '9'
  }

  function Digit(n: nat): (c: char)
    requires n < 10
    ensures IsDigit(c) && c as int == '0' as int + n
  {
    ('0' as int + n) as char
  }

  function DigitValue(c: char): (n: nat)
    requires IsDigit(c)
    ensures n < 10
  {
    (c as int - '0' as int) as nat
  }

  /** The decimal form JavaScript gives a non-negative integer in a template string. */
  function Decimal(n: nat): (s: string)
    ensures |s| >= 1
    ensures forall i :: 0 <= i < |s| ==> IsDigit(s[i])
    ensures n < 10 <==> |s| == 1
    ensures s[0] == '0' ==> n == 0
    decreases n
  {
    if n < 10 then [Digit(n)] else Decimal(n / 10) + [Digit(n % 10)]
  }

  /** Reads a string of decimal digits back as a number. */
  function ParseDecimal(s: string): nat
    requires forall i :: 0 <= i < |s| ==> IsDigit(s[i])
    decreases |s|
  {
    if s == [] then 0 else ParseDecimal(s[..|s| - 1]) * 10 + DigitValue(s[|s| - 1])
  }

  lemma DigitRoundTrip(n: nat)
    requires n < 10
    ensures DigitValue(Digit(n)) == n
  {
  }

  /** Decimal is undone by ParseDecimal. */
  lemma {:induction false} DecimalRoundTrip(n: nat)
    ensures ParseDecimal(Decimal(n)) == n
    decreases n
  {
    DigitRoundTrip(n % 10);
    if n >= 10 {
      var s := Decimal(n);
      assert s[..|s| - 1] == Decimal(n / 10);
      DecimalRoundTrip(n / 10);
    }
  }

  /** The seconds field: `sec` padded with a leading zero to two digits. */
  function TwoDigits(sec: nat): (r: string)
    requires sec < 60
    ensures |r| == 2 && IsDigit(r[0]) && IsDigit(r[1])
    ensures '0' <= r[0] <= '5'
    ensures ParseDecimal(r) == sec
  {
    var r := (if sec < 10 then "0" else "") + Decimal(sec);
    if sec < 10 then
      assert r == [Digit(0), Digit(sec)];
      assert r[..1] == [Digit(0)] && r[..1][..0] == [];
      assert ParseDecimal([Digit(0)]) == 0;
      assert ParseDecimal(r) == ParseDecimal([Digit(0)]) * 10 + DigitValue(Digit(sec));
      r
    else
      DecimalRoundTrip(sec);
      assert r == Decimal(sec) == Decimal(sec / 10) + [Digit(sec % 10)];
      r
  }

  /** formatTime: minutes, a colon, and the seconds padded to two digits. */
  function FormatTime(s: nat): (r: string)
    ensures |r| >= 4 && r[|r| - 3] == ':'
    ensures forall i :: 0 <= i < |r| && i != |r| - 3 ==> IsDigit(r[i])
    ensures '0' <= r[|r| - 2] <= '5'
    ensures r[..|r| - 3] == Decimal(s / 60) && r[|r| - 2..] == TwoDigits(s % 60)
  {
    var min := s / 60;
    var sec := s % 60;
    Decimal(min) + ":" + TwoDigits(sec)
  }

  /** Reads a m:ss display back as a number of seconds. */
  function ParseTime(t: string): nat
    requires |t| >= 4 && t[|t| - 3] == ':'
    requires forall i :: 0 <= i < |t| && i != |t| - 3 ==> IsDigit(t[i])
  {
    ParseDecimal(t[..|t| - 3]) * 60 + ParseDecimal(t[|t| - 2..])
  }

  /** The display loses nothing: reading it back gives the elapsed seconds. */
  lemma FormatTimeRoundTrip(s: nat)
    ensures ParseTime(FormatTime(s)) == s
  {
    DecimalRoundTrip(s / 60);
  }

  /** The recording state and the elapsed seconds shown. */
  class RecorderScreen {
    var recording: bool
    var duration: nat

    /** The counter only runs while recording; stopping resets it. */
    ghost predicate Valid()
      reads this
    {
      !recording ==> duration == 0
    }

    constructor ()
      ensures Valid() && !recording && duration == 0
    {
      recording := false;
      duration := 0;
    }

    /** The record/stop button; the effect that follows resets the counter when recording stops. */
    method ToggleRecording()
      requires Valid()
      modifies this
      ensures Valid()
      ensures recording == !old(recording)
      ensures duration == 0
    {
      recording := !recording;
      if !recording {
        duration := 0;
      }
    }

    /** One tick of the one-second interval, which only exists while recording. */
    method Tick()
      requires Valid()
      modifies this
      ensures Valid()
      ensures recording == old(recording)
      ensures duration == if recording then old(duration) + 1 else old(duration)
    {
      if recording {
        duration := duration + 1;
      }
    }

    /** What the screen shows. */
    method Display() returns (t: string)
      ensures t == FormatTime(duration)
      ensures ParseTime(t) == duration
    {
      t := FormatTime(duration);
      FormatTimeRoundTrip(duration);
    }
  }
}
