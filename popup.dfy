/**
 * The popup: `formatDuration`, which renders a count of seconds as
 * `HH:MM:SS`, and `updateUI`, which turns a status payload into what the
 * popup displays. JavaScript arithmetic on integers is written out:
 * `Math.floor` of a quotient by a positive divisor is Dafny's `/`, while
 * JavaScript's `%` truncates toward zero and is `JsRem` here.
 */
module Popup {
  import opened Status

  // ---------------------------------------------------------------------
  // Decimal text of integers (`Number.prototype.toString`).

  predicate IsDigit(c: char) {
    '0' <= c <= '9'
  }

  predicate AllDigits(s: string) {
    forall i :: 0 <= i < |s| ==> IsDigit(s[i])
  }

  function DigitChar(d: nat): (c: char)
    requires d < 10
    ensures IsDigit(c)
  {
    (('0' as int) + d) as char
  }

  function DigitValue(c: char): nat
    requires IsDigit(c)
  {
    (c as int) - ('0' as int)
  }

  /** The decimal digits of `n`, most significant first, without leading zeros. */
  function NatToString(n: nat): (s: string)
    ensures 1 <= |s| && AllDigits(s)
    decreases n
  {
    if n < 10 then [DigitChar(n)] else NatToString(n / 10) + [DigitChar(n % 10)]
  }

  /** `toString` of an integer: a minus sign before the digits of a negative one. */
  function IntToString(i: int): string {
    if i < 0 then "-" + NatToString(-i) else NatToString(i)
  }

  /** The number a string of digits stands for, read most significant first. */
  function DigitsValue(s: string): nat
    requires AllDigits(s)
  {
    if s == [] then 0 else DigitsValue(s[..|s| - 1]) * 10 + DigitValue(s[|s| - 1])
  }

  /** Reading back the digits of `n` gives `n`; they never start with a zero
      unless `n` is zero; and there are at most two exactly below 100. */
  lemma {:induction false} NatToStringValue(n: nat)
    ensures DigitsValue(NatToString(n)) == n
    ensures n > 0 ==> NatToString(n)[0] != '0'
    ensures |NatToString(n)| <= 2 <==> n < 100
    decreases n
  {
    if n >= 10 {
      NatToStringValue(n / 10);
      var s := NatToString(n);
      assert s[..|s| - 1] == NatToString(n / 10);
      assert s[0] == NatToString(n / 10)[0];
    }
  }

  predicate AllZeros(s: string) {
    forall i :: 0 <= i < |s| ==> s[i] == '0'
  }

  lemma {:induction false} ZerosValue(z: string)
    requires AllZeros(z)
    ensures AllDigits(z) && DigitsValue(z) == 0
    decreases |z|
  {
    if z != [] {
      ZerosValue(z[..|z| - 1]);
    }
  }

  /** Leading zeros do not change the value of a string of digits. */
  lemma {:induction false} LeadingZerosValue(z: string, s: string)
    requires AllZeros(z) && AllDigits(s)
    ensures AllDigits(z + s) && DigitsValue(z + s) == DigitsValue(s)
    decreases |s|
  {
    ZerosValue(z);
    if s == [] {
      assert z + s == z;
    } else {
      LeadingZerosValue(z, s[..|s| - 1]);
      assert (z + s)[..|z + s| - 1] == z + s[..|s| - 1];
    }
  }

  // ---------------------------------------------------------------------
  // `String.prototype.padStart` with a one-character fill.

  /** `s` unchanged when it already has `width` characters, otherwise `s`
      after as many `fill` characters as make it `width` long. */
  function PadStart(s: string, width: nat, fill: char): (r: string)
    ensures |r| == if |s| < width then width else |s|
    ensures r[|r| - |s|..] == s
    ensures forall i :: 0 <= i < |r| - |s| ==> r[i] == fill
  {
    if |s| >= width then s else seq(width - |s|, _ => fill) + s
  }

  // ---------------------------------------------------------------------
  // `formatDuration`.

  /** JavaScript's `a % b` for a positive `b`: the remainder of the
      quotient truncated toward zero, with the sign of `a`. */
  function JsRem(a: int, b: int): (r: int)
    requires b > 0
    ensures a >= 0 ==> 0 <= r < b
    ensures a < 0 ==> -b < r <= 0
  {
    if a >= 0 then a % b else -((-a) % b)
  }

  /** The quotient truncated toward zero. */
  function TruncDiv(a: int, b: int): int
    requires b > 0
  {
    if a >= 0 then a / b else -((-a) / b)
  }

  /** `JsRem` is what is left over after the truncated quotient. */
  lemma JsRemTruncates(a: int, b: int)
    requires b > 0
    ensures a == b * TruncDiv(a, b) + JsRem(a, b)
  {
    if a < 0 {
      var q := (-a) / b;
      assert -a == b * q + (-a) % b;
      assert b * TruncDiv(a, b) == -(b * q);
    }
  }

  /** The three fields `formatDuration` prints. */
  datatype Clock = Clock(hours: int, minutes: int, seconds: int)

  function ClockOf(seconds: int): Clock {
    Clock(seconds / 3600, JsRem(seconds, 3600) / 60, JsRem(seconds, 60))
  }

  /** One field: its decimal text padded to two characters with zeros. */
  function Pad2(n: int): string {
    PadStart(IntToString(n), 2, '0')
  }

  function FormatDuration(seconds: int): string {
    var c := ClockOf(seconds);
    Pad2(c.hours) + ":" + Pad2(c.minutes) + ":" + Pad2(c.seconds)
  }

  /** For a non-negative count the fields are whole hours, then minutes and
      seconds below sixty, and together they make up the count. */
  lemma ClockOfNonNegative(n: int)
    requires n >= 0
    ensures ClockOf(n).hours == n / 3600
    ensures 0 <= ClockOf(n).minutes < 60 && 0 <= ClockOf(n).seconds < 60
    ensures ClockOf(n).hours * 3600 + ClockOf(n).minutes * 60 + ClockOf(n).seconds == n
  {
    var h, r := n / 3600, n % 3600;
    var m, s := r / 60, r % 60;
    assert n == 3600 * h + r && r == 60 * m + s && 0 <= s < 60;
    assert n == 60 * (60 * h + m) + s;
  }

  /** A field below 100 pads to exactly two digits that read back as it. */
  lemma Pad2Value(n: nat)
    ensures AllDigits(Pad2(n)) && DigitsValue(Pad2(n)) == n
    ensures |Pad2(n)| == if n < 100 then 2 else |NatToString(n)|
  {
    var s := NatToString(n);
    var p := Pad2(n);
    NatToStringValue(n);
    assert p == p[..|p| - |s|] + s;
    LeadingZerosValue(p[..|p| - |s|], s);
  }

  /** The text of the hours, minutes and seconds of any non-negative count
      can be split at its last two colons and read back. */
  function ParseDuration(t: string): (r: Option<nat>) {
    if |t| < 8 then None
    else
      var k := |t| - 6;
      var hh, mm, ss := t[..k], t[k + 1..k + 3], t[k + 4..];
      if t[k] == ':' && t[k + 3] == ':' && AllDigits(hh) && AllDigits(mm) && AllDigits(ss)
      then Some(DigitsValue(hh) * 3600 + DigitsValue(mm) * 60 + DigitsValue(ss))
      else None
  }

  /** Three fields of digits, the last two of width two, joined by colons
      parse back field by field. */
  lemma ParseFields(hh: string, mm: string, ss: string)
    requires AllDigits(hh) && AllDigits(mm) && AllDigits(ss)
    requires |hh| >= 2 && |mm| == 2 && |ss| == 2
    ensures ParseDuration(hh + ":" + mm + ":" + ss).Some?
    ensures ParseDuration(hh + ":" + mm + ":" + ss).value
         == DigitsValue(hh) * 3600 + DigitsValue(mm) * 60 + DigitsValue(ss)
  {
    var t := hh + ":" + mm + ":" + ss;
    var k := |hh|;
    assert |t| == k + 6;
    assert t[..k] == hh;
    assert t[k] == ':' && t[k + 3] == ':';
    assert t[k + 1..k + 3] == mm;
    assert t[k + 4..] == ss;
  }

  /** `formatDuration` loses nothing on a non-negative count. */
  lemma FormatDurationRoundTrip(n: int)
    requires n >= 0
    ensures ParseDuration(FormatDuration(n)).Some? && ParseDuration(FormatDuration(n)).value == n
  {
    ClockOfNonNegative(n);
    var c := ClockOf(n);
    var h, m, s: nat := c.hours, c.minutes, c.seconds;
    Pad2Value(h);
    Pad2Value(m);
    Pad2Value(s);
    var hh, mm, ss := Pad2(h), Pad2(m), Pad2(s);
    ParseFields(hh, mm, ss);
    assert FormatDuration(n) == hh + ":" + mm + ":" + ss;
    assert DigitsValue(hh) * 3600 + DigitsValue(mm) * 60 + DigitsValue(ss) == n;
  }

  /** Different non-negative counts never show the same text. */
  lemma FormatDurationInjective(a: int, b: int)
    requires a >= 0 && b >= 0
    ensures FormatDuration(a) == FormatDuration(b) <==> a == b
  {
    FormatDurationRoundTrip(a);
    FormatDurationRoundTrip(b);
  }

  /** The text is the eight characters `HH:MM:SS` exactly below 100 hours,
      and longer from there on. */
  lemma FormatDurationLength(n: int)
    requires n >= 0
    ensures |FormatDuration(n)| == 8 <==> n < 360000
    ensures |FormatDuration(n)| >= 8
  {
    ClockOfNonNegative(n);
    var c := ClockOf(n);
    Pad2Value(c.hours);
    Pad2Value(c.minutes);
    Pad2Value(c.seconds);
    NatToStringValue(c.hours);
  }

  lemma FormatDurationZero()
    ensures FormatDuration(0) == "00:00:00"
  {
    assert ClockOf(0) == Clock(0, 0, 0);
    assert DigitChar(0) == '0';
    assert IntToString(0) == "0";
    assert PadStart("00", 2, '0') == "00";
    assert Pad2(0) == "00";
  }

  /** A negative count, as a clock set back makes it, shows each field with
      its own sign: floor for the hours, truncation for minutes and seconds. */
  lemma FormatDurationNegative()
    ensures FormatDuration(-5) == "-1:-1:-5"
  {
    assert ClockOf(-5) == Clock(-1, -1, -5) by {
      assert JsRem(-5, 3600) == -5 && JsRem(-5, 60) == -5;
    }
    assert FormatDuration(-5) == Pad2(-1) + ":" + Pad2(-1) + ":" + Pad2(-5);
    assert Pad2(-1) == "-1" by {
      assert NatToString(1) == "1" by {
        assert DigitChar(1) == '1';
      }
    }
    assert Pad2(-5) == "-5" by {
      assert NatToString(5) == "5" by {
        assert DigitChar(5) == '5';
      }
    }
  }

  // ---------------------------------------------------------------------
  // `updateUI`.

  const RECORDING_TEXT := "状态: 录制中"
  const READY_TEXT := "状态: 就绪"
  const ERROR_PREFIX := "状态: 错误 ("
  const DEFAULT_FORMAT := "audio/webm"

  function ErrorText(e: string): string {
    ERROR_PREFIX + e + ")"
  }

  /** JavaScript truthiness of `state.error`: present and not empty. */
  predicate Truthy(e: Option<string>) {
    e.Some? && e.value != ""
  }

  /** What the popup shows: the class and text of the status line, which
      button is disabled, and the text of four information fields. */
  datatype View = View(
    statusClass: string,
    statusText: string,
    startDisabled: bool,
    stopDisabled: bool,
    duration: string,
    format: string,
    sampleRate: string,
    channels: string)

  /** The text of the status line. */
  function StatusText(state: RecordingState): string {
    if state.isRecording then RECORDING_TEXT
    else if Truthy(state.error) then ErrorText(state.error.value)
    else READY_TEXT
  }

  function UpdateUI(data: Status): View {
    var state, stats := data.state, data.stats;
    View(
      if state.isRecording then "status recording" else "status ready",
      StatusText(state),
      state.isRecording,
      !state.isRecording,
      FormatDuration(stats.duration),
      if stats.format == "" then DEFAULT_FORMAT else stats.format,
      NatToString(stats.sampleRate) + " Hz",
      NatToString(stats.channels))
  }

  /** Statistics reset by a cleanup show zero duration, the default
      format, and no sample rate or channels. */
  lemma ZeroStatsView(state: RecordingState)
    ensures var v := UpdateUI(Status(state, ZERO_STATS));
      && v.duration == "00:00:00" && v.format == DEFAULT_FORMAT
      && v.sampleRate == "0 Hz" && v.channels == "0"
  {
    var v := UpdateUI(Status(state, ZERO_STATS));
    assert v.duration == FormatDuration(0) && v.sampleRate == NatToString(0) + " Hz" && v.channels == NatToString(0);
    FormatDurationZero();
    assert NatToString(0) == "0" by {
      assert DigitChar(0) == '0';
    }
  }

  /** Exactly one button is enabled, and the status line names the mode:
      start is disabled, the class is `recording` and the text says so
      exactly while a recording runs. */
  lemma ViewShowsMode(data: Status)
    ensures UpdateUI(data).startDisabled <==> data.state.isRecording
    ensures UpdateUI(data).startDisabled != UpdateUI(data).stopDisabled
    ensures UpdateUI(data).statusClass == "status recording" <==> data.state.isRecording
    ensures UpdateUI(data).statusText == RECORDING_TEXT <==> data.state.isRecording
  {
    StatusTextShowsError(data.state);
  }

  /** An error is shown exactly when no recording runs and the message is
      not empty, and the message can be read back from the status line. */
  lemma StatusTextShowsError(state: RecordingState)
    ensures var t := StatusText(state);
      (|t| > |ERROR_PREFIX| && t[..|ERROR_PREFIX|] == ERROR_PREFIX) <==> !state.isRecording && Truthy(state.error)
    ensures var t := StatusText(state);
      !state.isRecording && Truthy(state.error) ==> t[|ERROR_PREFIX|..|t| - 1] == state.error.value
    ensures StatusText(state) == RECORDING_TEXT <==> state.isRecording
    ensures !state.isRecording && !Truthy(state.error) ==> StatusText(state) == READY_TEXT
  {
    var t := StatusText(state);
    assert |ERROR_PREFIX| == 8 && |RECORDING_TEXT| == 7 && |READY_TEXT| == 6;
    if !state.isRecording && Truthy(state.error) {
      assert t == ERROR_PREFIX + (state.error.value + ")");
      assert t[..|ERROR_PREFIX|] == ERROR_PREFIX;
    }
  }

  /** The information fields: the duration reads back as the count, the
      format is never empty, and the sample rate and channel count read back. */
  lemma ViewShowsStats(data: Status)
    ensures data.stats.duration >= 0 ==>
      ParseDuration(UpdateUI(data).duration).Some? && ParseDuration(UpdateUI(data).duration).value == data.stats.duration
    ensures UpdateUI(data).format != ""
    ensures data.stats.format == "" ==> UpdateUI(data).format == DEFAULT_FORMAT
    ensures data.stats.format != "" ==> UpdateUI(data).format == data.stats.format
    ensures var r := UpdateUI(data).sampleRate;
      |r| > 3 && r[|r| - 3..] == " Hz" && AllDigits(r[..|r| - 3]) && DigitsValue(r[..|r| - 3]) == data.stats.sampleRate
    ensures AllDigits(UpdateUI(data).channels) && DigitsValue(UpdateUI(data).channels) == data.stats.channels
  {
    if data.stats.duration >= 0 {
      FormatDurationRoundTrip(data.stats.duration);
    }
    var r := UpdateUI(data).sampleRate;
    assert r[..|r| - 3] == NatToString(data.stats.sampleRate);
    NatToStringValue(data.stats.sampleRate);
    NatToStringValue(data.stats.channels);
  }
}
