/**
 * The playback clock of the music card: the `m:ss` time formatter, the
 * one-second tick that stops at the song's duration, and the play/pause
 * toggle that decides whether the tick runs at all.
 */
module MusicCard {
  import opened Wrappers

  // ---------------------------------------------------------------------------
  // Decimal text, as JavaScript's Number.prototype.toString prints an integer
  // ---------------------------------------------------------------------------

  predicate IsDigit(c: char) {
    '0' <= c <= '9'
  }

  predicate AllDigits(s: string) {
    forall i :: 0 <= i < |s| ==> IsDigit(s[i])
  }

  function DigitChar(d: nat): (c: char)
    requires d < 10
    ensures IsDigit(c) && c as int - '0' as int == d
  {
    ('0' as int + d) as char
  }

  function DigitValue(c: char): (d: nat)
    requires IsDigit(c)
    ensures d < 10 && DigitChar(d) == c
  {
    c as int - '0' as int
  }

  /** The shortest decimal text of `n`: no leading zeros except for 0 itself. */
  function NatToString(n: nat): (s: string)
    ensures |s| > 0 && AllDigits(s)
    ensures |s| > 1 ==> s[0] != '0'
    ensures n < 10 <==> |s| == 1
    decreases n
  {
    if n < 10 then [DigitChar(n)] else NatToString(n / 10) + [DigitChar(n % 10)]
  }

  /** Reads a string of decimal digits back as a number. */
  function ParseNat(s: string): nat
    requires AllDigits(s)
    decreases |s|
  {
    if |s| == 0 then 0 else ParseNat(s[..|s| - 1]) * 10 + DigitValue(s[|s| - 1])
  }

  lemma {:induction false} ParseNatOfNatToString(n: nat)
    ensures ParseNat(NatToString(n)) == n
    decreases n
  {
    if n >= 10 {
      var s := NatToString(n);
      assert s[..|s| - 1] == NatToString(n / 10);
      ParseNatOfNatToString(n / 10);
    }
  }

  /** Leading zeros do not change the value of a digit string. */
  lemma {:induction false} ParseNatLeadingZeros(zeros: string, s: string)
    requires forall i :: 0 <= i < |zeros| ==> zeros[i] == '0'
    requires AllDigits(s)
    ensures AllDigits(zeros + s) && ParseNat(zeros + s) == ParseNat(s)
    decreases |s|
  {
    if |s| == 0 {
      assert zeros + s == zeros;
      ZerosParseToZero(zeros);
    } else {
      var t := zeros + s;
      assert t[..|t| - 1] == zeros + s[..|s| - 1];
      ParseNatLeadingZeros(zeros, s[..|s| - 1]);
    }
  }

  lemma {:induction false} ZerosParseToZero(zeros: string)
    requires forall i :: 0 <= i < |zeros| ==> zeros[i] == '0'
    ensures AllDigits(zeros) && ParseNat(zeros) == 0
    decreases |zeros|
  {
    if |zeros| > 0 {
      ZerosParseToZero(zeros[..|zeros| - 1]);
    }
  }

  /**
   * `String(i)` for an integer `i`: a minus sign exactly when `i` is
   * negative, then the digits of the magnitude, which read back as `|i|`.
   */
  function IntToString(i: int): (r: string)
    ensures |r| > 0 && (r[0] == '-' <==> i < 0)
    ensures i >= 0 ==> AllDigits(r) && ParseNat(r) == i
    ensures i < 0 ==> |r| >= 2 && AllDigits(r[1..]) && ParseNat(r[1..]) == -i
  {
    if i < 0 then
      ParseNatOfNatToString(-i);
      assert ("-" + NatToString(-i))[1..] == NatToString(-i);
      "-" + NatToString(-i)
    else
      ParseNatOfNatToString(i);
      NatToString(i)
  }

  /** `s.padStart(width, c)`: pads on the left to `width` characters. */
  function PadStart(s: string, width: nat, c: char): (r: string)
    ensures |r| == if |s| >= width then |s| else width
    ensures r[|r| - |s|..] == s
    ensures forall i :: 0 <= i < |r| - |s| ==> r[i] == c
  {
    if |s| >= width then s else seq(width - |s|, _ => c) + s
  }

  // ---------------------------------------------------------------------------
  // formatTime
  // ---------------------------------------------------------------------------

  /** JavaScript's `a % 60`: the remainder takes the sign of the dividend. */
  function JsRemainder60(a: int): (r: int)
    ensures a >= 0 ==> 0 <= r < 60 && r == a % 60
    ensures a < 0 ==> -60 < r <= 0
    ensures r == a - 60 * TruncatedQuotient60(a)
  {
    if a >= 0 then a % 60 else -((-a) % 60)
  }

  /** `a / 60` rounded toward zero, the quotient that goes with JavaScript's `%`. */
  function TruncatedQuotient60(a: int): int {
    if a >= 0 then a / 60 else -((-a) / 60)
  }

  /** `Math.floor(time / 60)`. Dafny's `/` by a positive divisor already floors. */
  function Minutes(time: int): (m: int)
    ensures m * 60 <= time < m * 60 + 60
    ensures time >= 0 ==> m >= 0
  {
    time / 60
  }

  /**
   * `time % 60` with JavaScript's sign rule: for a non-negative time what
   * is left after the whole minutes, for a negative one zero or negative.
   */
  function Seconds(time: int): (s: int)
    ensures time >= 0 ==> 0 <= s < 60 && Minutes(time) * 60 + s == time
    ensures time < 0 ==> -60 < s <= 0
  {
    JsRemainder60(time)
  }

  /**
   * The seconds part of the display: the remainder padded to two
   * characters. A negative remainder already has two characters and keeps
   * its minus sign in front.
   */
  function SecondsText(time: int): (r: string)
    ensures |r| >= 2
    ensures time >= 0 ==> |r| == 2
    ensures Seconds(time) < 0 ==> r[0] == '-'
  {
    PadStart(IntToString(Seconds(time)), 2, '0')
  }

  /**
   * `formatTime(time)`: minutes, a colon, then the padded seconds. For a
   * non-negative time that is digits, a colon and exactly two digits.
   */
  function FormatTime(time: int): (r: string)
    ensures time >= 0 ==> ShapeOk(r)
  {
    var minutes := IntToString(Minutes(time));
    var seconds := SecondsText(time);
    if time >= 0 then
      PartsShape(time, minutes, seconds);
      JoinedShape(minutes, seconds);
      minutes + ":" + seconds
    else
      minutes + ":" + seconds
  }

  /** Digits, a colon, then exactly two digits. */
  predicate ShapeOk(r: string) {
    |r| >= 4 && r[|r| - 3] == ':' && AllDigits(r[..|r| - 3]) && AllDigits(r[|r| - 2..])
  }

  /** For a non-negative time the minutes are digits and the seconds two digits. */
  lemma PartsShape(time: int, minutes: string, seconds: string)
    requires time >= 0 && minutes == IntToString(Minutes(time)) && seconds == SecondsText(time)
    ensures |minutes| > 0 && AllDigits(minutes) && |seconds| == 2 && AllDigits(seconds)
  {
    var wholeMinutes: nat := time / 60;
    assert minutes == NatToString(wholeMinutes);
    SecondsTextShape(time);
  }

  /** Digits, a colon and two digits: the colon is third from the end. */
  lemma JoinedShape(m: string, sec: string)
    requires |m| > 0 && AllDigits(m) && |sec| == 2 && AllDigits(sec)
    ensures ShapeOk(m + ":" + sec)
  {
    var r := m + ":" + sec;
    assert r[..|r| - 3] == m;
    assert r[|r| - 2..] == sec;
  }

  /** For a non-negative time the seconds part is two digits worth less than 60. */
  lemma SecondsTextShape(time: int)
    requires time >= 0
    ensures |SecondsText(time)| == 2 && AllDigits(SecondsText(time))
    ensures ParseNat(SecondsText(time)) == time % 60 < 60
  {
    var s := IntToString(Seconds(time));
    assert s == NatToString(time % 60);
    var r := SecondsText(time);
    if |s| == 1 {
      assert r == ['0'] + s;
      ParseNatLeadingZeros(['0'], s);
    } else {
      assert r == s;
    }
    ParseNatOfNatToString(time % 60);
  }

  /** The position of the first occurrence of `c` in `s`, if any. */
  function IndexOf(s: string, c: char): (r: Option<nat>)
    ensures r.None? ==> forall i :: 0 <= i < |s| ==> s[i] != c
    ensures r.Some? ==> r.value < |s| && s[r.value] == c
    ensures r.Some? ==> forall i :: 0 <= i < r.value ==> s[i] != c
  {
    if |s| == 0 then None
    else if s[0] == c then Some(0)
    else match IndexOf(s[1..], c)
      case None => None
      case Some(k) => Some(k + 1)
  }

  /**
   * Reads an `m:ss` display back as a number of seconds: the text before the
   * first colon is the minutes, the text after it the seconds.
   */
  function ParseTime(s: string): Option<nat> {
    match IndexOf(s, ':')
    case None => None
    case Some(k) =>
      if AllDigits(s[..k]) && AllDigits(s[k + 1..])
      then Some(ParseNat(s[..k]) * 60 + ParseNat(s[k + 1..]))
      else None
  }

  /** A colon right after a colon-free prefix is the first colon. */
  lemma {:induction false} FirstColonAfter(m: string, rest: string)
    requires forall i :: 0 <= i < |m| ==> m[i] != ':'
    ensures IndexOf(m + ":" + rest, ':') == Some(|m|)
    decreases |m|
  {
    if |m| > 0 {
      assert (m + ":" + rest)[1..] == m[1..] + ":" + rest;
      FirstColonAfter(m[1..], rest);
    }
  }

  /** Two digit strings joined by a colon parse as minutes and seconds. */
  lemma ParseJoined(s: string, m: string, sec: string)
    requires AllDigits(m) && AllDigits(sec) && s == m + ":" + sec
    ensures ParseTime(s) == Some(ParseNat(m) * 60 + ParseNat(sec))
  {
    assert forall i :: 0 <= i < |m| ==> m[i] != ':' by {
      forall i | 0 <= i < |m| ensures m[i] != ':' { assert IsDigit(m[i]); }
    }
    FirstColonAfter(m, sec);
    var k := |m|;
    assert s[..k] == m;
    assert s[k + 1..] == sec;
    ParseTimeAt(s, k);
  }

  lemma ParseTimeAt(s: string, k: nat)
    requires IndexOf(s, ':') == Some(k) && AllDigits(s[..k]) && AllDigits(s[k + 1..])
    ensures ParseTime(s) == Some(ParseNat(s[..k]) * 60 + ParseNat(s[k + 1..]))
  {
  }

  /** For t >= 0, minutes * 60 + seconds == t, so the display decodes back to t. */
  lemma FormatTimeRoundTrip(time: int)
    requires time >= 0
    ensures Minutes(time) * 60 + Seconds(time) == time
    ensures ParseTime(FormatTime(time)) == Some(time)
  {
    var m := IntToString(Minutes(time));
    var sec := SecondsText(time);
    SecondsTextShape(time);
    var display := FormatTime(time);
    assert display == m + ":" + sec;
    ParseMinutesSeconds(time, m, sec);
  }

  /** Whole minutes and the remainder, joined by a colon, parse back to the time. */
  lemma ParseMinutesSeconds(time: int, m: string, sec: string)
    requires time >= 0 && AllDigits(m) && ParseNat(m) == time / 60
    requires AllDigits(sec) && ParseNat(sec) == time % 60
    ensures ParseTime(m + ":" + sec) == Some(time)
  {
    ParseJoined(m + ":" + sec, m, sec);
  }

  /** The display of any non-negative time decodes back to it. */
  lemma DisplayDecodes(time: int)
    ensures time >= 0 ==> ParseTime(FormatTime(time)) == Some(time)
  {
    if time >= 0 {
      FormatTimeRoundTrip(time);
    }
  }

  /** A negative time prints a negative remainder; the two parts no longer add up. */
  lemma NegativeTimeDisplay()
    ensures Minutes(-5) == -1 && Seconds(-5) == -5
    ensures Minutes(-5) * 60 + Seconds(-5) != -5
  {
  }

  // ---------------------------------------------------------------------------
  // The simulated playback
  // ---------------------------------------------------------------------------

  /** The interval's updater: `prev >= duration ? duration : prev + 1`. */
  function NextTime(prev: int, duration: int): (r: int)
    ensures prev >= duration ==> r == duration
    ensures prev < duration ==> r == prev + 1 && r <= duration
  {
    if prev >= duration then duration else prev + 1
  }

  /** The duration is a fixed point of the tick. */
  lemma DurationIsFixedPoint(duration: int)
    ensures NextTime(duration, duration) == duration
  {
  }

  /** `k` ticks of the updater from `start`. */
  function TicksFrom(start: int, duration: int, k: nat): int
    decreases k
  {
    if k == 0 then start else NextTime(TicksFrom(start, duration, k - 1), duration)
  }

  /** From 0 with a non-negative duration, k ticks reach min(k, duration). */
  lemma {:induction false} TicksFromZero(duration: int, k: nat)
    requires duration >= 0
    ensures TicksFrom(0, duration, k) == if k <= duration then k else duration
    ensures 0 <= TicksFrom(0, duration, k) <= duration
    decreases k
  {
    if k > 0 {
      TicksFromZero(duration, k - 1);
    }
  }

  /**
   * The card's state: `isPlaying` and `currentTime`; `duration` is a prop.
   * The interval exists only while `isPlaying` is true, so a tick only
   * happens then.
   */
  class Playback {
    const duration: int
    var isPlaying: bool
    var currentTime: int

    /** The clock stays between 0 and the duration (or at the duration if negative). */
    ghost predicate Valid()
      reads this
    {
      if duration >= 0 then 0 <= currentTime <= duration
      else currentTime == 0 || currentTime == duration
    }

    constructor (duration: int)
      ensures this.duration == duration
      ensures !isPlaying && currentTime == 0
      ensures Valid()
    {
      this.duration := duration;
      isPlaying := false;
      currentTime := 0;
    }

    /** The button: `setIsPlaying(!isPlaying)`. The clock is untouched. */
    method TogglePlay()
      requires Valid()
      modifies this
      ensures Valid()
      ensures isPlaying == !old(isPlaying)
      ensures currentTime == old(currentTime)
    {
      isPlaying := !isPlaying;
    }

    /** One second of the interval. While paused there is no interval, so nothing happens. */
    method Tick()
      requires Valid()
      modifies this
      ensures Valid()
      ensures isPlaying == old(isPlaying)
      ensures currentTime == if old(isPlaying) then NextTime(old(currentTime), duration) else old(currentTime)
    {
      if isPlaying {
        currentTime := NextTime(currentTime, duration);
      }
    }

    /** The two labels under the progress bar: each reads back as the time it shows. */
    function Labels(): (r: (string, string))
      reads this
      ensures currentTime >= 0 ==> ParseTime(r.0) == Some(currentTime)
      ensures duration >= 0 ==> ParseTime(r.1) == Some(duration)
    {
      DisplayDecodes(currentTime);
      DisplayDecodes(duration);
      (FormatTime(currentTime), FormatTime(duration))
    }
  }
}
