/**
 * Time formatting of the web front end (autodj/web/js/modules/util.js):
 * seconds shown as minutes, a colon and two-digit seconds, with a leading
 * minus sign for negative times. Tenths are computed but never shown.
 */
module WebUtil {
  import opened Wrappers

  predicate IsDigit(c: char) {
    '0' <= c <= '9'
  }

  function DigitChar(d: nat): (c: char)
    requires d < 10
    ensures IsDigit(c) && DigitValue(c) == d
  {
    (48 + d) as char
  }

  function DigitValue(c: char): (d: nat)
    requires IsDigit(c)
    ensures d < 10
  {
    c as int - '0' as int
  }

  /** JavaScript's string form of a natural number: its decimal digits. */
  function NatToString(n: nat): (s: string)
    ensures |s| >= 1 && forall i :: 0 <= i < |s| ==> IsDigit(s[i])
    ensures n < 10 <==> |s| == 1
    ensures s[0] == '0' ==> n == 0
  {
    if n < 10 then [DigitChar(n)] else NatToString(n / 10) + [DigitChar(n % 10)]
  }

  /** The number a string of decimal digits denotes. */
  function ParseNat(s: string): nat
    requires forall i :: 0 <= i < |s| ==> IsDigit(s[i])
  {
    if |s| == 0 then 0
    else ParseNat(s[..|s| - 1]) * 10 + DigitValue(s[|s| - 1])
  }

  /** Reading the digits back gives the number. */
  lemma {:induction false} ParseNatToString(n: nat)
    ensures ParseNat(NatToString(n)) == n
  {
    if n >= 10 {
      var s := NatToString(n);
      assert s[..|s| - 1] == NatToString(n / 10);
      ParseNatToString(n / 10);
    }
  }

  /** Seconds below 60 in two digits. */
  function TwoDigits(s: nat): (t: string)
    requires s < 60
    ensures |t| == 2 && IsDigit(t[0]) && IsDigit(t[1])
    ensures ParseNat(t) == s
  {
    var t := (if s < 10 then "0" else "") + NatToString(s);
    ParseNatToString(s);
    assert ParseNat(t) == s by {
      if s < 10 {
        assert t[..1] == "0";
      }
    }
    t
  }

  /** Math.abs on a time in seconds. */
  function Abs(x: real): real { if x < 0.0 then -x else x }

  /**
   * The text of `secs`: a minus sign when negative, then the minutes and the
   * seconds of its whole number of seconds, the seconds in two digits.
   */
  function FormattedTime(secs: real): (t: string)
    ensures |t| >= 4 && t[|t| - 3] == ':'
    ensures IsDigit(t[|t| - 2]) && IsDigit(t[|t| - 1])
    ensures t[0] == '-' <==> secs < 0.0
    ensures var k := if secs < 0.0 then 1 else 0; t[k] == '0' ==> |t| == k + 4
  {
    var whole := Abs(secs).Floor;
    (if secs < 0.0 then "-" else "") + NatToString(whole / 60) + ":" + TwoDigits(whole % 60)
  }

  /** The whole-minute count of a time and of its whole seconds agree. */
  lemma MinutesOfWholeSeconds(v: real)
    requires v >= 0.0
    ensures (v / 60.0).Floor == v.Floor / 60
  {
    var w := v.Floor;
    var m := w / 60;
    assert m * 60 <= w < m * 60 + 60;
    assert m as real <= v / 60.0 < (m + 1) as real;
  }

  /** formatTime, building its text piece by piece. */
  method FormatTime(secs: real) returns (out: string)
    ensures out == FormattedTime(secs)
  {
    var v := secs;
    out := "";
    if v < 0.0 {
      out := out + "-";
      v := -v;
    }
    var ds := ((v - v.Floor as real) * 10.0).Floor;  // tenths, never shown
    var s := v.Floor % 60;
    var m := (v / 60.0).Floor;
    MinutesOfWholeSeconds(v);
    out := out + NatToString(m);
    out := out + ":";
    if s < 10 {
      out := out + "0";
    }
    out := out + NatToString(s);
  }

  predicate AllDigits(s: string) {
    forall i :: 0 <= i < |s| ==> IsDigit(s[i])
  }

  /** Minutes and two digits of seconds below 60, as seconds. */
  function ClockOf(mins: string, secs: string): Option<nat> {
    if |mins| >= 1 && AllDigits(mins) && |secs| == 2 && AllDigits(secs) && ParseNat(secs) < 60 then
      Some(ParseNat(mins) * 60 + ParseNat(secs))
    else None
  }

  /** Reads minutes, a colon and two digits of seconds below 60 into seconds. */
  function ParseClock(body: string): Option<nat> {
    if |body| >= 3 && body[|body| - 3] == ':' then ClockOf(body[..|body| - 3], body[|body| - 2..]) else None
  }

  /** Reads a formatted time, with its optional minus sign, back into signed whole seconds. */
  function ParseTime(t: string): Option<int> {
    if |t| > 0 && t[0] == '-' then
      match ParseClock(t[1..])
      case None => None
      case Some(w) => Some(-(w as int))
    else
      match ParseClock(t)
      case None => None
      case Some(w) => Some(w as int)
  }

  /** The colon three places from the end separates the two fields again. */
  lemma ClockSplits(mins: string, two: string)
    requires |two| == 2
    ensures ParseClock(mins + ":" + two) == ClockOf(mins, two)
  {
    var body := mins + ":" + two;
    assert body[|body| - 3] == ':';
    assert body[..|body| - 3] == mins;
    assert body[|body| - 2..] == two;
  }

  /** Minutes, a colon and two digits of seconds read back as the seconds they make up. */
  lemma ClockParses(mins: string, two: string)
    requires |mins| >= 1 && AllDigits(mins) && |two| == 2 && AllDigits(two) && ParseNat(two) < 60
    ensures ClockOf(mins, two) == Some(ParseNat(mins) * 60 + ParseNat(two))
  {
  }

  /** A leading minus sign negates the clock that follows it. */
  lemma SignParses(neg: bool, body: string, w: nat)
    requires |body| >= 1 && IsDigit(body[0]) && ParseClock(body) == Some(w)
    ensures ParseTime((if neg then "-" else "") + body) == Some(if neg then -(w as int) else w as int)
  {
    var t := (if neg then "-" else "") + body;
    if neg {
      assert t[0] == '-' && t[1..] == body;
    } else {
      assert t == body;
    }
  }

  /** The text of a signed number of whole seconds reads back as that number. */
  lemma SignedClockParses(neg: bool, whole: nat)
    ensures ParseTime((if neg then "-" else "") + NatToString(whole / 60) + ":" + TwoDigits(whole % 60))
            == Some(if neg then -(whole as int) else whole as int)
  {
    var mins := NatToString(whole / 60);
    var two := TwoDigits(whole % 60);
    ClockSplits(mins, two);
    ClockParses(mins, two);
    ParseNatToString(whole / 60);
    assert (whole / 60) * 60 + whole % 60 == whole;
    SignParses(neg, mins + ":" + two, whole);
    assert (if neg then "-" else "") + mins + ":" + two == (if neg then "-" else "") + (mins + ":" + two);
  }

  /** A formatted time reads back as the signed whole seconds it shows. */
  lemma FormattedTimeParses(secs: real)
    ensures ParseTime(FormattedTime(secs)) == Some(if secs < 0.0 then -Abs(secs).Floor else Abs(secs).Floor)
  {
    SignedClockParses(secs < 0.0, Abs(secs).Floor);
  }
}
