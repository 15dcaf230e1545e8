/**
 * The two rest-timer views: the inline `RestTimerBar` (countdown, depleting
 * bar, ±15 s buttons) and the full-screen `RestTimerView` overlay (countdown,
 * label, skip). Both format the countdown the same way and switch to a warning
 * look in the last ten seconds. Only their pure helpers are modelled; layout and
 * animation are not.
 */
module RestTimer {
  import opened Wrappers
  import opened Text
  import Theme

  // ---------------------------------------------------------------------------
  // The countdown text
  // ---------------------------------------------------------------------------

  /**
   * `timeString(from:)`: "m:ss" once there is a whole minute, the bare second
   * count otherwise (both views). Swift's `/` and `%` truncate, so a negative
   * count prints as its own negative remainder.
   */
  function TimeString(seconds: int): (r: string)
    ensures 0 <= seconds < 60 ==> r == NatToString(seconds)
    ensures seconds >= 60 ==> r == MinutesSeconds(seconds / 60, seconds % 60)
  {
    var m := Quot(seconds, 60);
    var s := Rem(seconds, 60);
    if m > 0 then MinutesSeconds(m, s) else IntToString(s)
  }

  /**
   * Reads a countdown text back: bare digits as seconds, "m:ss" as minutes and
   * seconds; None for any other text.
   */
  function ReadTimeString(r: string): Option<nat> {
    if AllDigits(r) then Some(DigitsValue(r))
    else if |r| >= 4 && r[|r| - 3] == ':' && AllDigits(r[..|r| - 3]) && AllDigits(r[|r| - 2..]) then
      Some(DigitsValue(r[..|r| - 3]) * 60 + DigitsValue(r[|r| - 2..]))
    else None
  }

  /** Every non-negative count reads back from its text. */
  lemma TimeStringRoundTrip(seconds: nat)
    ensures ReadTimeString(TimeString(seconds)) == Some(seconds)
  {
    if seconds < 60 {
      NatToStringRoundTrip(seconds);
    } else {
      var m, sec := seconds / 60, seconds % 60;
      ReadsMinutesSeconds(m, sec);
      assert TimeString(seconds) == MinutesSeconds(m, sec);
    }
  }

  lemma ReadsMinutesSeconds(m: nat, sec: nat)
    requires sec < 60
    ensures ReadTimeString(MinutesSeconds(m, sec)) == Some(m * 60 + sec)
  {
    MinutesSecondsReadsBack(m, sec);
  }

  /** Different non-negative counts never show the same text. */
  lemma TimeStringInjective(a: nat, b: nat)
    requires TimeString(a) == TimeString(b)
    ensures a == b
  {
    TimeStringRoundTrip(a);
    TimeStringRoundTrip(b);
  }

  // ---------------------------------------------------------------------------
  // Warning look, progress and adjust buttons (RestTimerBar)
  // ---------------------------------------------------------------------------

  /** `isWarning`: ten seconds or less remain (both views). */
  predicate IsWarning(timeRemaining: int) {
    timeRemaining <= 10
  }

  /** `barColor`: the destructive red in the warning phase, the accent otherwise. */
  function BarColor(timeRemaining: int): (c: string)
    ensures c == Theme.Destructive || c == Theme.Accent
    ensures c == Theme.Destructive <==> IsWarning(timeRemaining)
  {
    if IsWarning(timeRemaining) then Theme.Destructive else Theme.Accent
  }

  /** `progress` as a fraction (numerator, denominator); the guard makes it 0 without a total. */
  function Progress(timeRemaining: int, totalDuration: int): (r: (int, int))
    ensures r.1 > 0
    ensures totalDuration <= 0 ==> r.0 == 0
    ensures totalDuration > 0 ==> r.0 * totalDuration == timeRemaining * r.1
  {
    if totalDuration > 0 then (timeRemaining, totalDuration) else (0, 1)
  }

  /** The two buttons either side of the bar. */
  datatype AdjustButton = Shorten | Extend

  /** The number of seconds a button hands to `onAdjust`. */
  function AdjustRequest(b: AdjustButton): (delta: int)
    ensures delta == 15 || delta == -15
    ensures delta < 0 <==> b == Shorten
  {
    match b
    case Shorten => -15
    case Extend => 15
  }

  /** The button's label: a minus sign (U+2212) or a plus, then the size of the step. */
  function AdjustLabel(b: AdjustButton): string {
    match b
    case Shorten => "−" + "15"
    case Extend => "+15"
  }

  /** Each label shows exactly the step its button requests. */
  lemma AdjustLabelShowsRequest(b: AdjustButton)
    ensures var d := AdjustRequest(b);
      AdjustLabel(b) == (if d < 0 then "−" else "+") + IntToString(if d < 0 then -d else d)
  {
    var d := AdjustRequest(b);
    var magnitude: nat := if d < 0 then -d else d;
    assert magnitude == 15;
    assert NatToString(15) == NatToString(1) + [DigitChar(5)];
    assert IntToString(15) == "15";
  }

  // ---------------------------------------------------------------------------
  // RestTimerView
  // ---------------------------------------------------------------------------

  /** The text under the countdown of the full-screen view. */
  function Label(timeRemaining: int): (s: string)
    ensures s == "GET READY" || s == "ALMOST THERE"
    ensures s == "ALMOST THERE" <==> IsWarning(timeRemaining)
  {
    if !IsWarning(timeRemaining) then "GET READY" else "ALMOST THERE"
  }

  /** What the user touches to leave the overlay. */
  datatype SkipTrigger = BackgroundTap | SkipButton

  /** What the view does in response, in order. */
  datatype ViewAction = LightHaptic | Skip

  /** The background tap only skips; the button gives a light haptic first. */
  function Respond(t: SkipTrigger): (r: seq<ViewAction>)
    ensures |r| >= 1 && r[|r| - 1] == Skip
    ensures forall i :: 0 <= i < |r| - 1 ==> r[i] != Skip
    ensures LightHaptic in r <==> t == SkipButton
  {
    match t
    case BackgroundTap => [Skip]
    case SkipButton => [LightHaptic, Skip]
  }
}
