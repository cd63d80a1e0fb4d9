/**
 * The podcast generator: a button starts a simulated generation whose
 * progress climbs by 2 every 100 ms and, once it has reached 100, flips the
 * section to "complete"; the finished podcast has a play/pause control, a
 * playback bar and `m:ss` time labels.
 *
 * The interval is a sequence of `Tick` calls; the audio element's events
 * (`timeupdate`, `ended`) are calls carrying what the element reports.
 */
module GenerateSection {
  import opened Wrappers
  import Decimal

  /** The podcast's length in seconds (4:32). */
  const Duration: int := 272

  // ---------------------------------------------------------------- formatTime

  /** The integer part of `x`, rounding toward zero. */
  function Trunc(x: real): int {
    if x >= 0.0 then x.Floor else -((-x).Floor)
  }

  /** JavaScript's `x % m`: the remainder takes the sign of `x`. */
  function JsRem(x: real, m: real): real
    requires m > 0.0
  {
    x - m * Trunc(x / m) as real
  }

  /** `str.padStart(2, '0')` */
  function PadStart2(str: string): (r: string)
    ensures |str| >= 2 ==> r == str
    ensures |str| < 2 ==> |r| == 2 && r[2 - |str|..] == str
  {
    if |str| >= 2 then str else if |str| == 1 then "0" + str else "00"
  }

  /** `formatTime(seconds)`: whole minutes, a colon, whole seconds padded to two digits. */
  function FormatTime(seconds: real): string {
    var mins := (seconds / 60.0).Floor;
    var secs := JsRem(seconds, 60.0).Floor;
    Decimal.IntToString(mins) + ":" + PadStart2(Decimal.IntToString(secs))
  }

  /** For a time that is not negative: the minutes and seconds fields rebuild the whole seconds. */
  lemma FormatTimeFields(seconds: real)
    requires seconds >= 0.0
    ensures var mins, secs := (seconds / 60.0).Floor, JsRem(seconds, 60.0).Floor;
      mins >= 0 && 0 <= secs < 60 && mins * 60 + secs == seconds.Floor
  {
    var m := (seconds / 60.0).Floor;
    assert m as real <= seconds / 60.0 < m as real + 1.0;
    assert 60.0 * m as real <= seconds < 60.0 * m as real + 60.0;
    assert Trunc(seconds / 60.0) == m;
    var r := JsRem(seconds, 60.0);
    assert r == seconds - 60.0 * m as real;
    assert r.Floor == seconds.Floor - 60 * m;
  }

  lemma SmallNatToString(n: nat)
    requires n < 100
    ensures n < 10 ==> Decimal.NatToString(n) == [Decimal.DigitChar(n)]
    ensures n >= 10 ==> Decimal.NatToString(n) == [Decimal.DigitChar(n / 10), Decimal.DigitChar(n % 10)]
  {
  }

  /** `secs.toString().padStart(2, '0')` for a second count below 60: two digits. */
  function TwoDigits(secs: nat): (r: string)
    requires secs < 60
    ensures |r| == 2 && Decimal.AllDigits(r)
    ensures secs < 10 ==> r == ['0', Decimal.DigitChar(secs)]
  {
    SmallNatToString(secs);
    PadStart2(Decimal.NatToString(secs))
  }

  /** Reads an `m:ss` label back as whole seconds. */
  function ParseClock(t: string): (r: Option<nat>)
    ensures r.Some? ==> |t| >= 4 && t[|t| - 3] == ':'
  {
    if |t| >= 4 && t[|t| - 3] == ':' then
      match (Decimal.ParseNat(t[..|t| - 3]), Decimal.ParseNat(t[|t| - 2..]))
      case (Some(m), Some(s)) => if s < 60 then Some(m * 60 + s) else None
      case _ => None
    else None
  }

  lemma {:induction false} TwoDigitsParse(secs: nat)
    requires secs < 60
    ensures Decimal.ParseNat(TwoDigits(secs)) == Some(secs)
  {
    var t := Decimal.NatToString(secs);
    Decimal.ParseNatToString(secs);
    if secs < 10 {
      assert t == [Decimal.DigitChar(secs)];
      var r := TwoDigits(secs);
      assert r == ['0', Decimal.DigitChar(secs)];
      assert r[..1] == ['0'];
      assert Decimal.ParseDigits(r[..1]) == 0 by {
        assert r[..1][..0] == [];
      }
    }
  }

  /** For a time that is not negative the label is the minutes, a colon and two second digits. */
  lemma FormatTimeShape(seconds: real)
    requires seconds >= 0.0
    ensures var mins, secs := (seconds / 60.0).Floor, JsRem(seconds, 60.0).Floor;
      mins >= 0 && 0 <= secs < 60 && mins * 60 + secs == seconds.Floor
      && FormatTime(seconds) == Decimal.NatToString(mins) + ":" + TwoDigits(secs)
  {
    FormatTimeFields(seconds);
  }

  /** A label built from a minute count and two second digits reads back as their total. */
  lemma ParseClockOf(mins: nat, secs: nat)
    requires secs < 60
    ensures ParseClock(Decimal.NatToString(mins) + ":" + TwoDigits(secs)) == Some(mins * 60 + secs)
  {
    var ms, ss := Decimal.NatToString(mins), TwoDigits(secs);
    var t := ms + ":" + ss;
    assert |t| == |ms| + 3;
    assert t[..|t| - 3] == ms;
    assert t[|t| - 2..] == ss;
    assert t[|t| - 3] == ':';
    Decimal.ParseNatToString(mins);
    TwoDigitsParse(secs);
  }

  /** Reading the label of a time that is not negative gives back its whole seconds. */
  lemma FormatTimeRoundTrip(seconds: real)
    requires seconds >= 0.0
    ensures ParseClock(FormatTime(seconds)) == Some(seconds.Floor as nat)
  {
    FormatTimeShape(seconds);
    ParseClockOf((seconds / 60.0).Floor, JsRem(seconds, 60.0).Floor);
  }

  /** The length label of the podcast. */
  lemma DurationLabel()
    ensures FormatTime(Duration as real) == "4:32"
  {
    assert (272.0 / 60.0).Floor == 4;
    assert Trunc(272.0 / 60.0) == 4;
    assert JsRem(272.0, 60.0) == 32.0;
    assert Decimal.NatToString(32) == "32" by {
      assert Decimal.NatToString(3) == "3";
    }
  }

  // ---------------------------------------------------------------- generation

  /** The ticks the interval runs from `progress` until the one that stops it, that one included. */
  function TicksToFinish(progress: int): nat
    decreases 100 - progress
  {
    if progress >= 100 then 1 else 1 + TicksToFinish(progress + 2)
  }

  /** From an even progress the interval needs one tick per missing 2 %, and one more to stop. */
  lemma {:induction false} TicksFromEven(progress: int)
    requires 0 <= progress <= 100 && progress % 2 == 0
    ensures TicksToFinish(progress) == (100 - progress) / 2 + 1
    decreases 100 - progress
  {
    if progress < 100 {
      TicksFromEven(progress + 2);
    }
  }

  /** A generation runs 51 ticks: 50 to reach 100 % and one that sees it and stops. */
  lemma GenerationTakes51Ticks()
    ensures TicksToFinish(0) == 51
  {
    TicksFromEven(0);
  }

  /** The status line under the progress bar: each of the four conditions is tested on its own. */
  function StageLines(progress: int): (lines: seq<string>) {
    (if progress < 30 then ["Analyzing content structure..."] else [])
    + (if progress >= 30 && progress < 60 then ["Converting text to speech..."] else [])
    + (if progress >= 60 && progress < 90 then ["Adding natural pauses and intonation..."] else [])
    + (if progress >= 90 then ["Finalizing your podcast..."] else [])
  }

  /** Exactly one status line shows, chosen by the thresholds 30, 60 and 90. */
  lemma ExactlyOneStage(progress: int)
    ensures |StageLines(progress)| == 1
    ensures StageLines(progress)[0] ==
      if progress < 30 then "Analyzing content structure..."
      else if progress < 60 then "Converting text to speech..."
      else if progress < 90 then "Adding natural pauses and intonation..."
      else "Finalizing your podcast..."
  {
  }

  /** Which of the three panels shows: the button, the progress panel or the player. */
  datatype Panel = GenerateButton | ProgressPanel | Player | Both

  function PanelFor(isGenerating: bool, isComplete: bool): (p: Panel)
    ensures p == GenerateButton <==> !isGenerating && !isComplete
    ensures p == ProgressPanel <==> isGenerating && !isComplete
    ensures p == Player <==> !isGenerating && isComplete
  {
    if isGenerating && isComplete then Both
    else if isGenerating then ProgressPanel
    else if isComplete then Player
    else GenerateButton
  }

  class Generator {
    var isGenerating: bool
    var isComplete: bool
    var isPlaying: bool
    var progress: int
    var currentTime: real
    /** Whether the generation interval is scheduled. */
    var ticking: bool

    /**
     * Progress is an even percentage up to 100; the interval runs exactly
     * while generating; a finished generation stands at 100.
     */
    predicate Valid()
      reads this
    {
      && 0 <= progress <= 100 && progress % 2 == 0
      && (ticking <==> isGenerating)
      && !(isGenerating && isComplete)
      && (isComplete ==> progress == 100)
    }

    constructor ()
      ensures !isGenerating && !isComplete && !isPlaying && progress == 0 && currentTime == 0.0
      ensures !ticking && Valid()
    {
      isGenerating := false;
      isComplete := false;
      isPlaying := false;
      progress := 0;
      currentTime := 0.0;
      ticking := false;
    }

    /** `handleGenerate`: reset and start the interval (offered by the button and by "regenerate"). */
    method HandleGenerate()
      requires Valid() && !isGenerating
      modifies this
      ensures isGenerating && !isComplete && progress == 0 && currentTime == 0.0 && ticking
      ensures isPlaying == old(isPlaying)
      ensures Valid()
    {
      isGenerating := true;
      isComplete := false;
      progress := 0;
      currentTime := 0.0;
      ticking := true;
    }

    /** One firing of the interval: add 2, or, once at 100, stop and complete. */
    method Tick()
      requires Valid() && ticking
      modifies this
      ensures Valid()
      ensures old(progress) >= 100 ==> !ticking && !isGenerating && isComplete && progress == 100
      ensures old(progress) < 100 ==> progress == old(progress) + 2 && ticking && isGenerating && !isComplete
      ensures TicksToFinish(old(progress)) == 1 <==> !ticking
      ensures ticking ==> TicksToFinish(progress) == TicksToFinish(old(progress)) - 1
      ensures isPlaying == old(isPlaying) && currentTime == old(currentTime)
    {
      if progress >= 100 {
        ticking := false;
        isGenerating := false;
        isComplete := true;
        progress := 100;
      } else {
        progress := progress + 2;
      }
    }

    /** The play/pause button. */
    method TogglePlayback()
      modifies this`isPlaying
      ensures isPlaying == !old(isPlaying)
    {
      if isPlaying {
        isPlaying := false;
      } else {
        isPlaying := true;
      }
    }

    /** The audio element's `timeupdate` event, with the element's current time. */
    method TimeUpdate(t: real)
      modifies this`currentTime
      ensures currentTime == t
    {
      currentTime := t;
    }

    /** The audio element's `ended` event. */
    method Ended()
      modifies this`isPlaying, this`currentTime
      ensures !isPlaying && currentTime == 0.0
    {
      isPlaying := false;
      currentTime := 0.0;
    }

    /** The panel on screen; the two flags are never both set, so it is always one of three. */
    function Panel(): (p: Panel)
      reads this
      ensures Valid() ==> p != Both
    {
      PanelFor(isGenerating, isComplete)
    }
  }
}
