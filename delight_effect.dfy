/** The celebration effect (src/components/DelightEffect.tsx): the "sweep" test
    over the per-tab winners, the auto-trigger condition, the fire-once latch
    and the sound decision. Confetti, the shake and the audio are counted
    rather than performed. */
module DelightEffect {
  import opened Wrappers
  import opened Strings

  /** The tabs whose winners the sweep looks at. */
  const SweepKeys: seq<string> := ["CHI", "Sentiment", "Network", "Value"]

  /** The threshold the CHI score must exceed for the automatic celebration. */
  const AutoThreshold: real := 80.0

  /** `winners[k] || ''` */
  function WinnerOf(winners: map<string, string>, k: string): string {
    if k in winners then winners[k] else ""
  }

  /** The winner of tab `k`, lower-cased, is "t-mobile" or "tmobile". */
  predicate TMobileWon(winners: map<string, string>, k: string) {
    var w := Lower(WinnerOf(winners, k));
    w == "t-mobile" || w == "tmobile"
  }

  /** `isTMobileSweep`: T-Mobile wins every one of the four tabs; a tab with no
      entry counts as the empty name, which is not T-Mobile. */
  function IsTMobileSweep(winners: map<string, string>): (sweep: bool)
    ensures sweep <==> forall i :: 0 <= i < |SweepKeys| ==>
      SweepKeys[i] in winners && (Lower(winners[SweepKeys[i]]) == "t-mobile" || Lower(winners[SweepKeys[i]]) == "tmobile")
  {
    forall i :: 0 <= i < |SweepKeys| ==> TMobileWon(winners, SweepKeys[i])
  }

  /** The effect's condition: auto mode, a CHI score above 80, and a sweep. */
  function ShouldAutoTrigger(auto: bool, chiScore: real, winners: map<string, string>): (fire: bool)
    ensures fire ==> auto && chiScore > 80.0
    ensures fire <==> auto && chiScore > AutoThreshold && IsTMobileSweep(winners)
  {
    if !auto then false else chiScore > AutoThreshold && IsTMobileSweep(winners)
  }

  /** With the default props (a CHI score of 0 and no winners) nothing fires. */
  lemma DefaultsNeverAutoTrigger(auto: bool)
    ensures !ShouldAutoTrigger(auto, 0.0, map[])
  {
  }

  /** A winners table missing any of the four tabs is never a sweep. */
  lemma MissingTabIsNoSweep(winners: map<string, string>, k: string)
    requires k in SweepKeys && k !in winners
    ensures !IsTMobileSweep(winners)
  {
    var i :| 0 <= i < |SweepKeys| && SweepKeys[i] == k;
    assert Lower("") == "";
  }

  /** The argument of `triggerDelight`: none, or an object whose
      `soundOverride` may be missing. */
  datatype TriggerOptions = NoOptions | Options(soundOverride: Option<bool>)

  /** The sound plays when the override is true, or when no options were
      passed and the `sound` prop is on. */
  function SoundPlays(opts: TriggerOptions, sound: bool): (plays: bool)
    ensures plays <==> (opts.Options? && opts.soundOverride == Some(true)) || (opts == NoOptions && sound)
  {
    match opts
    case NoOptions => sound
    case Options(o) => o == Some(true)
  }

  class Delight {
    const auto: bool
    const sound: bool
    /** `triggeredRef.current` */
    var triggered: bool
    var showToast: bool
    /** How many times the confetti bursts, toast and shake were started. */
    var celebrations: nat
    /** How many times the chime was played. */
    var chimes: nat

    constructor (auto: bool, sound: bool)
      ensures this.auto == auto && this.sound == sound
      ensures !triggered && !showToast && celebrations == 0 && chimes == 0
    {
      this.auto := auto;
      this.sound := sound;
      triggered := false;
      showToast := false;
      celebrations := 0;
      chimes := 0;
    }

    /** `triggerDelight`: does nothing once the latch is set; otherwise sets
        it, celebrates once, shows the toast and decides on the sound. */
    method TriggerDelight(opts: TriggerOptions)
      modifies this`triggered, this`showToast, this`celebrations, this`chimes
      ensures triggered
      ensures old(triggered) ==>
        celebrations == old(celebrations) && chimes == old(chimes) && showToast == old(showToast)
      ensures !old(triggered) ==>
        && celebrations == old(celebrations) + 1 && showToast
        && chimes == old(chimes) + (if SoundPlays(opts, sound) then 1 else 0)
    {
      if triggered {
        return;
      }
      triggered := true;
      celebrations := celebrations + 1;
      showToast := true;
      if SoundPlays(opts, sound) {
        chimes := chimes + 1;
      }
    }

    /** The toast's 4.5 s timer. */
    method HideToast()
      modifies this`showToast
      ensures !showToast
    {
      showToast := false;
    }

    /** The effect run when the CHI score or the winners change. */
    method AutoEffect(chiScore: real, winners: map<string, string>)
      modifies this`triggered, this`showToast, this`celebrations, this`chimes
      ensures !ShouldAutoTrigger(auto, chiScore, winners) ==>
        && triggered == old(triggered) && celebrations == old(celebrations) && chimes == old(chimes)
        && showToast == old(showToast)
      ensures ShouldAutoTrigger(auto, chiScore, winners) ==>
        && triggered
        && celebrations == old(celebrations) + (if old(triggered) then 0 else 1)
        && showToast == (if old(triggered) then old(showToast) else true)
        && chimes == old(chimes) + (if !old(triggered) && sound then 1 else 0)
    {
      if !auto {
        return;
      }
      if chiScore > AutoThreshold && IsTMobileSweep(winners) {
        TriggerDelight(NoOptions);
      }
    }

    /** The manual button: clears the latch, then triggers with the sound forced on. */
    method ManualTrigger()
      modifies this`triggered, this`showToast, this`celebrations, this`chimes
      ensures triggered && showToast
      ensures celebrations == old(celebrations) + 1 && chimes == old(chimes) + 1
    {
      triggered := false;
      TriggerDelight(Options(Some(true)));
    }
  }
}
