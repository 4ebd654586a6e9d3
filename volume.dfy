/**
 * The player's volume state (`volume`, `isMuted`, `previousVolume`) and the two
 * handlers that change it: the volume slider and the mute button.
 */
module Volume {

  datatype Level = Level(volume: real, isMuted: bool, previousVolume: real)

  /** The component's initial volume state. */
  const Initial := Level(1.0, false, 1.0)

  /** A value the volume slider (`min 0`, `max 1`) can produce. */
  predicate InSlider(v: real) { 0.0 <= v <= 1.0 }

  /** Muted exactly at volume 0, and a non-zero volume to return to on unmute. */
  predicate Valid(s: Level)
  {
    && InSlider(s.volume)
    && (s.isMuted <==> s.volume == 0.0)
    && 0.0 < s.previousVolume <= 1.0
  }

  /**
   * `handleVolumeChange`: the slider value becomes the volume, muted iff it is 0;
   * any non-zero value is remembered, whether or not the player was muted.
   */
  function Change(s: Level, v: real): (r: Level)
    ensures r.volume == v && (r.isMuted <==> v == 0.0)
    ensures v > 0.0 ==> r.previousVolume == v
    ensures v <= 0.0 ==> r.previousVolume == s.previousVolume
    ensures Valid(s) && InSlider(v) ==> Valid(r)
  {
    Level(v, v == 0.0, if v > 0.0 then v else s.previousVolume)
  }

  /**
   * `toggleMute`: unmuting restores the remembered volume (1 when it is 0);
   * muting remembers the current volume and silences.
   */
  function ToggleMute(s: Level): (r: Level)
    ensures r.isMuted == !s.isMuted
    ensures !s.isMuted ==> r.volume == 0.0 && r.previousVolume == s.volume
    ensures s.isMuted && s.previousVolume != 0.0 ==> r.volume == s.previousVolume
    ensures s.isMuted && s.previousVolume == 0.0 ==> r.volume == 1.0
    ensures s.isMuted ==> r.previousVolume == s.previousVolume
    ensures Valid(s) ==> Valid(r)
  {
    if s.isMuted then
      Level(if s.previousVolume != 0.0 then s.previousVolume else 1.0, false, s.previousVolume)
    else
      Level(0.0, true, s.volume)
  }

  /**
   * Muting and then unmuting restores exactly the volume the player had; the
   * remembered volume is now that volume.
   */
  lemma MuteThenUnmute(s: Level)
    requires Valid(s) && !s.isMuted
    ensures ToggleMute(ToggleMute(s)) == s.(previousVolume := s.volume)
  {
  }

  /** A user action on the volume controls. */
  datatype Action = Slide(value: real) | Mute

  function Step(s: Level, a: Action): Level
  {
    match a
    case Slide(v) => Change(s, v)
    case Mute => ToggleMute(s)
  }

  function Run(s: Level, actions: seq<Action>): Level
    decreases |actions|
  {
    if actions == [] then s else Run(Step(s, actions[0]), actions[1..])
  }

  predicate SliderActions(actions: seq<Action>)
  {
    forall i :: 0 <= i < |actions| ==> actions[i].Slide? ==> InSlider(actions[i].value)
  }

  /**
   * From any valid state (the initial one included), every run of slider
   * moves and mute toggles keeps the volume state valid.
   */
  lemma {:induction false} RunKeepsValid(s: Level, actions: seq<Action>)
    requires Valid(s) && SliderActions(actions)
    ensures Valid(Run(s, actions))
    decreases |actions|
  {
    if actions != [] {
      assert SliderActions(actions[1..]) by {
        forall i | 0 <= i < |actions[1..]| ensures actions[1..][i].Slide? ==> InSlider(actions[1..][i].value) {
          assert actions[1..][i] == actions[i + 1];
        }
      }
      RunKeepsValid(Step(s, actions[0]), actions[1..]);
    }
  }

  /** The initial state is valid, so every session of volume actions stays valid. */
  lemma SessionKeepsValid(actions: seq<Action>)
    requires SliderActions(actions)
    ensures Valid(Run(Initial, actions))
  {
    RunKeepsValid(Initial, actions);
  }
}
