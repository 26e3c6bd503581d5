/** The animation/performance settings: five flags held by the provider and replaced
    by each toggle, the performance mode, a partial merge and the system
    reduced-motion event. */
module Performance {
  import opened Types

  /** One value of the held settings record. */
  datatype Settings = Settings(
    backgroundAnimations: bool,
    framerAnimations: bool,
    reducedMotion: bool,
    cloudDrift: bool,
    pulseGlow: bool)

  /** `Partial<PerformanceSettings>`: the fields a merge overwrites. */
  datatype SettingsPatch = SettingsPatch(
    backgroundAnimations: Option<bool>,
    framerAnimations: Option<bool>,
    reducedMotion: Option<bool>,
    cloudDrift: Option<bool>,
    pulseGlow: Option<bool>)

  const EmptyPatch := SettingsPatch(None, None, None, None, None)

  const DefaultSettings := Settings(true, true, false, true, true)

  /** What the settings store held at start-up: nothing (or an empty string), text
      that does not parse, or a parsed partial record. */
  datatype SavedPrefs = NothingSaved | Unparsable | Parsed(patch: SettingsPatch)

  function Pick(o: Option<bool>, otherwise: bool): bool {
    if o.Some? then o.value else otherwise
  }

  /** `{ ...prev, ...patch }`. */
  function Merge(s: Settings, p: SettingsPatch): Settings {
    Settings(
      Pick(p.backgroundAnimations, s.backgroundAnimations),
      Pick(p.framerAnimations, s.framerAnimations),
      Pick(p.reducedMotion, s.reducedMotion),
      Pick(p.cloudDrift, s.cloudDrift),
      Pick(p.pulseGlow, s.pulseGlow))
  }

  /** The start-up rule: saved settings over the defaults; the defaults if they do not
      parse; otherwise the system preference decides the two master flags. */
  function InitialSettings(saved: SavedPrefs, prefersReducedMotion: bool): Settings {
    match saved
    case Parsed(p) => Merge(DefaultSettings, p)
    case Unparsable => DefaultSettings
    case NothingSaved =>
      DefaultSettings.(
        backgroundAnimations := !prefersReducedMotion,
        framerAnimations := !prefersReducedMotion,
        reducedMotion := prefersReducedMotion)
  }

  function ToggleBackgroundAnimations(s: Settings): Settings {
    var newValue := !s.backgroundAnimations;
    s.(backgroundAnimations := newValue,
       cloudDrift := if newValue then s.cloudDrift else false,
       pulseGlow := if newValue then s.pulseGlow else false)
  }

  function ToggleFramerAnimations(s: Settings): Settings {
    s.(framerAnimations := !s.framerAnimations)
  }

  function ToggleCloudDrift(s: Settings): Settings {
    s.(cloudDrift := !s.cloudDrift)
  }

  function TogglePulseGlow(s: Settings): Settings {
    s.(pulseGlow := !s.pulseGlow)
  }

  function ApplyPerformanceMode(s: Settings): Settings {
    s.(backgroundAnimations := false, framerAnimations := false, cloudDrift := false, pulseGlow := false)
  }

  /** The system `(prefers-reduced-motion: reduce)` change event. */
  function ReducedMotionChanged(s: Settings, matches: bool): Settings {
    s.(reducedMotion := matches,
       backgroundAnimations := s.backgroundAnimations && !matches,
       framerAnimations := s.framerAnimations && !matches)
  }

  /** "Master off implies the individual background animations off." */
  predicate MasterGatesChildren(s: Settings) {
    !s.backgroundAnimations ==> !s.cloudDrift && !s.pulseGlow
  }

  lemma DefaultsAllOnButReducedMotion()
    ensures DefaultSettings.backgroundAnimations && DefaultSettings.framerAnimations
    ensures DefaultSettings.cloudDrift && DefaultSettings.pulseGlow && !DefaultSettings.reducedMotion
  {
  }

  /** With nothing saved, the master flags follow the system preference and the rest
      are the defaults. */
  lemma InitialFromPreference(prefersReducedMotion: bool)
    ensures var s := InitialSettings(NothingSaved, prefersReducedMotion);
      && s.backgroundAnimations == !prefersReducedMotion
      && s.framerAnimations == !prefersReducedMotion
      && s.reducedMotion == prefersReducedMotion
      && s.cloudDrift && s.pulseGlow
  {
  }

  /** The master toggle flips its flag; turning it off clears the individual
      animations, turning it on keeps them; the other two flags never change. */
  lemma ToggleBackgroundEffect(s: Settings)
    ensures var r := ToggleBackgroundAnimations(s);
      && r.backgroundAnimations == !s.backgroundAnimations
      && (!r.backgroundAnimations ==> !r.cloudDrift && !r.pulseGlow)
      && (r.backgroundAnimations ==> r.cloudDrift == s.cloudDrift && r.pulseGlow == s.pulseGlow)
      && r.framerAnimations == s.framerAnimations && r.reducedMotion == s.reducedMotion
  {
  }

  /** Off then on is not the identity: the individual animations stay off. */
  lemma ToggleBackgroundTwiceLosesChildren()
    ensures ToggleBackgroundAnimations(ToggleBackgroundAnimations(DefaultSettings)) != DefaultSettings
  {
    assert ToggleBackgroundAnimations(ToggleBackgroundAnimations(DefaultSettings)).cloudDrift == false;
  }

  /** Each single-flag toggle changes exactly its own field and undoes itself. */
  lemma SingleTogglesAreInvolutions(s: Settings)
    ensures ToggleFramerAnimations(s) == s.(framerAnimations := !s.framerAnimations)
    ensures ToggleCloudDrift(s) == s.(cloudDrift := !s.cloudDrift)
    ensures TogglePulseGlow(s) == s.(pulseGlow := !s.pulseGlow)
    ensures ToggleFramerAnimations(ToggleFramerAnimations(s)) == s
    ensures ToggleCloudDrift(ToggleCloudDrift(s)) == s
    ensures TogglePulseGlow(TogglePulseGlow(s)) == s
  {
  }

  /** Performance mode turns every animation off, keeps `reducedMotion`, and applying
      it again changes nothing. */
  lemma PerformanceModeEffect(s: Settings)
    ensures var r := ApplyPerformanceMode(s);
      && !r.backgroundAnimations && !r.framerAnimations && !r.cloudDrift && !r.pulseGlow
      && r.reducedMotion == s.reducedMotion
    ensures ApplyPerformanceMode(ApplyPerformanceMode(s)) == ApplyPerformanceMode(s)
  {
  }

  /** The reduced-motion event records `matches`, never turns an animation on, turns
      the two master flags off when motion should be reduced, and leaves the
      individual animations alone. */
  lemma ReducedMotionEffect(s: Settings, matches: bool)
    ensures var r := ReducedMotionChanged(s, matches);
      && r.reducedMotion == matches
      && (r.backgroundAnimations ==> s.backgroundAnimations)
      && (r.framerAnimations ==> s.framerAnimations)
      && (matches ==> !r.backgroundAnimations && !r.framerAnimations)
      && (!matches ==> r.backgroundAnimations == s.backgroundAnimations && r.framerAnimations == s.framerAnimations)
      && r.cloudDrift == s.cloudDrift && r.pulseGlow == s.pulseGlow
  {
  }

  /** A merge overwrites exactly the fields the patch carries; the empty patch changes
      nothing and merging the same patch twice is merging it once. */
  lemma MergeOverwritesPresentFields(s: Settings, p: SettingsPatch)
    ensures var r := Merge(s, p);
      && (p.backgroundAnimations.Some? ==> r.backgroundAnimations == p.backgroundAnimations.value)
      && (p.backgroundAnimations.None? ==> r.backgroundAnimations == s.backgroundAnimations)
      && (p.framerAnimations.Some? ==> r.framerAnimations == p.framerAnimations.value)
      && (p.framerAnimations.None? ==> r.framerAnimations == s.framerAnimations)
      && (p.reducedMotion.Some? ==> r.reducedMotion == p.reducedMotion.value)
      && (p.reducedMotion.None? ==> r.reducedMotion == s.reducedMotion)
      && (p.cloudDrift.Some? ==> r.cloudDrift == p.cloudDrift.value)
      && (p.cloudDrift.None? ==> r.cloudDrift == s.cloudDrift)
      && (p.pulseGlow.Some? ==> r.pulseGlow == p.pulseGlow.value)
      && (p.pulseGlow.None? ==> r.pulseGlow == s.pulseGlow)
    ensures Merge(s, EmptyPatch) == s
    ensures Merge(Merge(s, p), p) == Merge(s, p)
  {
  }

  /** Toggle-off and performance mode establish the gating; the master toggle keeps
      it in both directions. */
  lemma GatingEstablished(s: Settings)
    ensures MasterGatesChildren(ApplyPerformanceMode(s))
    ensures s.backgroundAnimations ==> MasterGatesChildren(ToggleBackgroundAnimations(s))
    ensures MasterGatesChildren(s) ==> MasterGatesChildren(ToggleBackgroundAnimations(s))
  {
  }

  /** The gating is not an invariant: toggling one individual animation, or the
      reduced-motion event, can leave it on under a master that is off. */
  lemma GatingCanBreak()
    ensures var s := ApplyPerformanceMode(DefaultSettings);
      MasterGatesChildren(s) && !MasterGatesChildren(ToggleCloudDrift(s))
    ensures var s := ApplyPerformanceMode(DefaultSettings);
      MasterGatesChildren(s) && !MasterGatesChildren(TogglePulseGlow(s))
    ensures MasterGatesChildren(DefaultSettings) && !MasterGatesChildren(ReducedMotionChanged(DefaultSettings, true))
  {
  }

  /** The provider's held state: five flags, replaced by each action. Persisting
      them to the settings store after every change is not modelled. */
  class PerformanceProvider {
    var backgroundAnimations: bool
    var framerAnimations: bool
    var reducedMotion: bool
    var cloudDrift: bool
    var pulseGlow: bool

    function Current(): Settings
      reads this
    {
      Settings(backgroundAnimations, framerAnimations, reducedMotion, cloudDrift, pulseGlow)
    }

    /** Mounting the provider: the start-up rule over what was saved and the system
        preference. */
    constructor (saved: SavedPrefs, prefersReducedMotion: bool)
      ensures Current() == InitialSettings(saved, prefersReducedMotion)
    {
      var s := InitialSettings(saved, prefersReducedMotion);
      backgroundAnimations := s.backgroundAnimations;
      framerAnimations := s.framerAnimations;
      reducedMotion := s.reducedMotion;
      cloudDrift := s.cloudDrift;
      pulseGlow := s.pulseGlow;
    }

    method UpdateSettings(p: SettingsPatch)
      modifies this
      ensures Current() == Merge(old(Current()), p)
    {
      if p.backgroundAnimations.Some? { backgroundAnimations := p.backgroundAnimations.value; }
      if p.framerAnimations.Some? { framerAnimations := p.framerAnimations.value; }
      if p.reducedMotion.Some? { reducedMotion := p.reducedMotion.value; }
      if p.cloudDrift.Some? { cloudDrift := p.cloudDrift.value; }
      if p.pulseGlow.Some? { pulseGlow := p.pulseGlow.value; }
    }

    method ToggleBackground()
      modifies this
      ensures Current() == ToggleBackgroundAnimations(old(Current()))
    {
      var newValue := !backgroundAnimations;
      backgroundAnimations := newValue;
      if !newValue {
        cloudDrift := false;
        pulseGlow := false;
      }
    }

    method ToggleFramer()
      modifies this
      ensures Current() == ToggleFramerAnimations(old(Current()))
    {
      framerAnimations := !framerAnimations;
    }

    method ToggleDrift()
      modifies this
      ensures Current() == ToggleCloudDrift(old(Current()))
    {
      cloudDrift := !cloudDrift;
    }

    method ToggleGlow()
      modifies this
      ensures Current() == TogglePulseGlow(old(Current()))
    {
      pulseGlow := !pulseGlow;
    }

    method PerformanceMode()
      modifies this
      ensures Current() == ApplyPerformanceMode(old(Current()))
    {
      backgroundAnimations, framerAnimations, cloudDrift, pulseGlow := false, false, false, false;
    }

    /** The media-query listener. */
    method OnReducedMotionChange(matches: bool)
      modifies this
      ensures Current() == ReducedMotionChanged(old(Current()), matches)
    {
      reducedMotion := matches;
      backgroundAnimations := backgroundAnimations && !matches;
      framerAnimations := framerAnimations && !matches;
    }
  }
}
