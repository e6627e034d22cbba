/**
 * The splash screen shown at start-up: a white screen fades in, then the
 * studio logo, both stay for two seconds, and both fade out together before
 * the game switches to the main menu. The stages only ever move forward.
 */
module Splash {
  import opened Numeric

  /** Opacity gained or lost per second. */
  const FADE_RATE: real := 200.0
  /** Full opacity. */
  const OPAQUE: real := 255.0
  /** How long the logo stays, in seconds. */
  const WAIT_TIME: real := 2.0

  datatype Stage = FadeInScreen | FadeInLogo | Wait | FadeOut

  /** The position of a stage in the sequence. */
  function Rank(s: Stage): nat {
    match s
    case FadeInScreen => 0
    case FadeInLogo => 1
    case Wait => 2
    case FadeOut => 3
  }

  /** What the splash screen keeps from one frame to the next. */
  datatype Frame = Frame(whiteAlpha: real, logoAlpha: real, timer: real, stage: Stage)

  /** A new splash screen: everything transparent, the timer at 0, fading the screen in. */
  const START: Frame := Frame(0.0, 0.0, 0.0, FadeInScreen)

  /** This frame of the fade-out leaves both layers transparent, which ends the splash. */
  predicate Finishes(f: Frame, dt: real) {
    f.stage == FadeOut && f.whiteAlpha - dt * FADE_RATE <= 0.0 && f.logoAlpha - dt * FADE_RATE <= 0.0
  }

  /**
   * `update(dt)`. Each stage moves one value: the white layer's opacity up
   * to full, the logo's up to full (which restarts the timer), the timer up
   * to two seconds, and both opacities down to none, where they stop at
   * exactly 0. A stage is left only for the next one, once its value is
   * reached.
   */
  function Next(f: Frame, dt: real): (g: Frame)
    ensures Rank(g.stage) == Rank(f.stage) || Rank(g.stage) == Rank(f.stage) + 1
    ensures f.stage == FadeInScreen ==>
      && g.whiteAlpha == MinReal(f.whiteAlpha + dt * FADE_RATE, OPAQUE)
      && g.logoAlpha == f.logoAlpha && g.timer == f.timer
      && (g.stage == FadeInLogo <==> f.whiteAlpha + dt * FADE_RATE >= OPAQUE)
    ensures f.stage == FadeInLogo ==>
      && g.logoAlpha == MinReal(f.logoAlpha + dt * FADE_RATE, OPAQUE) && g.whiteAlpha == f.whiteAlpha
      && (g.stage == Wait <==> f.logoAlpha + dt * FADE_RATE >= OPAQUE)
      && g.timer == if g.stage == Wait then 0.0 else f.timer
    ensures f.stage == Wait ==>
      && g.timer == f.timer + dt && g.whiteAlpha == f.whiteAlpha && g.logoAlpha == f.logoAlpha
      && (g.stage == FadeOut <==> g.timer >= WAIT_TIME)
    ensures f.stage == FadeOut ==>
      && g.stage == FadeOut && g.timer == f.timer
      && if Finishes(f, dt) then g.whiteAlpha == 0.0 && g.logoAlpha == 0.0
         else g.whiteAlpha == f.whiteAlpha - dt * FADE_RATE && g.logoAlpha == f.logoAlpha - dt * FADE_RATE
  {
    match f.stage
    case FadeInScreen =>
      var white := f.whiteAlpha + dt * FADE_RATE;
      if white >= OPAQUE then f.(whiteAlpha := OPAQUE, stage := FadeInLogo) else f.(whiteAlpha := white)
    case FadeInLogo =>
      var logo := f.logoAlpha + dt * FADE_RATE;
      if logo >= OPAQUE then f.(logoAlpha := OPAQUE, stage := Wait, timer := 0.0) else f.(logoAlpha := logo)
    case Wait =>
      var timer := f.timer + dt;
      if timer >= WAIT_TIME then f.(timer := timer, stage := FadeOut) else f.(timer := timer)
    case FadeOut =>
      var white := f.whiteAlpha - dt * FADE_RATE;
      var logo := f.logoAlpha - dt * FADE_RATE;
      if white <= 0.0 && logo <= 0.0 then f.(whiteAlpha := 0.0, logoAlpha := 0.0)
      else f.(whiteAlpha := white, logoAlpha := logo)
  }

  /**
   * What holds in each stage when time never runs backwards: a layer still
   * fading in is below full opacity, the logo is invisible until its stage,
   * the timer is below two seconds while waiting, and during the fade-out
   * both layers have the same opacity, so they become transparent together.
   */
  predicate Sane(f: Frame) {
    match f.stage
    case FadeInScreen => 0.0 <= f.whiteAlpha < OPAQUE && f.logoAlpha == 0.0 && f.timer == 0.0
    case FadeInLogo => f.whiteAlpha == OPAQUE && 0.0 <= f.logoAlpha < OPAQUE && f.timer == 0.0
    case Wait => f.whiteAlpha == OPAQUE && f.logoAlpha == OPAQUE && 0.0 <= f.timer < WAIT_TIME
    case FadeOut => f.whiteAlpha == f.logoAlpha <= OPAQUE
  }

  /** A frame of non-negative length keeps the splash screen sane. */
  lemma NextSane(f: Frame, dt: real)
    requires Sane(f) && dt >= 0.0
    ensures Sane(Next(f, dt))
    ensures f.stage == FadeOut && f.whiteAlpha <= dt * FADE_RATE ==> Finishes(f, dt)
  {
  }

  /** The frames `dts` run one after the other from `f`. */
  function Run(f: Frame, dts: seq<real>): Frame
    decreases |dts|
  {
    if dts == [] then f else Run(Next(f, dts[0]), dts[1..])
  }

  /**
   * However many frames of whatever length run, the stage never goes back,
   * and with frames of non-negative length the splash screen stays sane from
   * its start on.
   */
  lemma {:induction false} RunForward(f: Frame, dts: seq<real>)
    ensures Rank(Run(f, dts).stage) >= Rank(f.stage)
    ensures Sane(f) && (forall i :: 0 <= i < |dts| ==> dts[i] >= 0.0) ==> Sane(Run(f, dts))
    decreases |dts|
  {
    if dts != [] {
      var g := Next(f, dts[0]);
      RunForward(g, dts[1..]);
      if Sane(f) && (forall i :: 0 <= i < |dts| ==> dts[i] >= 0.0) {
        NextSane(f, dts[0]);
        assert forall i :: 0 <= i < |dts[1..]| ==> dts[1..][i] == dts[i + 1];
      }
    }
  }

  class SplashScreen {
    var whiteAlpha: real
    var logoAlpha: real
    var timer: real
    var stage: Stage

    function State(): Frame
      reads this
    {
      Frame(whiteAlpha, logoAlpha, timer, stage)
    }

    constructor ()
      ensures State() == START && Sane(State())
    {
      whiteAlpha := 0.0;
      logoAlpha := 0.0;
      timer := 0.0;
      stage := FadeInScreen;
    }

    /**
     * `update(dt)`: one frame of the stage machine; `finished` says that the
     * fade-out ended and the game switches to the main menu.
     */
    method Update(dt: real) returns (finished: bool)
      modifies this
      ensures State() == Next(old(State()), dt)
      ensures finished == Finishes(old(State()), dt)
    {
      finished := false;
      if stage == FadeInScreen {
        whiteAlpha := whiteAlpha + dt * FADE_RATE;
        if whiteAlpha >= OPAQUE {
          whiteAlpha := OPAQUE;
          stage := FadeInLogo;
        }
      } else if stage == FadeInLogo {
        logoAlpha := logoAlpha + dt * FADE_RATE;
        if logoAlpha >= OPAQUE {
          logoAlpha := OPAQUE;
          stage := Wait;
          timer := 0.0;
        }
      } else if stage == Wait {
        timer := timer + dt;
        if timer >= WAIT_TIME {
          stage := FadeOut;
        }
      } else {
        whiteAlpha := whiteAlpha - dt * FADE_RATE;
        logoAlpha := logoAlpha - dt * FADE_RATE;
        if whiteAlpha <= 0.0 && logoAlpha <= 0.0 {
          whiteAlpha := 0.0;
          logoAlpha := 0.0;
          finished := true;
        }
      }
    }
  }
}
