/**
 * A popup that slides up from below the screen onto its centre, darkening the
 * screen behind it, and slides back down when closed: each frame the vertical
 * position eases toward its target and the background's opacity fades toward
 * full or none, clamped to [0, max_alpha].
 */
module Popups {
  import opened Numeric

  /** How far below the bottom edge the popup starts, in pixels. */
  const Y_OFFSET: int := 230
  /** Opacity gained or lost per second. */
  const FADE_SPEED: real := 300.0
  /** The easing rate of the vertical movement, per second. */
  const MOVE_SPEED: real := 12.0
  /** The opacity of a fully faded-in background. */
  const MAX_ALPHA: int := 180
  /** Closer than this to its target the popup jumps onto it. */
  const SNAP: real := 0.5

  /** `r` lies between `a` and `b`, whichever is larger. */
  predicate Between(r: real, a: real, b: real) {
    (a <= b ==> a <= r <= b) && (b <= a ==> b <= r <= a)
  }

  /** After easing from `y` by `step`, the popup is close enough to `target` to snap onto it. */
  predicate Settles(y: real, target: real, step: real) {
    AbsReal(Approach(y, target, step) - target) < SNAP
  }

  /**
   * The vertical position after one frame: eased from `y` toward `target`,
   * and exactly `target` once it settles. It never overshoots, a full step
   * lands on the target, and a popup already within half a pixel lands too.
   */
  function Moved(y: real, target: real, step: real): (r: real)
    ensures r == target <==> Settles(y, target, step)
    ensures r != target ==> AbsReal(r - target) >= SNAP
    ensures step >= 0.0 ==> Between(r, y, target)
    ensures step >= 1.0 ==> r == target
    ensures step >= 0.0 && AbsReal(y - target) < SNAP ==> r == target
  {
    var e := Approach(y, target, step);
    if AbsReal(e - target) < SNAP then target else e
  }

  /**
   * While the popup has not settled and the step is below a full one, each
   * frame leaves it `1 - step` times as far from its target as before.
   */
  lemma MovedDistance(y: real, target: real, step: real)
    requires 0.0 <= step <= 1.0 && !Settles(y, target, step)
    ensures AbsReal(Moved(y, target, step) - target) == (1.0 - step) * AbsReal(y - target)
  {
    ApproachDistance(y, target, step);
  }

  /**
   * The background opacity after one frame: `alpha` raised (or, while
   * closing, lowered) by `fadeSpeed * dt` and clamped to [0, maxAlpha].
   */
  function Faded(alpha: real, closing: bool, fadeSpeed: real, dt: real, maxAlpha: real): (r: real)
    ensures 0.0 <= r && (maxAlpha >= 0.0 ==> r <= maxAlpha)
    ensures fadeSpeed * dt >= 0.0 && 0.0 <= alpha <= maxAlpha ==> if closing then r <= alpha else alpha <= r
    ensures 0.0 <= alpha <= maxAlpha <= fadeSpeed * dt ==> r == if closing then 0.0 else maxAlpha
  {
    MaxReal(0.0, MinReal(maxAlpha, if closing then alpha - fadeSpeed * dt else alpha + fadeSpeed * dt))
  }

  class AnimatedPopup {
    const screenWidth: int
    const screenHeight: int
    /** The centre line below the screen the popup comes from and returns to. */
    const startY: real
    /** The centre line of the screen. */
    const finalY: real
    const moveSpeed: real
    const fadeSpeed: real
    const maxAlpha: real
    var currentY: real
    var targetY: real
    var animationDone: bool
    var closing: bool
    var bgAlpha: real
    /** `rect.centery`, the truncated position the content is drawn at. */
    var rectCenterY: int

    /**
     * The opacity is within its bounds; an open popup heads for the screen's
     * centre, a closing one back below the screen and is never done.
     */
    ghost predicate Valid()
      reads this
    {
      && 0.0 <= bgAlpha && (maxAlpha >= 0.0 ==> bgAlpha <= maxAlpha)
      && targetY == (if closing then startY else finalY)
      && (closing ==> !animationDone)
    }

    /**
     * A popup for a screen of `screenWidth` by `screenHeight` pixels, whose
     * centre starts `yOffset` pixels below the bottom edge, heading for the
     * screen's centre, with a transparent background.
     */
    constructor (screenWidth: int, screenHeight: int, yOffset: int, fadeSpeed: real, moveSpeed: real, bgAlpha: int)
      ensures Valid()
      ensures this.screenWidth == screenWidth && this.screenHeight == screenHeight
      ensures startY == (screenHeight + yOffset) as real && finalY == (screenHeight / 2) as real
      ensures currentY == startY && targetY == finalY && rectCenterY == screenHeight + yOffset
      ensures this.moveSpeed == moveSpeed && this.fadeSpeed == fadeSpeed && maxAlpha == bgAlpha as real
      ensures !animationDone && !closing && this.bgAlpha == 0.0
    {
      this.screenWidth := screenWidth;
      this.screenHeight := screenHeight;
      startY := (screenHeight + yOffset) as real;
      finalY := (screenHeight / 2) as real;
      currentY := (screenHeight + yOffset) as real;
      targetY := (screenHeight / 2) as real;
      rectCenterY := screenHeight + yOffset;
      this.moveSpeed := moveSpeed;
      this.fadeSpeed := fadeSpeed;
      maxAlpha := bgAlpha as real;
      animationDone := false;
      closing := false;
      this.bgAlpha := 0.0;
    }

    /**
     * One frame of `update(dt)` took the popup from the old state to this
     * one, `closed` telling whether `on_close` was called; the target and
     * the closing flag stay as they were.
     */
    twostate predicate Stepped(dt: real, closed: bool)
      reads this
    {
      && targetY == old(targetY) && closing == old(closing)
      && currentY == Moved(old(currentY), targetY, moveSpeed * dt)
      && (closed <==> closing && Settles(old(currentY), targetY, moveSpeed * dt))
      && (animationDone <==> old(animationDone) || (!closing && Settles(old(currentY), targetY, moveSpeed * dt)))
      && rectCenterY == Trunc(currentY)
      && bgAlpha == Faded(old(bgAlpha), closing, fadeSpeed, dt, maxAlpha)
    }

    /** `start_closing`: the popup heads back below the screen and is no longer done. */
    method StartClosing()
      modifies this`closing, this`animationDone, this`targetY
      ensures closing && !animationDone && targetY == startY
      ensures old(Valid()) ==> Valid()
    {
      closing := true;
      animationDone := false;
      targetY := startY;
    }

    /**
     * `update(dt)`: one frame of movement and fade. `closed` says that the
     * popup settled while closing, which is when `on_close` is called; an
     * open popup that settles is done instead.
     */
    method Update(dt: real) returns (closed: bool)
      modifies this`currentY, this`animationDone, this`bgAlpha, this`rectCenterY
      ensures Stepped(dt, closed)
      ensures old(Valid()) ==> Valid()
    {
      ghost var eased := Approach(currentY, targetY, moveSpeed * dt);
      currentY := currentY + (targetY - currentY) * MinReal(moveSpeed * dt, 1.0);
      assert currentY == eased;
      closed := false;
      if AbsReal(currentY - targetY) < SNAP {
        currentY := targetY;
        if closing {
          closed := true;
        } else {
          animationDone := true;
        }
      }
      rectCenterY := Trunc(currentY);
      if closing {
        bgAlpha := bgAlpha - fadeSpeed * dt;
      } else {
        bgAlpha := bgAlpha + fadeSpeed * dt;
      }
      bgAlpha := MaxReal(0.0, MinReal(maxAlpha, bgAlpha));
    }
  }
}
