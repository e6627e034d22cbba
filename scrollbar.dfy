/**
 * A vertical scrollbar: a bar that slides inside a track of `height` pixels
 * starting at `y`, dragged with the mouse and clamped to the track, whose
 * position and the scroll offset of the content convert into each other.
 */
module Scrollbar {
  import opened Numeric

  /** The bar is never shorter than this while part of the content is hidden. */
  const MIN_BAR_HEIGHT: int := 40

  /** The default arguments `width` and `hover_scale` of a new scrollbar. */
  const DEFAULT_WIDTH: int := 8
  const DEFAULT_HOVER_SCALE: real := 1.5

  /** How fast the bar's width eases toward its target, per second. */
  const HOVER_SPEED: real := 12.0

  /** A pixel rectangle. */
  datatype Rect = Rect(x: int, y: int, width: int, height: int)

  /** `Rect.collidepoint`: the point lies inside, right and bottom edges excluded. */
  predicate Collides(r: Rect, px: int, py: int) {
    r.x <= px < r.x + r.width && r.y <= py < r.y + r.height
  }

  /** The mouse events the bar reacts to; any other event is ignored. */
  datatype Event = MouseDown(px: int, py: int) | MouseUp | MouseMotion(px: int, py: int) | OtherEvent

  /**
   * The bar's height: the visible fraction of the content times the view
   * height, truncated and at least 40, or the whole track when the content
   * fits. Python divides by `contentHeight` only when it exceeds the view.
   */
  function BarHeight(height: int, contentHeight: int, viewHeight: int): (h: int)
    requires contentHeight > viewHeight ==> contentHeight != 0
    ensures contentHeight <= viewHeight ==> h == height
    ensures contentHeight > viewHeight ==> h >= MIN_BAR_HEIGHT
    ensures 0 <= viewHeight < contentHeight ==> h <= MaxInt(MIN_BAR_HEIGHT, viewHeight)
  {
    if contentHeight > viewHeight then
      ShrinkBound(viewHeight as real, contentHeight as real);
      MaxInt(MIN_BAR_HEIGHT, Trunc(viewHeight as real * (viewHeight as real / contentHeight as real)))
    else height
  }

  lemma ShrinkBound(v: real, c: real)
    requires c != 0.0
    ensures 0.0 <= v < c ==> 0.0 <= v * (v / c) <= v
  {
    if 0.0 <= v < c {
      assert v / c <= 1.0;
      assert v * (1.0 - v / c) >= 0.0;
    }
  }

  /**
   * The content offset shown when the bar is `pos` pixels down a track with
   * `track` pixels of play, for `range` pixels of hidden content.
   */
  function OffsetFor(pos: int, track: int, range: int): (offset: int)
    requires track != 0
    ensures 0 <= pos <= track && range >= 0 ==> 0 <= offset <= range
  {
    var ratio := pos as real / track as real;
    assert 0 <= pos <= track ==> ratio <= 1.0;
    TruncOfFraction(range, ratio);
    Trunc(ratio * range as real)
  }

  /**
   * The bar position, in pixels down the track, that shows content offset
   * `offset`: the same proportion as `OffsetFor` in the opposite direction,
   * kept as its own function so that `OffsetRoundTrip` can relate the two.
   */
  function PositionFor(offset: int, range: int, track: int): (pos: int)
    requires range != 0
    ensures 0 <= offset <= range && track >= 0 ==> 0 <= pos <= track
  {
    var ratio := offset as real / range as real;
    assert 0 <= offset <= range ==> ratio <= 1.0;
    TruncOfFraction(track, ratio);
    Trunc(ratio * track as real)
  }

  /**
   * Setting an offset and reading it back never gives more than was set, and
   * loses less than the content one pixel of bar travel stands for, plus one
   * for the truncation.
   */
  lemma OffsetRoundTrip(offset: int, range: int, track: int)
    requires range > 0 && track > 0 && 0 <= offset <= range
    ensures OffsetFor(PositionFor(offset, range, track), track, range) <= offset
    ensures OffsetFor(PositionFor(offset, range, track), track, range) as real > offset as real - range as real / track as real - 1.0
  {
    var p := PositionFor(offset, range, track);
    var q := p as real / track as real * range as real;
    assert PositionFor(offset, range, track) == Trunc(offset as real / range as real * track as real);
    Rescale(p as real, offset as real, range as real, track as real);
    assert p as real / track as real >= 0.0;
    ScaleMonotone(0.0, p as real / track as real, range as real);
    assert 0.0 <= q;
    TruncMonotone(q, offset as real);
    TruncOfInt(offset);
    assert OffsetFor(p, track, range) == Trunc(q);
  }

  /** Scaling a truncated `o / r * t` back by `r / t` gives at most `o`, and loses less than `r / t`. */
  lemma Rescale(p: real, o: real, r: real, t: real)
    requires r > 0.0 && t > 0.0 && p >= 0.0
    requires p <= o / r * t < p + 1.0
    ensures o - r / t < p / t * r <= o
  {
    var u := o / r * t;
    var k := r / t;
    assert k > 0.0;
    assert u * k == o;
    assert p / t * r == p * k;
    ScaleMonotone(p, u, k);
    ScaleStrictlyMonotone(u, p + 1.0, k);
    assert (p + 1.0) * k == p * k + k;
    ShiftBound(o, k, u * k, (p + 1.0) * k, p * k);
  }

  lemma ScaleMonotone(a: real, b: real, k: real)
    requires a <= b && k > 0.0
    ensures a * k <= b * k
  {
  }

  lemma ScaleStrictlyMonotone(a: real, b: real, k: real)
    requires a < b && k > 0.0
    ensures a * k < b * k
  {
  }

  lemma ShiftBound(o: real, k: real, a: real, b: real, c: real)
    requires a == o && a < b && b == c + k
    ensures o - k < c
  {
  }

  class UIScrollbar {
    const x: int
    const y: int
    const height: int
    const contentHeight: int
    const viewHeight: int
    const defaultWidth: int
    const hoverWidth: int
    const barHeight: int
    var currentWidth: real
    var bar: Rect
    var dragging: bool
    var mouseOffsetY: int

    /** The bar is as tall as it was made and lies inside its track, as far as the track is long enough. */
    ghost predicate InTrack()
      reads this
    {
      bar.height == barHeight && y <= bar.y && (barHeight <= height ==> bar.y <= y + height - barHeight)
    }

    /**
     * A scrollbar for `contentHeight` pixels of content seen through
     * `viewHeight`; `width` and `hoverScale` are the bar's width and its
     * enlargement under the mouse.
     */
    constructor (x: int, y: int, height: int, contentHeight: int, viewHeight: int, width: int, hoverScale: real)
      requires contentHeight > viewHeight ==> contentHeight != 0
      ensures InTrack()
      ensures this.x == x && this.y == y && this.height == height
      ensures this.contentHeight == contentHeight && this.viewHeight == viewHeight
      ensures defaultWidth == width && hoverWidth == Trunc(width as real * hoverScale) && currentWidth == width as real
      ensures barHeight == BarHeight(height, contentHeight, viewHeight)
      ensures bar == Rect(x, y, width, barHeight) && !dragging && mouseOffsetY == 0
    {
      this.x := x;
      this.y := y;
      this.height := height;
      this.contentHeight := contentHeight;
      this.viewHeight := viewHeight;
      defaultWidth := width;
      hoverWidth := Trunc(width as real * hoverScale);
      currentWidth := width as real;
      barHeight := BarHeight(height, contentHeight, viewHeight);
      bar := Rect(x, y, width, BarHeight(height, contentHeight, viewHeight));
      dragging := false;
      mouseOffsetY := 0;
    }

    /**
     * `handle_event`: a press on the bar starts a drag and remembers where
     * the bar was grabbed; a release anywhere ends it; a motion while
     * dragging moves the bar with the mouse, clamped to the track; nothing
     * else has an effect.
     */
    method HandleEvent(e: Event)
      modifies this`bar, this`dragging, this`mouseOffsetY
      ensures e.MouseDown? && Collides(old(bar), e.px, e.py) ==>
        dragging && mouseOffsetY == e.py - old(bar).y && bar == old(bar)
      ensures e.MouseUp? ==> !dragging && mouseOffsetY == old(mouseOffsetY) && bar == old(bar)
      ensures e.MouseMotion? && old(dragging) ==>
        && bar == old(bar).(y := Clamp(y, y + height - barHeight, e.py - old(mouseOffsetY)))
        && dragging && mouseOffsetY == old(mouseOffsetY)
      ensures (e.MouseDown? && !Collides(old(bar), e.px, e.py)) || (e.MouseMotion? && !old(dragging)) || e.OtherEvent? ==>
        bar == old(bar) && dragging == old(dragging) && mouseOffsetY == old(mouseOffsetY)
      ensures old(InTrack()) ==> InTrack()
    {
      if e.MouseDown? && Collides(bar, e.px, e.py) {
        dragging := true;
        mouseOffsetY := e.py - bar.y;
      } else if e.MouseUp? {
        dragging := false;
      } else if e.MouseMotion? && dragging {
        var newY := e.py - mouseOffsetY;
        newY := Clamp(y, y + height - barHeight, newY);
        bar := bar.(y := newY);
      }
    }

    /**
     * `update(dt)` with the mouse at (mouseX, mouseY): the width eases toward
     * the hover width while the bar is hovered or dragged and toward the
     * default width otherwise, and the bar is re-centred on the track.
     */
    method Update(dt: real, mouseX: int, mouseY: int)
      modifies this`currentWidth, this`bar
      ensures var target := if Collides(old(bar), mouseX, mouseY) || dragging then hoverWidth else defaultWidth;
        currentWidth == Approach(old(currentWidth), target as real, HOVER_SPEED * dt)
      ensures bar == old(bar).(width := Trunc(currentWidth), x := x + defaultWidth / 2 - Trunc(currentWidth) / 2)
      ensures old(InTrack()) ==> InTrack()
    {
      var hovered := Collides(bar, mouseX, mouseY);
      var target := if hovered || dragging then hoverWidth else defaultWidth;
      currentWidth := currentWidth + (target as real - currentWidth) * MinReal(HOVER_SPEED * dt, 1.0);
      var centerX := x + defaultWidth / 2;
      var w := Trunc(currentWidth);
      bar := bar.(width := w, x := centerX - w / 2);
    }

    /**
     * `get_scroll_offset`: 0 when the bar fills its track, otherwise the
     * offset its position stands for, which is within the hidden content
     * while the bar is in its track.
     */
    function GetScrollOffset(): (offset: int)
      reads this
      ensures height == barHeight ==> offset == 0
      ensures InTrack() && height > barHeight && contentHeight >= viewHeight ==> 0 <= offset <= contentHeight - viewHeight
    {
      if height == barHeight then 0 else OffsetFor(bar.y - y, height - barHeight, contentHeight - viewHeight)
    }

    /**
     * `set_scroll_offset`: the bar goes to the top of the track when the
     * content fits, and otherwise to the position showing `offset`, which is
     * in the track for an offset within the hidden content.
     */
    method SetScrollOffset(offset: int)
      modifies this`bar
      ensures contentHeight <= viewHeight ==> bar == old(bar).(y := y)
      ensures contentHeight > viewHeight ==>
        bar == old(bar).(y := PositionFor(offset, contentHeight - viewHeight, height - barHeight) + y)
      ensures old(InTrack()) && (contentHeight > viewHeight ==> barHeight <= height && 0 <= offset <= contentHeight - viewHeight) ==> InTrack()
    {
      if contentHeight <= viewHeight {
        bar := bar.(y := y);
      } else {
        var ratio := offset as real / (contentHeight - viewHeight) as real;
        bar := bar.(y := Trunc(ratio * (height - barHeight) as real) + y);
      }
    }
  }
}
