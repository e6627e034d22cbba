/**
 * The calendar popup: a month page with a grid of day buttons, seven columns
 * wide, and arrows that slide to the previous or next month of the year.
 * The month stays within January..December, and clicks count only while
 * the popup is open and no slide is running.
 */
module Calendars {
  import opened Numeric
  import opened Text
  import opened Popups

  /** The top-left corner of the day grid. */
  const START_X: int := 168
  const START_Y: int := 195
  /** How long a slide to another month lasts, in seconds. */
  const TRANSITION_DURATION: real := 0.4

  const MONTH_NAMES: seq<string> := [
    "JANEIRO", "FEVEREIRO", "MARÇO", "ABRIL", "MAIO", "JUNHO",
    "JULHO", "AGOSTO", "SETEMBRO", "OUTUBRO", "NOVEMBRO", "DEZEMBRO"
  ]

  /** A day button: its top-left corner and its label. */
  datatype DayButton = DayButton(x: int, y: int, text: string)

  /**
   * The (row, column) of day `day` in a month whose first day falls on
   * weekday `firstWeekday`, Monday being 0: the days fill the rows of seven
   * left to right, the first one in the column of its weekday.
   */
  function Cell(firstWeekday: int, day: int): (rc: (int, int))
    ensures 0 <= rc.1 < 7 && rc.0 * 7 + rc.1 == firstWeekday + day - 1
    ensures 0 <= firstWeekday <= 6 && 1 <= day <= 31 ==> 0 <= rc.0 <= 5
  {
    ((firstWeekday + day - 1) / 7, (firstWeekday + day - 1) % 7)
  }

  /** A later day lies in a later row, or further right in the same row. */
  lemma CellOrder(firstWeekday: int, d: int, e: int)
    requires d < e
    ensures Cell(firstWeekday, d).0 < Cell(firstWeekday, e).0
      || (Cell(firstWeekday, d).0 == Cell(firstWeekday, e).0 && Cell(firstWeekday, d).1 < Cell(firstWeekday, e).1)
  {
  }

  /** The button of day `day`, for cells of `cellWidth` by `cellHeight` pixels. */
  function DayButtonAt(firstWeekday: int, day: nat, cellWidth: int, cellHeight: int): DayButton {
    var (row, col) := Cell(firstWeekday, day);
    DayButton(START_X + col * cellWidth, START_Y + row * cellHeight, NatToString(day))
  }

  /**
   * The buttons of days 1..numDays, in day order: the button at index `i` is
   * placed at the cell of day `i + 1` and labelled with that day's number.
   */
  function DayGrid(firstWeekday: int, numDays: nat, cellWidth: int, cellHeight: int): (g: seq<DayButton>)
    ensures |g| == numDays
    ensures forall i :: 0 <= i < numDays ==>
      && g[i].x == START_X + Cell(firstWeekday, i + 1).1 * cellWidth
      && g[i].y == START_Y + Cell(firstWeekday, i + 1).0 * cellHeight
      && g[i].text == NatToString(i + 1)
  {
    seq(numDays, i requires 0 <= i < numDays => DayButtonAt(firstWeekday, i + 1, cellWidth, cellHeight))
  }

  /** The grid has one button per day, the button at index `i` labelled with day `i + 1`. */
  lemma GridLabels(firstWeekday: int, numDays: nat, cellWidth: int, cellHeight: int)
    ensures |DayGrid(firstWeekday, numDays, cellWidth, cellHeight)| == numDays
    ensures forall i :: 0 <= i < numDays ==>
      var text := DayGrid(firstWeekday, numDays, cellWidth, cellHeight)[i].text;
      AllDigits(text) && ParseNat(text) == i + 1
  {
    var g := DayGrid(firstWeekday, numDays, cellWidth, cellHeight);
    forall i | 0 <= i < numDays
      ensures AllDigits(g[i].text) && ParseNat(g[i].text) == i + 1
    {
      var day := i + 1;
      assert g[i].text == NatToString(day);
      ParseNatToString(day);
    }
  }

  /** With cells of positive size, no two days share a position. */
  lemma GridApart(firstWeekday: int, numDays: nat, cellWidth: int, cellHeight: int)
    requires cellWidth > 0 && cellHeight > 0
    ensures forall i, j :: 0 <= i < j < numDays ==>
      var g := DayGrid(firstWeekday, numDays, cellWidth, cellHeight);
      g[i].x != g[j].x || g[i].y != g[j].y
  {
    var g := DayGrid(firstWeekday, numDays, cellWidth, cellHeight);
    forall i, j | 0 <= i < j < numDays
      ensures g[i].x != g[j].x || g[i].y != g[j].y
    {
      CellOrder(firstWeekday, i + 1, j + 1);
      var (r, c) := Cell(firstWeekday, i + 1);
      var (r', c') := Cell(firstWeekday, j + 1);
      if r < r' {
        MulStrict(r, r', cellHeight);
      } else {
        MulStrict(c, c', cellWidth);
      }
    }
  }

  /** A month of at most 31 days starting on a weekday fits 7 columns and 6 rows of cells. */
  lemma GridInBox(firstWeekday: int, numDays: nat, cellWidth: int, cellHeight: int)
    requires 0 <= firstWeekday <= 6 && numDays <= 31 && cellWidth >= 0 && cellHeight >= 0
    ensures forall i :: 0 <= i < numDays ==>
      var b := DayGrid(firstWeekday, numDays, cellWidth, cellHeight)[i];
      START_X <= b.x <= START_X + 6 * cellWidth && START_Y <= b.y <= START_Y + 5 * cellHeight
  {
    forall i | 0 <= i < numDays
      ensures var b := DayGrid(firstWeekday, numDays, cellWidth, cellHeight)[i];
        START_X <= b.x <= START_X + 6 * cellWidth && START_Y <= b.y <= START_Y + 5 * cellHeight
    {
      var (r, c) := Cell(firstWeekday, i + 1);
      MulBetween(c, 6, cellWidth);
      MulBetween(r, 5, cellHeight);
    }
  }

  lemma MulStrict(a: int, b: int, k: int)
    requires a < b && k > 0
    ensures a * k < b * k
  {
  }

  lemma MulBetween(a: int, b: int, k: int)
    requires 0 <= a <= b && k >= 0
    ensures 0 <= a * k <= b * k
  {
  }

  /** What a click hits: the close button, the left arrow and the right arrow, in that priority. */
  datatype Event = MouseDown(onGoBack: bool, onPrevious: bool, onNext: bool) | OtherEvent

  class Calendar {
    /** The popup behaviour the calendar inherits. */
    const popup: AnimatedPopup
    const currentYear: int
    /** The size of one grid cell: the day button image less a 4 by 5 pixel gap. */
    const cellWidth: int
    const cellHeight: int
    var currentMonth: int
    var transitioning: bool
    var transitionDirection: int
    var transitionProgress: real
    var monthTitle: string
    var dayButtons: seq<DayButton>

    /** The month is one of the year's, titled with its name, and a running slide heads for one too. */
    ghost predicate Valid()
      reads this
    {
      && 0 <= currentMonth <= 11
      && monthTitle == MONTH_NAMES[currentMonth]
      && (transitioning ==> 0 <= currentMonth + transitionDirection <= 11)
    }

    /**
     * The calendar opened in month `month` (1..12) of `year`, on a screen of
     * `screenWidth` by `screenHeight` pixels, with day buttons of
     * `buttonWidth` by `buttonHeight` pixels; the month starts on weekday
     * `firstWeekday` and has `numDays` days.
     */
    constructor (screenWidth: int, screenHeight: int, month: int, year: int, buttonWidth: int, buttonHeight: int,
                 firstWeekday: int, numDays: nat)
      requires 1 <= month <= 12
      ensures Valid() && fresh(popup) && popup.Valid()
      ensures popup.screenWidth == screenWidth && popup.screenHeight == screenHeight
      ensures popup.currentY == (screenHeight + Y_OFFSET) as real && popup.targetY == (screenHeight / 2) as real
      ensures !popup.animationDone && !popup.closing && popup.bgAlpha == 0.0
      ensures popup.maxAlpha == MAX_ALPHA as real && popup.moveSpeed == MOVE_SPEED && popup.fadeSpeed == FADE_SPEED
      ensures currentMonth == month - 1 && currentYear == year
      ensures !transitioning && transitionDirection == 0 && transitionProgress == 0.0
      ensures cellWidth == buttonWidth - 4 && cellHeight == buttonHeight - 5
      ensures dayButtons == DayGrid(firstWeekday, numDays, cellWidth, cellHeight)
    {
      popup := new AnimatedPopup(screenWidth, screenHeight, Y_OFFSET, FADE_SPEED, MOVE_SPEED, MAX_ALPHA);
      currentYear := year;
      cellWidth := buttonWidth - 4;
      cellHeight := buttonHeight - 5;
      currentMonth := month - 1;
      transitioning := false;
      transitionDirection := 0;
      transitionProgress := 0.0;
      monthTitle := MONTH_NAMES[month - 1];
      dayButtons := [];
      new;
      CreateDayButtons(firstWeekday, numDays);
    }

    /**
     * `create_day_buttons`: the old buttons are discarded and the buttons of
     * days 1..numDays of a month starting on `firstWeekday` are made, in day
     * order.
     */
    method CreateDayButtons(firstWeekday: int, numDays: nat)
      modifies this`dayButtons
      ensures dayButtons == DayGrid(firstWeekday, numDays, cellWidth, cellHeight)
    {
      dayButtons := [];
      var day := 1;
      while day <= numDays
        invariant 1 <= day <= numDays + 1
        invariant |dayButtons| == day - 1
        invariant forall i :: 0 <= i < day - 1 ==> dayButtons[i] == DayButtonAt(firstWeekday, i + 1, cellWidth, cellHeight)
      {
        var col := (firstWeekday + day - 1) % 7;
        var row := (firstWeekday + day - 1) / 7;
        var x := START_X + col * cellWidth;
        var y := START_Y + row * cellHeight;
        dayButtons := dayButtons + [DayButton(x, y, NatToString(day))];
        day := day + 1;
      }
    }

    /**
     * What `start_transition(direction)` did: nothing when the month it
     * leads to is not one of the year's; otherwise a slide that way started
     * from the beginning.
     */
    twostate predicate TransitionStarted(direction: int)
      reads this
    {
      && currentMonth == old(currentMonth) && monthTitle == old(monthTitle) && dayButtons == old(dayButtons)
      && if 0 <= old(currentMonth) + direction <= 11
         then transitioning && transitionDirection == direction && transitionProgress == 0.0
         else
           && transitioning == old(transitioning) && transitionDirection == old(transitionDirection)
           && transitionProgress == old(transitionProgress)
    }

    method StartTransition(direction: int)
      modifies this`transitioning, this`transitionDirection, this`transitionProgress
      ensures TransitionStarted(direction)
      ensures old(Valid()) ==> Valid()
    {
      var newMonth := currentMonth + direction;
      if !(0 <= newMonth <= 11) {
        return;
      }
      transitioning := true;
      transitionDirection := direction;
      transitionProgress := 0.0;
    }

    /**
     * `update(dt)`: a frame of the popup animation, then, once the popup is
     * open and not closing, a frame of the running slide. A slide whose
     * progress reaches 1 ends on the month it headed for, clamped to the
     * year, whose `numDays` days starting on `firstWeekday` become the grid.
     * `closed` says that the popup called `on_close`.
     */
    method Update(dt: real, firstWeekday: int, numDays: nat) returns (closed: bool)
      modifies popup`currentY, popup`animationDone, popup`bgAlpha, popup`rectCenterY
      modifies this`transitioning, this`transitionProgress, this`currentMonth, this`monthTitle, this`dayButtons
      ensures popup.Stepped(dt, closed)
      ensures var sliding := popup.animationDone && !popup.closing && old(transitioning);
        && transitionProgress == (if sliding then old(transitionProgress) + dt / TRANSITION_DURATION else old(transitionProgress))
        && if sliding && transitionProgress >= 1.0 then
             && !transitioning
             && currentMonth == Clamp(0, 11, old(currentMonth) + transitionDirection)
             && monthTitle == MONTH_NAMES[currentMonth]
             && dayButtons == DayGrid(firstWeekday, numDays, cellWidth, cellHeight)
           else
             && transitioning == old(transitioning) && currentMonth == old(currentMonth)
             && monthTitle == old(monthTitle) && dayButtons == old(dayButtons)
      ensures old(Valid()) ==> Valid()
    {
      closed := popup.Update(dt);
      if popup.animationDone && !popup.closing {
        if transitioning {
          transitionProgress := transitionProgress + dt / TRANSITION_DURATION;
          var progress := MinReal(transitionProgress, 1.0);
          if progress >= 1.0 {
            transitioning := false;
            currentMonth := MaxInt(0, MinInt(currentMonth + transitionDirection, 11));
            monthTitle := MONTH_NAMES[currentMonth];
            CreateDayButtons(firstWeekday, numDays);
          }
        }
      }
    }

    /** Clicks are taken only while the popup is open and not sliding. */
    predicate Accepting()
      reads this, popup
    {
      popup.animationDone && !popup.closing && !transitioning
    }

    /**
     * `handle_event`: while accepting, a click on the close button starts
     * closing the popup, and otherwise a click on an arrow starts a slide to
     * the previous or next month; any other event, and every event while not
     * accepting, changes nothing.
     */
    method HandleEvent(e: Event)
      modifies popup`closing, popup`animationDone, popup`targetY
      modifies this`transitioning, this`transitionDirection, this`transitionProgress
      ensures var click := old(Accepting()) && e.MouseDown?;
        && (click && e.onGoBack ==>
              popup.closing && !popup.animationDone && popup.targetY == popup.startY && unchanged(this))
        && (click && !e.onGoBack && e.onPrevious ==> TransitionStarted(-1) && unchanged(popup))
        && (click && !e.onGoBack && !e.onPrevious && e.onNext ==> TransitionStarted(1) && unchanged(popup))
        && (!click || (!e.onGoBack && !e.onPrevious && !e.onNext) ==> unchanged(this) && unchanged(popup))
      ensures old(Valid()) ==> Valid()
      ensures old(popup.Valid()) ==> popup.Valid()
    {
      if popup.animationDone && !popup.closing && !transitioning {
        if e.MouseDown? {
          if e.onGoBack {
            popup.StartClosing();
          } else if e.onPrevious {
            StartTransition(-1);
          } else if e.onNext {
            StartTransition(1);
          }
        }
      }
    }
  }
}
