/**
 * The heads-up display's bookkeeping: the player's money, with a spend that
 * refuses to overdraw, and the wall clock, which runs for one service day
 * and shows in-game time from 12:00 to 00:00.
 */
module Hud {
  import opened Numeric
  import opened Text

  /** The starting amount configured in the game settings. */
  const STARTING_MONEY: int := 100

  /** A service day lasts 12 real minutes. */
  const DAY_LENGTH: real := 720.0

  class Money {
    var amount: int

    constructor ()
      ensures amount == STARTING_MONEY
    {
      amount := STARTING_MONEY;
    }

    method Add(value: int)
      modifies this
      ensures amount == old(amount) + value
    {
      amount := amount + value;
    }

    /** Pays `value` only if the funds cover it, and says whether it did. */
    method Spend(value: int) returns (ok: bool)
      modifies this
      ensures ok <==> old(amount) >= value
      ensures amount == if ok then old(amount) - value else old(amount)
      ensures old(amount) >= 0 ==> amount >= 0
    {
      if amount >= value {
        amount := amount - value;
        return true;
      }
      return false;
    }
  }

  /**
   * The hour and minute the wall clock shows after `elapsed` of the `total`
   * seconds of a day: the day maps onto 720 in-game minutes from 12:00, and
   * hour 24 is shown as 0. Within the day the minutes are 0..59, the hour is
   * 12..23 or 0, and together they encode the in-game minute exactly.
   */
  function ClockFace(elapsed: real, total: real): (hm: (int, int))
    requires total != 0.0
    ensures 0 <= hm.1 < 60
    ensures 0.0 <= elapsed <= total ==>
      && (12 <= hm.0 <= 23 || hm.0 == 0)
      && ((hm.0 + 12) % 24) * 60 + hm.1 == Trunc(elapsed / total * 720.0)
  {
    var gameMinutes := Trunc(elapsed / total * 720.0);
    var hours := 12 + gameMinutes / 60;
    var minutes := gameMinutes % 60;
    RatioBounds(elapsed, total);
    if hours >= 24 then (hours - 24, minutes) else (hours, minutes)
  }

  lemma RatioBounds(elapsed: real, total: real)
    requires total != 0.0
    ensures 0.0 <= elapsed <= total ==> 0 <= Trunc(elapsed / total * 720.0) <= 720
  {
    if 0.0 <= elapsed <= total {
      assert total > 0.0;
      assert elapsed / total <= 1.0;
    }
  }

  /** `f"{hours:02}:{minutes:02}"`: the hour and the minute read back from either side of the ':'. */
  function TimeText(hm: (int, int)): (s: string)
    ensures 0 <= hm.0 < 100 && 0 <= hm.1 < 100 ==>
      && |s| == 5 && s[2] == ':' && AllDigits(s[..2]) && AllDigits(s[3..])
      && ParseNat(s[..2]) == hm.0 && ParseNat(s[3..]) == hm.1
  {
    var s := Pad2(hm.0) + ":" + Pad2(hm.1);
    if 0 <= hm.0 < 100 && 0 <= hm.1 < 100 then
      assert s[..2] == Pad2(hm.0) && s[3..] == Pad2(hm.1);
      s
    else s
  }

  /** The day starts at 12:00, is at 18:00 half-way, and ends at 00:00. */
  lemma DayBoundaries()
    ensures ClockFace(0.0, DAY_LENGTH) == (12, 0) && TimeText((12, 0)) == "12:00"
    ensures ClockFace(360.0, DAY_LENGTH) == (18, 0)
    ensures ClockFace(DAY_LENGTH, DAY_LENGTH) == (0, 0) && TimeText((0, 0)) == "00:00"
  {
  }

  class Clock {
    var elapsedTime: real
    const totalDuration: real

    constructor ()
      ensures elapsedTime == 0.0 && totalDuration == DAY_LENGTH
    {
      elapsedTime := 0.0;
      totalDuration := DAY_LENGTH;
    }

    /** Advances by dt but never past the end of the day. */
    method Update(dt: real)
      modifies this
      ensures elapsedTime == MinReal(old(elapsedTime) + dt, totalDuration)
      ensures old(elapsedTime) <= totalDuration && dt >= 0.0 ==> old(elapsedTime) <= elapsedTime <= totalDuration
    {
      elapsedTime := elapsedTime + dt;
      if elapsedTime > totalDuration {
        elapsedTime := totalDuration;
      }
    }

    /** The time the clock face prints: during the day, the hour and minute of `ClockFace` as "HH:MM". */
    function TimeString(): (s: string)
      reads this
      requires totalDuration != 0.0
      ensures 0.0 <= elapsedTime <= totalDuration ==>
        && |s| == 5 && s[2] == ':' && AllDigits(s[..2]) && AllDigits(s[3..])
        && ParseNat(s[..2]) == ClockFace(elapsedTime, totalDuration).0
        && ParseNat(s[3..]) == ClockFace(elapsedTime, totalDuration).1
    {
      TimeText(ClockFace(elapsedTime, totalDuration))
    }
  }
}
