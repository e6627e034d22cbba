/**
 * Tables and their chairs. A table seats one group at a time, no larger than
 * its capacity, ticks the customers it seats, and clears itself once every
 * one of them has left or is done.
 */
module Furniture {
  import opened Numeric
  import opened Customers

  datatype Direction = TopLeft | TopCenter | TopRight | BottomLeft | BottomCenter | BottomRight

  /** The order in which chairs are placed around a table. */
  const DIRECTIONS: seq<Direction> := [TopLeft, TopCenter, TopRight, BottomLeft, BottomCenter, BottomRight]

  /** Pixel offset of a chair from the centre of its table. */
  function Offset(d: Direction): (int, int) {
    match d
    case TopLeft => (-70, -40)
    case TopCenter => (0, -60)
    case TopRight => (70, -40)
    case BottomLeft => (-70, 20)
    case BottomCenter => (0, 40)
    case BottomRight => (70, 20)
  }

  /** A chair; only `occupied` ever changes. */
  datatype Chair = Chair(x: int, y: int, direction: Direction, occupied: bool)

  /** `min(capacity, 6)` chairs, and none when that is not positive. */
  function ChairCount(capacity: int): (n: nat)
    ensures n <= |DIRECTIONS|
    ensures capacity >= 0 ==> n == MinInt(capacity, |DIRECTIONS|)
    ensures capacity < 0 ==> n == 0
  {
    if capacity <= 0 then 0 else MinInt(capacity, |DIRECTIONS|)
  }

  /** The free chair in the i-th direction around a table centred at (cx, cy). */
  function ChairAt(cx: int, cy: int, i: nat): (c: Chair)
    requires i < |DIRECTIONS|
  {
    var d := DIRECTIONS[i];
    Chair(cx + Offset(d).0, cy + Offset(d).1, d, false)
  }

  /** The same chairs with exactly the first n marked occupied. */
  function OccupyFirst(chairs: seq<Chair>, n: int): (r: seq<Chair>)
    ensures |r| == |chairs|
    ensures forall i :: 0 <= i < |r| ==> r[i] == chairs[i].(occupied := i < n)
  {
    seq(|chairs|, i requires 0 <= i < |chairs| => chairs[i].(occupied := i < n))
  }

  predicate Distinct(cs: seq<Customer>) {
    forall i, j :: 0 <= i < j < |cs| ==> cs[i] != cs[j]
  }

  /** `all(c.status in ["left", "done"] for c in cs)`; true of the empty list. */
  predicate AllTerminal(cs: seq<Customer>)
    reads cs
  {
    forall k :: 0 <= k < |cs| ==> Terminal(cs[k].status)
  }

  /** The states of the customers `cs`, in order. */
  ghost function Moods(cs: seq<Customer>): (r: seq<Mood>)
    reads cs
    ensures |r| == |cs| && forall k :: 0 <= k < |cs| ==> r[k] == cs[k].State()
  {
    seq(|cs|, k requires 0 <= k < |cs| reads cs => cs[k].State())
  }

  /** The customers left at a table after a tick: none once everybody has left or is done. */
  ghost function AfterTick(cs: seq<Customer>): seq<Customer>
    reads cs
  {
    if AllTerminal(cs) then [] else cs
  }

  /**
   * Table `t` has been ticked: it keeps its invariant, each of its former
   * customers `list`, whose states were `moods`, has been ticked exactly
   * once, and it is cleared if all of them have left or are done.
   */
  ghost predicate Ticked(t: Table, list: seq<Customer>, moods: seq<Mood>, dt: real)
    reads t, list
  {
    && t.Valid() && t.customers == AfterTick(list)
    && |moods| == |list|
    && forall k :: 0 <= k < |list| ==> list[k].State() == Tick(moods[k], list[k].patience, dt)
  }

  /**
   * The chairs `_generate_chairs` lays out around a table centred at
   * (cx, cy): the first min(capacity, 6) directions, all free.
   */
  function Layout(cx: int, cy: int, capacity: int): (r: seq<Chair>)
    ensures |r| == ChairCount(capacity)
    ensures forall i :: 0 <= i < |r| ==> r[i].direction == DIRECTIONS[i] && !r[i].occupied
  {
    seq(ChairCount(capacity), i requires 0 <= i < ChairCount(capacity) => ChairAt(cx, cy, i))
  }

  class Table {
    const x: int
    const y: int
    const capacity: int
    const centerX: int
    const centerY: int
    var customers: seq<Customer>
    var chairs: seq<Chair>

    /**
     * The table invariant: the chairs are the bare layout with exactly one
     * chair occupied per seated customer, a seated group never exceeds the
     * capacity, and nobody is seated twice.
     */
    ghost predicate Valid()
      reads this
    {
      && chairs == OccupyFirst(Layout(centerX, centerY, capacity), |customers|)
      && (customers != [] ==> |customers| <= capacity)
      && Distinct(customers)
    }

    /** `is_available`: nobody is seated. */
    predicate IsAvailable()
      reads this
      ensures IsAvailable() <==> customers == []
    {
      |customers| == 0
    }

    /** A table at (x, y); `width` and `height` are those of the table sprite, which fix its centre. */
    constructor (x: int, y: int, capacity: int, width: nat, height: nat)
      ensures Valid() && customers == [] && chairs == Layout(centerX, centerY, capacity)
      ensures this.x == x && this.y == y && this.capacity == capacity
      ensures centerX == x + width / 2 && centerY == y + height / 2
    {
      this.x := x;
      this.y := y;
      this.capacity := capacity;
      centerX := x + width / 2;
      centerY := y + height / 2;
      customers := [];
      new;
      chairs := GenerateChairs();
      assert OccupyFirst(chairs, 0) == chairs;
    }

    /** `_generate_chairs`: one free chair per direction, in order, for min(capacity, 6) directions. */
    method GenerateChairs() returns (result: seq<Chair>)
      ensures result == Layout(centerX, centerY, capacity)
    {
      result := [];
      var n := MinInt(capacity, |DIRECTIONS|);
      var i := 0;
      while i < n
        invariant 0 <= i <= ChairCount(capacity)
        invariant n <= 0 ==> i == 0
        invariant result == Layout(centerX, centerY, capacity)[..i]
      {
        result := result + [ChairAt(centerX, centerY, i)];
        i := i + 1;
      }
    }

    /**
     * `seat_customers`: seats the group exactly when it fits the capacity and
     * the table is empty, occupying chairs 0..|group|-1; otherwise nothing
     * changes.
     */
    method SeatCustomers(group: seq<Customer>) returns (ok: bool)
      requires Valid()
      requires Distinct(group)
      requires |group| <= capacity && customers == [] ==> |group| <= |chairs|
      modifies this
      ensures Valid()
      ensures ok <==> |group| <= capacity && old(customers) == []
      ensures ok ==> customers == group && chairs == OccupyFirst(Layout(centerX, centerY, capacity), |group|)
      ensures !ok ==> customers == old(customers) && chairs == old(chairs)
    {
      if |group| <= capacity && IsAvailable() {
        customers := group;
        var i := 0;
        while i < |group|
          invariant 0 <= i <= |group|
          invariant customers == group
          invariant chairs == OccupyFirst(Layout(centerX, centerY, capacity), i)
        {
          chairs := chairs[i := chairs[i].(occupied := true)];
          i := i + 1;
        }
        return true;
      }
      return false;
    }

    /**
     * `update(dt)`: every seated customer is ticked once, then the table is
     * cleared if all of them have left or are done, which an empty table
     * always satisfies.
     */
    method Update(dt: real)
      requires Valid()
      modifies this, customers
      ensures Ticked(this, old(customers), old(Moods(customers)), dt)
    {
      var i := 0;
      while i < |customers|
        invariant 0 <= i <= |customers|
        invariant customers == old(customers) && chairs == old(chairs)
        invariant forall k :: 0 <= k < i ==>
          customers[k].State() == Tick(old(customers[k].State()), customers[k].patience, dt)
        invariant forall k :: i <= k < |customers| ==> customers[k].State() == old(customers[k].State())
      {
        customers[i].Update(dt);
        i := i + 1;
      }
      if AllTerminal(customers) {
        Clear();
      }
    }

    /** `clear`: nobody seated and every chair free. */
    method Clear()
      requires Valid()
      modifies this
      ensures Valid() && customers == [] && chairs == Layout(centerX, centerY, capacity)
    {
      customers := [];
      ghost var bare := Layout(centerX, centerY, capacity);
      var i := 0;
      while i < |chairs|
        invariant 0 <= i <= |chairs| == |bare|
        invariant customers == []
        invariant forall k :: 0 <= k < i ==> chairs[k] == bare[k]
        invariant forall k :: i <= k < |chairs| ==> chairs[k] == old(chairs)[k]
      {
        chairs := chairs[i := chairs[i].(occupied := false)];
        i := i + 1;
      }
      assert OccupyFirst(bare, 0) == bare;
    }
  }
}
