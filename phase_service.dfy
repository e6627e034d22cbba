/**
 * The service phase's simulation: four fixed tables, a customer group
 * spawned every five seconds and seated first-fit, and every table ticked
 * once per frame, all of it frozen while an overlay window is open.
 */
module Service {
  import opened Numeric
  import opened Menu
  import opened Customers
  import opened Furniture
  import Hud

  /**
   * One member of a new group, as the game's random draws describe it: the
   * kind (`random.choices` with weights 70/25/5), the patience
   * (`random.uniform` over the kind's range) and the dish (`random.choice`).
   */
  datatype Newcomer = Newcomer(kind: Kind, patience: real, dish: nat)

  predicate ValidNewcomer(n: Newcomer) {
    PatienceMin(n.kind) <= n.patience <= PatienceMax(n.kind) && n.dish < |MENU|
  }

  /** A group whose size `random.choice([1, 2])` drew. */
  predicate ValidGroup(g: seq<Newcomer>) {
    1 <= |g| <= 2 && forall i :: 0 <= i < |g| ==> ValidNewcomer(g[i])
  }

  /** Seconds between two spawns. */
  const SPAWN_DELAY: real := 5.0

  /** Position and capacity (x, y, capacity) of the four tables, in list order. */
  const TABLE_SPECS: seq<(int, int, int)> := [(251, 150, 2), (569, 150, 4), (223, 350, 1), (600, 350, 6)]

  /** Consecutive customer ids start, start + 1, ..., start + n - 1. */
  function Ids(start: int, n: nat): (r: seq<int>)
    ensures |r| == n
    ensures forall i :: 0 <= i < n ==> r[i] == start + i
  {
    seq(n, i => start + i)
  }

  predicate StrictlyIncreasing(s: seq<int>) {
    forall i, j :: 0 <= i < j < |s| ==> s[i] < s[j]
  }

  /**
   * Issuing one block of ids after another continues the same run, so the
   * ids of a whole session are strictly increasing and none is issued twice.
   */
  lemma IdsConcat(start: int, n: nat, m: nat)
    ensures Ids(start, n) + Ids(start + n, m) == Ids(start, n + m)
    ensures StrictlyIncreasing(Ids(start, n + m))
  {
  }

  /** What the search over the tables sees of one table: is it empty, and its capacity. */
  datatype Slot = Slot(free: bool, capacity: int)

  predicate Fits(s: Slot, size: int) {
    s.free && s.capacity >= size
  }

  /**
   * First fit: the index of the first slot that is free and large enough,
   * or the number of slots if there is none.
   */
  function FirstFit(slots: seq<Slot>, size: int): (k: nat)
    ensures k <= |slots|
    ensures k < |slots| ==> Fits(slots[k], size)
    ensures forall j :: 0 <= j < k ==> !Fits(slots[j], size)
  {
    if slots == [] then 0
    else if Fits(slots[0], size) then 0
    else 1 + FirstFit(slots[1..], size)
  }

  /** Table `t` stands at the position and has the capacity that `spec` gives. */
  predicate Placed(t: Table, spec: (int, int, int)) {
    (t.x, t.y, t.capacity) == spec
  }

  /** `c` is the customer created for id `id` from the draws `n`. */
  predicate Describes(c: Customer, id: int, n: Newcomer) {
    c.id == id && c.kind == n.kind && c.patience == n.patience && n.dish < |MENU| && c.order.dish == MENU[n.dish]
  }

  /**
   * The four tables of the dining room, each of whose chairs are generated
   * once more after the chair sprites are attached.
   */
  method MakeTables(tableWidth: nat, tableHeight: nat) returns (ts: seq<Table>)
    ensures |ts| == |TABLE_SPECS|
    ensures forall j, j' :: 0 <= j < j' < |ts| ==> ts[j] != ts[j']
    ensures forall j :: 0 <= j < |ts| ==>
      && fresh(ts[j]) && Placed(ts[j], TABLE_SPECS[j])
      && ts[j].customers == [] && ts[j].chairs == Layout(ts[j].centerX, ts[j].centerY, ts[j].capacity)
  {
    var t0 := new Table(251, 150, 2, tableWidth, tableHeight);
    var t1 := new Table(569, 150, 4, tableWidth, tableHeight);
    var t2 := new Table(223, 350, 1, tableWidth, tableHeight);
    var t3 := new Table(600, 350, 6, tableWidth, tableHeight);
    ts := [t0, t1, t2, t3];
    RegenerateChairs(ts);
  }

  /** Every table of `ts` recomputes its chairs, which leaves an empty table showing its bare layout. */
  method RegenerateChairs(ts: seq<Table>)
    requires forall j, j' :: 0 <= j < j' < |ts| ==> ts[j] != ts[j']
    requires forall j :: 0 <= j < |ts| ==> ts[j].customers == []
    modifies ts
    ensures forall j :: 0 <= j < |ts| ==> ts[j].customers == [] && ts[j].chairs == Layout(ts[j].centerX, ts[j].centerY, ts[j].capacity)
  {
    var i := 0;
    while i < |ts|
      invariant 0 <= i <= |ts|
      invariant forall j :: 0 <= j < |ts| ==> ts[j].customers == []
      invariant forall j :: 0 <= j < i ==> ts[j].chairs == Layout(ts[j].centerX, ts[j].centerY, ts[j].capacity)
    {
      var chairs := ts[i].GenerateChairs();
      ts[i].chairs := chairs;
      i := i + 1;
    }
  }

  /** No customer is listed in both `a` and `b`. */
  predicate Apart(a: seq<Customer>, b: seq<Customer>) {
    forall x, y :: 0 <= x < |a| && 0 <= y < |b| ==> a[x] != b[y]
  }

  /**
   * The dining-room invariant: the tables are distinct and each keeps its
   * own invariant, and no customer belongs to two tables.
   */
  ghost predicate TablesValid(ts: seq<Table>)
    reads ts
  {
    && (forall i, j :: 0 <= i < j < |ts| ==> ts[i] != ts[j])
    && (forall i {:trigger ts[i].Valid()} :: 0 <= i < |ts| ==> ts[i].Valid())
    && (forall i, j :: 0 <= i < j < |ts| ==> Apart(ts[i].customers, ts[j].customers))
  }

  /** The states of `n` customers who have just arrived. */
  function Arriving(n: nat): (r: seq<Mood>)
    ensures |r| == n && forall m :: 0 <= m < n ==> r[m] == ARRIVING
  {
    seq(n, _ => ARRIVING)
  }

  /** Customers who have all just arrived are, together, in the arriving state. */
  lemma ArrivingMoods(cs: seq<Customer>)
    requires forall m :: 0 <= m < |cs| ==> cs[m].State() == ARRIVING
    ensures Moods(cs) == Arriving(|cs|)
  {
  }

  /** What one table holds: its seated customers and its chairs. */
  datatype TableView = TableView(customers: seq<Customer>, chairs: seq<Chair>)

  /** A snapshot of what every table of `ts` holds. */
  ghost function Views(ts: seq<Table>): (r: seq<TableView>)
    reads ts
    ensures |r| == |ts|
    ensures forall j :: 0 <= j < |ts| ==> r[j] == TableView(ts[j].customers, ts[j].chairs)
  {
    seq(|ts|, j requires 0 <= j < |ts| reads ts => TableView(ts[j].customers, ts[j].chairs))
  }

  /**
   * The tables after `members` sit down at table `k` whose bare chair layout
   * is `layout`: that one table holds the group with its first chairs
   * occupied, every other table is as before, and `k` past the end leaves
   * everything as it was.
   */
  ghost function SeatAt(vs: seq<TableView>, k: nat, members: seq<Customer>, layout: seq<Chair>): (r: seq<TableView>)
    ensures |r| == |vs|
    ensures forall j :: 0 <= j < |vs| && j != k ==> r[j] == vs[j]
    ensures k < |vs| ==> r[k] == TableView(members, OccupyFirst(layout, |members|))
  {
    if k < |vs| then vs[k := TableView(members, OccupyFirst(layout, |members|))] else vs
  }

  /** The bare chair layout of table `k`, if there is one. */
  ghost function LayoutOf(ts: seq<Table>, k: nat): seq<Chair> {
    if k < |ts| then Layout(ts[k].centerX, ts[k].centerY, ts[k].capacity) else []
  }

  /** The tables as the first-fit search sees them. */
  function SlotsOf(ts: seq<Table>): (r: seq<Slot>)
    reads ts
    ensures |r| == |ts|
    ensures forall j :: 0 <= j < |ts| ==> r[j] == Slot(ts[j].customers == [], ts[j].capacity)
  {
    seq(|ts|, j requires 0 <= j < |ts| reads ts => Slot(ts[j].customers == [], ts[j].capacity))
  }

  /** With every table empty and showing its bare layout, the dining-room invariant holds. */
  lemma EmptyTables(ts: seq<Table>)
    requires forall i, j :: 0 <= i < j < |ts| ==> ts[i] != ts[j]
    requires forall j :: 0 <= j < |ts| ==> ts[j].customers == [] && ts[j].chairs == Layout(ts[j].centerX, ts[j].centerY, ts[j].capacity)
    ensures TablesValid(ts)
  {
    forall j | 0 <= j < |ts|
      ensures ts[j].Valid()
    {
      var bare := Layout(ts[j].centerX, ts[j].centerY, ts[j].capacity);
      assert OccupyFirst(bare, 0) == bare;
    }
  }

  /** The search of `spawn_customer_group`: the first table that is empty and large enough. */
  method FirstFitTable(ts: seq<Table>, size: int) returns (k: nat)
    ensures k == FirstFit(SlotsOf(ts), size)
    ensures k <= |ts|
    ensures k < |ts| ==> ts[k].IsAvailable() && ts[k].capacity >= size
    ensures forall j :: 0 <= j < k ==> !(ts[j].IsAvailable() && ts[j].capacity >= size)
  {
    k := 0;
    while k < |ts|
      invariant 0 <= k <= |ts|
      invariant FirstFit(SlotsOf(ts), size) == k + FirstFit(SlotsOf(ts)[k..], size)
    {
      if ts[k].IsAvailable() && ts[k].capacity >= size {
        return;
      }
      assert SlotsOf(ts)[k..][1..] == SlotsOf(ts)[k + 1..];
      k := k + 1;
    }
  }

  /** `create_random_client(id)`, with the random draws passed in. */
  method CreateRandomClient(id: int, n: Newcomer) returns (c: Customer)
    requires ValidNewcomer(n)
    ensures fresh(c) && fresh(c.order) && c.Valid() && Describes(c, id, n) && c.State() == ARRIVING
  {
    c := new Customer(id, n.kind, n.patience, n.dish);
  }

  /** The members of a group, created in order with the ids first, first + 1, .... */
  method CreateGroup(first: int, group: seq<Newcomer>, ts: seq<Table>) returns (members: seq<Customer>)
    requires forall m :: 0 <= m < |group| ==> ValidNewcomer(group[m])
    ensures |members| == |group| && Distinct(members)
    ensures forall m :: 0 <= m < |members| ==> members[m] !in Listed(Views(ts))
    ensures forall m :: 0 <= m < |group| ==>
      fresh(members[m]) && members[m].Valid() && Describes(members[m], first + m, group[m])
      && members[m].State() == ARRIVING
  {
    members := [];
    var i := 0;
    while i < |group|
      invariant 0 <= i <= |group|
      invariant |members| == i && Distinct(members)
      invariant forall m :: 0 <= m < i ==>
        fresh(members[m]) && members[m].Valid() && Describes(members[m], first + m, group[m])
        && members[m].State() == ARRIVING
    {
      var c := CreateRandomClient(first + i, group[i]);
      members := members + [c];
      i := i + 1;
    }
  }

  /**
   * The seating loop of `spawn_customer_group`: the group goes to the first
   * table that is empty and large enough and no other table changes; if no
   * table qualifies, no table changes at all.
   */
  method SeatFirstFit(ts: seq<Table>, members: seq<Customer>) returns (k: nat)
    requires TablesValid(ts)
    requires 1 <= |members| <= 2 && Distinct(members)
    requires forall m :: 0 <= m < |members| ==> members[m] !in Listed(Views(ts))
    modifies ts
    ensures TablesValid(ts)
    ensures k == FirstFit(old(SlotsOf(ts)), |members|)
    ensures Views(ts) == SeatAt(old(Views(ts)), k, members, LayoutOf(ts, k))
  {
    k := FirstFitTable(ts, |members|);
    if k < |ts| {
      var ok := ts[k].SeatCustomers(members);
      forall j | 0 <= j < |ts| && j != k
        ensures ts[j].Valid() && Apart(ts[j].customers, ts[k].customers) && Apart(ts[k].customers, ts[j].customers)
      {
        assert unchanged(ts[j]);
      }
    }
  }

  /** A group created with the ids first, first + 1, ... and seated first-fit at the tables `ts`. */
  method SpawnInto(ts: seq<Table>, first: int, group: seq<Newcomer>) returns (members: seq<Customer>, k: nat)
    requires TablesValid(ts) && ValidGroup(group)
    modifies ts
    ensures TablesValid(ts)
    ensures |members| == |group| && Distinct(members)
    ensures forall m :: 0 <= m < |group| ==>
      fresh(members[m]) && Describes(members[m], first + m, group[m]) && members[m].State() == ARRIVING
    ensures k == FirstFit(old(SlotsOf(ts)), |group|)
    ensures Views(ts) == SeatAt(old(Views(ts)), k, members, LayoutOf(ts, k))
  {
    members := CreateGroup(first, group, ts);
    k := SeatFirstFit(ts, members);
  }

  /**
   * The table loop of `update`: every seated customer is ticked exactly once,
   * and afterwards each table whose customers have all left or are done is
   * cleared; nobody else changes. `vs` and `ms` are what the tables held and
   * the states of their customers before the loop.
   */
  method TickTables(ts: seq<Table>, dt: real, ghost vs: seq<TableView>, ghost ms: seq<seq<Mood>>)
    requires TablesValid(ts) && vs == Views(ts) && ms == StatesOf(vs)
    modifies ts, Listed(vs)
    ensures TablesValid(ts)
    ensures forall j :: 0 <= j < |ts| ==> Ticked(ts[j], vs[j].customers, ms[j], dt)
  {
    var i := 0;
    while i < |ts|
      invariant 0 <= i <= |ts|
      invariant Separate(ts, vs) && Pending(ts, vs, ms, i) && TickedBelow(ts, vs, ms, dt, i)
    {
      TickTable(ts, i, dt, vs, ms);
      i := i + 1;
    }
    forall a, b | 0 <= a < b < |ts|
      ensures Apart(ts[a].customers, ts[b].customers)
    {
      ApartAfter(vs[a].customers, vs[b].customers, ts[a].customers, ts[b].customers);
    }
  }

  /** Everybody listed in the views `vs`. */
  ghost function Listed(vs: seq<TableView>): set<Customer> {
    set j, m | 0 <= j < |vs| && 0 <= m < |vs[j].customers| :: vs[j].customers[m]
  }

  /** The tables are distinct and no customer is listed in two of the views. */
  ghost predicate Separate(ts: seq<Table>, vs: seq<TableView>) {
    && |ts| == |vs|
    && forall a, b :: 0 <= a < b < |ts| ==> ts[a] != ts[b] && Apart(vs[a].customers, vs[b].customers)
  }

  /** Tables `i` onwards are still as `vs` and `ms` recorded them. */
  ghost predicate Pending(ts: seq<Table>, vs: seq<TableView>, ms: seq<seq<Mood>>, i: nat)
    reads ts, Listed(vs)
  {
    && |ts| == |vs| == |ms|
    && forall j :: i <= j < |ts| ==>
      ts[j].Valid() && ts[j].customers == vs[j].customers && Moods(vs[j].customers) == ms[j]
  }

  /** Tables before `i` have been ticked. */
  ghost predicate TickedBelow(ts: seq<Table>, vs: seq<TableView>, ms: seq<seq<Mood>>, dt: real, i: nat)
    reads ts, Listed(vs)
  {
    && |ts| == |vs| == |ms|
    && forall j :: 0 <= j < i && j < |ts| ==> Ticked(ts[j], vs[j].customers, ms[j], dt)
  }

  /**
   * One round of the table loop: table `i`, which still holds `vs[i]`, is
   * ticked, and no other table and nobody seated elsewhere changes.
   */
  method TickTable(ts: seq<Table>, i: nat, dt: real, ghost vs: seq<TableView>, ghost ms: seq<seq<Mood>>)
    requires i < |ts| && Separate(ts, vs)
    requires Pending(ts, vs, ms, i) && TickedBelow(ts, vs, ms, dt, i)
    modifies ts[i], vs[i].customers
    ensures Pending(ts, vs, ms, i + 1) && TickedBelow(ts, vs, ms, dt, i + 1)
  {
    ts[i].Update(dt);
    forall j | 0 <= j < |ts| && j != i
      ensures unchanged(ts[j]) && unchanged(vs[j].customers)
    {
      if j < i {
        assert Apart(vs[j].customers, vs[i].customers);
      } else {
        assert Apart(vs[i].customers, vs[j].customers);
      }
    }
  }

  /** Clearing either of two lists that share nobody leaves two lists that share nobody. */
  lemma ApartAfter(x: seq<Customer>, y: seq<Customer>, x2: seq<Customer>, y2: seq<Customer>)
    requires Apart(x, y)
    requires x2 == [] || x2 == x
    requires y2 == [] || y2 == y
    ensures Apart(x2, y2)
  {
  }

  /** `ms` after a group of `n` has sat down at the empty table `k`, if there is one. */
  function MoodsAfter(ms: seq<seq<Mood>>, k: nat, n: nat): (r: seq<seq<Mood>>)
    ensures |r| == |ms|
    ensures forall j :: 0 <= j < |ms| ==> r[j] == if j == k then Arriving(n) else ms[j]
  {
    if k < |ms| then ms[k := Arriving(n)] else ms
  }

  /** The states of everybody listed in each of the views `vs`. */
  ghost function StatesOf(vs: seq<TableView>): (r: seq<seq<Mood>>)
    reads Listed(vs)
    ensures |r| == |vs| && forall j :: 0 <= j < |vs| ==> r[j] == Moods(vs[j].customers)
  {
    seq(|vs|, j requires 0 <= j < |vs| reads Listed(vs) => Moods(vs[j].customers))
  }

  /**
   * Seating a group that has just arrived at table `k` lists nobody new but
   * its members, and changes the states listed only at that table, to the
   * arriving state.
   */
  lemma SeatAtStates(vs: seq<TableView>, k: nat, members: seq<Customer>, layout: seq<Chair>)
    requires forall m :: 0 <= m < |members| ==> members[m].State() == ARRIVING
    ensures forall c :: c in Listed(SeatAt(vs, k, members, layout)) ==> c in Listed(vs) || c in members
    ensures StatesOf(SeatAt(vs, k, members, layout)) == MoodsAfter(StatesOf(vs), k, |members|)
  {
    if k < |vs| {
      ArrivingMoods(members);
    }
  }

  class PhaseService {
    const tables: seq<Table>
    const money: Hud.Money
    const clock: Hud.Clock
    const spawnDelay: real
    var customerId: int
    var spawnTimer: real
    /** Every customer id handed out so far, in order. */
    ghost var issued: seq<int>

    /**
     * The service invariant: the dining-room invariant, and the ids issued
     * so far are exactly 1 .. customerId - 1.
     */
    ghost predicate Valid()
      reads this`customerId, this`issued, tables
    {
      TablesValid(tables) && customerId >= 1 && issued == Ids(1, customerId - 1)
    }

    /**
     * The service phase as it starts: four empty tables with capacities 2,
     * 4, 1 and 6 in that order, the first id 1, the spawn timer at 0 and a
     * 5-second spawn delay. `tableWidth` and `tableHeight` are the size of the
     * table sprite.
     */
    constructor (tableWidth: nat, tableHeight: nat)
      ensures Valid() && fresh(money) && fresh(clock)
      ensures |tables| == |TABLE_SPECS|
      ensures forall j :: 0 <= j < |tables| ==>
        && fresh(tables[j])
        && Placed(tables[j], TABLE_SPECS[j])
        && tables[j].customers == [] && tables[j].chairs == Layout(tables[j].centerX, tables[j].centerY, tables[j].capacity)
      ensures customerId == 1 && spawnTimer == 0.0 && spawnDelay == SPAWN_DELAY && issued == []
      ensures money.amount == Hud.STARTING_MONEY && clock.elapsedTime == 0.0
    {
      var ts := MakeTables(tableWidth, tableHeight);
      money := new Hud.Money();
      clock := new Hud.Clock();
      tables := ts;
      spawnDelay := SPAWN_DELAY;
      customerId := 1;
      spawnTimer := 0.0;
      issued := [];
      new;
      EmptyTables(tables);
    }

    /**
     * `spawn_customer_group`: the group's members get the ids customerId,
     * customerId + 1, ..., the counter moves past them whether or not they
     * are seated, and the group goes to the first table that is empty and
     * large enough; if there is none it is dropped and no table changes.
     * `arrivals` names the customers created.
     */
    method SpawnCustomerGroup(group: seq<Newcomer>) returns (ghost arrivals: seq<Customer>)
      requires Valid() && ValidGroup(group)
      modifies this`customerId, this`issued, tables
      ensures Valid()
      ensures customerId == old(customerId) + |group|
      ensures issued == old(issued) + Ids(old(customerId), |group|)
      ensures |arrivals| == |group| && Distinct(arrivals)
      ensures forall m :: 0 <= m < |group| ==>
        fresh(arrivals[m]) && Describes(arrivals[m], old(customerId) + m, group[m]) && arrivals[m].State() == ARRIVING
      ensures var k := FirstFit(old(SlotsOf(tables)), |group|);
        Views(tables) == SeatAt(old(Views(tables)), k, arrivals, LayoutOf(tables, k))
    {
      var k;
      arrivals, k := SpawnInto(tables, customerId, group);
      Issue(|group|);
    }

    /**
     * The simulation part of `update(dt)`. While an overlay window (calendar,
     * menu or supermarket) is open, `paused` holds and nothing changes.
     * Otherwise the clock advances; the spawn timer accumulates dt and, once
     * it reaches the delay, exactly one group (`group`) is spawned and the
     * timer goes back to 0, not to the remainder; then every table is ticked,
     * the one that has just received the group included. `arrivals` names
     * the customers created, none unless a group was spawned. `group` is
     * the draw of the group spawned on this frame, and is ignored on frames
     * where none is due.
     */
    method Update(dt: real, paused: bool, group: seq<Newcomer>)
      returns (ghost spawn: bool, ghost arrivals: seq<Customer>, ghost k: nat, ghost seated: seq<TableView>, ghost moods: seq<seq<Mood>>)
      requires Valid()
      requires !paused && spawnTimer + dt >= spawnDelay ==> ValidGroup(group)
      modifies this, tables, Listed(Views(tables)), clock
      ensures Valid()
      ensures paused ==> unchanged(this, clock) && unchanged(tables) && unchanged(old(Listed(Views(tables))))
      ensures !paused ==> clock.elapsedTime == MinReal(old(clock.elapsedTime) + dt, clock.totalDuration)
      ensures spawn <==> !paused && old(spawnTimer) + dt >= spawnDelay
      ensures !paused ==> spawnTimer == if spawn then 0.0 else old(spawnTimer) + dt
      ensures |arrivals| == if spawn then |group| else 0
      ensures customerId == old(customerId) + |arrivals| && issued == old(issued) + Ids(old(customerId), |arrivals|)
      ensures Distinct(arrivals)
      ensures forall m :: 0 <= m < |arrivals| ==> fresh(arrivals[m]) && Describes(arrivals[m], old(customerId) + m, group[m])
      ensures k == if spawn then FirstFit(old(SlotsOf(tables)), |group|) else |tables|
      ensures !paused ==> seated == SeatAt(old(Views(tables)), k, arrivals, LayoutOf(tables, k))
      ensures !paused ==> moods == MoodsAfter(old(StatesOf(Views(tables))), k, |arrivals|)
      ensures !paused ==> forall j :: 0 <= j < |tables| ==> Ticked(tables[j], seated[j].customers, moods[j], dt)
    {
      spawn, arrivals, k, seated, moods := false, [], |tables|, [], [];
      if !paused {
        ghost var slots0, views0 := SlotsOf(tables), Views(tables);
        ghost var moods0 := StatesOf(views0);
        clock.Update(dt);
        spawn, arrivals, k, seated, moods := Simulate(dt, group, slots0, views0, moods0);
      }
    }

    method Simulate(dt: real, group: seq<Newcomer>, ghost slots0: seq<Slot>, ghost views0: seq<TableView>, ghost moods0: seq<seq<Mood>>)
      returns (ghost spawn: bool, ghost arrivals: seq<Customer>, ghost k: nat, ghost seated: seq<TableView>, ghost moods: seq<seq<Mood>>)
      requires Valid() && (spawnTimer + dt >= spawnDelay ==> ValidGroup(group))
      requires slots0 == SlotsOf(tables) && views0 == Views(tables) && moods0 == StatesOf(views0)
      modifies this, tables, Listed(views0)
      ensures Valid()
      ensures spawn <==> old(spawnTimer) + dt >= spawnDelay
      ensures spawnTimer == if spawn then 0.0 else old(spawnTimer) + dt
      ensures |arrivals| == if spawn then |group| else 0
      ensures customerId == old(customerId) + |arrivals| && issued == old(issued) + Ids(old(customerId), |arrivals|)
      ensures Distinct(arrivals)
      ensures forall m :: 0 <= m < |arrivals| ==> fresh(arrivals[m]) && Describes(arrivals[m], old(customerId) + m, group[m])
      ensures k == if spawn then FirstFit(slots0, |group|) else |tables|
      ensures seated == SeatAt(views0, k, arrivals, LayoutOf(tables, k))
      ensures moods == MoodsAfter(moods0, k, |arrivals|)
      ensures forall j :: 0 <= j < |tables| ==> Ticked(tables[j], seated[j].customers, moods[j], dt)
    {
      spawn, arrivals, k := SpawnPart(dt, group, slots0, views0);
      seated := Views(tables);
      SeatAtStates(views0, k, arrivals, LayoutOf(tables, k));
      moods := StatesOf(seated);
      TickTables(tables, dt, seated, moods);
    }

    /**
     * The spawning part of `update(dt)`: the timer step and, when it is due,
     * `spawn_customer_group`. Afterwards the tables hold what they held
     * before, with the group, just arrived, at table `k`.
     */
    method SpawnPart(dt: real, group: seq<Newcomer>, ghost slots0: seq<Slot>, ghost views0: seq<TableView>)
      returns (ghost spawn: bool, ghost arrivals: seq<Customer>, ghost k: nat)
      requires Valid() && (spawnTimer + dt >= spawnDelay ==> ValidGroup(group))
      requires slots0 == SlotsOf(tables) && views0 == Views(tables)
      modifies this`spawnTimer, this`customerId, this`issued, tables
      ensures Valid()
      ensures spawn <==> old(spawnTimer) + dt >= spawnDelay
      ensures spawnTimer == if spawn then 0.0 else old(spawnTimer) + dt
      ensures |arrivals| == if spawn then |group| else 0
      ensures customerId == old(customerId) + |arrivals| && issued == old(issued) + Ids(old(customerId), |arrivals|)
      ensures Distinct(arrivals)
      ensures forall m :: 0 <= m < |arrivals| ==>
        fresh(arrivals[m]) && Describes(arrivals[m], old(customerId) + m, group[m]) && arrivals[m].State() == ARRIVING
      ensures k == if spawn then FirstFit(slots0, |group|) else |tables|
      ensures Views(tables) == SeatAt(views0, k, arrivals, LayoutOf(tables, k))
      ensures unchanged(Listed(views0))
    {
      arrivals, k := [], |tables|;
      var due := StepSpawnTimer(dt);
      spawn := due;
      if due {
        arrivals := SpawnCustomerGroup(group);
        k := FirstFit(slots0, |group|);
      }
    }

    /** The spawn timer accumulates dt and goes back to 0 once it reaches the delay, which is when a group is due. */
    method StepSpawnTimer(dt: real) returns (spawn: bool)
      modifies this`spawnTimer
      ensures spawn <==> old(spawnTimer) + dt >= spawnDelay
      ensures spawnTimer == if spawn then 0.0 else old(spawnTimer) + dt
    {
      spawnTimer := spawnTimer + dt;
      spawn := spawnTimer >= spawnDelay;
      if spawn {
        spawnTimer := 0.0;
      }
    }

    /** The id counter moves past a block of `n` ids. */
    method Issue(n: nat)
      requires Valid()
      modifies this`customerId, this`issued
      ensures Valid()
      ensures customerId == old(customerId) + n
      ensures issued == old(issued) + Ids(old(customerId), n)
    {
      IdsConcat(1, customerId - 1, n);
      customerId := customerId + n;
      issued := issued + Ids(old(customerId), n);
    }
  }
}
