/**
 * A customer's order: one dish from the menu and its preparation progress
 * (0 when placed, 100 when ready).
 */
module Orders {
  import opened Wrappers
  import opened Numeric
  import opened Menu

  datatype OrderStatus = Waiting | Preparing | Ready | Served

  function StatusName(s: OrderStatus): string {
    match s
    case Waiting => "waiting"
    case Preparing => "preparing"
    case Ready => "ready"
    case Served => "served"
  }

  /** The part of an order that `update` changes. */
  datatype Progress = Progress(status: OrderStatus, progress: real)

  /**
   * One `update(dt)` for a dish that takes `prepTime` seconds. The status
   * only moves from preparing to ready, which it does exactly when the new
   * progress reaches 100; a ready order stays ready.
   */
  function Advance(p: Progress, prepTime: int, dt: real): (r: Progress)
    requires prepTime != 0
    ensures r.status == p.status || (p.status == Preparing && r.status == Ready)
    ensures r.status == Ready <==>
      p.status == Ready || (p.status == Preparing && p.progress + dt * (100.0 / prepTime as real) >= 100.0)
  {
    if p.status != Preparing then p
    else
      var q := p.progress + dt * (100.0 / prepTime as real);
      if q >= 100.0 then Progress(Ready, q) else Progress(Preparing, q)
  }

  /**
   * While preparing, progress grows by exactly dt * 100 / prepTime and the
   * order is ready exactly when it reaches 100; it is not clamped there.
   * In every other status nothing changes.
   */
  lemma AdvanceStep(p: Progress, prepTime: int, dt: real)
    requires prepTime != 0
    ensures p.status != Preparing ==> Advance(p, prepTime, dt) == p
    ensures p.status == Preparing ==>
      && Advance(p, prepTime, dt).progress == p.progress + dt * 100.0 / prepTime as real
      && (Advance(p, prepTime, dt).status == Ready <==> Advance(p, prepTime, dt).progress >= 100.0)
      && (Advance(p, prepTime, dt).status != Ready ==> Advance(p, prepTime, dt).status == Preparing)
  {
  }

  /** For a positive preparation time and dt >= 0 progress never decreases. */
  lemma AdvanceNonDecreasing(p: Progress, prepTime: int, dt: real)
    requires prepTime > 0 && dt >= 0.0
    ensures Advance(p, prepTime, dt).progress >= p.progress
  {
    var rate := 100.0 / prepTime as real;
    assert rate > 0.0;
    assert dt * rate >= 0.0;
  }

  /** Progress can overshoot 100: a 4-second dish at 90 advanced by one second ends at 115. */
  lemma ProgressNotClamped()
    ensures Advance(Progress(Preparing, 90.0), 4, 1.0) == Progress(Ready, 115.0)
  {
  }

  /** The order after one `update` per entry of `dts`. */
  function Run(p: Progress, prepTime: int, dts: seq<real>): Progress
    requires prepTime != 0
    decreases |dts|
  {
    if dts == [] then p else Run(Advance(p, prepTime, dts[0]), prepTime, dts[1..])
  }

  /** Once ready, any number of further updates leaves the order as it is. */
  lemma {:induction false} ReadyIsFrozen(p: Progress, prepTime: int, dts: seq<real>)
    requires prepTime != 0 && p.status == Ready
    ensures Run(p, prepTime, dts) == p
    decreases |dts|
  {
    if dts != [] {
      ReadyIsFrozen(Advance(p, prepTime, dts[0]), prepTime, dts[1..]);
    }
  }

  /**
   * Preparing an order over frames of non-negative length: it becomes ready
   * exactly when the accumulated progress reaches 100, and until then its
   * progress is the start plus 100 / prepTime per second elapsed.
   */
  lemma {:induction false} PreparationRun(p: Progress, prepTime: int, dts: seq<real>)
    requires prepTime > 0 && p.status == Preparing && p.progress < 100.0
    requires forall i :: 0 <= i < |dts| ==> dts[i] >= 0.0
    ensures var r := Run(p, prepTime, dts);
      && (r.status == Ready || r.status == Preparing)
      && (r.status == Ready <==> p.progress + Sum(dts) * (100.0 / prepTime as real) >= 100.0)
      && (r.status == Preparing ==> r.progress == p.progress + Sum(dts) * (100.0 / prepTime as real))
    decreases |dts|
  {
    if dts != [] {
      var rate := 100.0 / prepTime as real;
      var q := Advance(p, prepTime, dts[0]);
      SumNonNegative(dts[1..]);
      assert Sum(dts) * rate == dts[0] * rate + Sum(dts[1..]) * rate;
      assert Sum(dts[1..]) * rate >= 0.0;
      if q.status == Ready {
        ReadyIsFrozen(q, prepTime, dts[1..]);
      } else {
        PreparationRun(q, prepTime, dts[1..]);
      }
    }
  }

  /** `str(order)`: "<dish name> (<status>)". */
  function Describe(name: string, s: OrderStatus): string {
    name + " (" + StatusName(s) + ")"
  }

  predicate EndsWith(text: string, suffix: string) {
    |text| >= |suffix| && text[|text| - |suffix|..] == suffix
  }

  /** Reads a description back into the dish name and the status. */
  function ParseDescription(text: string): Option<(string, OrderStatus)> {
    if EndsWith(text, Suffix(Waiting)) then Some((text[..|text| - |Suffix(Waiting)|], Waiting))
    else if EndsWith(text, Suffix(Preparing)) then Some((text[..|text| - |Suffix(Preparing)|], Preparing))
    else if EndsWith(text, Suffix(Ready)) then Some((text[..|text| - |Suffix(Ready)|], Ready))
    else if EndsWith(text, Suffix(Served)) then Some((text[..|text| - |Suffix(Served)|], Served))
    else None
  }

  function Suffix(s: OrderStatus): (r: string)
    ensures |r| >= 8
  {
    " (" + StatusName(s) + ")"
  }

  /** The second and fifth characters from the end tell the four suffixes apart. */
  function Signature(t: string): (char, char)
    requires |t| >= 5
  {
    (t[|t| - 2], t[|t| - 5])
  }

  lemma SignatureOfSuffix(text: string, s: OrderStatus)
    requires EndsWith(text, Suffix(s))
    ensures Signature(text) == Signature(Suffix(s))
  {
    var u := Suffix(s);
    assert text[|text| - |u|..][|u| - 2] == u[|u| - 2];
    assert text[|text| - |u|..][|u| - 5] == u[|u| - 5];
  }

  lemma SuffixDetermines(name: string, s: OrderStatus, t: OrderStatus)
    requires EndsWith(name + Suffix(s), Suffix(t))
    ensures s == t
  {
    var text := name + Suffix(s);
    assert text[|name|..] == Suffix(s);
    SignatureOfSuffix(text, s);
    SignatureOfSuffix(text, t);
  }

  /** Round trip: the description of an order determines its dish name and status. */
  lemma DescribeRoundTrip(name: string, s: OrderStatus)
    ensures ParseDescription(Describe(name, s)) == Some((name, s))
  {
    var text := Describe(name, s);
    assert text == name + Suffix(s);
    assert text[|name|..] == Suffix(s);
    assert EndsWith(text, Suffix(s));
    forall t | EndsWith(text, Suffix(t)) ensures t == s {
      SuffixDetermines(name, s, t);
    }
    ParseOnlySuffix(text, s);
    assert text[..|text| - |Suffix(s)|] == name;
  }

  /** A text ending in the suffix of `s` and of no other status parses as `s`. */
  lemma ParseOnlySuffix(text: string, s: OrderStatus)
    requires EndsWith(text, Suffix(s))
    requires forall t :: EndsWith(text, Suffix(t)) ==> t == s
    ensures ParseDescription(text) == Some((text[..|text| - |Suffix(s)|], s))
  {
    var w, p, r := EndsWith(text, Suffix(Waiting)), EndsWith(text, Suffix(Preparing)), EndsWith(text, Suffix(Ready));
    assert w <==> s == Waiting;
    assert p <==> s == Preparing;
    assert r <==> s == Ready;
  }

  class Order {
    const dish: Dish
    var status: OrderStatus
    var progress: real

    /** A new order for `MENU[choice]` (the dish `random.choice` picked). */
    constructor (choice: nat)
      requires choice < |MENU|
      ensures dish == MENU[choice] && WellFormed(dish)
      ensures status == Waiting && progress == 0.0
    {
      dish := MENU[choice];
      status := Waiting;
      progress := 0.0;
      MenuWellFormed();
    }

    function State(): Progress
      reads this
    {
      Progress(status, progress)
    }

    method Update(dt: real)
      requires dish.prepTime != 0
      modifies this
      ensures State() == Advance(old(State()), dish.prepTime, dt)
    {
      if status == Preparing {
        progress := progress + dt * (100.0 / dish.prepTime as real);
        if progress >= 100.0 {
          status := Ready;
        }
      }
    }

    /** `str(order)`, from which the dish name and the status can be read back. */
    function ToString(): (text: string)
      reads this
      ensures ParseDescription(text) == Some((dish.name, status))
    {
      DescribeRoundTrip(dish.name, status);
      Describe(dish.name, status)
    }
  }
}
