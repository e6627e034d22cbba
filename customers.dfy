/**
 * Customers and their lifecycle: a customer waits until served or until its
 * patience runs out, eats, and finishes; the tip depends on the dish price
 * and the satisfaction, doubled for a Boss. The three customer classes of
 * the game differ only in their patience range and tip, so they are one
 * class with a `kind`.
 */
module Customers {
  import opened Numeric
  import opened Menu
  import Orders

  datatype Kind = Common | Impatient | Boss

  datatype Status = Waiting | Eating | Done | Left

  /** `left` and `done` are the statuses a customer never leaves. */
  predicate Terminal(s: Status) {
    s == Left || s == Done
  }

  /** Bounds of `random.uniform` for each kind's patience, in seconds. */
  function PatienceMin(k: Kind): real {
    match k
    case Common => 15.0
    case Impatient => 8.0
    case Boss => 25.0
  }

  function PatienceMax(k: Kind): real {
    match k
    case Common => 20.0
    case Impatient => 12.0
    case Boss => 30.0
  }

  /** The part of a customer that `update`, `serve` and `finish` change. */
  datatype Mood = Mood(status: Status, timer: real, satisfaction: real)

  /** A customer as created: waiting, no time elapsed, fully satisfied. */
  const ARRIVING: Mood := Mood(Waiting, 0.0, 1.0)

  predicate SatisfactionInRange(m: Mood) {
    0.0 <= m.satisfaction <= 1.0
  }

  /** One `update(dt)` of a customer with the given patience. */
  function Tick(m: Mood, patience: real, dt: real): Mood {
    if m.status != Waiting then m
    else
      var t := m.timer + dt;
      if t >= patience then Mood(Left, t, 0.0) else Mood(Waiting, t, m.satisfaction)
  }

  /** `serve()`: eating, with the timer restarted, from whatever status. */
  function Served(m: Mood): Mood {
    m.(status := Eating, timer := 0.0)
  }

  /** `finish()`: done, with satisfaction max(0.4, patience / max_patience), from whatever status. */
  function Finished(m: Mood, patience: real, maxPatience: real): Mood
    requires maxPatience != 0.0
  {
    m.(status := Done, satisfaction := MaxReal(0.4, patience / maxPatience))
  }

  /**
   * `update` acts only on a waiting customer: the timer grows by dt, and the
   * customer leaves with satisfaction 0 exactly when the timer reaches the
   * patience. Satisfaction stays within [0, 1].
   */
  lemma TickStep(m: Mood, patience: real, dt: real)
    ensures m.status != Waiting ==> Tick(m, patience, dt) == m
    ensures m.status == Waiting ==>
      && Tick(m, patience, dt).timer == m.timer + dt
      && (Tick(m, patience, dt).status == Left <==> m.timer + dt >= patience)
      && (Tick(m, patience, dt).status == Left ==> Tick(m, patience, dt).satisfaction == 0.0)
      && (Tick(m, patience, dt).status != Left ==> Tick(m, patience, dt) == m.(timer := m.timer + dt))
    ensures SatisfactionInRange(m) ==> SatisfactionInRange(Tick(m, patience, dt))
  {
  }

  /**
   * Because `max_patience` is a copy of `patience`, `finish` always sets
   * satisfaction to exactly 1.0: the 0.4 floor is never reached.
   */
  lemma FinishedSatisfaction(m: Mood, patience: real)
    requires patience > 0.0
    ensures Finished(m, patience, patience).satisfaction == 1.0
    ensures Finished(m, patience, patience).status == Done
  {
  }

  /** The customer after one `update` per entry of `dts`. */
  function Run(m: Mood, patience: real, dts: seq<real>): Mood
    decreases |dts|
  {
    if dts == [] then m else Run(Tick(m, patience, dts[0]), patience, dts[1..])
  }

  /** A customer who is eating, done or gone is untouched by any number of updates. */
  lemma {:induction false} NotWaitingIsFrozen(m: Mood, patience: real, dts: seq<real>)
    requires m.status != Waiting
    ensures Run(m, patience, dts) == m
    decreases |dts|
  {
    if dts != [] {
      NotWaitingIsFrozen(Tick(m, patience, dts[0]), patience, dts[1..]);
    }
  }

  /**
   * Abandonment: a customer who is never served, ticked over frames of
   * non-negative length, has left (with satisfaction 0) exactly when the
   * total time waited reaches the patience; otherwise it is still waiting
   * and its timer is the total time waited.
   */
  lemma {:induction false} AbandonmentRun(m: Mood, patience: real, dts: seq<real>)
    requires m.status == Waiting && m.timer < patience
    requires forall i :: 0 <= i < |dts| ==> dts[i] >= 0.0
    ensures var r := Run(m, patience, dts);
      && (r.status == Left || r.status == Waiting)
      && (r.status == Left <==> m.timer + Sum(dts) >= patience)
      && (r.status == Left ==> r.satisfaction == 0.0)
      && (r.status == Waiting ==> r.timer == m.timer + Sum(dts) && r.satisfaction == m.satisfaction)
    decreases |dts|
  {
    if dts != [] {
      var n := Tick(m, patience, dts[0]);
      SumNonNegative(dts[1..]);
      if n.status == Left {
        NotWaitingIsFrozen(n, patience, dts[1..]);
      } else {
        AbandonmentRun(n, patience, dts[1..]);
      }
    }
  }

  /** A customer with patience 10 is still waiting after 9.9 s and gone after 10.1 s. */
  lemma AbandonmentExample()
    ensures Run(ARRIVING, 10.0, [9.9]).status == Waiting
    ensures Run(ARRIVING, 10.0, [9.9, 0.2]) == Mood(Left, 10.1, 0.0)
  {
  }

  /**
   * `get_tip()`: the truncation of price * satisfaction, multiplied first by
   * a Boss's `reward_multiplier` of 2.0. The dish price is an integer; it
   * enters the product as a real.
   */
  function Tip(price: real, satisfaction: real, kind: Kind): (tip: int)
    ensures 0.0 <= price * satisfaction ==>
      0 <= tip && tip as real <= price * satisfaction * Multiplier(kind) < tip as real + 1.0
    ensures 0.0 <= price && 0.0 <= satisfaction <= 1.0 ==> tip as real <= price * Multiplier(kind)
  {
    var x := price * satisfaction;
    var tip := if kind == Boss then Trunc(x * 2.0) else Trunc(x);
    if 0.0 <= price && 0.0 <= satisfaction <= 1.0 then
      ScaleWithin(price, satisfaction);
      WholePart(x, kind);
      WholePartBelow(x, price, kind);
      tip
    else if 0.0 <= x then
      WholePart(x, kind);
      tip
    else tip
  }

  /** The truncated, multiplied product is the whole part of the product times the multiplier. */
  lemma WholePart(x: real, kind: Kind)
    requires 0.0 <= x
    ensures var t := if kind == Boss then Trunc(x * 2.0) else Trunc(x);
      0 <= t && t as real <= x * Multiplier(kind) < t as real + 1.0
  {
    if kind == Boss {
      assert x * Multiplier(kind) == x * 2.0;
    } else {
      assert x * Multiplier(kind) == x;
    }
  }

  /** A product at most the price gives a tip at most the price times the multiplier. */
  lemma WholePartBelow(x: real, price: real, kind: Kind)
    requires 0.0 <= x <= price
    ensures var t := if kind == Boss then Trunc(x * 2.0) else Trunc(x);
      t as real <= price * Multiplier(kind)
  {
    if kind == Boss {
      assert price * Multiplier(kind) == price * 2.0;
    } else {
      assert price * Multiplier(kind) == price;
    }
  }

  /** `reward_multiplier`: 2.0 for a Boss; the base class applies none. */
  function Multiplier(kind: Kind): real {
    if kind == Boss then 2.0 else 1.0
  }

  /** For a non-negative price and a satisfaction in [0, 1] the tip lies between 0 and the price times the multiplier. */
  lemma TipBounds(price: int, satisfaction: real, kind: Kind)
    ensures price >= 0 && 0.0 <= satisfaction <= 1.0 ==>
      0 <= Tip(price as real, satisfaction, kind) <= price * (if kind == Boss then 2 else 1)
  {
    if price >= 0 && 0.0 <= satisfaction <= 1.0 {
      var p, n := price as real, price * (if kind == Boss then 2 else 1);
      MulNonNegative(p, satisfaction);
      assert p * Multiplier(kind) == n as real;
      WholeBelow(Tip(p, satisfaction, kind), p * Multiplier(kind), n);
    }
  }

  /** A whole number at most a value at most `n` is at most `n`. */
  lemma WholeBelow(t: int, y: real, n: int)
    requires t as real <= y <= n as real
    ensures t <= n
  {
  }

  /** A more satisfied customer never tips less. */
  lemma TipMonotone(price: real, s: real, s': real, kind: Kind)
    requires 0.0 <= price && 0.0 <= s <= s'
    ensures Tip(price, s, kind) <= Tip(price, s', kind)
  {
    MulNonNegative(price, s' - s);
    MulNonNegative(price, s);
    if kind == Boss {
      TruncMonotone(price * s * 2.0, price * s' * 2.0);
    } else {
      TruncMonotone(price * s, price * s');
    }
  }

  /** A fully satisfied customer tips the whole price; a Boss tips twice that. */
  lemma FullTip(price: int)
    ensures Tip(price as real, 1.0, Common) == price && Tip(price as real, 1.0, Impatient) == price
    ensures Tip(price as real, 1.0, Boss) == 2 * price
  {
    TruncOfInt(price);
    TruncOfInt(2 * price);
  }

  class Customer {
    const id: int
    const kind: Kind
    const patience: real
    const maxPatience: real
    const order: Orders.Order
    var status: Status
    var timer: real
    var satisfaction: real

    ghost predicate Valid()
      reads this
    {
      && PatienceMin(kind) <= patience <= PatienceMax(kind)
      && maxPatience == patience
      && 0.0 <= satisfaction <= 1.0
    }

    function State(): Mood
      reads this
    {
      Mood(status, timer, satisfaction)
    }

    /**
     * A customer of the given kind; `patience` is the value `random.uniform`
     * drew from the kind's range and `choice` the dish `random.choice` drew.
     */
    constructor (id: int, kind: Kind, patience: real, choice: nat)
      requires PatienceMin(kind) <= patience <= PatienceMax(kind)
      requires choice < |MENU|
      ensures Valid() && fresh(order)
      ensures this.id == id && this.kind == kind && this.patience == patience
      ensures State() == ARRIVING
      ensures order.dish == MENU[choice] && order.status == Orders.Waiting && order.progress == 0.0
    {
      this.id := id;
      this.kind := kind;
      status := Waiting;
      order := new Orders.Order(choice);
      timer := 0.0;
      satisfaction := 1.0;
      this.patience := patience;
      maxPatience := patience;
    }

    /** `update(dt)`; the order is not advanced. */
    method Update(dt: real)
      modifies this
      ensures old(Valid()) ==> Valid()
      ensures State() == Tick(old(State()), patience, dt)
      ensures unchanged(order)
    {
      if status == Waiting {
        timer := timer + dt;
        if timer >= patience {
          status := Left;
          satisfaction := 0.0;
        }
      }
    }

    method Serve()
      requires Valid()
      modifies this
      ensures Valid()
      ensures State() == Served(old(State()))
    {
      status := Eating;
      timer := 0.0;
    }

    method Finish()
      requires Valid()
      modifies this
      ensures Valid()
      ensures State() == Finished(old(State()), patience, maxPatience)
      ensures satisfaction == 1.0
      ensures GetTip() == order.dish.price * (if kind == Boss then 2 else 1)
    {
      status := Done;
      satisfaction := MaxReal(0.4, patience / maxPatience);
      FinishedSatisfaction(old(State()), patience);
      FullTip(order.dish.price);
    }

    function GetTip(): (tip: int)
      reads this
      ensures Valid() && order.dish.price >= 0 ==>
        0 <= tip <= order.dish.price * (if kind == Boss then 2 else 1)
    {
      TipBounds(order.dish.price, satisfaction, kind);
      Tip(order.dish.price as real, satisfaction, kind)
    }
  }
}
