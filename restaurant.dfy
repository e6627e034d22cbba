/**
 * A restaurant the player runs: its progress (day, money, reputation), its
 * staff as a list of employee ids that never lists an id twice, its
 * ingredient stock, and its statistics.
 */
module Restaurants {
  import opened Seqs
  import Menu

  /** `hire_employee`: `id` is appended unless it is listed already. */
  function Hired(staff: seq<int>, id: int): (r: seq<int>)
    ensures id in r
    ensures |staff| <= |r| <= |staff| + 1 && r[..|staff|] == staff
    ensures forall e :: e in r <==> e in staff || e == id
    ensures Distinct(staff) ==> Distinct(r)
  {
    if id in staff then staff else staff + [id]
  }

  /**
   * `fire_employee`: `list.remove` drops the first occurrence of `id`, if
   * there is one, and keeps every other entry in its order.
   */
  function Fired(staff: seq<int>, id: int): (r: seq<int>)
    ensures id !in staff ==> r == staff
    ensures id in staff ==> r == staff[..IndexOf(staff, id)] + staff[IndexOf(staff, id) + 1..]
  {
    if staff == [] then []
    else if staff[0] == id then staff[1..]
    else
      if id in staff then
        RemovedStep(staff, id);
        [staff[0]] + Fired(staff[1..], id)
      else
        [staff[0]] + Fired(staff[1..], id)
  }

  /** Dropping the first `id` from a list that does not start with it keeps the head. */
  lemma RemovedStep(staff: seq<int>, id: int)
    requires staff != [] && staff[0] != id && id in staff
    ensures var rest, i := staff[1..], IndexOf(staff, id);
      id in rest && i == 1 + IndexOf(rest, id) &&
      staff[..i] + staff[i + 1..] == [staff[0]] + (rest[..i - 1] + rest[i..])
  {
    var rest, i := staff[1..], IndexOf(staff, id);
    assert i == 1 + IndexOf(rest, id);
    DropCons(staff, i);
  }

  lemma DropCons(s: seq<int>, i: nat)
    requires 1 <= i < |s|
    ensures s[..i] + s[i + 1..] == [s[0]] + (s[1..][..i - 1] + s[1..][i..])
  {
    assert s[..i] == [s[0]] + s[1..][..i - 1];
    assert s[i + 1..] == s[1..][i..];
  }

  /** Firing never lists anybody twice, and a fired id is gone from a list without repetitions. */
  lemma FiredDistinct(staff: seq<int>, id: int)
    requires Distinct(staff)
    ensures Distinct(Fired(staff, id)) && id !in Fired(staff, id)
  {
    if id in staff {
      var i := IndexOf(staff, id);
      var r := Fired(staff, id);
      assert r == staff[..i] + staff[i + 1..];
      assert |r| == |staff| - 1;
      forall a | 0 <= a < |r|
        ensures r[a] == staff[if a < i then a else a + 1]
      {
        if a < i {
          assert r[a] == staff[..i][a];
        } else {
          assert r[a] == staff[i + 1..][a - i];
        }
      }
      forall a, b | 0 <= a < b < |r|
        ensures r[a] != r[b]
      {
        assert r[a] == staff[if a < i then a else a + 1];
        assert r[b] == staff[if b < i then b else b + 1];
      }
      forall a | 0 <= a < |r|
        ensures r[a] != id
      {
        assert r[a] == staff[if a < i then a else a + 1];
      }
    }
  }

  /** Hiring somebody new and firing them again leaves the staff exactly as it was. */
  lemma HireThenFire(staff: seq<int>, id: int)
    requires id !in staff
    ensures Fired(Hired(staff, id), id) == staff
  {
    IndexOfAppended(staff, id);
    assert (staff + [id])[..|staff|] == staff;
  }

  /** Hiring somebody already on the staff changes nothing. */
  lemma HireIdempotent(staff: seq<int>, id: int)
    ensures Hired(Hired(staff, id), id) == Hired(staff, id)
  {
  }

  /** `owned_ingredients.get(name, 0)`. */
  function Stock(stock: map<string, int>, name: string): int {
    if name in stock then stock[name] else 0
  }

  /**
   * `update_ingredient`: the amount of `name` becomes what was there (none
   * when the name is absent) plus `quantity`, which may be negative and is
   * not checked; every other ingredient keeps its amount.
   */
  function Restocked(stock: map<string, int>, name: string, quantity: int): (r: map<string, int>)
    ensures r.Keys == stock.Keys + {name}
    ensures Stock(r, name) == Stock(stock, name) + quantity
    ensures forall n :: n != name ==> Stock(r, n) == Stock(stock, n)
  {
    stock[name := Stock(stock, name) + quantity]
  }

  /** Two updates of the same ingredient add up to one. */
  lemma RestockAdds(stock: map<string, int>, name: string, a: int, b: int)
    ensures Restocked(Restocked(stock, name, a), name, b) == Restocked(stock, name, a + b)
  {
  }

  /** Consuming what was just added restores every amount; only the key for `name` may remain, at 0. */
  lemma RestockUndone(stock: map<string, int>, name: string, quantity: int)
    ensures forall n :: Stock(Restocked(Restocked(stock, name, quantity), name, -quantity), n) == Stock(stock, n)
  {
  }

  class Restaurant {
    const name: string
    /** `str(uuid.uuid4())`, drawn by the caller. */
    const restaurantId: string
    /** `datetime.now().isoformat()`, read by the caller. */
    const createdAt: string
    var day: int
    var money: real
    var reputation: real
    var menu: seq<Menu.Dish>
    var ownedIngredients: map<string, int>
    var employees: seq<int>
    var events: seq<string>
    var totalClientsServed: int
    var totalMoneyEarned: real
    var totalFailedDays: int

    /** The staff never lists an id twice and the days are counted from 1. */
    ghost predicate Valid()
      reads this
    {
      Distinct(employees) && day >= 1
    }

    /**
     * The state of a restaurant just opened: valid, on day 1, with no money,
     * three stars, nothing owned, nobody hired, no events and zero statistics.
     */
    ghost predicate Opened()
      reads this
    {
      && Valid()
      && day == 1 && money == 0.0 && reputation == 3.0
      && menu == [] && ownedIngredients == map[] && employees == [] && events == []
      && totalClientsServed == 0 && totalMoneyEarned == 0.0 && totalFailedDays == 0
    }

    /** A new restaurant, in the opened state. */
    constructor (name: string, restaurantId: string, createdAt: string)
      ensures Opened()
      ensures this.name == name && this.restaurantId == restaurantId && this.createdAt == createdAt
    {
      this.name := name;
      this.restaurantId := restaurantId;
      this.createdAt := createdAt;
      day := 1;
      money := 0.0;
      reputation := 3.0;
      menu := [];
      ownedIngredients := map[];
      employees := [];
      events := [];
      totalClientsServed := 0;
      totalMoneyEarned := 0.0;
      totalFailedDays := 0;
    }

    method HireEmployee(employeeId: int)
      modifies this`employees
      ensures employees == Hired(old(employees), employeeId)
      ensures old(Valid()) ==> Valid()
    {
      if employeeId !in employees {
        employees := employees + [employeeId];
      }
    }

    method FireEmployee(employeeId: int)
      modifies this`employees
      ensures employees == Fired(old(employees), employeeId)
      ensures old(Valid()) ==> Valid() && employeeId !in employees
    {
      if Distinct(employees) {
        FiredDistinct(employees, employeeId);
      }
      if employeeId in employees {
        employees := Fired(employees, employeeId);
      }
    }

    method UpdateIngredient(ingredient: string, quantity: int)
      modifies this`ownedIngredients
      ensures ownedIngredients == Restocked(old(ownedIngredients), ingredient, quantity)
    {
      ownedIngredients := ownedIngredients[ingredient := Stock(ownedIngredients, ingredient) + quantity];
    }

    method AddMoney(value: real)
      modifies this`money
      ensures money == old(money) + value
    {
      money := money + value;
    }

    method AdvanceDay()
      modifies this`day
      ensures day == old(day) + 1
      ensures old(Valid()) ==> Valid()
    {
      day := day + 1;
    }
  }
}
