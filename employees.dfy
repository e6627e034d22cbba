/**
 * Employees: every employee starts at level 1 with the same base fields,
 * whatever `level` argument it is created with, and that argument alone
 * fixes the fields its role adds. The four roles of the game are one class
 * with a `role`.
 */
module Employees {
  import opened Wrappers

  datatype Role = Staff | Waiter | Cook | Chef | Manager

  /** The fields a role adds to the base employee. */
  datatype Traits =
    | NoTraits
    | WaiterTraits(charisma: real, proactivity: int)
    | CookTraits(precision: real)
    | ChefTraits(creativity: real, qualityBonus: real)
    | ManagerTraits(efficiency: real, maxStaff: int)

  /** The traits of `role` created with the `level` argument. */
  function TraitsFor(role: Role, level: int): (t: Traits)
    ensures t.NoTraits? <==> role == Staff
    ensures t.WaiterTraits? <==> role == Waiter
    ensures t.CookTraits? <==> role == Cook
    ensures t.ChefTraits? <==> role == Chef
    ensures t.ManagerTraits? <==> role == Manager
  {
    match role
    case Staff => NoTraits
    case Waiter => WaiterTraits(1.0, 4)
    case Cook => CookTraits(1.0 + level as real * 0.2)
    case Chef => ChefTraits(1.0 + level as real * 0.3, level as real * 0.2)
    case Manager => ManagerTraits(1.0 + level as real * 0.25, 2 + level)
  }

  /** Every field of `t` is at least the matching field of `u`, for traits of one role. */
  predicate AtLeast(t: Traits, u: Traits) {
    match (t, u)
    case (NoTraits, NoTraits) => true
    case (WaiterTraits(c, p), WaiterTraits(c', p')) => c >= c' && p >= p'
    case (CookTraits(p), CookTraits(p')) => p >= p'
    case (ChefTraits(c, q), ChefTraits(c', q')) => c >= c' && q >= q'
    case (ManagerTraits(e, m), ManagerTraits(e', m')) => e >= e' && m >= m'
    case _ => false
  }

  /** A larger `level` argument never gives weaker traits; only a waiter's do not depend on it. */
  lemma TraitsGrow(role: Role, a: int, b: int)
    requires a <= b
    ensures AtLeast(TraitsFor(role, b), TraitsFor(role, a))
    ensures role == Waiter || role == Staff ==> TraitsFor(role, b) == TraitsFor(role, a)
    ensures a < b && role != Waiter && role != Staff ==> TraitsFor(role, b) != TraitsFor(role, a)
  {
  }

  /** The base fields of a new employee. */
  const BASE_LEVEL: int := 1
  const BASE_AGILITY: int := 3
  const BASE_DAY_OFF: int := 5
  const BASE_SALARY: int := 800

  class Employee {
    const role: Role
    const traits: Traits
    /** Set to None by the character base class; the name argument is not stored. */
    var name: Option<string>
    var level: int
    var experience: int
    var agility: int
    var dayOff: int
    var salary: int

    /** An employee of `role` created with `name` and `level`; neither is stored. */
    constructor (role: Role, name: string, level: int)
      ensures this.role == role && traits == TraitsFor(role, level)
      ensures this.name == None && this.level == BASE_LEVEL && experience == 0
      ensures agility == BASE_AGILITY && dayOff == BASE_DAY_OFF && salary == BASE_SALARY
    {
      this.role := role;
      traits := TraitsFor(role, level);
      this.name := None;
      this.level := BASE_LEVEL;
      experience := 0;
      agility := BASE_AGILITY;
      dayOff := BASE_DAY_OFF;
      salary := BASE_SALARY;
    }

    /** `upgrade`: one level more; the traits stay those fixed at construction. */
    method Upgrade()
      modifies this`level
      ensures level == old(level) + 1
    {
      level := level + 1;
    }
  }

  /**
   * A cook created with level 3 is stored at level 1 but has the precision of
   * level 3, 1.6, and keeps it however often it is upgraded.
   */
  lemma CookPrecisionFromArgument()
    ensures TraitsFor(Cook, 3) == CookTraits(1.6)
    ensures TraitsFor(Cook, 3) != TraitsFor(Cook, BASE_LEVEL)
    ensures TraitsFor(Manager, 1) == ManagerTraits(1.25, 3)
    ensures TraitsFor(Chef, 1) == ChefTraits(1.3, 0.2)
  {
  }
}
