/** The dishes a restaurant serves and the fixed menu orders draw from. */
module Menu {
  import opened Wrappers
  import opened Text

  /** A dish; `difficulty` is meant to lie in 1..5 and `prepTime` is in seconds. */
  datatype Dish = Dish(name: string, difficulty: int, price: int, prepTime: int)

  const DEFAULT_DIFFICULTY: int := 1
  const DEFAULT_PRICE: int := 10
  const DEFAULT_PREP_TIME: int := 5

  /** A dish that can be prepared: a positive preparation time and a difficulty in 1..5. */
  predicate WellFormed(d: Dish) {
    d.prepTime > 0 && 1 <= d.difficulty <= 5
  }

  /** `Dish(name)` with every keyword argument left at its default. */
  function DishWithDefaults(name: string): (d: Dish)
    ensures d.name == name && WellFormed(d)
  {
    Dish(name, DEFAULT_DIFFICULTY, DEFAULT_PRICE, DEFAULT_PREP_TIME)
  }

  /** The five dishes on offer, in menu order. */
  const MENU: seq<Dish> := [
    Dish("Hambúrguer Simples", 1, 10, 4),
    Dish("Sopa de Legumes", 2, 15, 6),
    Dish("Salada Tropical", 1, 8, 3),
    Dish("Bife Grelhado", 3, 20, 7),
    Dish("Pizza Gourmet", 4, 25, 10)
  ]

  /** Every dish on the menu can be prepared, so an order's progress rate is defined. */
  lemma MenuWellFormed()
    ensures |MENU| == 5
    ensures forall d :: d in MENU ==> WellFormed(d) && d.price > 0
  {
  }

  /**
   * `str(dish)`: "<name> - $<price>". The label starts with the dish name
   * and the price can be read back from it, whatever the name holds.
   */
  function Label(d: Dish): (l: string)
    ensures |l| > |d.name| && l[..|d.name|] == d.name
    ensures LabelPrice(l) == Some(d.price)
  {
    LabelRoundTrip(d.name, d.price);
    d.name + " - $" + IntToString(d.price)
  }

  /** Reads the price back from a label: the text after its last '$'. */
  function LabelPrice(text: string): Option<int> {
    match LastIndexOf(text, '$')
    case None => None
    case Some(i) => ParseInt(text[i + 1..])
  }

  /** A name, " - $" and a number: the last '$' is the one before the number, which reads back. */
  lemma LabelRoundTrip(name: string, price: int)
    ensures (name + " - $" + IntToString(price))[..|name|] == name
    ensures LabelPrice(name + " - $" + IntToString(price)) == Some(price)
  {
    var l := name + " - $" + IntToString(price);
    var digits := IntToString(price);
    assert l == (name + " - ") + ['$'] + digits;
    LastIndexOfSplit(name + " - ", '$', digits);
    assert l[|name| + 4..] == digits;
    IntToStringRoundTrip(price);
  }
}
