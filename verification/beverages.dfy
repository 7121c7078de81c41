/**
 The beverage decorator: four leaf drinks, each with a fixed name and price,
 and four condiments, each of which wraps exactly one inner beverage, appends
 ", <label>" to its description and adds a fixed amount to its cost.

 The open class hierarchy (an interface, an abstract decorator and eight
 concrete classes dispatched virtually) becomes one closed recursive datatype.
 Money is exact integer cents.
 */
module Beverages {

  /** The four concrete leaf beverages. */
  datatype Kind = HouseBlend | DarkRoast | Decaf | Espresso

  /** The four concrete condiment decorators. */
  datatype Condiment = SteamedMilk | Mocha | Soy | WhippedCream

  /** A leaf drink, or a condiment wrapped around exactly one inner beverage.
      The inner beverage can never be absent. */
  datatype Beverage = Leaf(kind: Kind) | Wrap(condiment: Condiment, inner: Beverage)

  /** Money, in whole cents. */
  type Cents = nat

  /** The smallest amount any condiment adds. */
  const MinDelta: Cents := 30

  /** The fixed description of a leaf beverage. It never contains a comma. */
  function Name(k: Kind): (r: string)
    ensures |r| > 0
    ensures forall i :: 0 <= i < |r| ==> r[i] != ','
  {
    match k
    case HouseBlend => "House Blend Coffee"
    case DarkRoast => "Dark Roast Coffee"
    case Decaf => "Decaf Coffee"
    case Espresso => "Espresso"
  }

  /** The fixed price of a leaf beverage. */
  function Price(k: Kind): (r: Cents)
    ensures r > 0
  {
    match k
    case HouseBlend => 180
    case DarkRoast => 220
    case Decaf => 200
    case Espresso => 290
  }

  /** The label a condiment appends to the description. */
  function Label(c: Condiment): (r: string)
    ensures |r| > 0
    ensures forall i :: 0 <= i < |r| ==> r[i] != ','
  {
    match c
    case SteamedMilk => "Steamed Milk"
    case Mocha => "Mocha"
    case Soy => "Soy"
    case WhippedCream => "Whipped Cream"
  }

  /** The amount a condiment adds to the cost; every one is positive. */
  function Delta(c: Condiment): (r: Cents)
    ensures r >= MinDelta > 0
  {
    match c
    case SteamedMilk => 30
    case Mocha => 60
    case Soy => 45
    case WhippedCream => 30
  }

  /** What a condiment appends to the inner description: a comma, a space and its label. */
  function Tag(c: Condiment): string
  {
    ", " + Label(c)
  }

  /** The leaf at the centre of a chain of wraps. */
  function Base(b: Beverage): Kind
  {
    match b
    case Leaf(k) => k
    case Wrap(_, inner) => Base(inner)
  }

  /** The number of condiments wrapped around the leaf. */
  function Depth(b: Beverage): nat
  {
    match b
    case Leaf(_) => 0
    case Wrap(_, inner) => Depth(inner) + 1
  }

  /** GetDescription: a leaf's name, or the inner description followed by the
      condiment's tag. Whatever the chain, it starts with the name of its leaf
      and grows by at least three characters per wrap. */
  function Description(b: Beverage): (r: string)
    ensures |Name(Base(b))| + 3 * Depth(b) <= |r|
    ensures r[..|Name(Base(b))|] == Name(Base(b))
  {
    match b
    case Leaf(k) => Name(k)
    case Wrap(c, inner) => Description(inner) + Tag(c)
  }

  /** Cost: a leaf's price, or the inner cost plus the condiment's delta.
      Whatever the chain, it is at least the leaf's price plus the smallest
      delta for each wrap. */
  function Cost(b: Beverage): (r: Cents)
    ensures r >= Price(Base(b)) + MinDelta * Depth(b)
  {
    match b
    case Leaf(k) => Price(k)
    case Wrap(c, inner) => Cost(inner) + Delta(c)
  }

  /** `a` is `b` itself or one of the beverages `b` was built around. */
  predicate Within(a: Beverage, b: Beverage)
  {
    a == b || (b.Wrap? && Within(a, b.inner))
  }

  /** A wrapper's description is exactly the inner description, ", " and its
      label; so the inner description is a proper prefix of it. */
  lemma WrapDescription(c: Condiment, inner: Beverage)
    ensures Description(Wrap(c, inner)) == Description(inner) + ", " + Label(c)
    ensures Description(inner) < Description(Wrap(c, inner))
  {
    assert Description(inner) + ", " + Label(c) == Description(inner) + (", " + Label(c));
  }

  /** A wrapper's cost is exactly the inner cost plus its delta; so wrapping
      strictly increases the cost. */
  lemma WrapCost(c: Condiment, inner: Beverage)
    ensures Cost(Wrap(c, inner)) == Cost(inner) + Delta(c)
    ensures Cost(inner) < Cost(Wrap(c, inner))
  {
  }

  /** Wrapping is monotone along a whole chain: every beverage a drink was
      built around has a description that is a prefix of the drink's and a
      cost no larger, and strictly so when it is not the drink itself. */
  lemma {:induction false} WithinMonotone(a: Beverage, b: Beverage)
    requires Within(a, b)
    ensures Description(a) <= Description(b)
    ensures Cost(a) <= Cost(b)
    ensures a != b ==> Description(a) < Description(b) && Cost(a) < Cost(b)
    decreases b
  {
    if a != b {
      var c, inner := b.condiment, b.inner;
      WithinMonotone(a, inner);
      WrapDescription(c, inner);
      PrefixTransitive(Description(a), Description(inner), Description(b));
    }
  }

  /** A prefix of a proper prefix is itself a proper prefix. */
  lemma PrefixTransitive(x: string, y: string, z: string)
    requires x <= y && y < z
    ensures x < z
  {
  }
}
