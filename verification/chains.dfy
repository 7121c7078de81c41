/**
 A beverage viewed as a whole chain: a leaf and the list of condiments
 applied to it, innermost (first applied) first. The properties here are
 about chains rather than single wraps: the cost is the leaf's price plus
 the sum of the deltas in any order, and the description is the leaf's name
 followed by the labels in wrap order.
 */
module Chains {
  import opened Beverages

  /** The condiments of a beverage, in the order they were applied. */
  function Condiments(b: Beverage): (r: seq<Condiment>)
    ensures |r| == Depth(b)
  {
    match b
    case Leaf(_) => []
    case Wrap(c, inner) => Condiments(inner) + [c]
  }

  /** The beverage obtained by starting from leaf `k` and applying the
      condiments of `cs` one after another; it is the inverse of taking a
      beverage apart into its leaf and its condiments. */
  function Build(k: Kind, cs: seq<Condiment>): (r: Beverage)
    ensures Base(r) == k
    ensures Condiments(r) == cs
  {
    if |cs| == 0 then Leaf(k)
    else
      var r := Wrap(cs[|cs| - 1], Build(k, cs[..|cs| - 1]));
      assert cs == cs[..|cs| - 1] + [cs[|cs| - 1]];
      r
  }

  /** The sum of the deltas of a list of condiments. */
  function SumDeltas(cs: seq<Condiment>): (r: Cents)
    ensures r >= MinDelta * |cs|
  {
    if |cs| == 0 then 0 else SumDeltas(cs[..|cs| - 1]) + Delta(cs[|cs| - 1])
  }

  /** The text a list of condiments appends to a leaf's name. */
  function Suffix(cs: seq<Condiment>): string
  {
    if |cs| == 0 then "" else Suffix(cs[..|cs| - 1]) + Tag(cs[|cs| - 1])
  }

  /** The deltas of a collection of condiments, counting each condiment by
      how many times it occurs, with no reference to any order. */
  function DeltaOfCounts(m: multiset<Condiment>): Cents
  {
    m[SteamedMilk] * Delta(SteamedMilk) + m[Mocha] * Delta(Mocha)
    + m[Soy] * Delta(Soy) + m[WhippedCream] * Delta(WhippedCream)
  }

  /** Taking a beverage apart and building it again gives the same beverage. */
  lemma {:induction false} BuildDecomposed(b: Beverage)
    ensures Build(Base(b), Condiments(b)) == b
  {
    match b
    case Leaf(_) =>
    case Wrap(c, inner) =>
      var cs := Condiments(b);
      assert cs[..|cs| - 1] == Condiments(inner);
      BuildDecomposed(inner);
  }

  /** Any chain costs its leaf's price plus the sum of the deltas applied. */
  lemma {:induction false} CostIsPricePlusDeltas(b: Beverage)
    ensures Cost(b) == Price(Base(b)) + SumDeltas(Condiments(b))
  {
    match b
    case Leaf(_) =>
    case Wrap(c, inner) =>
      var cs := Condiments(b);
      assert cs[..|cs| - 1] == Condiments(inner);
      CostIsPricePlusDeltas(inner);
  }

  /** Any chain's description is its leaf's name followed by ", <label>" for
      each condiment, innermost first. */
  lemma {:induction false} DescriptionIsNameThenLabels(b: Beverage)
    ensures Description(b) == Name(Base(b)) + Suffix(Condiments(b))
  {
    match b
    case Leaf(_) =>
    case Wrap(c, inner) =>
      var cs := Condiments(b);
      assert cs[..|cs| - 1] == Condiments(inner);
      DescriptionIsNameThenLabels(inner);
      var name, rest := Name(Base(b)), Suffix(Condiments(inner));
      calc {
        Description(b);
        Description(inner) + Tag(c);
        (name + rest) + Tag(c);
        { AppendAssociative(name, rest, Tag(c)); }
        name + (rest + Tag(c));
        name + Suffix(cs);
      }
  }

  /** The sum of the deltas depends only on how many of each condiment there are. */
  lemma {:induction false} SumDeltasByCounts(cs: seq<Condiment>)
    ensures SumDeltas(cs) == DeltaOfCounts(multiset(cs))
  {
    if |cs| > 0 {
      var init, last := cs[..|cs| - 1], cs[|cs| - 1];
      assert cs == init + [last];
      assert multiset(cs) == multiset(init) + multiset{last};
      SumDeltasByCounts(init);
      var m, m' := multiset(init), multiset(cs);
      assert m'[last] == m[last] + 1;
      CountStep(m, m', last, SteamedMilk);
      CountStep(m, m', last, Mocha);
      CountStep(m, m', last, Soy);
      CountStep(m, m', last, WhippedCream);
    }
  }

  /** Adding one condiment to a collection adds its delta to that condiment's share. */
  lemma CountStep(m: multiset<Condiment>, m': multiset<Condiment>, last: Condiment, x: Condiment)
    requires m' == m + multiset{last}
    ensures m'[x] * Delta(x) == m[x] * Delta(x) + (if x == last then Delta(x) else 0)
  {
    if x == last {
      assert m'[x] == m[x] + 1;
    } else {
      assert m'[x] == m[x];
    }
  }

  /** Reordering the condiments does not change their total. */
  lemma SumDeltasPermutation(cs: seq<Condiment>, ds: seq<Condiment>)
    requires multiset(cs) == multiset(ds)
    ensures SumDeltas(cs) == SumDeltas(ds)
  {
    SumDeltasByCounts(cs);
    SumDeltasByCounts(ds);
  }

  /** Two drinks over the same leaf with the same condiments, applied in any
      order, cost the same. */
  lemma CostOrderIndependent(b1: Beverage, b2: Beverage)
    requires Base(b1) == Base(b2)
    requires multiset(Condiments(b1)) == multiset(Condiments(b2))
    ensures Cost(b1) == Cost(b2)
  {
    CostIsPricePlusDeltas(b1);
    CostIsPricePlusDeltas(b2);
    SumDeltasPermutation(Condiments(b1), Condiments(b2));
  }

  /** The deltas of two lists applied one after the other add up. */
  lemma {:induction false} SumDeltasAppend(cs: seq<Condiment>, ds: seq<Condiment>)
    ensures SumDeltas(cs + ds) == SumDeltas(cs) + SumDeltas(ds)
    decreases |ds|
  {
    if |ds| > 0 {
      var init := ds[..|ds| - 1];
      assert (cs + ds)[..|cs + ds| - 1] == cs + init;
      SumDeltasAppend(cs, init);
    } else {
      assert cs + ds == cs;
    }
  }

  /** The suffix of two lists applied one after the other is the first
      list's suffix followed by the second's. */
  lemma {:induction false} SuffixAppend(cs: seq<Condiment>, ds: seq<Condiment>)
    ensures Suffix(cs + ds) == Suffix(cs) + Suffix(ds)
    decreases |ds|
  {
    if |ds| > 0 {
      var init := ds[..|ds| - 1];
      assert (cs + ds)[..|cs + ds| - 1] == cs + init;
      SuffixAppend(cs, init);
      var t := Tag(ds[|ds| - 1]);
      calc {
        Suffix(cs + ds);
        Suffix(cs + init) + t;
        (Suffix(cs) + Suffix(init)) + t;
        { AppendAssociative(Suffix(cs), Suffix(init), t); }
        Suffix(cs) + (Suffix(init) + t);
      }
    } else {
      assert cs + ds == cs;
    }
  }

  /** Concatenating strings does not depend on grouping. */
  lemma AppendAssociative(x: string, y: string, z: string)
    ensures (x + y) + z == x + (y + z)
  {
  }

  /** Applying further condiments `ds` to a drink built from `cs` appends their
      labels to its description and adds exactly their deltas to its cost. */
  lemma ExtendChain(k: Kind, cs: seq<Condiment>, ds: seq<Condiment>)
    ensures Description(Build(k, cs + ds)) == Description(Build(k, cs)) + Suffix(ds)
    ensures Cost(Build(k, cs + ds)) == Cost(Build(k, cs)) + SumDeltas(ds)
    ensures |ds| > 0 ==> Cost(Build(k, cs)) < Cost(Build(k, cs + ds))
  {
    var longer, shorter := Build(k, cs + ds), Build(k, cs);
    calc {
      Description(longer);
      { DescriptionIsNameThenLabels(longer); }
      Name(k) + Suffix(cs + ds);
      { SuffixAppend(cs, ds); }
      Name(k) + (Suffix(cs) + Suffix(ds));
      { AppendAssociative(Name(k), Suffix(cs), Suffix(ds)); }
      (Name(k) + Suffix(cs)) + Suffix(ds);
      { DescriptionIsNameThenLabels(shorter); }
      Description(shorter) + Suffix(ds);
    }
    CostIsPricePlusDeltas(Build(k, cs + ds));
    CostIsPricePlusDeltas(Build(k, cs));
    SumDeltasAppend(cs, ds);
  }
}
