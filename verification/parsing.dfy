/**
 Reading a beverage back from its description. The four labels end in four
 different letters, none of which ends a leaf name; so a description records
 its leaf and the exact order of its condiments without ambiguity. `Parse` recovers them, and is
 the inverse of `Description`.
 */
module Parsing {
  import opened Beverages

  datatype Option<T> = None | Some(value: T)

  /** `t` is a suffix of `s`. */
  predicate EndsWith(s: string, t: string)
  {
    |t| <= |s| && s[|s| - |t|..] == t
  }

  /** The condiment whose tag ends `s`, if any. */
  function TrailingCondiment(s: string): (r: Option<Condiment>)
    ensures r.Some? ==> EndsWith(s, Tag(r.value))
    ensures r.None? ==> forall c :: !EndsWith(s, Tag(c))
  {
    if EndsWith(s, Tag(SteamedMilk)) then Some(SteamedMilk)
    else if EndsWith(s, Tag(Mocha)) then Some(Mocha)
    else if EndsWith(s, Tag(Soy)) then Some(Soy)
    else if EndsWith(s, Tag(WhippedCream)) then Some(WhippedCream)
    else None
  }

  /** The leaf whose name is exactly `s`, if any. */
  function LeafNamed(s: string): (r: Option<Kind>)
    ensures r.Some? ==> Name(r.value) == s
    ensures r.None? ==> forall k :: Name(k) != s
  {
    if s == Name(HouseBlend) then Some(HouseBlend)
    else if s == Name(DarkRoast) then Some(DarkRoast)
    else if s == Name(Decaf) then Some(Decaf)
    else if s == Name(Espresso) then Some(Espresso)
    else None
  }

  /** The beverage whose description is `s`, if there is one: strip the
      trailing condiment tags one by one, then look up the remaining name. */
  function Parse(s: string): (r: Option<Beverage>)
    ensures r.Some? ==> Description(r.value) == s
    decreases |s|
  {
    match TrailingCondiment(s)
    case Some(c) =>
      var rest := s[..|s| - |Tag(c)|];
      assert s == rest + Tag(c);
      (match Parse(rest)
       case Some(inner) => Some(Wrap(c, inner))
       case None => None)
    case None =>
      match LeafNamed(s)
      case Some(k) => Some(Leaf(k))
      case None => None
  }

  /** The last character of a condiment's tag identifies the condiment. */
  function LastOfTag(c: Condiment): char
  {
    Tag(c)[|Tag(c)| - 1]
  }

  /** Different condiments have tags with different last characters. */
  lemma TagsEndDifferently(c: Condiment, d: Condiment)
    requires c != d
    ensures LastOfTag(c) != LastOfTag(d)
  {
  }

  /** A non-empty suffix shares the last character of the string it ends. */
  lemma EndsWithSameLast(s: string, t: string)
    requires |s| > 0 && |t| > 0
    ensures EndsWith(s, t) ==> s[|s| - 1] == t[|t| - 1]
  {
    if EndsWith(s, t) {
      assert s[|s| - 1] == s[|s| - |t|..][|t| - 1];
    }
  }

  /** A string ending in the tag of `c` ends in the tag of no other condiment. */
  lemma TrailingCondimentOfTag(x: string, c: Condiment)
    ensures TrailingCondiment(x + Tag(c)) == Some(c)
  {
    var s := x + Tag(c);
    assert s[|s| - |Tag(c)|..] == Tag(c);
    forall d | d != c
      ensures !EndsWith(s, Tag(d))
    {
      TagsEndDifferently(c, d);
      EndsWithSameLast(s, Tag(d));
    }
  }

  /** No leaf name ends in a condiment's tag, and each names one leaf only. */
  lemma NameHasNoTag(k: Kind)
    ensures TrailingCondiment(Name(k)) == None
    ensures LeafNamed(Name(k)) == Some(k)
  {
    var s := Name(k);
    assert s[|s| - 1] in {'e', 'o'};
    forall c
      ensures !EndsWith(s, Tag(c))
    {
      assert LastOfTag(c) in {'k', 'a', 'y', 'm'};
      EndsWithSameLast(s, Tag(c));
    }
  }

  /** Parsing a description gives back the beverage it describes. */
  lemma {:induction false} ParseDescription(b: Beverage)
    ensures Parse(Description(b)) == Some(b)
  {
    match b
    case Leaf(k) =>
      NameHasNoTag(k);
    case Wrap(c, inner) =>
      var s := Description(b);
      TrailingCondimentOfTag(Description(inner), c);
      assert s[..|s| - |Tag(c)|] == Description(inner);
      ParseDescription(inner);
  }

  /** Two beverages with the same description are the same beverage: the same
      leaf with the same condiments applied in the same order. */
  lemma DescriptionInjective(b1: Beverage, b2: Beverage)
    requires Description(b1) == Description(b2)
    ensures b1 == b2
  {
    ParseDescription(b1);
    ParseDescription(b2);
  }
}
