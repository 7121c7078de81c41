# Beverage decorators, in Dafny

This project models the beverage pricing demo of `Program.cs`. There are four leaf
beverages: House Blend Coffee, Dark Roast Coffee, Decaf Coffee and Espresso. Each
has a fixed description and a fixed price. There are four condiment decorators:
Steamed Milk, Mocha, Soy and Whipped Cream. Each wraps exactly one inner beverage.
A decorator's description is the inner description followed by `", <label>"`, and
its cost is the inner cost plus a fixed delta.

The interface, the abstract decorator and the eight concrete classes become one
closed recursive datatype, `Beverage = Leaf(Kind) | Wrap(Condiment, inner)`. The
virtual `GetDescription` and `Cost` become the structurally recursive functions
`Description` and `Cost`. Prices are exact integer cents. The leaf prices are 180,
220, 200 and 290, and the deltas are +30, +60, +45 and +30.

Every delta in the code is strictly positive, so wrapping always strictly
increases the cost.

Modules:
- `Beverages` (beverages.dfy): the price and label tables, the datatype,
  `Description`, `Cost`, and the single-wrap and whole-chain monotonicity facts.
- `Chains` (chains.dfy): a beverage seen as its leaf plus the list of condiments,
  innermost first. It covers taking a beverage apart and building it back, the
  cost as price plus the sum of the deltas in any order, and the description as
  the name followed by the labels in wrap order.
- `Parsing` (parsing.dfy): reads a beverage back from its description. This
  proves that the description records the leaf and the exact order of the
  condiments, so two different beverages never share a description.
- `Demo` (demo.dfy): the price table and the compositions built by `Main`,
  stated as lemmas.

## Model

| member | source | states |
|---|---|---|
| `Beverages.Name` | Program.cs:13-57 | each leaf's fixed description is non-empty and contains no comma |
| `Beverages.Price` | Program.cs:18-63 | each leaf's fixed price is positive |
| `Beverages.Label` | Program.cs:89-140 | each condiment's label is non-empty and contains no comma; `Beverages.Tag`, the text a condiment appends, is `", "` followed by this label |
| `Beverages.Delta` | Program.cs:94-145 | every condiment adds at least 30 cents, so every delta is positive |
| `Beverages.Description` | Program.cs:89-140 | any beverage's description starts with its leaf's name and grows by at least three characters per wrap |
| `Beverages.Cost` | Program.cs:94-145 | any beverage costs at least its leaf's price plus 30 cents per wrap |
| `Beverages.WrapDescription` | Program.cs:89-140 | a wrapper's description is the inner description, `", "` and its label, so the inner description is a proper prefix of it |
| `Beverages.WrapCost` | Program.cs:94-145 | a wrapper costs the inner cost plus its delta, so wrapping strictly increases the cost |
| `Beverages.WithinMonotone` | Program.cs:85-146 | along a chain of wraps, each inner beverage's description is a prefix of the outer one's and its cost is no larger; both are strict when the two differ |
| `Chains.Condiments` | Program.cs:67-74 | a beverage has exactly one condiment per wrap around its leaf |
| `Chains.Build` | Program.cs:154-166 | wrapping leaf `k` in the condiments `cs`, one after another, gives a beverage whose leaf is `k` and whose condiments are exactly `cs` in that order |
| `Chains.BuildDecomposed` | Program.cs:67-74 | every beverage is rebuilt exactly from its leaf and its list of condiments |
| `Chains.SumDeltas` | Program.cs:94-145 | a list of condiments adds at least 30 cents per condiment |
| `Chains.CostIsPricePlusDeltas` | Program.cs:94-145 | any chain costs its leaf's price plus the sum of the applied deltas |
| `Chains.SumDeltasByCounts` | Program.cs:94-145 | the sum of the deltas depends only on how many of each condiment were applied |
| `Chains.SumDeltasPermutation` | Program.cs:94-145 | reordering a list of condiments does not change the sum of their deltas |
| `Chains.CostOrderIndependent` | Program.cs:94-145 | two chains over the same leaf with the same multiset of condiments cost the same, whatever the wrap order |
| `Chains.DescriptionIsNameThenLabels` | Program.cs:89-140 | any chain's description is its leaf's name followed by `", <label>"` for each condiment, innermost first |
| `Chains.ExtendChain` | Program.cs:154-163 | wrapping a built drink in more condiments appends their labels to its description and adds exactly their deltas to its cost, which strictly grows |
| `Parsing.TrailingCondiment` | Program.cs:89-140 | finds the condiment whose `", <label>"` ends a string, or reports that none does |
| `Parsing.LeafNamed` | Program.cs:13-57 | finds the leaf whose name is exactly a string, or reports that none is |
| `Parsing.Parse` | Program.cs:89-140 | any beverage read back from a string has that string as its description |
| `Parsing.ParseDescription` | Program.cs:89-140 | reading back any beverage's description gives that same beverage |
| `Parsing.DescriptionInjective` | Program.cs:89-140 | two beverages with the same description are equal: same leaf, same condiments, same order |
| `Demo.LeafTable` | Program.cs:13-63 | House Blend Coffee/180, Dark Roast Coffee/220, Decaf Coffee/200, Espresso/290 |
| `Demo.CondimentTable` | Program.cs:89-145 | Steamed Milk/+30, Mocha/+60, Soy/+45, Whipped Cream/+30, with their exact description suffixes |
| `Demo.HouseBlendWithMilkAndMocha` | Program.cs:154-163 | a house blend costs 180; with steamed milk it is "House Blend Coffee, Steamed Milk" at 210; with mocha added it is "House Blend Coffee, Steamed Milk, Mocha" at 270 |
| `Demo.EspressoWithSoy` | Program.cs:166-167 | an espresso with soy is "Espresso, Soy" at 335 |
| `Demo.MochaThenMilk` | Program.cs:94-145 | the same two condiments in the other order give a different description and the same cost |

## Left out

- Console output in `Main` (Program.cs:155-167). This is I/O, and it formats a `double` in a culture-dependent way.
- IEEE `double` prices (Program.cs:7, 20, 96 and the like). Prices are exact integer cents. Double rounding is not reproduced, so for example 1.80 + 0.30 is exactly 210 cents here.
- Class inheritance, virtual dispatch and the unused default `CondimentDecorator.GetDescription` (Program.cs:67-82). A closed datatype with pattern matching replaces them.
- A null inner beverage (Program.cs:71-74). The constructor does not check for one. The datatype cannot express it.
- Chains.CostOrderIndependent and Demo.MochaThenMilk: order independence holds for exact cents only. The program's `double` sums can differ in the last place depending on wrap order: `new SteamedMilk(new Mocha(new HouseBlend())).Cost()` evaluates (1.80 + 0.60) + 0.30 = 2.6999999999999997, while `new Mocha(new SteamedMilk(new HouseBlend())).Cost()` evaluates (1.80 + 0.30) + 0.60 = 2.7.
- Repeated calls returning the same result. `Description` and `Cost` are pure functions, so this holds by construction and is not stated separately.
