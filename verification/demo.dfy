/**
 The fixed price table and the compositions `Main` builds,
 stated as facts about the model (costs in cents).
 */
module Demo {
  import opened Beverages
  import opened Chains

  /** Each leaf has its fixed name and price, and no condiment. */
  lemma LeafTable()
    ensures Description(Leaf(HouseBlend)) == "House Blend Coffee" && Cost(Leaf(HouseBlend)) == 180
    ensures Description(Leaf(DarkRoast)) == "Dark Roast Coffee" && Cost(Leaf(DarkRoast)) == 220
    ensures Description(Leaf(Decaf)) == "Decaf Coffee" && Cost(Leaf(Decaf)) == 200
    ensures Description(Leaf(Espresso)) == "Espresso" && Cost(Leaf(Espresso)) == 290
  {
  }

  /** Each condiment adds its fixed label and delta to whatever it wraps. */
  lemma CondimentTable(inner: Beverage)
    ensures Description(Wrap(SteamedMilk, inner)) == Description(inner) + ", Steamed Milk"
    ensures Cost(Wrap(SteamedMilk, inner)) == Cost(inner) + 30
    ensures Description(Wrap(Mocha, inner)) == Description(inner) + ", Mocha"
    ensures Cost(Wrap(Mocha, inner)) == Cost(inner) + 60
    ensures Description(Wrap(Soy, inner)) == Description(inner) + ", Soy"
    ensures Cost(Wrap(Soy, inner)) == Cost(inner) + 45
    ensures Description(Wrap(WhippedCream, inner)) == Description(inner) + ", Whipped Cream"
    ensures Cost(Wrap(WhippedCream, inner)) == Cost(inner) + 30
  {
    assert Tag(SteamedMilk) == ", Steamed Milk";
    assert Tag(Mocha) == ", Mocha";
    assert Tag(Soy) == ", Soy";
    assert Tag(WhippedCream) == ", Whipped Cream";
  }

  /** A house blend, then with steamed milk, then with mocha as well. */
  lemma HouseBlendWithMilkAndMocha()
    ensures Description(Build(HouseBlend, [])) == "House Blend Coffee"
    ensures Cost(Build(HouseBlend, [])) == 180
    ensures Description(Build(HouseBlend, [SteamedMilk])) == "House Blend Coffee, Steamed Milk"
    ensures Cost(Build(HouseBlend, [SteamedMilk])) == 210
    ensures Description(Build(HouseBlend, [SteamedMilk, Mocha])) == "House Blend Coffee, Steamed Milk, Mocha"
    ensures Cost(Build(HouseBlend, [SteamedMilk, Mocha])) == 270
  {
    var plain := Leaf(HouseBlend);
    var milk := Wrap(SteamedMilk, plain);
    assert [SteamedMilk, Mocha][..1] == [SteamedMilk];
    assert Build(HouseBlend, [SteamedMilk]) == milk;
    assert Build(HouseBlend, [SteamedMilk, Mocha]) == Wrap(Mocha, milk);
    assert Description(milk) == "House Blend Coffee" + ", Steamed Milk";
    assert Description(Wrap(Mocha, milk)) == "House Blend Coffee, Steamed Milk" + ", Mocha";
  }

  /** An espresso with soy. */
  lemma EspressoWithSoy()
    ensures Description(Wrap(Soy, Leaf(Espresso))) == "Espresso, Soy"
    ensures Cost(Wrap(Soy, Leaf(Espresso))) == 335
  {
  }

  /** Applying the same condiments the other way round changes the description
      but not the cost. */
  lemma MochaThenMilk()
    ensures Description(Build(HouseBlend, [Mocha, SteamedMilk])) == "House Blend Coffee, Mocha, Steamed Milk"
    ensures Cost(Build(HouseBlend, [Mocha, SteamedMilk])) == Cost(Build(HouseBlend, [SteamedMilk, Mocha]))
  {
    var mocha := Wrap(Mocha, Leaf(HouseBlend));
    assert [Mocha, SteamedMilk][..1] == [Mocha];
    assert [SteamedMilk, Mocha][..1] == [SteamedMilk];
    assert Build(HouseBlend, [Mocha, SteamedMilk]) == Wrap(SteamedMilk, mocha);
    assert Build(HouseBlend, [SteamedMilk, Mocha]) == Wrap(Mocha, Wrap(SteamedMilk, Leaf(HouseBlend)));
    assert Description(mocha) == "House Blend Coffee" + ", Mocha";
    assert Description(Wrap(SteamedMilk, mocha)) == "House Blend Coffee, Mocha" + ", Steamed Milk";
  }
}
