/**
 * A product card's selection state: the quantity to add, clamped to 1..10,
 * and the sugar or spice choice that becomes part of the cart key.
 */
module ProductCard {
  import opened Outcomes
  import opened MenuData
  import opened CartContext

  /** The categories whose cards offer a spice level. */
  const SpiceCategories: seq<string> := ["masala-powders", "homemade-pickles"]

  const MaxQuantity := 10

  /** `shouldShowSpiceSelection` */
  predicate ShouldShowSpiceSelection(category: string) {
    category in SpiceCategories
  }

  /** `shouldShowSugarSelection` */
  predicate ShouldShowSugarSelection(category: string) {
    !ShouldShowSpiceSelection(category)
  }

  /** The customisation `handleAddToCart` passes for an item of `category`: exactly one of the two. */
  function ChosenOptions(category: string, sugar: SugarOption, spice: SpiceLevel): (r: (Option<SugarOption>, Option<SpiceLevel>))
    ensures r.1.Some? <==> ShouldShowSpiceSelection(category)
    ensures r.0.Some? <==> ShouldShowSugarSelection(category)
    ensures r.0.Some? ==> r.0.value == sugar
    ensures r.1.Some? ==> r.1.value == spice
  {
    if ShouldShowSpiceSelection(category) then (None, Some(spice)) else (Some(sugar), None)
  }

  /**
   * The key a card adds under names its category's choice and is never the
   * "default" one.
   */
  lemma CardKey(item: MenuItem, sugar: SugarOption, spice: SpiceLevel)
    ensures var (s, l) := ChosenOptions(item.category, sugar, spice);
      CartItemId(item, s, l)
        == item.id + "-" + (if ShouldShowSpiceSelection(item.category) then SpiceLabel(spice) else SugarLabel(sugar))
      && Customization(s, l) != "default"
  {
    var (s, l) := ChosenOptions(item.category, sugar, spice);
    DefaultKey(s, l);
  }

  /** In the catalogue, masala powders and pickles get a spice choice and every other item a sugar choice. */
  lemma CatalogueChoices()
    ensures forall it :: it in MasalaPowders.items + HomemadePickles.items ==> ShouldShowSpiceSelection(it.category)
    ensures forall it :: it in BabyNutrition.items + AdultPowders.items + SpecialCare.items ==> ShouldShowSugarSelection(it.category)
  {
    EachCategoryHoldsOwnItems();
    assert SpiceCategories[0] == MasalaPowders.id && SpiceCategories[1] == HomemadePickles.id;
    forall it | it in MasalaPowders.items + HomemadePickles.items
      ensures it.category in [MasalaPowders.id, HomemadePickles.id]
    {
      if it in MasalaPowders.items {
        var i :| 0 <= i < |MasalaPowders.items| && MasalaPowders.items[i] == it;
      } else {
        var i :| 0 <= i < |HomemadePickles.items| && HomemadePickles.items[i] == it;
      }
    }
    forall it | it in BabyNutrition.items + AdultPowders.items + SpecialCare.items
      ensures it.category in [BabyNutrition.id, AdultPowders.id, SpecialCare.id]
    {
      if it in BabyNutrition.items {
        var i :| 0 <= i < |BabyNutrition.items| && BabyNutrition.items[i] == it;
      } else if it in AdultPowders.items {
        var i :| 0 <= i < |AdultPowders.items| && AdultPowders.items[i] == it;
      } else {
        var i :| 0 <= i < |SpecialCare.items| && SpecialCare.items[i] == it;
      }
    }
  }

  function Min(a: int, b: int): int { if a < b then a else b }

  function Max(a: int, b: int): int { if a < b then b else a }

  class ProductCard {
    const item: MenuItem
    var quantity: int
    var sugarOption: SugarOption
    var spiceLevel: SpiceLevel

    /** The quantity stays between 1 and 10. */
    predicate Valid()
      reads this
    {
      1 <= quantity <= MaxQuantity
    }

    /** The defaults: one unit, "With Sugar", "Medium Spicy". */
    constructor(item: MenuItem)
      ensures this.item == item && quantity == 1
      ensures sugarOption == WithSugar && spiceLevel == MediumSpicy
      ensures Valid()
    {
      this.item := item;
      quantity := 1;
      sugarOption := WithSugar;
      spiceLevel := MediumSpicy;
    }

    /** `incrementQuantity`: one more, up to 10. */
    method IncrementQuantity()
      requires Valid()
      modifies this
      ensures Valid()
      ensures quantity == Min(old(quantity) + 1, MaxQuantity)
      ensures old(quantity) < MaxQuantity ==> quantity == old(quantity) + 1
      ensures sugarOption == old(sugarOption) && spiceLevel == old(spiceLevel)
    {
      quantity := Min(quantity + 1, MaxQuantity);
    }

    /** `decrementQuantity`: one fewer, down to 1. */
    method DecrementQuantity()
      requires Valid()
      modifies this
      ensures Valid()
      ensures quantity == Max(old(quantity) - 1, 1)
      ensures old(quantity) > 1 ==> quantity == old(quantity) - 1
      ensures sugarOption == old(sugarOption) && spiceLevel == old(spiceLevel)
    {
      quantity := Max(quantity - 1, 1);
    }

    method SelectSugarOption(option: SugarOption)
      modifies this
      ensures sugarOption == option && quantity == old(quantity) && spiceLevel == old(spiceLevel)
    {
      sugarOption := option;
    }

    method SelectSpiceLevel(level: SpiceLevel)
      modifies this
      ensures spiceLevel == level && quantity == old(quantity) && sugarOption == old(sugarOption)
    {
      spiceLevel := level;
    }

    /** `handleAddToCart`: add the chosen quantity under the category's choice, then reset the quantity to 1. */
    method HandleAddToCart(cart: Cart)
      requires Valid() && cart.Valid()
      modifies this, cart
      ensures Valid() && quantity == 1 && cart.Valid()
      ensures sugarOption == old(sugarOption) && spiceLevel == old(spiceLevel)
      ensures var (s, l) := ChosenOptions(item.category, old(sugarOption), old(spiceLevel));
        cart.items == AddItem(old(cart.items), item, old(quantity), s, l)
      ensures TotalItems(cart.items) == TotalItems(old(cart.items)) + old(quantity)
    {
      var (s, l) := ChosenOptions(item.category, sugarOption, spiceLevel);
      cart.AddToCart(item, quantity, s, l);
      quantity := 1;
    }
  }
}
