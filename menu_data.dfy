/**
 * The product catalogue: the sugar and spice enumerations, the five
 * categories with their sixteen items, and `getAllMenuItems`.
 * Prices are whole rupees per kilogram.
 */
module MenuData {
  import opened Outcomes

  datatype SugarOption = WithSugar | WithJaggery | WithPalmSugar | WithoutSugar

  datatype SpiceLevel = LowSpicy | MediumSpicy | ExtraSpicy

  /** The string each sugar option stands for in the storefront. */
  function SugarLabel(o: SugarOption): string {
    match o
    case WithSugar => "With Sugar"
    case WithJaggery => "With Jaggery"
    case WithPalmSugar => "With Palm Sugar"
    case WithoutSugar => "Without Sugar"
  }

  /** The string each spice level stands for in the storefront. */
  function SpiceLabel(l: SpiceLevel): string {
    match l
    case LowSpicy => "Low Spicy"
    case MediumSpicy => "Medium Spicy"
    case ExtraSpicy => "Extra Spicy"
  }

  const SugarOptions: seq<SugarOption> := [WithSugar, WithJaggery, WithPalmSugar, WithoutSugar]

  const SpiceLevels: seq<SpiceLevel> := [LowSpicy, MediumSpicy, ExtraSpicy]

  datatype MenuItem = MenuItem(id: string, name: string, price: nat, category: string, image: Option<string>)

  datatype MenuCategory = MenuCategory(id: string, name: string, description: string, items: seq<MenuItem>)

  const MasalaPowders := MenuCategory(
    "masala-powders", "Masala Powders", "Authentic spice blends ground fresh",
    [ MenuItem("rasam-powder", "Rasam Powder", 650, "masala-powders", Some("/images/products/rasam-powder.jpg")),
      MenuItem("sambar-powder", "Sambar Powder", 600, "masala-powders", Some("/images/products/sambar-powder.png")),
      MenuItem("vangibath-powder", "Vangibath Powder", 600, "masala-powders", Some("/images/products/vangibath-powder.png")),
      MenuItem("bisibelebath-powder", "Bisibelebath Powder", 600, "masala-powders", Some("/images/products/bisibelebath-powder.png")),
      MenuItem("methi-powder", "Methi Powder", 560, "masala-powders", Some("/images/products/methi-powder.png")),
      MenuItem("chutney-powder", "Chutney Powder", 600, "masala-powders", Some("/images/products/chutney-powder.png")),
      MenuItem("puliogare-powder", "Puliogare Gojju - Powder", 600, "masala-powders", Some("/images/products/puliogare-gojju-powder.png")),
      MenuItem("coriander-chutney-powder", "Coriander Seeds Chutney Powder", 550, "masala-powders", Some("/images/products/coriander-seeds-chutney-powder.png")) ])

  const HomemadePickles := MenuCategory(
    "homemade-pickles", "Homemade Pickles", "Traditional recipes, authentic taste",
    [ MenuItem("mango-pickle", "Mango Pickle", 500, "homemade-pickles", Some("/images/products/mango-pickle.png")),
      MenuItem("lemon-pickle", "Lemon Pickle", 500, "homemade-pickles", Some("/images/products/lemon-pickle.png")),
      MenuItem("mixed-vegetable-pickle", "Mixed Vegetable Pickle", 500, "homemade-pickles", Some("/images/products/mixed-vegetable-pickle.png")) ])

  const BabyNutrition := MenuCategory(
    "baby-nutrition", "Baby Nutrition Foods", "Healthy start for little ones",
    [ MenuItem("ragi-seri-dals", "Ragi Seri \U{2013} with dals and pulses", 700, "baby-nutrition", Some("/images/products/ragi-seri-with-dals-and-pulses.png")),
      MenuItem("ragi-seri-dryfruits", "Ragi Seri \U{2013} with dry fruits", 1300, "baby-nutrition", Some("/images/products/ragi-seri-with-dry-fruits.png")) ])

  const AdultPowders := MenuCategory(
    "adult-powders", "Adult Powders", "Nutritious health supplements",
    [ MenuItem("millet-multigrain", "Millet / Multigrain Powder", 700, "adult-powders", Some("/images/products/millet-multigrain-powder.png")),
      MenuItem("ragi-malt", "Ragi Malt", 700, "adult-powders", Some("/images/products/ragi-malt.png")) ])

  const SpecialCare := MenuCategory(
    "special-care", "Special Care Products", "Premium nutrition for special needs",
    [ MenuItem("dryfruit-laddoo", "Dry Fruit Laddoo", 1900, "special-care", Some("/images/products/dry-fruit-laddoo.png")) ])

  const MenuCategories: seq<MenuCategory> := [MasalaPowders, HomemadePickles, BabyNutrition, AdultPowders, SpecialCare]

  /** `flatMap(category => category.items)` */
  function Flatten(categories: seq<MenuCategory>): seq<MenuItem> {
    if categories == [] then [] else categories[0].items + Flatten(categories[1..])
  }

  /** Every item of `Flatten(cs)` comes from some category, and every category's items are in it. */
  lemma {:induction false} FlattenMembers(cs: seq<MenuCategory>)
    ensures forall it :: it in Flatten(cs) <==> exists c :: c in cs && it in c.items
  {
    if cs != [] {
      FlattenMembers(cs[1..]);
      forall it | it in Flatten(cs)
        ensures exists c :: c in cs && it in c.items
      {
        if it in cs[0].items { assert cs[0] in cs; }
        else {
          assert it in Flatten(cs[1..]);
          var c :| c in cs[1..] && it in c.items;
          assert c in cs;
        }
      }
      forall it, c | c in cs && it in c.items
        ensures it in Flatten(cs)
      {
        if c != cs[0] { assert c in cs[1..]; }
      }
    }
  }

  function GetAllMenuItems(): (r: seq<MenuItem>)
    ensures forall it :: it in r <==> exists c :: c in MenuCategories && it in c.items
  {
    FlattenMembers(MenuCategories);
    Flatten(MenuCategories)
  }

  lemma SugarOptionsComplete()
    ensures |SugarOptions| == 4
    ensures forall o: SugarOption :: o in SugarOptions
    ensures forall i, j :: 0 <= i < j < |SugarOptions| ==> SugarOptions[i] != SugarOptions[j]
  {
    forall o: SugarOption ensures o in SugarOptions {
      match o
      case WithSugar => assert SugarOptions[0] == o;
      case WithJaggery => assert SugarOptions[1] == o;
      case WithPalmSugar => assert SugarOptions[2] == o;
      case WithoutSugar => assert SugarOptions[3] == o;
    }
  }

  lemma SpiceLevelsComplete()
    ensures |SpiceLevels| == 3
    ensures forall l: SpiceLevel :: l in SpiceLevels
    ensures forall i, j :: 0 <= i < j < |SpiceLevels| ==> SpiceLevels[i] != SpiceLevels[j]
  {
    forall l: SpiceLevel ensures l in SpiceLevels {
      match l
      case LowSpicy => assert SpiceLevels[0] == l;
      case MediumSpicy => assert SpiceLevels[1] == l;
      case ExtraSpicy => assert SpiceLevels[2] == l;
    }
  }

  /** Distinct options have distinct labels, none of them "default". */
  lemma LabelsDistinct()
    ensures forall a, b :: SugarLabel(a) == SugarLabel(b) ==> a == b
    ensures forall a, b :: SpiceLabel(a) == SpiceLabel(b) ==> a == b
    ensures forall a, b :: SugarLabel(a) != SpiceLabel(b)
    ensures forall a :: SugarLabel(a) != "default"
    ensures forall b :: SpiceLabel(b) != "default"
  {}

  /** `getAllMenuItems` lists the categories' items category by category, in table order. */
  lemma AllItemsInOrder()
    ensures GetAllMenuItems() == MasalaPowders.items + HomemadePickles.items + BabyNutrition.items + AdultPowders.items + SpecialCare.items
    ensures |GetAllMenuItems()| == 16
  {
    var cs := MenuCategories;
    assert cs[1..][1..][1..][1..][1..] == [];
    assert Flatten(cs[1..][1..][1..][1..]) == SpecialCare.items;
    assert Flatten(cs[1..][1..][1..]) == AdultPowders.items + SpecialCare.items;
    assert Flatten(cs[1..][1..]) == BabyNutrition.items + (AdultPowders.items + SpecialCare.items);
    assert Flatten(cs[1..]) == HomemadePickles.items + (BabyNutrition.items + (AdultPowders.items + SpecialCare.items));
  }

  /** Every item of `c` names `c` as its category. */
  predicate HoldsOwnItems(c: MenuCategory) {
    forall i :: 0 <= i < |c.items| ==> c.items[i].category == c.id
  }

  /** Every item of `c` has a positive price. */
  predicate PricedItems(c: MenuCategory) {
    forall i :: 0 <= i < |c.items| ==> c.items[i].price > 0
  }

  lemma EachCategoryHoldsOwnItems()
    ensures HoldsOwnItems(MasalaPowders) && HoldsOwnItems(HomemadePickles)
    ensures HoldsOwnItems(BabyNutrition) && HoldsOwnItems(AdultPowders) && HoldsOwnItems(SpecialCare)
  {
  }

  lemma CategoriesHoldTheirItems()
    ensures forall c, it :: c in MenuCategories && it in c.items ==> it.category == c.id
  {
    EachCategoryHoldsOwnItems();
    forall c, it | c in MenuCategories && it in c.items ensures it.category == c.id {
      assert HoldsOwnItems(c);
      var i :| 0 <= i < |c.items| && c.items[i] == it;
    }
  }

  lemma EachCategoryPriced()
    ensures PricedItems(MasalaPowders) && PricedItems(HomemadePickles)
    ensures PricedItems(BabyNutrition) && PricedItems(AdultPowders) && PricedItems(SpecialCare)
  {
  }

  lemma PricesPositive()
    ensures forall it :: it in GetAllMenuItems() ==> it.price > 0
  {
    EachCategoryPriced();
    forall it | it in GetAllMenuItems() ensures it.price > 0 {
      var c :| c in MenuCategories && it in c.items;
      assert PricedItems(c);
      var i :| 0 <= i < |c.items| && c.items[i] == it;
    }
  }

  lemma ItemIdsDistinct()
    ensures forall i, j :: 0 <= i < j < |GetAllMenuItems()| ==> GetAllMenuItems()[i].id != GetAllMenuItems()[j].id
  {
    AllItemsInOrder();
  }
}
