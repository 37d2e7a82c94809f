/**
 * The shopping cart: an ordered list of line items, each keyed by
 * `cartItemId`, the item id joined by a hyphen to the chosen
 * customisation. The list operations are specified by pure functions on
 * `seq<CartItem>`; `Cart` holds the list and its methods replace it the
 * way the storefront's state setter does.
 *
 * Prices and quantities are whole numbers, so the two folds are exact.
 */
module CartContext {
  import opened Outcomes
  import opened MenuData

  /** A catalogue item in the cart, with the options it was added with. */
  datatype CartItem = CartItem(
    item: MenuItem,
    quantity: int,
    sugarOption: Option<SugarOption>,
    spiceLevel: Option<SpiceLevel>,
    cartItemId: string)

  /** The customisation part of the key: the spice level, else the sugar option, else "default". */
  function Customization(sugar: Option<SugarOption>, spice: Option<SpiceLevel>): string {
    if spice.Some? then SpiceLabel(spice.value)
    else if sugar.Some? then SugarLabel(sugar.value)
    else "default"
  }

  function CartItemId(item: MenuItem, sugar: Option<SugarOption>, spice: Option<SpiceLevel>): string {
    item.id + "-" + Customization(sugar, spice)
  }

  predicate HasKey(items: seq<CartItem>, key: string) {
    exists i :: 0 <= i < |items| && items[i].cartItemId == key
  }

  /** No two line items share a key. */
  predicate UniqueKeys(items: seq<CartItem>) {
    forall i, j :: 0 <= i < j < |items| ==> items[i].cartItemId != items[j].cartItemId
  }

  function AddQuantity(e: CartItem, key: string, quantity: int): CartItem {
    if e.cartItemId == key then e.(quantity := e.quantity + quantity) else e
  }

  function WithQuantity(e: CartItem, key: string, quantity: int): CartItem {
    if e.cartItemId == key then e.(quantity := quantity) else e
  }

  /** The list after `addToCart(item, quantity, sugar, spice)`. */
  function AddItem(items: seq<CartItem>, item: MenuItem, quantity: int,
                   sugar: Option<SugarOption>, spice: Option<SpiceLevel>): seq<CartItem>
  {
    var key := CartItemId(item, sugar, spice);
    if HasKey(items, key) then seq(|items|, i requires 0 <= i < |items| => AddQuantity(items[i], key, quantity))
    else items + [CartItem(item, quantity, sugar, spice, key)]
  }

  /** The list after `removeFromCart(key)`: the entries with another key, in order. */
  function Without(items: seq<CartItem>, key: string): seq<CartItem> {
    if items == [] then []
    else
      var front := Without(items[..|items| - 1], key);
      if items[|items| - 1].cartItemId == key then front else front + [items[|items| - 1]]
  }

  /** The list after `updateQuantity(key, quantity)` with a positive quantity. */
  function SetQuantity(items: seq<CartItem>, key: string, quantity: int): seq<CartItem> {
    seq(|items|, i requires 0 <= i < |items| => WithQuantity(items[i], key, quantity))
  }

  /** The list after `updateQuantity(key, quantity)`. */
  function UpdateItems(items: seq<CartItem>, key: string, quantity: int): seq<CartItem> {
    if quantity <= 0 then Without(items, key) else SetQuantity(items, key, quantity)
  }

  /** What one line adds to the total price. */
  function LineTotal(e: CartItem): int { e.item.price * e.quantity }

  /** `getTotalPrice`: the sum of price times quantity, folded from the left. */
  function TotalPrice(items: seq<CartItem>): int {
    if items == [] then 0
    else TotalPrice(items[..|items| - 1]) + LineTotal(items[|items| - 1])
  }

  /** `getTotalItems`: the sum of the quantities, folded from the left. */
  function TotalItems(items: seq<CartItem>): int {
    if items == [] then 0
    else TotalItems(items[..|items| - 1]) + items[|items| - 1].quantity
  }

  /** The cart state and its four updates. */
  class Cart {
    var items: seq<CartItem>

    /** No two lines share a key. */
    predicate Valid()
      reads this
    {
      UniqueKeys(items)
    }

    constructor()
      ensures items == [] && Valid()
    {
      items := [];
    }

    method AddToCart(item: MenuItem, quantity: int, sugar: Option<SugarOption>, spice: Option<SpiceLevel>)
      requires Valid()
      modifies this
      ensures Valid()
      ensures items == AddItem(old(items), item, quantity, sugar, spice)
      ensures TotalItems(items) == TotalItems(old(items)) + quantity
    {
      AddKeepsKeysUnique(items, item, quantity, sugar, spice);
      AddTotalItems(items, item, quantity, sugar, spice);
      items := AddItem(items, item, quantity, sugar, spice);
    }

    method RemoveFromCart(key: string)
      requires Valid()
      modifies this
      ensures Valid()
      ensures items == Without(old(items), key)
      ensures !HasKey(items, key)
    {
      WithoutMembers(items, key);
      WithoutKeepsKeysUnique(items, key);
      items := Without(items, key);
    }

    method UpdateQuantity(key: string, quantity: int)
      requires Valid()
      modifies this
      ensures Valid()
      ensures items == UpdateItems(old(items), key, quantity)
    {
      if quantity <= 0 {
        RemoveFromCart(key);
        return;
      }
      SetQuantityShape(items, key, quantity);
      items := SetQuantity(items, key, quantity);
    }

    method ClearCart()
      modifies this
      ensures items == [] && Valid()
      ensures TotalPrice(items) == 0 && TotalItems(items) == 0
    {
      items := [];
    }

    function GetTotalPrice(): int
      reads this
    {
      TotalPrice(items)
    }

    function GetTotalItems(): int
      reads this
    {
      TotalItems(items)
    }
  }

  // ---------------------------------------------------------------------
  // The key

  /** When a spice level is given the sugar option does not enter the key. */
  lemma SpiceWins(item: MenuItem, sugar: Option<SugarOption>, spice: SpiceLevel)
    ensures CartItemId(item, sugar, Some(spice)) == item.id + "-" + SpiceLabel(spice)
    ensures CartItemId(item, sugar, Some(spice)) == CartItemId(item, None, Some(spice))
  {
  }

  /** The key ends in "default" exactly when neither option is given. */
  lemma DefaultKey(sugar: Option<SugarOption>, spice: Option<SpiceLevel>)
    ensures Customization(sugar, spice) == "default" <==> sugar.None? && spice.None?
  {
    LabelsDistinct();
  }

  /** For one item, different customisations give different keys. */
  lemma KeysSeparateCustomizations(item: MenuItem, s1: Option<SugarOption>, l1: Option<SpiceLevel>,
                                   s2: Option<SugarOption>, l2: Option<SpiceLevel>)
    requires Customization(s1, l1) != Customization(s2, l2)
    ensures CartItemId(item, s1, l1) != CartItemId(item, s2, l2)
  {
    var p := item.id + "-";
    var a, b := CartItemId(item, s1, l1), CartItemId(item, s2, l2);
    assert a[|p|..] == Customization(s1, l1);
    assert b[|p|..] == Customization(s2, l2);
  }

  // ---------------------------------------------------------------------
  // addToCart

  /** An existing key: same length, only that entry's quantity grows, by exactly the added amount. */
  lemma AddExisting(items: seq<CartItem>, item: MenuItem, quantity: int,
                    sugar: Option<SugarOption>, spice: Option<SpiceLevel>)
    requires HasKey(items, CartItemId(item, sugar, spice))
    ensures var r := AddItem(items, item, quantity, sugar, spice);
      |r| == |items|
      && (forall i :: 0 <= i < |items| && items[i].cartItemId != CartItemId(item, sugar, spice) ==> r[i] == items[i])
      && (forall i :: 0 <= i < |items| && items[i].cartItemId == CartItemId(item, sugar, spice) ==>
            r[i] == items[i].(quantity := items[i].quantity + quantity))
  {
  }

  /** A new key: one entry appended at the end, with the given quantity and options. */
  lemma AddNew(items: seq<CartItem>, item: MenuItem, quantity: int,
               sugar: Option<SugarOption>, spice: Option<SpiceLevel>)
    requires !HasKey(items, CartItemId(item, sugar, spice))
    ensures var r := AddItem(items, item, quantity, sugar, spice);
      |r| == |items| + 1 && r[..|items|] == items
      && r[|items|] == CartItem(item, quantity, sugar, spice, CartItemId(item, sugar, spice))
  {
    var r := AddItem(items, item, quantity, sugar, spice);
    assert r[..|items|] == items;
  }

  lemma AddKeepsKeysUnique(items: seq<CartItem>, item: MenuItem, quantity: int,
                           sugar: Option<SugarOption>, spice: Option<SpiceLevel>)
    ensures UniqueKeys(items) ==> UniqueKeys(AddItem(items, item, quantity, sugar, spice))
    ensures HasKey(AddItem(items, item, quantity, sugar, spice), CartItemId(item, sugar, spice))
  {
    var key := CartItemId(item, sugar, spice);
    var r := AddItem(items, item, quantity, sugar, spice);
    if !HasKey(items, key) {
      assert r[|items|].cartItemId == key;
    } else {
      var k :| 0 <= k < |items| && items[k].cartItemId == key;
      assert r[k].cartItemId == key;
    }
  }

  /** Adding raises the item count by the added quantity, whether the key is new or not. */
  lemma AddTotalItems(items: seq<CartItem>, item: MenuItem, quantity: int,
                      sugar: Option<SugarOption>, spice: Option<SpiceLevel>)
    ensures UniqueKeys(items) || !HasKey(items, CartItemId(item, sugar, spice)) ==>
      TotalItems(AddItem(items, item, quantity, sugar, spice)) == TotalItems(items) + quantity
  {
    var key := CartItemId(item, sugar, spice);
    if HasKey(items, key) && UniqueKeys(items) {
      var k :| 0 <= k < |items| && items[k].cartItemId == key;
      var r := AddItem(items, item, quantity, sugar, spice);
      BumpTotals(items, key, k, quantity);
    }
  }

  /** With a new key the total price grows by the item's price times the quantity. */
  lemma AddNewTotalPrice(items: seq<CartItem>, item: MenuItem, quantity: int,
                         sugar: Option<SugarOption>, spice: Option<SpiceLevel>)
    requires !HasKey(items, CartItemId(item, sugar, spice))
    ensures TotalPrice(AddItem(items, item, quantity, sugar, spice)) == TotalPrice(items) + item.price * quantity
  {
    var r := AddItem(items, item, quantity, sugar, spice);
    assert r[..|r| - 1] == items;
  }

  /** With an existing key the total price grows by that entry's price times the quantity. */
  lemma AddExistingTotalPrice(items: seq<CartItem>, item: MenuItem, quantity: int,
                              sugar: Option<SugarOption>, spice: Option<SpiceLevel>, k: nat)
    requires UniqueKeys(items) && k < |items| && items[k].cartItemId == CartItemId(item, sugar, spice)
    ensures TotalPrice(AddItem(items, item, quantity, sugar, spice)) == TotalPrice(items) + items[k].item.price * quantity
  {
    BumpTotals(items, CartItemId(item, sugar, spice), k, quantity);
  }

  /** Bumping the single entry with `key` moves both folds by that entry's share. */
  lemma {:induction false} BumpTotals(items: seq<CartItem>, key: string, k: nat, quantity: int)
    requires UniqueKeys(items) && k < |items| && items[k].cartItemId == key
    ensures var r := seq(|items|, i requires 0 <= i < |items| => AddQuantity(items[i], key, quantity));
      TotalItems(r) == TotalItems(items) + quantity
      && TotalPrice(r) == TotalPrice(items) + items[k].item.price * quantity
    decreases |items|
  {
    var r := seq(|items|, i requires 0 <= i < |items| => AddQuantity(items[i], key, quantity));
    var n := |items| - 1;
    var front := items[..n];
    var rf := seq(|front|, i requires 0 <= i < |front| => AddQuantity(front[i], key, quantity));
    assert r[..n] == rf;
    if k == n {
      assert !HasKey(front, key);
      NoKeyUnchanged(front, key, quantity);
    } else {
      BumpTotals(front, key, k, quantity);
    }
  }

  lemma NoKeyUnchanged(items: seq<CartItem>, key: string, quantity: int)
    requires !HasKey(items, key)
    ensures seq(|items|, i requires 0 <= i < |items| => AddQuantity(items[i], key, quantity)) == items
    ensures SetQuantity(items, key, quantity) == items
  {
  }

  // ---------------------------------------------------------------------
  // removeFromCart and updateQuantity

  /** `removeFromCart` keeps exactly the entries with another key. */
  lemma {:induction false} WithoutMembers(items: seq<CartItem>, key: string)
    ensures forall e :: e in Without(items, key) <==> e in items && e.cartItemId != key
    ensures !HasKey(Without(items, key), key)
    ensures |Without(items, key)| <= |items|
    decreases |items|
  {
    if items != [] {
      WithoutMembers(items[..|items| - 1], key);
      assert items == items[..|items| - 1] + [items[|items| - 1]];
    }
  }

  /** Removing an absent key changes nothing. */
  lemma {:induction false} WithoutAbsent(items: seq<CartItem>, key: string)
    requires !HasKey(items, key)
    ensures Without(items, key) == items
    decreases |items|
  {
    if items != [] {
      var front := items[..|items| - 1];
      forall i | 0 <= i < |front| ensures front[i].cartItemId != key {
        assert front[i] == items[i];
      }
      WithoutAbsent(front, key);
    }
  }

  /** Removal works piecewise, so the kept entries stay in their order. */
  lemma {:induction false} WithoutConcat(a: seq<CartItem>, b: seq<CartItem>, key: string)
    ensures Without(a + b, key) == Without(a, key) + Without(b, key)
    decreases |b|
  {
    if b == [] {
      assert a + b == a;
    } else {
      var n := |b| - 1;
      assert (a + b)[..|a + b| - 1] == a + b[..n];
      WithoutConcat(a, b[..n], key);
    }
  }

  /** With unique keys, removing a present key shortens the list by one and lowers the totals by that entry's share. */
  lemma RemovePresent(items: seq<CartItem>, key: string, k: nat)
    requires UniqueKeys(items) && k < |items| && items[k].cartItemId == key
    ensures Without(items, key) == items[..k] + items[k + 1..]
    ensures TotalItems(Without(items, key)) == TotalItems(items) - items[k].quantity
    ensures TotalPrice(Without(items, key)) == TotalPrice(items) - items[k].item.price * items[k].quantity
  {
    var a, b := items[..k], items[k + 1..];
    assert items == a + [items[k]] + b;
    OthersKeyless(items, key, k);
    WithoutConcat(a + [items[k]], b, key);
    WithoutConcat(a, [items[k]], key);
    WithoutAbsent(a, key);
    WithoutAbsent(b, key);
    assert Without([items[k]], key) == [];
    TotalsConcat(a + [items[k]], b);
    TotalsConcat(a, b);
  }

  /** With unique keys, the entries before and after the one with `key` do not have it. */
  lemma OthersKeyless(items: seq<CartItem>, key: string, k: nat)
    requires UniqueKeys(items) && k < |items| && items[k].cartItemId == key
    ensures !HasKey(items[..k], key) && !HasKey(items[k + 1..], key)
  {
    var a, b := items[..k], items[k + 1..];
    forall i | 0 <= i < |a| ensures a[i].cartItemId != key {
      assert a[i] == items[i];
    }
    forall i | 0 <= i < |b| ensures b[i].cartItemId != key {
      assert b[i] == items[k + 1 + i];
    }
  }

  lemma WithoutKeepsKeysUnique(items: seq<CartItem>, key: string)
    ensures UniqueKeys(items) ==> UniqueKeys(Without(items, key))
  {
    if UniqueKeys(items) {
      if HasKey(items, key) {
        var k :| 0 <= k < |items| && items[k].cartItemId == key;
        RemovePresent(items, key, k);
      } else {
        WithoutAbsent(items, key);
      }
    }
  }

  /** A positive update keeps the keys and order and sets the matching entry's quantity. */
  lemma SetQuantityShape(items: seq<CartItem>, key: string, quantity: int)
    ensures var r := SetQuantity(items, key, quantity);
      |r| == |items|
      && (forall i :: 0 <= i < |items| ==> r[i].cartItemId == items[i].cartItemId)
      && (forall i :: 0 <= i < |items| && items[i].cartItemId == key ==> r[i].quantity == quantity)
      && (forall i :: 0 <= i < |items| && items[i].cartItemId != key ==> r[i] == items[i])
      && (UniqueKeys(items) ==> UniqueKeys(r))
  {
  }

  /** `updateQuantity` with zero or less is `removeFromCart`. */
  lemma UpdateNonPositiveRemoves(items: seq<CartItem>, key: string, quantity: int)
    requires quantity <= 0
    ensures UpdateItems(items, key, quantity) == Without(items, key)
    ensures !HasKey(UpdateItems(items, key, quantity), key)
  {
    WithoutMembers(items, key);
  }

  /** With unique keys, a positive update moves the totals from the old quantity to the new one. */
  lemma UpdateTotals(items: seq<CartItem>, key: string, k: nat, quantity: int)
    requires UniqueKeys(items) && k < |items| && items[k].cartItemId == key && quantity > 0
    ensures TotalItems(UpdateItems(items, key, quantity)) == TotalItems(items) - items[k].quantity + quantity
    ensures TotalPrice(UpdateItems(items, key, quantity))
      == TotalPrice(items) + items[k].item.price * (quantity - items[k].quantity)
  {
    SetQuantitySplit(items, key, k, quantity);
    ReplaceLineTotals(items, k, quantity);
  }

  /** Changing one line's quantity moves the totals by that line's share. */
  lemma ReplaceLineTotals(items: seq<CartItem>, k: nat, quantity: int)
    requires k < |items|
    ensures var r := items[..k] + [items[k].(quantity := quantity)] + items[k + 1..];
      TotalItems(r) == TotalItems(items) - items[k].quantity + quantity
      && TotalPrice(r) == TotalPrice(items) + items[k].item.price * (quantity - items[k].quantity)
  {
    var a, e, b := items[..k], items[k], items[k + 1..];
    assert items == a + [e] + b;
    TotalsAround(a, e, b);
    TotalsAround(a, e.(quantity := quantity), b);
    LineTotalChange(e, quantity);
  }

  lemma LineTotalChange(e: CartItem, quantity: int)
    ensures LineTotal(e.(quantity := quantity)) == LineTotal(e) + e.item.price * (quantity - e.quantity)
  {
    var p := e.item.price;
    assert p * (quantity - e.quantity) == p * quantity - p * e.quantity;
  }

  /** The totals of a list with one line singled out. */
  lemma TotalsAround(a: seq<CartItem>, e: CartItem, b: seq<CartItem>)
    ensures TotalPrice(a + [e] + b) == TotalPrice(a) + LineTotal(e) + TotalPrice(b)
    ensures TotalItems(a + [e] + b) == TotalItems(a) + e.quantity + TotalItems(b)
  {
    TotalsConcat(a + [e], b);
    TotalsConcat(a, [e]);
    assert [e][..0] == [];
  }

  /** With unique keys, a positive update replaces just the one entry. */
  lemma SetQuantitySplit(items: seq<CartItem>, key: string, k: nat, quantity: int)
    requires UniqueKeys(items) && k < |items| && items[k].cartItemId == key
    ensures SetQuantity(items, key, quantity) == items[..k] + [items[k].(quantity := quantity)] + items[k + 1..]
  {
    OthersKeyless(items, key, k);
    NoKeyUnchanged(items[..k], key, quantity);
    NoKeyUnchanged(items[k + 1..], key, quantity);
    var r := SetQuantity(items, key, quantity);
    var a, b := items[..k], items[k + 1..];
    assert r[..k] == SetQuantity(a, key, quantity);
    assert r[k + 1..] == SetQuantity(b, key, quantity);
    assert r == r[..k] + [r[k]] + r[k + 1..];
  }

  // ---------------------------------------------------------------------
  // The folds

  /** Both folds add up over concatenation. */
  lemma {:induction false} TotalsConcat(a: seq<CartItem>, b: seq<CartItem>)
    ensures TotalPrice(a + b) == TotalPrice(a) + TotalPrice(b)
    ensures TotalItems(a + b) == TotalItems(a) + TotalItems(b)
    decreases |b|
  {
    if b == [] {
      assert a + b == a;
    } else {
      var n := |b| - 1;
      assert (a + b)[..|a + b| - 1] == a + b[..n];
      TotalsConcat(a, b[..n]);
    }
  }

  /** A cart is the lines before a position, the line there, and the lines after it. */
  lemma SplitAround(s: seq<CartItem>, k: nat)
    requires k < |s|
    ensures s == s[..k] + [s[k]] + s[k + 1..]
    ensures multiset(s[..k] + s[k + 1..]) == multiset(s) - multiset{s[k]}
  {
    assert s == s[..k] + [s[k]] + s[k + 1..];
  }

  /** A line that occurs in a cart occurs at some position. */
  lemma PositionOf(s: seq<CartItem>, e: CartItem) returns (k: nat)
    requires e in multiset(s)
    ensures k < |s| && s[k] == e
  {
    k :| 0 <= k < |s| && s[k] == e;
  }

  /** Taking one line out of a cart takes its share out of the totals. */
  lemma TotalsWithout(s: seq<CartItem>, k: nat)
    requires k < |s|
    ensures TotalPrice(s) == TotalPrice(s[..k] + s[k + 1..]) + LineTotal(s[k])
    ensures TotalItems(s) == TotalItems(s[..k] + s[k + 1..]) + s[k].quantity
  {
    SplitAround(s, k);
    TotalsAround(s[..k], s[k], s[k + 1..]);
    TotalsConcat(s[..k], s[k + 1..]);
  }

  /** Removing the last line of one cart and a copy of it from an equal-multiset cart leaves equal multisets. */
  lemma RemoveMatching(a: seq<CartItem>, b: seq<CartItem>, k: nat)
    requires a != [] && k < |b| && b[k] == a[|a| - 1]
    requires multiset(a) == multiset(b)
    ensures multiset(a[..|a| - 1]) == multiset(b[..k] + b[k + 1..])
  {
    var n := |a| - 1;
    SplitAround(a, n);
    assert a[..n] + a[n + 1..] == a[..n];
    SplitAround(b, k);
  }

  /** If the rests have equal totals, so have the carts the matching lines were taken from. */
  lemma TotalsStep(a: seq<CartItem>, b: seq<CartItem>, k: nat)
    requires a != [] && k < |b| && b[k] == a[|a| - 1]
    requires TotalPrice(a[..|a| - 1]) == TotalPrice(b[..k] + b[k + 1..])
    requires TotalItems(a[..|a| - 1]) == TotalItems(b[..k] + b[k + 1..])
    ensures TotalPrice(a) == TotalPrice(b) && TotalItems(a) == TotalItems(b)
  {
    TotalsWithout(b, k);
  }

  /** The totals do not depend on the order of the lines. */
  lemma {:induction false} TotalsPermutation(a: seq<CartItem>, b: seq<CartItem>)
    requires multiset(a) == multiset(b)
    ensures TotalPrice(a) == TotalPrice(b)
    ensures TotalItems(a) == TotalItems(b)
    decreases |a|
  {
    if a != [] {
      var k := PositionOf(b, a[|a| - 1]);
      RemoveMatching(a, b, k);
      TotalsPermutation(a[..|a| - 1], b[..k] + b[k + 1..]);
      TotalsStep(a, b, k);
    }
  }

  /** Lines with positive prices and quantities give positive totals. */
  lemma {:induction false} TotalsPositive(items: seq<CartItem>)
    requires forall i :: 0 <= i < |items| ==> items[i].quantity > 0 && items[i].item.price > 0
    ensures items != [] ==> TotalItems(items) >= |items| && TotalPrice(items) > 0
    ensures TotalItems(items) >= 0 && TotalPrice(items) >= 0
    decreases |items|
  {
    if items != [] {
      TotalsPositive(items[..|items| - 1]);
    }
  }
}
