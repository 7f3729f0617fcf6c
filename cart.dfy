/** The cart ledger (`src/store/useCartStore.ts`): an ordered list of (product,
    quantity) entries, at most one per product id, whose two totals are recomputed
    from the whole list after every change. The list edits are pure functions; the
    store is a class whose single field `cart` each action replaces. */
module CartLedger {
  import opened Common
  import opened Types

  /** The cart a new store starts with and that `clearCart` restores. */
  const InitialCart: Cart := Cart([], 0, 0)

  /** `items.reduce((total, item) => total + item.quantity, 0)`. */
  function TotalItems(items: seq<CartItem>): int {
    if items == [] then 0 else items[0].quantity + TotalItems(items[1..])
  }

  /** A cart whose entries each hold at least one unit holds at least one unit per
      entry, so a non-empty cart never reports zero items. */
  lemma {:induction false} TotalItemsCountsEntries(items: seq<CartItem>)
    requires AllPositive(items)
    ensures TotalItems(items) >= |items|
  {
    if items != [] {
      TotalItemsCountsEntries(items[1..]);
    }
  }

  /** What one entry adds to `totalAmount`: `(discountPrice || price) * quantity`. */
  function LineAmount(item: CartItem): int {
    EffectivePrice(item.product) * item.quantity
  }

  /** `items.reduce((total, item) => total + (discountPrice || price) * quantity, 0)`. */
  function TotalAmount(items: seq<CartItem>): int {
    if items == [] then 0 else LineAmount(items[0]) + TotalAmount(items[1..])
  }

  /** No entry costs less than nothing, so neither does the cart. */
  lemma {:induction false} TotalAmountNonNegative(items: seq<CartItem>)
    requires forall k :: 0 <= k < |items| ==> LineAmount(items[k]) >= 0
    ensures TotalAmount(items) >= 0
  {
    if items != [] {
      TotalAmountNonNegative(items[1..]);
    }
  }

  /** The snapshot every action stores: the items with both totals recomputed; an empty
      list gives the initial cart. */
  function WithTotals(items: seq<CartItem>): (c: Cart)
    ensures c.items == items
    ensures items == [] ==> c == InitialCart
  {
    Cart(items, TotalAmount(items), TotalItems(items))
  }

  /** No two entries share a product id. */
  ghost predicate UniqueIds(items: seq<CartItem>) {
    forall i, j :: 0 <= i < j < |items| ==> items[i].product.id != items[j].product.id
  }

  /** Every entry holds at least one unit. */
  ghost predicate AllPositive(items: seq<CartItem>) {
    forall k :: 0 <= k < |items| ==> items[k].quantity > 0
  }

  /** `cart.items.findIndex((item) => item.product.id === id)`. */
  function IndexOf(items: seq<CartItem>, id: string): (r: int)
    ensures -1 <= r < |items|
    ensures r == -1 <==> forall k :: 0 <= k < |items| ==> items[k].product.id != id
    ensures 0 <= r ==> items[r].product.id == id && forall k :: 0 <= k < r ==> items[k].product.id != id
  {
    FirstMatch(items, (item: CartItem) => item.product.id == id)
  }

  /** An index whose id matches while no earlier one does is the one `IndexOf` finds. */
  lemma IndexOfAt(items: seq<CartItem>, id: string, i: int)
    requires 0 <= i < |items| && items[i].product.id == id
    requires forall k :: 0 <= k < i ==> items[k].product.id != id
    ensures IndexOf(items, id) == i
  {

  }

  /** Quantity held for `id` (its first entry), 0 when the id is absent. */
  function QuantityOf(items: seq<CartItem>, id: string): int {
    var i := IndexOf(items, id);
    if i < 0 then 0 else items[i].quantity
  }

  /** What the entry for `id` (its first one) adds to `totalAmount`, 0 when absent. */
  function AmountOf(items: seq<CartItem>, id: string): int {
    var i := IndexOf(items, id);
    if i < 0 then 0 else LineAmount(items[i])
  }

  /** The item list `addToCart` builds: an existing entry for the product's id keeps its
      product and place and gains `quantity` units (whatever the sign of `quantity`);
      otherwise `{product, quantity}` is appended. */
  function AddItems(items: seq<CartItem>, product: Product, quantity: int): (r: seq<CartItem>)
    ensures |r| == if IndexOf(items, product.id) < 0 then |items| + 1 else |items|
    ensures forall k :: 0 <= k < |items| ==> r[k].product == items[k].product
    ensures forall k :: 0 <= k < |items| && items[k].product.id != product.id ==> r[k] == items[k]
  {
    var i := IndexOf(items, product.id);
    if i >= 0 then items[i := CartItem(items[i].product, items[i].quantity + quantity)]
    else items + [CartItem(product, quantity)]
  }

  /** After an add the product's id is in the list, holding its old quantity (0 when it
      was absent) plus `quantity`. */
  lemma AddItemsHoldsSum(items: seq<CartItem>, product: Product, quantity: int)
    ensures IndexOf(AddItems(items, product, quantity), product.id) >= 0
    ensures QuantityOf(AddItems(items, product, quantity), product.id) == QuantityOf(items, product.id) + quantity
  {
    var i := IndexOf(items, product.id);
    var r := AddItems(items, product, quantity);
    if i >= 0 {
      IndexOfAt(r, product.id, i);
    } else {
      IndexOfAt(r, product.id, |items|);
    }
  }

  /** The item list `removeFromCart` builds: every entry with another id, in order. */
  function RemoveItems(items: seq<CartItem>, id: string): (r: seq<CartItem>)
    ensures IsSubsequence(r, items)
    ensures forall x :: x in r <==> x in items && x.product.id != id
    ensures forall x {:trigger multiset(r)[x]} ::
      multiset(r)[x] == if x.product.id != id then multiset(items)[x] else 0
    ensures IndexOf(items, id) == -1 ==> r == items
  {
    Select(items, (item: CartItem) => item.product.id != id)
  }

  /** The item list `updateQuantity` builds for a positive quantity: each entry with
      that id has its quantity set to `quantity`; entries, products and order are kept. */
  function UpdateItems(items: seq<CartItem>, id: string, quantity: int): (r: seq<CartItem>)
    ensures |r| == |items|
    ensures forall k :: 0 <= k < |items| ==> r[k].product == items[k].product
    ensures forall k :: 0 <= k < |items| ==>
      r[k].quantity == if items[k].product.id == id then quantity else items[k].quantity
  {
    seq(|items|, k requires 0 <= k < |items| =>
      if items[k].product.id == id then CartItem(items[k].product, quantity) else items[k])
  }

  /** Writing one position twice keeps the second write. */
  lemma UpdateTwice<T>(s: seq<T>, i: nat, a: T, b: T)
    requires i < |s|
    ensures s[i := a][i := b] == s[i := b]
  {
  }

  /** Rewriting the element just appended is appending the new one. */
  lemma UpdateAppended<T>(s: seq<T>, a: T, b: T)
    ensures (s + [a])[|s| := b] == s + [b]
  {
    assert (s + [a])[|s| := b][..|s|] == s;
  }

  /** Unfolds `AddItems` for the case where the product's id is at `i`; a step for the
      proofs below, not a property of its own. */
  lemma AddItemsPresent(items: seq<CartItem>, product: Product, quantity: int, i: nat)
    requires i < |items| && IndexOf(items, product.id) == i
    ensures AddItems(items, product, quantity) == items[i := CartItem(items[i].product, items[i].quantity + quantity)]
  {
  }

  /** Unfolds `AddItems` for the case where the product's id is absent; a step for the
      proofs below, not a property of its own. */
  lemma AddItemsAbsent(items: seq<CartItem>, product: Product, quantity: int)
    requires IndexOf(items, product.id) < 0
    ensures AddItems(items, product, quantity) == items + [CartItem(product, quantity)]
  {
  }

  // ---------------------------------------------------------------------------
  // Totals

  lemma {:induction false} TotalsOfConcat(a: seq<CartItem>, b: seq<CartItem>)
    ensures TotalItems(a + b) == TotalItems(a) + TotalItems(b)
    ensures TotalAmount(a + b) == TotalAmount(a) + TotalAmount(b)
  {
    if a == [] {
      assert a + b == b;
    } else {
      assert (a + b)[1..] == a[1..] + b;
      TotalsOfConcat(a[1..], b);
    }
  }

  /** Replacing one entry changes each total by exactly that entry's difference. */
  lemma {:induction false} TotalsOfReplace(items: seq<CartItem>, k: nat, x: CartItem)
    requires k < |items|
    ensures TotalItems(items[k := x]) == TotalItems(items) - items[k].quantity + x.quantity
    ensures TotalAmount(items[k := x]) == TotalAmount(items) - LineAmount(items[k]) + LineAmount(x)
  {
    if k == 0 {
      assert items[k := x][1..] == items[1..];
    } else {
      assert items[k := x][1..] == items[1..][k - 1 := x];
      TotalsOfReplace(items[1..], k - 1, x);
    }
  }

  /** Adding `quantity` units raises `totalItems` by exactly `quantity`, and
      `totalAmount` by the effective price of the stored product times `quantity`. */
  lemma AddItemsTotals(items: seq<CartItem>, product: Product, quantity: int)
    ensures TotalItems(AddItems(items, product, quantity)) == TotalItems(items) + quantity
    ensures var i := IndexOf(items, product.id);
      var stored := if i < 0 then product else items[i].product;
      TotalAmount(AddItems(items, product, quantity)) == TotalAmount(items) + EffectivePrice(stored) * quantity
  {
    var i := IndexOf(items, product.id);
    if i >= 0 {
      var x := CartItem(items[i].product, items[i].quantity + quantity);
      TotalsOfReplace(items, i, x);
      var e := EffectivePrice(items[i].product);
      assert LineAmount(x) == e * items[i].quantity + e * quantity;
    } else {
      TotalsOfConcat(items, [CartItem(product, quantity)]);
    }
  }

  /** One step of the removal filter: the first entry stays exactly when its id differs. */
  lemma RemoveItemsStep(items: seq<CartItem>, id: string)
    requires items != []
    ensures RemoveItems(items, id) ==
      (if items[0].product.id != id then [items[0]] else []) + RemoveItems(items[1..], id)
  {
    assert items == [items[0]] + items[1..];
  }

  /** Cutting position `i - 1` out of the tail and putting the head back cuts position
      `i` out of the whole. */
  lemma SpliceBehindHead<T>(s: seq<T>, i: nat)
    requires 0 < i < |s|
    ensures [s[0]] + (s[1..][..i - 1] + s[1..][i..]) == s[..i] + s[i + 1..]
  {
    assert s[1..][..i - 1] == s[1..i];
    assert s[1..][i..] == s[i + 1..];
    assert s[..i] == [s[0]] + s[1..i];
  }

  /** Removing an id held by the first entry alone leaves the tail. */
  lemma RemoveHeadEntry(items: seq<CartItem>, id: string)
    requires items != [] && items[0].product.id == id
    requires forall k :: 0 < k < |items| ==> items[k].product.id != id
    ensures RemoveItems(items, id) == items[1..]
  {
    var tail := items[1..];
    RemoveItemsStep(items, id);
    forall k | 0 <= k < |tail| ensures tail[k].product.id != id {
      assert tail[k] == items[k + 1];
    }
    assert IndexOf(tail, id) == -1;
  }

  /** Removing an id held by the entry at `i` alone cuts out exactly that entry. */
  lemma {:induction false} RemoveOnlyEntry(items: seq<CartItem>, id: string, i: nat)
    requires i < |items| && items[i].product.id == id
    requires forall k :: 0 <= k < |items| && k != i ==> items[k].product.id != id
    ensures RemoveItems(items, id) == items[..i] + items[i + 1..]
  {
    if i == 0 {
      RemoveHeadEntry(items, id);
      assert items[..0] + items[1..] == items[1..];
    } else {
      RemoveItemsStep(items, id);
      RemoveOnlyEntry(items[1..], id, i - 1);
      SpliceBehindHead(items, i);
    }
  }

  /** With unique ids, removing an id drops exactly one entry, in place. */
  lemma RemoveUniqueEntry(items: seq<CartItem>, id: string)
    requires UniqueIds(items)
    requires IndexOf(items, id) >= 0
    ensures var i := IndexOf(items, id);
      RemoveItems(items, id) == items[..i] + items[i + 1..]
  {
    RemoveOnlyEntry(items, id, IndexOf(items, id));
  }

  /** Removing an id lowers the totals by exactly what its entry contributed; an
      absent id leaves them unchanged. */
  lemma RemoveItemsTotals(items: seq<CartItem>, id: string)
    requires UniqueIds(items)
    ensures TotalItems(RemoveItems(items, id)) == TotalItems(items) - QuantityOf(items, id)
    ensures TotalAmount(RemoveItems(items, id)) == TotalAmount(items) - AmountOf(items, id)
  {
    if IndexOf(items, id) >= 0 {
      RemovePresentTotals(items, id, IndexOf(items, id));
    }
  }

  /** The case of `RemoveItemsTotals` where the id is held by entry `i`. */
  lemma RemovePresentTotals(items: seq<CartItem>, id: string, i: nat)
    requires UniqueIds(items)
    requires i < |items| && IndexOf(items, id) == i
    ensures TotalItems(RemoveItems(items, id)) == TotalItems(items) - items[i].quantity
    ensures TotalAmount(RemoveItems(items, id)) == TotalAmount(items) - LineAmount(items[i])
  {
    RemoveUniqueEntry(items, id);
    SpliceTotals(items, i);
  }

  /** Cutting entry `i` out of a list lowers each total by that entry's share. */
  lemma SpliceTotals(items: seq<CartItem>, i: nat)
    requires i < |items|
    ensures TotalItems(items[..i] + items[i + 1..]) == TotalItems(items) - items[i].quantity
    ensures TotalAmount(items[..i] + items[i + 1..]) == TotalAmount(items) - LineAmount(items[i])
  {
    var tail := items[i..];
    assert items == items[..i] + tail;
    assert tail[1..] == items[i + 1..];
    TotalsOfConcat(items[..i], tail);
    TotalsOfConcat(items[..i], items[i + 1..]);
  }

  /** With unique ids, a positive update rewrites exactly one entry, in place. */
  lemma UpdateUniqueEntry(items: seq<CartItem>, id: string, quantity: int)
    requires UniqueIds(items)
    requires IndexOf(items, id) >= 0
    ensures var i := IndexOf(items, id);
      UpdateItems(items, id, quantity) == items[i := CartItem(items[i].product, quantity)]
  {
  }

  /** A positive update moves the totals from the entry's old quantity to the new one;
      an absent id leaves them unchanged. */
  lemma UpdateItemsTotals(items: seq<CartItem>, id: string, quantity: int)
    requires UniqueIds(items)
    ensures var i := IndexOf(items, id);
      TotalItems(UpdateItems(items, id, quantity)) ==
        if i < 0 then TotalItems(items) else TotalItems(items) - items[i].quantity + quantity
    ensures var i := IndexOf(items, id);
      TotalAmount(UpdateItems(items, id, quantity)) ==
        if i < 0 then TotalAmount(items)
        else TotalAmount(items) - LineAmount(items[i]) + EffectivePrice(items[i].product) * quantity
  {
    var i := IndexOf(items, id);
    if i >= 0 {
      UpdateUniqueEntry(items, id, quantity);
      TotalsOfReplace(items, i, CartItem(items[i].product, quantity));
    } else {
      UpdateAbsentIsIdentity(items, id, quantity);
    }
  }

  // ---------------------------------------------------------------------------
  // Shape of the item list

  lemma AddKeepsIdsUnique(items: seq<CartItem>, product: Product, quantity: int)
    requires UniqueIds(items)
    ensures UniqueIds(AddItems(items, product, quantity))
  {
  }

  lemma RemoveKeepsIdsUnique(items: seq<CartItem>, id: string)
    requires UniqueIds(items)
    ensures UniqueIds(RemoveItems(items, id))
  {
    if IndexOf(items, id) >= 0 {
      RemoveUniqueEntry(items, id);
    }
  }

  lemma UpdateKeepsIdsUnique(items: seq<CartItem>, id: string, quantity: int)
    requires UniqueIds(items)
    ensures UniqueIds(UpdateItems(items, id, quantity))
  {
  }

  /** Updating an id that is not in the cart never adds an entry and changes nothing. */
  lemma UpdateAbsentIsIdentity(items: seq<CartItem>, id: string, quantity: int)
    requires IndexOf(items, id) == -1
    ensures UpdateItems(items, id, quantity) == items
  {
  }

  /** Removal is idempotent: removing the same id twice is removing it once. */
  lemma RemoveIdempotent(items: seq<CartItem>, id: string)
    ensures RemoveItems(RemoveItems(items, id), id) == RemoveItems(items, id)
  {
    var once := RemoveItems(items, id);
    assert forall k :: 0 <= k < |once| ==> once[k] in once;
  }

  /** Two adds of the same product accumulate into one entry holding their sum. */
  lemma AddAccumulates(items: seq<CartItem>, product: Product, q1: int, q2: int)
    ensures AddItems(AddItems(items, product, q1), product, q2) == AddItems(items, product, q1 + q2)
  {
    var i := IndexOf(items, product.id);
    var once := AddItems(items, product, q1);
    if i >= 0 {
      var first := CartItem(items[i].product, items[i].quantity + q1);
      var both := CartItem(items[i].product, items[i].quantity + (q1 + q2));
      AddItemsPresent(items, product, q1, i);
      AddItemsPresent(items, product, q1 + q2, i);
      IndexOfAt(once, product.id, i);
      AddItemsPresent(once, product, q2, i);
      UpdateTwice(items, i, first, both);
    } else {
      var first := CartItem(product, q1);
      var both := CartItem(product, q1 + q2);
      AddItemsAbsent(items, product, q1);
      AddItemsAbsent(items, product, q1 + q2);
      IndexOfAt(once, product.id, |items|);
      AddItemsPresent(once, product, q2, |items|);
      UpdateAppended(items, first, both);
    }
  }

  /** A positive update sets the quantity absolutely (not as a delta) for an id in the
      cart: after it the cart holds exactly `quantity` units of that id. */
  lemma UpdateSetsQuantity(items: seq<CartItem>, id: string, quantity: int)
    requires IndexOf(items, id) >= 0
    ensures IndexOf(UpdateItems(items, id, quantity), id) == IndexOf(items, id)
    ensures QuantityOf(UpdateItems(items, id, quantity), id) == quantity
  {
    var r := UpdateItems(items, id, quantity);
    assert forall k :: 0 <= k < |items| ==> r[k].product.id == items[k].product.id;
  }

  /** Positive quantities stay positive under adds of a positive amount (every caller
      in the app passes 1 or the selector's quantity), positive updates and removals. */
  lemma OperationsKeepQuantitiesPositive(items: seq<CartItem>, product: Product, id: string, quantity: int)
    requires AllPositive(items)
    requires quantity > 0
    ensures AllPositive(AddItems(items, product, quantity))
    ensures AllPositive(UpdateItems(items, id, quantity))
    ensures AllPositive(RemoveItems(items, id))
  {
    var r := RemoveItems(items, id);
    forall k | 0 <= k < |r| ensures r[k].quantity > 0 {
      assert r[k] in items;
    }
  }

  /** `addToCart` does not check the sign of `quantity`: adding -5 units to an entry
      holding 2 leaves an entry holding -3. */
  lemma AddDoesNotGuardSign(product: Product)
    ensures AddItems([CartItem(product, 2)], product, -5) == [CartItem(product, -3)]
  {
    assert IndexOf([CartItem(product, 2)], product.id) == 0;
  }

  /** A discount of 80 on a list price of 100 is what three units cost: 240, not 300. */
  lemma DiscountTakesPrecedence(product: Product)
    requires product.price == 100 && product.discountPrice == Some(80)
    ensures WithTotals(AddItems(InitialCart.items, product, 3)).totalAmount == 240
  {
    var items := AddItems(InitialCart.items, product, 3);
    assert items == [CartItem(product, 3)];
    assert items[1..] == [];
    assert LineAmount(items[0]) == 80 * 3;
    assert TotalAmount(items) == LineAmount(items[0]) + TotalAmount(items[1..]);
  }

  // ---------------------------------------------------------------------------
  // The store

  class CartStore {
    var cart: Cart

    /** The ledger invariant: both totals agree with the items and ids are unique. */
    ghost predicate Valid()
      reads this
    {
      cart == WithTotals(cart.items) && UniqueIds(cart.items)
    }

    constructor ()
      ensures Valid() && cart == InitialCart
    {
      cart := InitialCart;
    }

    method AddToCart(product: Product, quantity: int)
      requires Valid()
      modifies this
      ensures Valid()
      ensures cart.items == AddItems(old(cart.items), product, quantity)
      ensures cart.totalItems == old(cart.totalItems) + quantity
    {
      var updated := AddItems(cart.items, product, quantity);
      AddKeepsIdsUnique(cart.items, product, quantity);
      AddItemsTotals(cart.items, product, quantity);
      cart := WithTotals(updated);
    }

    method RemoveFromCart(productId: string)
      requires Valid()
      modifies this
      ensures Valid()
      ensures cart.items == RemoveItems(old(cart.items), productId)
      ensures cart.totalItems == old(cart.totalItems) - QuantityOf(old(cart.items), productId)
      ensures cart.totalAmount == old(cart.totalAmount) - AmountOf(old(cart.items), productId)
    {
      var updated := RemoveItems(cart.items, productId);
      RemoveKeepsIdsUnique(cart.items, productId);
      RemoveItemsTotals(cart.items, productId);
      cart := WithTotals(updated);
    }

    method UpdateQuantity(productId: string, quantity: int)
      requires Valid()
      modifies this
      ensures Valid()
      ensures quantity <= 0 ==> cart.items == RemoveItems(old(cart.items), productId)
      ensures quantity > 0 ==> cart.items == UpdateItems(old(cart.items), productId, quantity)
      ensures quantity > 0 && IndexOf(old(cart.items), productId) < 0 ==> cart == old(cart)
      ensures quantity > 0 && IndexOf(old(cart.items), productId) >= 0 ==>
        QuantityOf(cart.items, productId) == quantity &&
        cart.totalItems == old(cart.totalItems) - QuantityOf(old(cart.items), productId) + quantity
    {
      if quantity <= 0 {
        RemoveFromCart(productId);
        return;
      }
      var updated := UpdateItems(cart.items, productId, quantity);
      UpdateKeepsIdsUnique(cart.items, productId, quantity);
      UpdateItemsTotals(cart.items, productId, quantity);
      if IndexOf(cart.items, productId) >= 0 {
        UpdateSetsQuantity(cart.items, productId, quantity);
      } else {
        UpdateAbsentIsIdentity(cart.items, productId, quantity);
      }
      cart := WithTotals(updated);
    }

    method ClearCart()
      modifies this
      ensures Valid() && cart == InitialCart
    {
      cart := InitialCart;
    }
  }
}
