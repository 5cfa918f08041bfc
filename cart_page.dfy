/**
 * The cart page: it joins the signed-in user's cart with the product catalog
 * into line items, derives the item count and the amount from them, and its
 * buttons change the cart and reload it.
 */
module CartPage {
  import opened Wrappers
  import opened CartStore

  /** What the catalog lookup gives for a product. Prices are whole currency units. */
  datatype Product = Product(name: string, description: string, category: string,
                             price: int, offerPrice: int, images: seq<string>)

  /** `{ ...product, quantity }`: one line of the page, for the cart entry `id`. */
  datatype LineItem = LineItem(id: ProductId, product: Product, quantity: int)

  /** `getCartCount`: the quantities added up. */
  function CartCount(items: seq<LineItem>): (n: int)
    ensures items == [] ==> n == 0
    ensures (forall i :: 0 <= i < |items| ==> items[i].quantity >= 1) ==> n >= |items|
  {
    if items == [] then 0 else items[0].quantity + CartCount(items[1..])
  }

  /** `getCartAmount`: offer price times quantity, added up. */
  function CartAmount(items: seq<LineItem>): (a: int)
    ensures items == [] ==> a == 0
    ensures (forall i :: 0 <= i < |items| ==> items[i].product.offerPrice >= 0 && items[i].quantity >= 0) ==> a >= 0
  {
    if items == [] then 0 else items[0].product.offerPrice * items[0].quantity + CartAmount(items[1..])
  }

  /** What each entry of a cart contributes to the amount. */
  function LineTotals(cart: Cart, lookup: ProductId -> Product): (t: map<ProductId, int>)
    ensures t.Keys == cart.Keys
    ensures forall p :: p in t ==> t[p] == lookup(p).offerPrice * cart[p]
  {
    map p | p in cart :: lookup(p).offerPrice * cart[p]
  }

  /** The products the lines are for. */
  ghost function Ids(items: seq<LineItem>): set<ProductId> {
    if items == [] then {} else {items[0].id} + Ids(items[1..])
  }

  lemma {:induction false} IdsAppend(items: seq<LineItem>, line: LineItem)
    ensures Ids(items + [line]) == Ids(items) + {line.id}
  {
    if items != [] {
      assert (items + [line])[1..] == items[1..] + [line];
      IdsAppend(items[1..], line);
    }
  }

  /** The line items are the cart joined with the catalog: one line per entry, with its stored quantity. */
  ghost predicate IsJoin(items: seq<LineItem>, cart: Cart, lookup: ProductId -> Product) {
    && |items| == |cart|
    && (forall i :: 0 <= i < |items| ==>
          items[i].id in cart && items[i].quantity == cart[items[i].id] && items[i].product == lookup(items[i].id))
    && (forall i, j :: 0 <= i < j < |items| ==> items[i].id != items[j].id)
    && cart.Keys <= Ids(items)
  }

  /** Without its first line, a join is the join of the rest of the cart. */
  lemma JoinTail(items: seq<LineItem>, cart: Cart, lookup: ProductId -> Product)
    requires items != [] && IsJoin(items, cart, lookup)
    ensures IsJoin(items[1..], cart - {items[0].id}, lookup)
  {
    var k := items[0].id;
    var rest := cart - {k};
    var tail := items[1..];
    RemoveOneKey(cart, k);
    forall i | 0 <= i < |tail|
      ensures tail[i].id in rest && tail[i].quantity == rest[tail[i].id] && tail[i].product == lookup(tail[i].id)
    {
      assert tail[i] == items[i + 1];
      assert items[0].id != items[i + 1].id;
    }
    forall i, j | 0 <= i < j < |tail|
      ensures tail[i].id != tail[j].id
    {
      assert tail[i] == items[i + 1] && tail[j] == items[j + 1];
    }
    assert Ids(items) == {k} + Ids(tail);
  }

  /** The count of a join is the total quantity of the cart, whatever the order of the lines. */
  lemma {:induction false} JoinCount(items: seq<LineItem>, cart: Cart, lookup: ProductId -> Product)
    requires IsJoin(items, cart, lookup)
    ensures CartCount(items) == Sum(cart)
  {
    if items == [] {
      assert cart.Keys == {};
    } else {
      var k := items[0].id;
      JoinTail(items, cart, lookup);
      JoinCount(items[1..], cart - {k}, lookup);
      SumRemove(cart, k);
    }
  }

  /** The amount of a join is the total of the cart's line totals, whatever the order of the lines. */
  lemma {:induction false} JoinAmount(items: seq<LineItem>, cart: Cart, lookup: ProductId -> Product)
    requires IsJoin(items, cart, lookup)
    ensures CartAmount(items) == Sum(LineTotals(cart, lookup))
  {
    if items == [] {
      assert cart.Keys == {};
      assert LineTotals(cart, lookup) == map[];
    } else {
      var k := items[0].id;
      JoinTail(items, cart, lookup);
      JoinAmount(items[1..], cart - {k}, lookup);
      var t := LineTotals(cart, lookup);
      SumRemove(t, k);
      LineTotalsWithout(cart, k, lookup);
    }
  }

  lemma LineTotalsWithout(cart: Cart, k: ProductId, lookup: ProductId -> Product)
    ensures LineTotals(cart - {k}, lookup) == LineTotals(cart, lookup) - {k}
  {
  }

  /** After a product is removed and the page reloaded, its line is gone and count and amount drop by exactly its share. */
  lemma RemovalTotals(items: seq<LineItem>, cart: Cart, after: seq<LineItem>, p: ProductId, lookup: ProductId -> Product)
    requires IsJoin(items, cart, lookup) && IsJoin(after, Removed(cart, p), lookup)
    ensures forall i :: 0 <= i < |after| ==> after[i].id != p
    ensures CartCount(after) == CartCount(items) - (if p in cart then cart[p] else 0)
    ensures CartAmount(after) == CartAmount(items) - (if p in cart then lookup(p).offerPrice * cart[p] else 0)
  {
    JoinCount(items, cart, lookup);
    JoinCount(after, Removed(cart, p), lookup);
    SumOfOperations(cart, p, 0);
    JoinAmount(items, cart, lookup);
    JoinAmount(after, Removed(cart, p), lookup);
    LineTotalsWithout(cart, p, lookup);
    SumWithout(LineTotals(cart, lookup), p);
  }

  /** An empty cart shows a count and an amount of 0. */
  lemma EmptyCartTotals(items: seq<LineItem>, lookup: ProductId -> Product)
    requires IsJoin(items, map[], lookup)
    ensures items == [] && CartCount(items) == 0 && CartAmount(items) == 0
  {
  }

  /** The page of the signed-in user (`userId` is `None` when nobody is signed in). */
  class CartPage {
    const userId: Option<UserId>
    const store: CartStore
    var cartItems: seq<LineItem>
    var loading: bool

    constructor (userId: Option<UserId>, store: CartStore)
      ensures this.userId == userId && this.store == store
      ensures cartItems == [] && loading
    {
      this.userId := userId;
      this.store := store;
      cartItems := [];
      loading := true;
    }

    /** `loadCart`: read the cart, look every product up and keep one line per entry. */
    method LoadCart(lookup: ProductId -> Product)
      modifies this
      ensures userId.None? ==> cartItems == old(cartItems) && loading == old(loading)
      ensures userId.Some? ==> IsJoin(cartItems, store.CartOf(userId.value), lookup) && !loading
    {
      if userId.None? {
        return;
      }
      var cart := store.GetCart(userId.value);
      var items: seq<LineItem> := [];
      var left := cart.Keys;
      while left != {}
        invariant left <= cart.Keys
        invariant |items| + |left| == |cart|
        invariant forall i :: 0 <= i < |items| ==>
                    items[i].id in cart && items[i].id !in left && items[i].quantity == cart[items[i].id]
                    && items[i].product == lookup(items[i].id)
        invariant forall i, j :: 0 <= i < j < |items| ==> items[i].id != items[j].id
        invariant cart.Keys - left <= Ids(items)
        decreases left
      {
        var p :| p in left;
        ghost var before := items;
        var line := LineItem(p, lookup(p), cart[p]);
        items := items + [line];
        IdsAppend(before, line);
        assert items[|before|] == line;
        assert forall i :: 0 <= i < |before| ==> items[i] == before[i];
        left := left - {p};
      }
      cartItems := items;
      loading := false;
    }

    /** `handleDecrease`: store one less than the quantity shown (deleting at 0), then reload. */
    method HandleDecrease(id: ProductId, qty: int, lookup: ProductId -> Product)
      requires store.Valid()
      modifies this, store
      ensures store.Valid()
      ensures userId.None? ==> store.carts == old(store.carts) && cartItems == old(cartItems) && loading == old(loading)
      ensures userId.Some? ==>
                var u := userId.value;
                if qty - 1 <= 0 || id in old(store.CartOf(u)) then
                  store.carts == old(store.carts)[u := WithQuantity(old(store.CartOf(u)), id, qty - 1)]
                  && IsJoin(cartItems, store.CartOf(u), lookup) && !loading
                else
                  store.carts == old(store.carts) && cartItems == old(cartItems) && loading == old(loading)
    {
      if userId.None? {
        return;
      }
      var ok := store.UpdateCartQuantity(userId.value, id, qty - 1);
      if ok {
        LoadCart(lookup);
      }
    }

    /** `handleIncrease`: exactly `addToCart`, then reload. */
    method HandleIncrease(id: ProductId, lookup: ProductId -> Product)
      requires store.Valid()
      modifies this, store
      ensures store.Valid()
      ensures userId.None? ==> store.carts == old(store.carts) && cartItems == old(cartItems) && loading == old(loading)
      ensures userId.Some? ==>
                var u := userId.value;
                store.carts == old(store.carts)[u := Incremented(old(store.CartOf(u)), id)]
                && IsJoin(cartItems, store.CartOf(u), lookup) && !loading
    {
      if userId.None? {
        return;
      }
      store.AddToCart(userId.value, id);
      LoadCart(lookup);
    }

    /** `handleRemove`: delete the entry, then reload. */
    method HandleRemove(id: ProductId, lookup: ProductId -> Product)
      requires store.Valid()
      modifies this, store
      ensures store.Valid()
      ensures userId.None? ==> store.carts == old(store.carts) && cartItems == old(cartItems) && loading == old(loading)
      ensures userId.Some? ==>
                var u := userId.value;
                store.carts == old(store.carts)[u := Removed(old(store.CartOf(u)), id)]
                && IsJoin(cartItems, store.CartOf(u), lookup) && !loading
    {
      if userId.None? {
        return;
      }
      store.RemoveFromCart(userId.value, id);
      LoadCart(lookup);
    }
  }
}
