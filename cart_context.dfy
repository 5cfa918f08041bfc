/**
 * The cart context shared by the pages: a mirror of the signed-in user's cart,
 * reloaded from the store after every change, and the item count derived from it.
 */
module CartContext {
  import opened Wrappers
  import opened CartStore

  class CartContext {
    /** The signed-in user, `None` when nobody is signed in. */
    const userId: Option<UserId>
    const store: CartStore
    /** The mirror of the user's cart. */
    var cart: Cart

    /** The mirror starts empty. */
    constructor (userId: Option<UserId>, store: CartStore)
      ensures this.userId == userId && this.store == store
      ensures cart == map[]
    {
      this.userId := userId;
      this.store := store;
      cart := map[];
    }

    /** `refreshCart`: with a user, the mirror becomes the stored cart; without one nothing happens. */
    method RefreshCart()
      modifies this`cart
      ensures userId.None? ==> cart == old(cart)
      ensures userId.Some? ==> cart == store.CartOf(userId.value)
    {
      if userId.None? {
        return;
      }
      cart := store.GetCart(userId.value);
    }

    /** `addItem`: without a user the visitor is asked to log in (`loginRequired`) and nothing is written. */
    method AddItem(p: ProductId) returns (loginRequired: bool)
      requires store.Valid()
      modifies this`cart, store
      ensures store.Valid()
      ensures loginRequired <==> userId.None?
      ensures userId.None? ==> store.carts == old(store.carts) && cart == old(cart)
      ensures userId.Some? ==>
                var u := userId.value;
                store.carts == old(store.carts)[u := Incremented(old(store.CartOf(u)), p)]
                && cart == store.CartOf(u)
                && (old(cart) == old(store.CartOf(u)) ==> Sum(cart) == Sum(old(cart)) + 1)
    {
      if userId.None? {
        return true;
      }
      store.AddToCart(userId.value, p);
      RefreshCart();
      SumOfOperations(old(store.CartOf(userId.value)), p, 0);
      loginRequired := false;
    }

    /** `updateQty`: a no-op without a user; the mirror is reloaded only when the store accepted the change. */
    method UpdateQty(p: ProductId, qty: int)
      requires store.Valid()
      modifies this`cart, store
      ensures store.Valid()
      ensures userId.None? ==> store.carts == old(store.carts) && cart == old(cart)
      ensures userId.Some? ==>
                var u := userId.value;
                if qty <= 0 || p in old(store.CartOf(u)) then
                  store.carts == old(store.carts)[u := WithQuantity(old(store.CartOf(u)), p, qty)]
                  && cart == store.CartOf(u)
                else
                  store.carts == old(store.carts) && cart == old(cart)
    {
      if userId.None? {
        return;
      }
      var ok := store.UpdateCartQuantity(userId.value, p, qty);
      if ok {
        RefreshCart();
      }
    }

    /** `removeItem`: a no-op without a user; otherwise delete the entry and reload the mirror. */
    method RemoveItem(p: ProductId)
      requires store.Valid()
      modifies this`cart, store
      ensures store.Valid()
      ensures userId.None? ==> store.carts == old(store.carts) && cart == old(cart)
      ensures userId.Some? ==>
                var u := userId.value;
                store.carts == old(store.carts)[u := Removed(old(store.CartOf(u)), p)]
                && cart == store.CartOf(u) && p !in cart
    {
      if userId.None? {
        return;
      }
      store.RemoveFromCart(userId.value, p);
      RefreshCart();
    }

    /** `cartCount`: the quantities of the mirror added up (the reduce over its values). */
    method CartCount() returns (n: int)
      ensures n == Sum(cart)
    {
      n := 0;
      var left := cart;
      while left != map[]
        invariant n + Sum(left) == Sum(cart)
        decreases |left|
      {
        var p :| p in left;
        SumRemove(left, p);
        RemoveOneKey(left, p);
        n := n + left[p];
        left := left - {p};
      }
    }
  }
}
