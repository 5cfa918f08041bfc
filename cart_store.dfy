/**
 * The per-user cart collection `users/{userId}/cart/{productId}`: one document
 * per product in a user's cart, holding its quantity. `addToCart`,
 * `updateCartQuantity`, `removeFromCart` and `getCart` read and write it.
 */
module CartStore {

  type UserId = string
  type ProductId = string

  /** One user's cart: product to quantity. */
  type Cart = map<ProductId, int>

  // ---------------------------------------------------------------------------
  // Sums over a table, in no particular order

  /** Removing a present key shrinks a map by one. */
  lemma RemoveOneKey<K, V>(m: map<K, V>, k: K)
    requires k in m
    ensures |m - {k}| == |m| - 1
  {
    assert (m - {k}).Keys == m.Keys - {k};
  }

  /** The sum of the values of a map. */
  ghost function Sum(m: map<string, int>): int
    decreases |m|
  {
    if m == map[] then 0
    else
      var k :| k in m;
      RemoveOneKey(m, k);
      m[k] + Sum(m - {k})
  }

  /** The sum can be taken apart at any key. */
  lemma {:induction false} SumRemove(m: map<string, int>, k: string)
    requires k in m
    ensures Sum(m) == m[k] + Sum(m - {k})
    decreases |m|
  {
    var j :| j in m && Sum(m) == m[j] + Sum(m - {j});
    if j != k {
      RemoveOneKey(m, j);
      RemoveOneKey(m, k);
      SumRemove(m - {j}, k);
      SumRemove(m - {k}, j);
      assert m - {j} - {k} == m - {k} - {j};
    }
  }

  /** Changing the value at one key changes the sum by the difference. */
  lemma SumUpdate(m: map<string, int>, k: string, v: int)
    ensures Sum(m[k := v]) == Sum(m) - (if k in m then m[k] else 0) + v
  {
    SumRemove(m[k := v], k);
    assert m[k := v] - {k} == m - {k};
    if k in m {
      SumRemove(m, k);
    } else {
      assert m - {k} == m;
    }
  }

  /** Removing a key takes its value off the sum; removing an absent key changes nothing. */
  lemma SumWithout(m: map<string, int>, k: string)
    ensures Sum(m - {k}) == Sum(m) - (if k in m then m[k] else 0)
  {
    if k in m {
      SumRemove(m, k);
    } else {
      assert m - {k} == m;
    }
  }

  /** Every stored quantity is at least 1. */
  predicate Positive(c: map<string, int>) {
    forall p :: p in c ==> c[p] >= 1
  }

  /** With positive quantities the sum is at least the number of entries: it is 0 exactly for the empty cart. */
  lemma {:induction false} SumOfPositive(c: map<string, int>)
    requires Positive(c)
    ensures Sum(c) >= |c|
    ensures Sum(c) == 0 <==> c == map[]
    decreases |c|
  {
    if c != map[] {
      var k :| k in c;
      SumRemove(c, k);
      RemoveOneKey(c, k);
      SumOfPositive(c - {k});
    }
  }

  // ---------------------------------------------------------------------------
  // The table operations on one user's cart

  /** `addToCart`: one more of the product (1 when it was not in the cart); every other entry stays. */
  function Incremented(c: Cart, p: ProductId): (r: Cart)
    ensures r.Keys == c.Keys + {p}
    ensures r[p] == (if p in c then c[p] + 1 else 1)
    ensures forall q :: q in c && q != p ==> r[q] == c[q]
    ensures Positive(c) ==> Positive(r)
  {
    if p in c then c[p := c[p] + 1] else c[p := 1]
  }

  /**
   * `updateCartQuantity` where it succeeds: a quantity of 0 or less deletes the
   * entry, any other quantity is stored; every other entry stays.
   */
  function WithQuantity(c: Cart, p: ProductId, qty: int): (r: Cart)
    ensures qty <= 0 ==> p !in r && r.Keys == c.Keys - {p}
    ensures qty > 0 ==> p in r && r[p] == qty && r.Keys == c.Keys + {p}
    ensures forall q :: q in c && q != p ==> q in r && r[q] == c[q]
    ensures Positive(c) ==> Positive(r)
  {
    if qty <= 0 then c - {p} else c[p := qty]
  }

  /** `removeFromCart`: the entry is gone, every other entry stays; an absent entry leaves the cart as it was. */
  function Removed(c: Cart, p: ProductId): (r: Cart)
    ensures p !in r && r.Keys == c.Keys - {p}
    ensures forall q :: q in c && q != p ==> r[q] == c[q]
    ensures p !in c ==> r == c
    ensures Positive(c) ==> Positive(r)
  {
    c - {p}
  }

  /** Removing twice is removing once. */
  lemma RemovedIdempotent(c: Cart, p: ProductId)
    ensures Removed(Removed(c, p), p) == Removed(c, p)
  {
  }

  /** `n` adds in a row. */
  function AddedTimes(c: Cart, p: ProductId, n: nat): Cart
    decreases n
  {
    if n == 0 then c else Incremented(AddedTimes(c, p, n - 1), p)
  }

  /** `n` adds of a product that was not in the cart leave quantity `n` (none left when `n` is 0). */
  lemma {:induction false} AddedTimesFromAbsent(c: Cart, p: ProductId, n: nat)
    requires p !in c
    ensures n == 0 ==> p !in AddedTimes(c, p, n)
    ensures n > 0 ==> p in AddedTimes(c, p, n) && AddedTimes(c, p, n)[p] == n
    ensures forall q :: q in c && q != p ==> q in AddedTimes(c, p, n) && AddedTimes(c, p, n)[q] == c[q]
    decreases n
  {
    if n > 0 {
      AddedTimesFromAbsent(c, p, n - 1);
    }
  }

  /** What the operations do to the total quantity: adding adds 1, removing takes the entry's quantity off. */
  lemma SumOfOperations(c: Cart, p: ProductId, qty: int)
    ensures Sum(Incremented(c, p)) == Sum(c) + 1
    ensures Sum(Removed(c, p)) == Sum(c) - (if p in c then c[p] else 0)
    ensures qty > 0 ==> Sum(WithQuantity(c, p, qty)) == Sum(c) - (if p in c then c[p] else 0) + qty
    ensures qty <= 0 ==> Sum(WithQuantity(c, p, qty)) == Sum(c) - (if p in c then c[p] else 0)
  {
    if p in c {
      SumUpdate(c, p, c[p] + 1);
    } else {
      SumUpdate(c, p, 1);
    }
    SumWithout(c, p);
    SumUpdate(c, p, qty);
  }

  // ---------------------------------------------------------------------------
  // The collection

  /** The cart documents of every user. */
  class CartStore {
    /** A user without cart documents may be absent or map to an empty cart. */
    var carts: map<UserId, Cart>

    /** Using only these operations, every stored quantity is at least 1. */
    ghost predicate Valid()
      reads this
    {
      forall u :: u in carts ==> Positive(carts[u])
    }

    /** The documents under `users/{u}/cart`. */
    function CartOf(u: UserId): Cart
      reads this
    {
      if u in carts then carts[u] else map[]
    }

    constructor ()
      ensures Valid() && carts == map[]
    {
      carts := map[];
    }

    /** `addToCart`: read the document; add one to its quantity if it exists, else create it at 1. */
    method AddToCart(u: UserId, p: ProductId)
      requires Valid()
      modifies this
      ensures Valid()
      ensures carts == old(carts)[u := Incremented(old(CartOf(u)), p)]
    {
      var cart := CartOf(u);
      if p in cart {
        carts := carts[u := cart[p := cart[p] + 1]];
      } else {
        carts := carts[u := cart[p := 1]];
      }
    }

    /**
     * `updateCartQuantity`: a quantity of 0 or less deletes the document;
     * otherwise the document's quantity is overwritten, which fails (`ok` false,
     * nothing written) when the document does not exist.
     */
    method UpdateCartQuantity(u: UserId, p: ProductId, qty: int) returns (ok: bool)
      requires Valid()
      modifies this
      ensures Valid()
      ensures ok <==> qty <= 0 || p in old(CartOf(u))
      ensures carts == if ok then old(carts)[u := WithQuantity(old(CartOf(u)), p, qty)] else old(carts)
    {
      var cart := CartOf(u);
      if qty <= 0 {
        carts := carts[u := cart - {p}];
        return true;
      }
      if p !in cart {
        return false;
      }
      carts := carts[u := cart[p := qty]];
      ok := true;
    }

    /** `removeFromCart`: delete the document. */
    method RemoveFromCart(u: UserId, p: ProductId)
      requires Valid()
      modifies this
      ensures Valid()
      ensures carts == old(carts)[u := Removed(old(CartOf(u)), p)]
    {
      carts := carts[u := CartOf(u) - {p}];
    }

    /** `getCart`: a record filled document by document with each one's quantity. */
    method GetCart(u: UserId) returns (cart: Cart)
      ensures cart == CartOf(u)
    {
      var docs := CartOf(u);
      cart := map[];
      var left := docs.Keys;
      while left != {}
        invariant left <= docs.Keys
        invariant cart.Keys == docs.Keys - left
        invariant forall p :: p in cart ==> cart[p] == docs[p]
        decreases left
      {
        var p :| p in left;
        cart := cart[p := docs[p]];
        left := left - {p};
      }
    }
  }
}
