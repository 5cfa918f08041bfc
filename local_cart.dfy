/**
 * The browser-side cart kept under the `localStorage` key `cart`: a list of
 * item objects that every operation reads, changes and writes back.
 */
module LocalCart {
  import opened Wrappers
  import opened Records

  /** `item.id === id`. */
  predicate HasId(item: Record, id: string) {
    FieldIs(item, "id", id)
  }

  /** `filter(item => item.id !== id)`: the items with another id (or none), in their order. */
  function WithoutId(items: seq<Record>, id: string): (r: seq<Record>)
    ensures |r| <= |items|
    ensures forall x :: x in r ==> x in items && !HasId(x, id)
    ensures forall x :: x in items && !HasId(x, id) ==> x in r
  {
    if items == [] then []
    else if HasId(items[0], id) then WithoutId(items[1..], id)
    else [items[0]] + WithoutId(items[1..], id)
  }

  /** Filtering distributes over concatenation, so the kept items stay in their relative order. */
  lemma {:induction false} WithoutIdAppend(a: seq<Record>, b: seq<Record>, id: string)
    ensures WithoutId(a + b, id) == WithoutId(a, id) + WithoutId(b, id)
  {
    if a == [] {
      assert a + b == b;
    } else {
      assert (a + b)[1..] == a[1..] + b;
      WithoutIdAppend(a[1..], b, id);
    }
  }

  /** Removing twice is removing once. */
  lemma {:induction false} WithoutIdIdempotent(items: seq<Record>, id: string)
    ensures WithoutId(WithoutId(items, id), id) == WithoutId(items, id)
  {
    if items != [] {
      WithoutIdIdempotent(items[1..], id);
      if !HasId(items[0], id) {
        assert ([items[0]] + WithoutId(items[1..], id))[1..] == WithoutId(items[1..], id);
      }
    }
  }

  /** A list with no item of that id is left as it is. */
  lemma {:induction false} WithoutAbsentId(items: seq<Record>, id: string)
    requires forall i :: 0 <= i < |items| ==> !HasId(items[i], id)
    ensures WithoutId(items, id) == items
  {
    if items != [] {
      WithoutAbsentId(items[1..], id);
      assert [items[0]] + items[1..] == items;
    }
  }

  /** `map(item => item.id === id ? { ...item, qty } : item)`. */
  function WithQty(items: seq<Record>, id: string, qty: int): (r: seq<Record>)
    ensures |r| == |items|
    ensures forall i :: 0 <= i < |items| && HasId(items[i], id) ==> r[i] == items[i]["qty" := Num(qty)]
    ensures forall i :: 0 <= i < |items| && !HasId(items[i], id) ==> r[i] == items[i]
  {
    if items == [] then []
    else
      var head := if HasId(items[0], id) then items[0]["qty" := Num(qty)] else items[0];
      [head] + WithQty(items[1..], id, qty)
  }

  /** Setting a quantity keeps every item's id, so removing afterwards removes the same items. */
  lemma {:induction false} RemoveAfterUpdate(items: seq<Record>, id: string, qty: int)
    ensures WithoutId(WithQty(items, id, qty), id) == WithoutId(items, id)
  {
    if items != [] {
      var r := WithQty(items, id, qty);
      assert r[1..] == WithQty(items[1..], id, qty);
      RemoveAfterUpdate(items[1..], id, qty);
      if HasId(items[0], id) {
        assert HasId(r[0], id);
      } else {
        assert r[0] == items[0];
      }
    }
  }

  /** The cart as seen through `window.localStorage`. */
  class LocalCart {
    /** False during server rendering, where `window` is undefined. */
    const hasWindow: bool
    /** The stored list under the key `cart`; `None` when the key is absent. */
    var stored: Option<seq<Record>>

    constructor (hasWindow: bool, stored: Option<seq<Record>>)
      ensures this.hasWindow == hasWindow && this.stored == stored
    {
      this.hasWindow := hasWindow;
      this.stored := stored;
    }

    /** `getCart`: the stored list, or the empty list without a window or without a stored value. */
    function GetCart(): (items: seq<Record>)
      reads this
      ensures !hasWindow || stored.None? ==> items == []
      ensures hasWindow && stored.Some? ==> items == stored.value
    {
      if !hasWindow then [] else stored.GetOr([])
    }

    /**
     * `addToCart`: the item goes at the end and the earlier items stay as they
     * were. Without a window the storage write fails (`ok` is false) and
     * nothing is stored.
     */
    method AddToCart(item: Record) returns (ok: bool)
      modifies this`stored
      ensures ok == hasWindow
      ensures ok ==> stored == Some(old(GetCart()) + [item])
      ensures ok ==> |GetCart()| == |old(GetCart())| + 1 && GetCart()[..|old(GetCart())|] == old(GetCart())
      ensures !ok ==> stored == old(stored)
    {
      if !hasWindow {
        return false;
      }
      var cart := GetCart();
      cart := cart + [item];
      stored := Some(cart);
      assert cart[..|cart| - 1] == old(GetCart());
      ok := true;
    }

    /** `removeFromCart`: every item with that id is dropped; without a window nothing is stored. */
    method RemoveFromCart(id: string) returns (ok: bool)
      modifies this`stored
      ensures ok == hasWindow
      ensures ok ==> stored == Some(WithoutId(old(GetCart()), id))
      ensures !ok ==> stored == old(stored)
    {
      if !hasWindow {
        return false;
      }
      stored := Some(WithoutId(GetCart(), id));
      ok := true;
    }

    /** `updateQuantity`: every item with that id gets the new `qty`; without a window nothing is stored. */
    method UpdateQuantity(id: string, qty: int) returns (ok: bool)
      modifies this`stored
      ensures ok == hasWindow
      ensures ok ==> stored == Some(WithQty(old(GetCart()), id, qty))
      ensures !ok ==> stored == old(stored)
    {
      if !hasWindow {
        return false;
      }
      stored := Some(WithQty(GetCart(), id, qty));
      ok := true;
    }

    /** `clearCart`: the key is removed, so the cart reads as empty; without a window nothing changes. */
    method ClearCart() returns (ok: bool)
      modifies this`stored
      ensures ok == hasWindow
      ensures ok ==> stored == None && GetCart() == []
      ensures !ok ==> stored == old(stored)
    {
      if !hasWindow {
        return false;
      }
      stored := None;
      ok := true;
    }
  }
}
