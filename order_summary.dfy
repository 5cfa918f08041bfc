/**
 * The order summary beside the cart: the delivery-address selector with its
 * add-address form, the 2% tax, and the gate that writes the order draft to
 * session storage before moving on to payment.
 */
module OrderSummary {
  import opened Wrappers
  import opened Records
  import opened Addresses

  /** The draft handed to the payment page under the session key `orderDetails`. */
  datatype OrderDraft = OrderDraft(address: Record, cartCount: int, cartAmount: int, tax: int, total: int)

  /**
   * `Math.floor(amount * 0.02)`. For whole amounts the floating-point product
   * floors to the same value as the exact one, so this is the exact floor of
   * amount / 50.
   */
  function Tax(amount: int): (t: int)
    ensures 50 * t <= amount < 50 * t + 50
    ensures amount >= 0 ==> 0 <= t && 50 * t <= amount
  {
    amount / 50
  }

  /** The floor is unique: any `t` with `50t <= amount < 50t + 50` is the tax. */
  lemma TaxIsFloor(amount: int, t: int)
    requires 50 * t <= amount < 50 * t + 50
    ensures t == Tax(amount)
  {
  }

  /** An amount of 250 is taxed 5 (total 255); an amount of 99 is taxed 1 (total 100). */
  lemma TaxExamples()
    ensures Tax(250) == 5 && 250 + Tax(250) == 255
    ensures Tax(99) == 1 && 99 + Tax(99) == 100
  {
    TaxIsFloor(250, 5);
    TaxIsFloor(99, 1);
  }

  /** The option whose id is `"add"` stands for "add a new address", not for an address. */
  predicate IsAddOption(r: Record) {
    FieldIs(r, "id", "add")
  }

  datatype PlaceOutcome = EmptyCart | NoAddress | Placed(draft: OrderDraft)

  /**
   * `handlePlaceOrder`'s decision: an empty cart is refused first, whatever the
   * address; then a missing address or the "add" option; otherwise the draft.
   */
  function PlaceOrder(count: int, amount: int, selected: Option<Record>): (r: PlaceOutcome)
    ensures r == EmptyCart <==> count == 0
    ensures r == NoAddress <==> count != 0 && (selected.None? || IsAddOption(selected.value))
    ensures r.Placed? ==>
              && selected == Some(r.draft.address)
              && r.draft.cartCount == count
              && r.draft.cartAmount == amount
              && r.draft.tax == Tax(amount)
              && r.draft.total == amount + Tax(amount)
  {
    if count == 0 then EmptyCart
    else if selected.None? || IsAddOption(selected.value) then NoAddress
    else
      var tax := Tax(amount);
      Placed(OrderDraft(selected.value, count, amount, tax, amount + tax))
  }

  /** `addresses.find(a => a.id === value) || null`: the first listed address with that id. */
  function FindById(addresses: seq<Record>, id: string): (r: Option<Record>)
    ensures r.None? <==> forall i :: 0 <= i < |addresses| ==> !FieldIs(addresses[i], "id", id)
    ensures r.Some? ==>
              exists i :: 0 <= i < |addresses| && addresses[i] == r.value && FieldIs(r.value, "id", id)
                          && forall j :: 0 <= j < i ==> !FieldIs(addresses[j], "id", id)
  {
    if addresses == [] then None
    else if FieldIs(addresses[0], "id", id) then Some(addresses[0])
    else
      var r := FindById(addresses[1..], id);
      if r.Some? then
        var i :| 0 <= i < |addresses[1..]| && addresses[1..][i] == r.value && FieldIs(r.value, "id", id)
                 && forall j :: 0 <= j < i ==> !FieldIs(addresses[1..][j], "id", id);
        assert addresses[i + 1] == r.value;
        r
      else
        r
  }

  /** The object `handleAddAddress` passes to `saveAddress`. */
  function AddressData(fullName: string, area: string, city: string, state: string): (r: Record)
    ensures r.Keys == {"fullName", "area", "city", "state"}
    ensures FieldIs(r, "fullName", fullName) && FieldIs(r, "area", area)
    ensures FieldIs(r, "city", city) && FieldIs(r, "state", state)
  {
    map["fullName" := Str(fullName), "area" := Str(area), "city" := Str(city), "state" := Str(state)]
  }

  /** A saved address carries its new key as its `id`, since the form data has no `id` of its own. */
  lemma SavedAddressId(id: AddressId, fullName: string, area: string, city: string, state: string, now: int)
    ensures FieldIs(StoredAddress(id, AddressData(fullName, area, city, state), now), "id", id)
  {
    assert "id" !in AddressData(fullName, area, city, state);
  }

  /** The browser's session storage, reduced to the one key the storefront uses. */
  class SessionStorage {
    var orderDetails: Option<OrderDraft>

    constructor ()
      ensures orderDetails == None
    {
      orderDetails := None;
    }
  }

  datatype AddressField = FullName | Area | City | State

  datatype SaveOutcome = FillAllFields | NotSignedIn | Saved(id: AddressId)

  class OrderSummary {
    const userId: Option<UserId>
    const book: AddressBook
    const session: SessionStorage
    var addresses: seq<Record>
    var selected: Option<Record>
    var isAdding: bool
    var fullName: string
    var area: string
    var city: string
    var state: string

    /** Nothing listed, nothing selected, the form closed and empty. */
    constructor (userId: Option<UserId>, book: AddressBook, session: SessionStorage)
      ensures this.userId == userId && this.book == book && this.session == session
      ensures addresses == [] && selected == None && !isAdding
      ensures fullName == "" && area == "" && city == "" && state == ""
    {
      this.userId := userId;
      this.book := book;
      this.session := session;
      addresses := [];
      selected := None;
      isAdding := false;
      fullName, area, city, state := "", "", "", "";
    }

    /** `loadAddresses`: without a user nothing happens; otherwise the list becomes the user's book. */
    method LoadAddresses() returns (ghost ids: seq<AddressId>)
      modifies this`addresses
      ensures userId.None? ==> addresses == old(addresses)
      ensures userId.Some? ==> IsListing(addresses, ids, book.BookOf(userId.value))
    {
      if userId.None? {
        return [];
      }
      addresses, ids := book.GetAddresses(userId.value);
    }

    /** "+ Add Address": open the form. */
    method OpenAddressForm()
      modifies this`isAdding
      ensures isAdding
    {
      isAdding := true;
    }

    /** "Cancel": close the form, keeping what was typed. */
    method CancelAddressForm()
      modifies this`isAdding
      ensures !isAdding
    {
      isAdding := false;
    }

    /** Typing into one of the four inputs sets that field only. */
    method FieldChanged(field: AddressField, text: string)
      modifies this`fullName, this`area, this`city, this`state
      ensures fullName == (if field == FullName then text else old(fullName))
      ensures area == (if field == Area then text else old(area))
      ensures city == (if field == City then text else old(city))
      ensures state == (if field == State then text else old(state))
    {
      match field
      case FullName => fullName := text;
      case Area => area := text;
      case City => city := text;
      case State => state := text;
    }

    /** `!fullName || !area || !city || !state` fails: all four fields are filled in. */
    predicate FormFilled()
      reads this
      ensures FormFilled() <==>
                var data := AddressData(fullName, area, city, state);
                forall f :: f in data ==> data[f] != Str("")
    {
      var data := AddressData(fullName, area, city, state);
      assert "fullName" in data && "area" in data && "city" in data && "state" in data;
      fullName != "" && area != "" && city != "" && state != ""
    }

    /**
     * `handleAddAddress`: refused while a field is empty; with no signed-in user
     * the save fails and nothing changes; otherwise the address is stored under
     * a fresh id, the form is cleared and closed, and the list is reloaded.
     */
    method HandleAddAddress(now: int) returns (outcome: SaveOutcome, ghost ids: seq<AddressId>)
      modifies this`addresses, this`isAdding, this`fullName, this`area, this`city, this`state, book
      ensures outcome == FillAllFields <==> !old(FormFilled())
      ensures outcome == NotSignedIn <==> old(FormFilled()) && userId.None?
      ensures !outcome.Saved? ==> unchanged(this) && book.books == old(book.books)
      ensures outcome.Saved? ==>
                var u := userId.value;
                var data := AddressData(old(fullName), old(area), old(city), old(state));
                && userId.Some?
                && outcome.id !in old(book.BookOf(u))
                && book.books == old(book.books)[u := old(book.BookOf(u))[outcome.id := StoredAddress(outcome.id, data, now)]]
                && selected == old(selected)
                && !isAdding && fullName == "" && area == "" && city == "" && state == ""
                && IsListing(addresses, ids, book.BookOf(u))
    {
      if !FormFilled() {
        return FillAllFields, [];
      }
      if userId.None? {
        return NotSignedIn, [];
      }
      var id := SaveForm(userId.value, now);
      ids := LoadAddresses();
      outcome := Saved(id);
    }

    /** The successful half of `handleAddAddress` up to the reload: save, then clear and close the form. */
    method SaveForm(u: UserId, now: int) returns (id: AddressId)
      requires userId == Some(u)
      modifies this`isAdding, this`fullName, this`area, this`city, this`state, book
      ensures id !in old(book.BookOf(u))
      ensures book.books == old(book.books)[u := old(book.BookOf(u))[id := StoredAddress(id, AddressData(old(fullName), old(area), old(city), old(state)), now)]]
      ensures selected == old(selected)
      ensures !isAdding && fullName == "" && area == "" && city == "" && state == ""
    {
      var data := AddressData(fullName, area, city, state);
      id := book.SaveAddress(u, data, now);
      ResetForm();
    }

    /** Empties the form's fields and closes it. */
    method ResetForm()
      modifies this`isAdding, this`fullName, this`area, this`city, this`state
      ensures !isAdding && fullName == "" && area == "" && city == "" && state == ""
    {
      isAdding := false;
      fullName, area, city, state := "", "", "", "";
    }

    /** The selector's change handler: `"add"` opens the form with nothing selected; any other value selects by id. */
    method SelectAddress(value: string)
      modifies this`selected, this`isAdding
      ensures value == "add" ==> selected == None && isAdding
      ensures value != "add" ==> selected == FindById(addresses, value) && isAdding == old(isAdding)
    {
      if value == "add" {
        selected := None;
        isAdding := true;
        return;
      }
      selected := FindById(addresses, value);
    }

    /** `handlePlaceOrder`: the draft goes to session storage only when the order is accepted. */
    method HandlePlaceOrder(count: int, amount: int) returns (outcome: PlaceOutcome)
      modifies session
      ensures outcome == PlaceOrder(count, amount, selected)
      ensures outcome.Placed? ==> session.orderDetails == Some(outcome.draft)
      ensures !outcome.Placed? ==> session.orderDetails == old(session.orderDetails)
    {
      outcome := PlaceOrder(count, amount, selected);
      if outcome.Placed? {
        session.orderDetails := Some(outcome.draft);
      }
    }
  }
}
