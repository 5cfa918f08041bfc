/**
 * The address book `users/{userId}/addresses/{id}`: `saveAddress` stores a new
 * document under a fresh id, `getAddresses` lists a user's documents and
 * `deleteAddress` removes one.
 */
module Addresses {
  import opened Records

  type UserId = string
  type AddressId = string

  /** The document `saveAddress` writes: `{ id, ...addressData, createdAt }`, where a later field wins. */
  function StoredAddress(id: AddressId, data: Record, now: int): (r: Record)
    ensures r.Keys == data.Keys + {"id", "createdAt"}
    ensures "id" !in data ==> r["id"] == Str(id)
    ensures forall f :: f in data && f != "createdAt" ==> r[f] == data[f]
    ensures r["createdAt"] == Time(now)
  {
    map["id" := Str(id)] + data + map["createdAt" := Time(now)]
  }

  /** A bound on the lengths of the strings in a set. */
  ghost function MaxLength(used: set<string>): (n: nat)
    ensures forall s :: s in used ==> |s| <= n
    decreases |used|
  {
    if used == {} then 0
    else
      var x :| x in used;
      var m := MaxLength(used - {x});
      if |x| > m then |x| else m
  }

  /** However many ids are taken, there is a free one. */
  lemma FreshIdExists(used: set<string>)
    ensures exists id :: id !in used
  {
    var long := seq(MaxLength(used) + 1, _ => 'a');
    assert long !in used;
  }

  /**
   * `records` lists the documents of `book` one per id, in the order `ids`:
   * every listed id is in the book, no id is listed twice, and none is missed.
   */
  ghost predicate IsListing(records: seq<Record>, ids: seq<AddressId>, book: map<AddressId, Record>) {
    && |records| == |ids| == |book|
    && (forall i :: 0 <= i < |ids| ==> ids[i] in book && records[i] == book[ids[i]])
    && (forall i, j :: 0 <= i < j < |ids| ==> ids[i] != ids[j])
    && (forall id :: id in book ==> id in ids)
  }

  /** The address documents of every user. */
  class AddressBook {
    var books: map<UserId, map<AddressId, Record>>

    /** The documents under `users/{u}/addresses`. */
    function BookOf(u: UserId): map<AddressId, Record>
      reads this
    {
      if u in books then books[u] else map[]
    }

    constructor ()
      ensures books == map[]
    {
      books := map[];
    }

    /** `saveAddress`: a new document under a fresh id, which is returned; nothing else changes. */
    method SaveAddress(u: UserId, data: Record, now: int) returns (id: AddressId)
      modifies this
      ensures id !in old(BookOf(u))
      ensures books == old(books)[u := old(BookOf(u))[id := StoredAddress(id, data, now)]]
    {
      FreshIdExists(BookOf(u).Keys);
      id :| id !in BookOf(u).Keys;
      books := books[u := BookOf(u)[id := StoredAddress(id, data, now)]];
    }

    /**
     * `getAddresses`: the data of every document of the user, one entry per
     * document, in the order the store lists them (`ids`).
     */
    method GetAddresses(u: UserId) returns (records: seq<Record>, ghost ids: seq<AddressId>)
      ensures |records| == |BookOf(u)|
      ensures forall r :: r in records ==> r in BookOf(u).Values
      ensures forall id :: id in BookOf(u) ==> BookOf(u)[id] in records
      ensures IsListing(records, ids, BookOf(u))
    {
      var book := BookOf(u);
      records, ids := [], [];
      var left := book.Keys;
      while left != {}
        invariant left <= book.Keys
        invariant |records| == |ids| && |ids| + |left| == |book|
        invariant forall i :: 0 <= i < |ids| ==> ids[i] in book - left && records[i] == book[ids[i]]
        invariant forall i, j :: 0 <= i < j < |ids| ==> ids[i] != ids[j]
        invariant forall id :: id in book && id !in left ==> id in ids
        decreases left
      {
        var id :| id in left;
        records, ids := records + [book[id]], ids + [id];
        left := left - {id};
      }
    }

    /** `deleteAddress`: that document is gone; the user's other addresses and other users' stay. */
    method DeleteAddress(u: UserId, id: AddressId)
      modifies this
      ensures books == old(books)[u := old(BookOf(u)) - {id}]
    {
      books := books[u := BookOf(u) - {id}];
    }
  }
}
