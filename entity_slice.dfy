/** The store slice shared by products, orders, customers and discounts.
    productSlice.ts, orderSlice.ts, customerSlice.ts and discountSlice.ts
    hold the same reducers with the entity renamed; this module models them
    once, over an entity type E whose optional `_id` is read by `idOf`. */
module EntitySlice {
  import opened Wrappers
  import Seqs

  /** The update reducer's `list.map(x => x._id === payload._id ? payload : x)`.
      Two absent ids are equal, so a payload without an id replaces every
      element without one. */
  function ReplaceById<E>(list: seq<E>, payload: E, idOf: E -> Option<string>): (r: seq<E>)
    ensures |r| == |list|
    ensures forall i :: 0 <= i < |list| && idOf(list[i]) == idOf(payload) ==> r[i] == payload
    ensures forall i :: 0 <= i < |list| && idOf(list[i]) != idOf(payload) ==> r[i] == list[i]
  {
    if list == [] then []
    else [if idOf(list[0]) == idOf(payload) then payload else list[0]] + ReplaceById(list[1..], payload, idOf)
  }

  /** The delete reducer's `list.filter(x => x._id !== id)`. */
  function RemoveById<E>(list: seq<E>, id: string, idOf: E -> Option<string>): (r: seq<E>)
    ensures forall i :: 0 <= i < |r| ==> idOf(r[i]) != Some(id) && r[i] in list
    ensures forall i :: 0 <= i < |list| && idOf(list[i]) != Some(id) ==> list[i] in r
    ensures Seqs.IsSubsequence(r, list)
    ensures forall i :: 0 <= i < |list| ==>
      multiset(r)[list[i]] == if idOf(list[i]) != Some(id) then multiset(list)[list[i]] else 0
  {
    Seqs.Filter(list, (x: E) => idOf(x) != Some(id))
  }

  /** Updating an entity whose id is not in the list changes nothing. */
  lemma ReplaceAbsentId<E>(list: seq<E>, payload: E, idOf: E -> Option<string>)
    requires forall i :: 0 <= i < |list| ==> idOf(list[i]) != idOf(payload)
    ensures ReplaceById(list, payload, idOf) == list
  {
  }

  /** Replacing by id twice with the same payload is replacing once. */
  lemma ReplaceIdempotent<E>(list: seq<E>, payload: E, idOf: E -> Option<string>)
    ensures ReplaceById(ReplaceById(list, payload, idOf), payload, idOf) == ReplaceById(list, payload, idOf)
  {
  }

  /** Deleting an id that no element carries changes nothing. */
  lemma RemoveAbsentId<E>(list: seq<E>, id: string, idOf: E -> Option<string>)
    requires forall i :: 0 <= i < |list| ==> idOf(list[i]) != Some(id)
    ensures RemoveById(list, id, idOf) == list
  {
    Seqs.FilterAll(list, (x: E) => idOf(x) != Some(id));
  }

  /** Creating an entity with a fresh id and then deleting that id restores
      the list as it was. */
  lemma CreateThenDelete<E>(list: seq<E>, created: E, id: string, idOf: E -> Option<string>)
    requires idOf(created) == Some(id)
    requires forall i :: 0 <= i < |list| ==> idOf(list[i]) != Some(id)
    ensures RemoveById(list + [created], id, idOf) == list
  {
    var keep := (x: E) => idOf(x) != Some(id);
    Seqs.FilterAppend(list, [created], keep);
    RemoveAbsentId(list, id, idOf);
    assert Seqs.Filter([created], keep) == [];
  }

  /** The state of one entity slice: `{ list, current, loading, error, success }`. */
  class Slice<E> {
    /** Reads an entity's optional `_id`. */
    const idOf: E -> Option<string>
    var items: seq<E>
    var current: Option<E>
    var loading: bool
    var error: Option<string>
    var success: bool

    /** `initialState`: empty list, no current entity, all flags off. */
    constructor (idOf: E -> Option<string>)
      ensures this.idOf == idOf
      ensures items == [] && current == None && !loading && error == None && !success
    {
      this.idOf := idOf;
      items, current, loading, error, success := [], None, false, None, false;
    }

    /** `clear…Error`: error := null. */
    method ClearError()
      modifies this
      ensures error == None
      ensures items == old(items) && current == old(current) && loading == old(loading) && success == old(success)
    {
      error := None;
    }

    /** `reset…Success`: success := false. */
    method ResetSuccess()
      modifies this
      ensures !success
      ensures items == old(items) && current == old(current) && loading == old(loading) && error == old(error)
    {
      success := false;
    }

    /** `clear…Details`: the current entity := null. */
    method ClearDetails()
      modifies this
      ensures current == None
      ensures items == old(items) && loading == old(loading) && error == old(error) && success == old(success)
    {
      current := None;
    }

    /** Every `.pending` case (create, list, get by id, update, delete). */
    method Pending()
      modifies this
      ensures loading && error == None
      ensures items == old(items) && current == old(current) && success == old(success)
    {
      loading := true;
      error := None;
    }

    /** Every `.rejected` case: the rejection value becomes the error. */
    method Rejected(message: string)
      modifies this
      ensures !loading && error == Some(message)
      ensures items == old(items) && current == old(current) && success == old(success)
    {
      loading := false;
      error := Some(message);
    }

    /** `create….fulfilled`: the created entity is pushed at the end. */
    method CreateFulfilled(created: E)
      modifies this
      ensures items == old(items) + [created]
      ensures !loading && success
      ensures current == old(current) && error == old(error)
    {
      loading := false;
      success := true;
      items := items + [created];
    }

    /** `get…s.fulfilled`: the fetched list replaces the cached one. */
    method ListFulfilled(fetched: seq<E>)
      modifies this
      ensures items == fetched && !loading
      ensures current == old(current) && error == old(error) && success == old(success)
    {
      loading := false;
      items := fetched;
    }

    /** `get…ById.fulfilled`: the fetched entity becomes the current one. */
    method GetByIdFulfilled(fetched: E)
      modifies this
      ensures current == Some(fetched) && !loading
      ensures items == old(items) && error == old(error) && success == old(success)
    {
      loading := false;
      current := Some(fetched);
    }

    /** `update….fulfilled`: the updated entity becomes the current one and
        replaces every cached entity with the same id. */
    method UpdateFulfilled(updated: E)
      modifies this
      ensures items == ReplaceById(old(items), updated, idOf)
      ensures |items| == |old(items)|
      ensures current == Some(updated) && !loading && success
      ensures error == old(error)
    {
      loading := false;
      success := true;
      current := Some(updated);
      items := ReplaceById(items, updated, idOf);
    }

    /** `delete….fulfilled`: every cached entity with the deleted id goes. */
    method DeleteFulfilled(id: string)
      modifies this
      ensures items == RemoveById(old(items), id, idOf)
      ensures forall i :: 0 <= i < |items| ==> idOf(items[i]) != Some(id)
      ensures !loading && success
      ensures current == old(current) && error == old(error)
    {
      loading := false;
      success := true;
      items := RemoveById(items, id, idOf);
    }
  }
}
