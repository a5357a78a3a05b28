/**
 * The vehicles screen (`VehicleList`): the first page fetched once on
 * mount, kept only when it is a non-empty array, and a delete that filters
 * the list locally without asking the server.
 */
module VehicleList {
  import opened Common
  import opened Http
  import opened Session
  import opened Api

  /** The JSON value `fetchVehicules` resolves with, as far as the screen looks at it. */
  datatype Payload = ArrayValue(items: seq<Record>) | PageObject(body: PageBody<Record>) | NullValue

  /**
   * `vehicules && vehicules.length > 0`: only a non-empty array has a
   * positive length; an object has no `length` and null is falsy.
   */
  predicate Replaces(p: Payload)
  {
    p.ArrayValue? && |p.items| > 0
  }

  /** The list after a fetch: the fetched array when it replaces the list, the previous list otherwise. */
  function AfterFetch(current: seq<Record>, outcome: Outcome<Payload>): (shown: seq<Record>)
    ensures outcome.Ok? && Replaces(outcome.value) ==> shown == outcome.value.items && shown != []
    ensures !(outcome.Ok? && Replaces(outcome.value)) ==> shown == current
    ensures current != [] ==> shown != []
    ensures outcome.Ok? && outcome.value.PageObject? ==> shown == current
  {
    if outcome.Ok? && Replaces(outcome.value) then outcome.value.items else current
  }

  /** `vehicules.filter(v => v.id !== id)`. */
  function WithoutId(vs: seq<Record>, id: int): (r: seq<Record>)
    ensures |r| <= |vs|
    ensures forall k :: 0 <= k < |r| ==> r[k].id != id
    ensures forall v :: v in vs && v.id != id ==> v in r
    ensures forall v :: v in r ==> v in vs
    ensures forall v: Record :: v.id != id ==> multiset(r)[v] == multiset(vs)[v]
    ensures forall v: Record :: v.id == id ==> multiset(r)[v] == 0
  {
    if vs == [] then []
    else
      assert vs == [vs[0]] + vs[1..];
      if vs[0].id == id then WithoutId(vs[1..], id)
      else [vs[0]] + WithoutId(vs[1..], id)
  }

  /** `sub` is `vs` with some elements dropped and the rest in their original order. */
  predicate Subsequence(sub: seq<Record>, vs: seq<Record>)
    decreases |vs|
  {
    if sub == [] then true
    else if vs == [] then false
    else if sub[0] == vs[0] then Subsequence(sub[1..], vs[1..])
    else Subsequence(sub, vs[1..])
  }

  /** Filtering keeps the remaining vehicles in their relative order. */
  lemma {:induction false} WithoutIdKeepsOrder(vs: seq<Record>, id: int)
    ensures Subsequence(WithoutId(vs, id), vs)
    decreases |vs|
  {
    if vs != [] {
      WithoutIdKeepsOrder(vs[1..], id);
      if vs[0].id != id {
        assert ([vs[0]] + WithoutId(vs[1..], id))[1..] == WithoutId(vs[1..], id);
      } else {
        SubsequenceOfTail(WithoutId(vs[1..], id), vs);
      }
    }
  }

  /** A subsequence of the tail is a subsequence of the whole. */
  lemma {:induction false} SubsequenceOfTail(sub: seq<Record>, vs: seq<Record>)
    requires vs != [] && Subsequence(sub, vs[1..])
    ensures Subsequence(sub, vs)
    decreases |vs|, 0
  {
    if sub != [] && sub[0] == vs[0] {
      SubsequenceDropHead(sub, vs[1..]);
    }
  }

  /** Dropping the first element of a subsequence keeps it a subsequence. */
  lemma {:induction false} SubsequenceDropHead(sub: seq<Record>, vs: seq<Record>)
    requires sub != [] && Subsequence(sub, vs)
    ensures Subsequence(sub[1..], vs)
    decreases |vs|, 1
  {
    assert vs != [];
    if sub[0] == vs[0] {
      SubsequenceOfTail(sub[1..], vs);
    } else {
      SubsequenceDropHead(sub, vs[1..]);
      SubsequenceOfTail(sub[1..], vs);
    }
  }

  /** Deleting an id no vehicle has leaves the list as it was. */
  lemma {:induction false} WithoutAbsentId(vs: seq<Record>, id: int)
    requires forall k :: 0 <= k < |vs| ==> vs[k].id != id
    ensures WithoutId(vs, id) == vs
    decreases |vs|
  {
    if vs != [] {
      WithoutAbsentId(vs[1..], id);
      assert [vs[0]] + vs[1..] == vs;
    }
  }

  /** Deleting the same id twice is the same as deleting it once. */
  lemma WithoutIdIdempotent(vs: seq<Record>, id: int)
    ensures WithoutId(WithoutId(vs, id), id) == WithoutId(vs, id)
  {
    WithoutAbsentId(WithoutId(vs, id), id);
  }

  class VehicleList {
    var vehicules: seq<Record>

    /** The state on first render: no vehicles, so the "none found" row is shown. */
    constructor ()
      ensures vehicules == []
    {
      vehicules := [];
    }

    /** The placeholder row is rendered exactly when the list is empty. */
    predicate ShowsPlaceholder()
      reads this
    {
      |vehicules| == 0
    }

    /**
     * `fetchVehicule()`, run once on mount: a GET of the first page through
     * the shared client. A failure is reported in an alert and leaves the list.
     */
    method FetchVehicule(outcome: Outcome<Payload>, browser: Browser)
      modifies this, browser
      ensures vehicules == AfterFetch(old(vehicules), outcome)
      ensures browser.requests == old(browser.requests) + [ClientRequest(old(browser.storage), Get, ListPath(Vehicules, 1), map[])]
      ensures browser.storage == StorageAfter(old(browser.storage), outcome)
      ensures browser.location == LocationAfter(old(browser.location), outcome)
      ensures browser.events == old(browser.events)
      ensures old(!ShowsPlaceholder()) ==> !ShowsPlaceholder()
    {
      var r := browser.Send(Get, ListPath(Vehicules, 1), map[], outcome);
      if r.Ok? {
        var fetched := r.value;
        if fetched.ArrayValue? && |fetched.items| > 0 {
          vehicules := fetched.items;
        }
      }
    }

    /** `handleDelete(id)`: local only, with no confirmation and no request. */
    method HandleDelete(id: int)
      modifies this
      ensures vehicules == WithoutId(old(vehicules), id)
      ensures forall k :: 0 <= k < |vehicules| ==> vehicules[k].id != id
      ensures Subsequence(vehicules, old(vehicules))
      ensures ShowsPlaceholder() <==> forall k :: 0 <= k < |old(vehicules)| ==> old(vehicules)[k].id == id
    {
      WithoutIdKeepsOrder(vehicules, id);
      vehicules := WithoutId(vehicules, id);
    }
  }
}
