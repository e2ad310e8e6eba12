/**
 * The recommendation service: catalog products the request did not
 * mention, in a random order, at most five of them.
 */
module Recommendation {
  import opened Wrappers
  import opened Messages

  const MaxResponses: nat := 5

  /** The ids named in the request, as the set the service builds from them. */
  function IdSet(ids: seq<string>): set<string>
  {
    set id | id in ids
  }

  /** Catalog ids not in `excluded`, in catalog order. */
  function Unrequested(catalog: seq<Product>, excluded: set<string>): seq<string>
  {
    if catalog == [] then []
    else
      var init := Unrequested(catalog[..|catalog| - 1], excluded);
      var id := catalog[|catalog| - 1].id;
      if id in excluded then init else init + [id]
  }

  method CollectIds(ids: seq<string>) returns (s: set<string>)
    ensures s == IdSet(ids)
  {
    s := {};
    for i := 0 to |ids|
      invariant s == IdSet(ids[..i])
    {
      assert ids[..i + 1] == ids[..i] + [ids[i]];
      s := s + {ids[i]};
    }
    assert ids[..|ids|] == ids;
  }

  method Filter(catalog: seq<Product>, excluded: set<string>) returns (filtered: seq<string>)
    ensures filtered == Unrequested(catalog, excluded)
  {
    filtered := [];
    for i := 0 to |catalog|
      invariant filtered == Unrequested(catalog[..i], excluded)
    {
      assert catalog[..i + 1][..i] == catalog[..i];
      if catalog[i].id !in excluded {
        filtered := filtered + [catalog[i].id];
      }
    }
    assert catalog[..|catalog|] == catalog;
  }

  /** `rand.Shuffle`: Fisher-Yates swaps with an arbitrary choice of partner at each step. */
  method Shuffle(a: array<string>)
    modifies a
    ensures multiset(a[..]) == multiset(old(a[..]))
  {
    var i := a.Length;
    while i > 1
      invariant 0 <= i <= a.Length
      invariant multiset(a[..]) == multiset(old(a[..]))
    {
      i := i - 1;
      var j :| 0 <= j <= i;
      a[i], a[j] := a[j], a[i];
    }
  }

  /**
   * `ListRecommendations`: the catalog's ids minus those in the request,
   * shuffled, cut to five. A catalog failure is passed back as the error.
   */
  method ListRecommendations(productIds: seq<string>, catalog: Result<seq<Product>, RpcError>)
    returns (r: Result<seq<string>, RpcError>)
    ensures catalog.Err? ==> r == Err(catalog.error)
    ensures catalog.Ok? ==> r.Ok?
    ensures catalog.Ok? ==>
      var candidates := Unrequested(catalog.value, IdSet(productIds));
      && |r.value| == (if |candidates| > MaxResponses then MaxResponses else |candidates|)
      && multiset(r.value) <= multiset(candidates)
      && (|candidates| <= MaxResponses ==> multiset(r.value) == multiset(candidates))
    ensures catalog.Ok? ==>
      forall k :: 0 <= k < |r.value| ==>
        r.value[k] !in productIds && exists i :: 0 <= i < |catalog.value| && catalog.value[i].id == r.value[k]
  {
    if catalog.Err? {
      return Err(catalog.error);
    }
    var userIds := CollectIds(productIds);
    var filtered := Filter(catalog.value, userIds);
    var a := new string[|filtered|](i requires 0 <= i < |filtered| => filtered[i]);
    assert a[..] == filtered;
    Shuffle(a);
    var n := if a.Length > MaxResponses then MaxResponses else a.Length;
    var recommended := a[..n];
    assert a[..] == recommended + a[n..];
    assert multiset(a[..]) == multiset(recommended) + multiset(a[n..]);
    RecommendedIds(productIds, catalog.value, recommended);
    return Ok(recommended);
  }

  /** An id survives the filter exactly when the catalog has it and the request does not name it. */
  lemma {:induction false} UnrequestedMembers(catalog: seq<Product>, excluded: set<string>, id: string)
    ensures id in Unrequested(catalog, excluded) <==>
      id !in excluded && exists i :: 0 <= i < |catalog| && catalog[i].id == id
  {
    if catalog != [] {
      var init := catalog[..|catalog| - 1];
      UnrequestedMembers(init, excluded, id);
      if id !in excluded && (exists i :: 0 <= i < |catalog| && catalog[i].id == id) {
        var i :| 0 <= i < |catalog| && catalog[i].id == id;
        if i < |init| {
          assert init[i].id == id;
        }
      }
    }
  }

  /** No returned id is one the request named, and each is a catalog product's id. */
  lemma RecommendedIds(productIds: seq<string>, catalog: seq<Product>, recommended: seq<string>)
    requires multiset(recommended) <= multiset(Unrequested(catalog, IdSet(productIds)))
    ensures forall k :: 0 <= k < |recommended| ==>
      recommended[k] !in productIds && exists i :: 0 <= i < |catalog| && catalog[i].id == recommended[k]
  {
    forall k | 0 <= k < |recommended|
      ensures recommended[k] !in productIds
      ensures exists i :: 0 <= i < |catalog| && catalog[i].id == recommended[k]
    {
      assert recommended[k] in multiset(recommended);
      UnrequestedMembers(catalog, IdSet(productIds), recommended[k]);
    }
  }

  /** The filter never yields more ids than the catalog has products. */
  lemma {:induction false} UnrequestedLength(catalog: seq<Product>, excluded: set<string>)
    ensures |Unrequested(catalog, excluded)| <= |catalog|
    ensures excluded == {} ==> |Unrequested(catalog, excluded)| == |catalog|
  {
    if catalog != [] {
      UnrequestedLength(catalog[..|catalog| - 1], excluded);
    }
  }
}
