/**
 What tells the nodes of a deployment apart: their addresses and their place in a
 block; and what it means that each node is new with respect to the ones before it.
 */
module FoundationIdentity {
  /** The stripped addresses of a node, and its block and position. */
  datatype Identity = Identity(addresses: seq<string>, place: (string, string))

  predicate NoDuplicates(xs: seq<string>) {
    forall i, j :: 0 <= i < j < |xs| ==> xs[i] != xs[j]
  }

  /** A node against what was seen before it. */
  predicate Fresh(id: Identity, ips: set<string>, places: set<(string, string)>) {
    && NoDuplicates(id.addresses)
    && (forall a :: a in id.addresses ==> a !in ips)
    && id.place !in places
  }

  function AddressSet(ids: seq<Identity>): set<string> {
    set id, a | id in ids && a in id.addresses :: a
  }

  function Places(ids: seq<Identity>): set<(string, string)> {
    set id | id in ids :: id.place
  }

  /** Each node is fresh with respect to the ones before it. */
  predicate AllFresh(ids: seq<Identity>, ips: set<string>, places: set<(string, string)>) {
    if ids == [] then true
    else
      var before := ids[..|ids| - 1];
      AllFresh(before, ips, places) && Fresh(ids[|ids| - 1], ips + AddressSet(before), places + Places(before))
  }

  lemma Unions(a: seq<Identity>, b: seq<Identity>)
    ensures AddressSet(a + b) == AddressSet(a) + AddressSet(b)
    ensures Places(a + b) == Places(a) + Places(b)
  {
    assert forall id :: id in a + b <==> id in a || id in b;
  }

  lemma SeenTwice(a: seq<Identity>, b: seq<Identity>, ips: set<string>, places: set<(string, string)>)
    ensures ips + AddressSet(a + b) == ips + AddressSet(a) + AddressSet(b)
    ensures places + Places(a + b) == places + Places(a) + Places(b)
  {
    Unions(a, b);
  }

  lemma OneMoreFresh(before: seq<Identity>, id: Identity, ips: set<string>, places: set<(string, string)>)
    ensures AllFresh(before + [id], ips, places) <==>
      AllFresh(before, ips, places) && Fresh(id, ips + AddressSet(before), places + Places(before))
  {
    assert (before + [id])[..|before + [id]| - 1] == before;
  }

  lemma {:induction false} FreshConcatenation(a: seq<Identity>, b: seq<Identity>, ips: set<string>, places: set<(string, string)>)
    ensures AllFresh(a + b, ips, places) <==>
      AllFresh(a, ips, places) && AllFresh(b, ips + AddressSet(a), places + Places(a))
  {
    if b == [] {
      assert a + b == a;
    } else {
      var before, last := b[..|b| - 1], b[|b| - 1];
      var ips', places' := ips + AddressSet(a), places + Places(a);
      FreshConcatenation(a, before, ips, places);
      OneMoreFresh(a + before, last, ips, places);
      OneMoreFresh(before, last, ips', places');
      SeenTwice(a, before, ips, places);
      assert a + b == (a + before) + [last] && b == before + [last];
    }
  }

  lemma FreshFromTheStart(seen: seq<Identity>, more: seq<Identity>)
    ensures AllFresh(seen + more, {}, {}) <==> AllFresh(seen, {}, {}) && AllFresh(more, AddressSet(seen), Places(seen))
  {
    FreshConcatenation(seen, more, {}, {});
    assert {} + AddressSet(seen) == AddressSet(seen) && {} + Places(seen) == Places(seen);
  }

  /** Fresh nodes have no address twice ... */
  lemma {:induction false} FreshAlone(ids: seq<Identity>, ips: set<string>, places: set<(string, string)>, p: nat)
    requires AllFresh(ids, ips, places) && p < |ids|
    ensures NoDuplicates(ids[p].addresses)
  {
    var last := |ids| - 1;
    if p < last {
      FreshAlone(ids[..last], ips, places, p);
    }
  }

  /** ... and any two of them neither an address nor a place in common. */
  lemma {:induction false} FreshPairwise(ids: seq<Identity>, ips: set<string>, places: set<(string, string)>, p: nat, q: nat)
    requires AllFresh(ids, ips, places) && p < q < |ids|
    ensures ids[p].place != ids[q].place
    ensures forall a :: a in ids[p].addresses ==> a !in ids[q].addresses
  {
    var last := |ids| - 1;
    var before := ids[..last];
    if q == last {
      assert before[p] in before;
      assert ids[p].place in Places(before);
      assert forall a :: a in ids[p].addresses ==> a in AddressSet(before);
    } else {
      FreshPairwise(before, ips, places, p, q);
    }
  }
}
