/**
 * What the handlers ask of the document store when they list a collection:
 * `find(filter).sort({ createdAt: -1 })` returns every selected document
 * once, newest first. Selection is done by the caller, which passes the
 * creation instant of each selected document.
 */
module Query {
  import opened Common

  predicate Distinct(ids: seq<Id>) {
    forall i, j :: 0 <= i < j < |ids| ==> ids[i] != ids[j]
  }

  /** `ids` lists documents by non-increasing creation instant. */
  predicate NewestFirstOrder(ids: seq<Id>, created: map<Id, nat>)
    requires forall k :: k in ids ==> k in created
  {
    forall i, j :: 0 <= i < j < |ids| ==> created[ids[i]] >= created[ids[j]]
  }

  /** The records of `m` named by `ids`, in that order. */
  function Records<R>(m: map<Id, R>, ids: seq<Id>): (rs: seq<R>)
    requires forall k :: k in ids ==> k in m
    ensures |rs| == |ids|
    ensures forall i :: 0 <= i < |ids| ==> rs[i] == m[ids[i]]
  {
    seq(|ids|, i requires 0 <= i < |ids| => m[ids[i]])
  }

  /** A list without repetitions has as many elements as its set. */
  lemma {:induction false} DistinctCardinality(ids: seq<Id>)
    requires Distinct(ids)
    ensures |set k | k in ids| == |ids|
  {
    if ids != [] {
      var rest := ids[1..];
      assert Distinct(rest);
      DistinctCardinality(rest);
      assert (set k | k in ids) == (set k | k in rest) + {ids[0]};
      assert ids[0] !in rest;
    }
  }

  /** A list without repetitions of exactly the keys of `m` has `|m|`
      elements. */
  lemma EnumerationLength<R>(ids: seq<Id>, m: map<Id, R>)
    requires Distinct(ids)
    requires forall k :: k in ids <==> k in m
    ensures |ids| == |m|
  {
    DistinctCardinality(ids);
    assert (set k | k in ids) == m.Keys;
  }

  /** Places `k` after every document strictly newer than it, keeping the
      list newest first. */
  method InsertNewest(ids: seq<Id>, k: Id, created: map<Id, nat>) returns (next: seq<Id>)
    requires k in created && k !in ids
    requires forall x :: x in ids ==> x in created
    requires Distinct(ids) && NewestFirstOrder(ids, created)
    ensures forall x :: x in next <==> x in ids || x == k
    ensures Distinct(next) && NewestFirstOrder(next, created)
  {
    var t := created[k];
    var i := 0;
    while i < |ids| && created[ids[i]] > t
      invariant 0 <= i <= |ids|
      invariant forall j :: 0 <= j < i ==> created[ids[j]] > t
    {
      i := i + 1;
    }
    InsertionPoint(ids, created, i, t);
    next := ids[..i] + [k] + ids[i..];
    SpliceFacts(ids, k, i);
  }

  /** Past the first document not newer than `t`, no document is newer. */
  lemma InsertionPoint(ids: seq<Id>, created: map<Id, nat>, i: int, t: nat)
    requires forall x :: x in ids ==> x in created
    requires NewestFirstOrder(ids, created)
    requires 0 <= i <= |ids| && (i < |ids| ==> created[ids[i]] <= t)
    ensures forall j :: i <= j < |ids| ==> created[ids[j]] <= t
  {
  }

  lemma SpliceFacts(ids: seq<Id>, k: Id, i: int)
    requires 0 <= i <= |ids|
    ensures var next := ids[..i] + [k] + ids[i..];
      && |next| == |ids| + 1
      && (forall j :: 0 <= j < i ==> next[j] == ids[j])
      && next[i] == k
      && (forall j :: i < j < |next| ==> next[j] == ids[j - 1])
  {
  }

  /** The store's scan and sort: every key of `created` exactly once, newest
      first (documents created at the same instant in either order). */
  method NewestFirst(created: map<Id, nat>) returns (ids: seq<Id>)
    ensures Distinct(ids)
    ensures forall k :: k in ids <==> k in created
    ensures |ids| == |created|
    ensures NewestFirstOrder(ids, created)
  {
    ids := [];
    var rest := created.Keys;
    while rest != {}
      invariant rest <= created.Keys
      invariant forall k :: k in ids <==> k in created && k !in rest
      invariant Distinct(ids)
      invariant NewestFirstOrder(ids, created)
      decreases rest
    {
      var k :| k in rest;
      ids := InsertNewest(ids, k, created);
      rest := rest - {k};
    }
    EnumerationLength(ids, created);
  }
}
