/** `ORDER BY key LIMIT n`, with ties broken in any way. */
module Paging {
  import opened RelayTables

  predicate Distinct(page: seq<Id>) {
    forall i, j :: 0 <= i < j < |page| ==> page[i] != page[j]
  }

  predicate InOrder(keys: map<Id, int>, page: seq<Id>)
    requires forall x :: x in page ==> x in keys
  {
    forall i, j :: 0 <= i < j < |page| ==> keys[page[i]] <= keys[page[j]]
  }

  function Min(a: nat, b: nat): nat {
    if a < b then a else b
  }

  ghost predicate IsPage(keys: map<Id, int>, limit: nat, page: seq<Id>) {
    && Distinct(page)
    && (forall x :: x in page ==> x in keys)
    && |page| == Min(limit, |keys|)
    && InOrder(keys, page)
    && (forall x, y :: x in page && y in keys && y !in page ==> keys[x] <= keys[y])
  }

  lemma {:induction false} EarliestExists(keys: map<Id, int>, rest: set<Id>)
    requires rest != {} && rest <= keys.Keys
    ensures exists x :: x in rest && forall y :: y in rest ==> keys[x] <= keys[y]
    decreases |rest|
  {
    var x :| x in rest;
    if rest == {x} {
      assert forall y :: y in rest ==> keys[x] <= keys[y];
    } else {
      EarliestExists(keys, rest - {x});
      var z :| z in rest - {x} && forall y :: y in rest - {x} ==> keys[z] <= keys[y];
      assert forall y :: y in rest ==> y == x || y in rest - {x};
      if keys[x] <= keys[z] {
        assert forall y :: y in rest ==> keys[x] <= keys[y];
      } else {
        assert forall y :: y in rest ==> keys[z] <= keys[y];
      }
    }
  }

  /** The rows a query returns: take the earliest of the rest, at most `limit` times. */
  method Select(keys: map<Id, int>, limit: nat) returns (page: seq<Id>)
    ensures IsPage(keys, limit, page)
  {
    page := [];
    var rest := keys.Keys;
    while |page| < limit && rest != {}
      invariant |page| + |rest| == |keys| && |page| <= limit
      invariant rest <= keys.Keys && forall x :: x in page <==> x in keys && x !in rest
      invariant Distinct(page) && InOrder(keys, page)
      invariant forall x, y :: x in page && y in rest ==> keys[x] <= keys[y]
      decreases |rest|
    {
      EarliestExists(keys, rest);
      var x :| x in rest && forall y :: y in rest ==> keys[x] <= keys[y];
      page := page + [x];
      rest := rest - {x};
    }
  }

  lemma {:induction false} SubsetSize<T>(few: set<T>, many: set<T>)
    requires few <= many
    ensures |few| <= |many|
    decreases |many|
  {
    if x :| x in many {
      SubsetSize(few - {x}, many - {x});
    }
  }

  lemma {:induction false} DistinctSize(page: seq<Id>, all: set<Id>)
    requires Distinct(page) && forall x :: x in page ==> x in all
    ensures |page| <= |all| && |all - set x | x in page| == |all| - |page|
  {
    if page == [] {
      assert all - (set x | x in page) == all;
    } else {
      var last := page[|page| - 1];
      var front := page[..|page| - 1];
      DistinctSize(front, all - {last});
      assert all - (set x | x in page) == (all - {last}) - set x | x in front;
    }
  }
}
