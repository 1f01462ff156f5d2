/**
 * Operations on the logged beverage list shared by the page script and the session store:
 * delete-by-id filtering and the newest-first display order.
 */
module BeverageList {
  import opened Model

  /** The list without the entries carrying `id` (`filter(b => b.id !== id)`, `Where(b => b.Id != id)`). */
  function Without(bs: seq<Beverage>, id: int): (r: seq<Beverage>)
    ensures |r| <= |bs|
    ensures forall i :: 0 <= i < |r| ==> r[i].id != id
    ensures forall i :: 0 <= i < |r| ==> r[i] in bs
    ensures forall b :: b in bs && b.id != id ==> b in r
  {
    if |bs| == 0 then []
    else if bs[0].id == id then Without(bs[1..], id)
    else [bs[0]] + Without(bs[1..], id)
  }

  /** Filtering distributes over concatenation, so relative order is kept. */
  lemma {:induction false} WithoutAppend(a: seq<Beverage>, b: seq<Beverage>, id: int)
    ensures Without(a + b, id) == Without(a, id) + Without(b, id)
    decreases |a|
  {
    if |a| == 0 {
      assert a + b == b;
    } else {
      assert (a + b)[0] == a[0];
      assert (a + b)[1..] == a[1..] + b;
      WithoutAppend(a[1..], b, id);
    }
  }

  /** On one element the filter keeps it exactly when its id differs. */
  lemma WithoutSingle(x: Beverage, id: int)
    ensures Without([x], id) == if x.id == id then [] else [x]
  {
    assert [x][1..] == [];
  }

  /** Every entry whose id differs keeps its multiplicity. */
  lemma {:induction false} WithoutCounts(bs: seq<Beverage>, id: int, x: Beverage)
    requires x.id != id
    ensures multiset(Without(bs, id))[x] == multiset(bs)[x]
    decreases |bs|
  {
    if |bs| > 0 {
      assert bs == [bs[0]] + bs[1..];
      WithoutCounts(bs[1..], id, x);
    }
  }

  /** Deleting an id that no entry carries changes nothing. */
  lemma {:induction false} WithoutAbsent(bs: seq<Beverage>, id: int)
    requires forall i :: 0 <= i < |bs| ==> bs[i].id != id
    ensures Without(bs, id) == bs
    decreases |bs|
  {
    if |bs| > 0 {
      WithoutAbsent(bs[1..], id);
      assert bs == [bs[0]] + bs[1..];
    }
  }

  /** Deleting twice is deleting once. */
  lemma {:induction false} WithoutIdempotent(bs: seq<Beverage>, id: int)
    ensures Without(Without(bs, id), id) == Without(bs, id)
  {
    WithoutAbsent(Without(bs, id), id);
  }

  /** Newest first: consumption times never increase along the list. */
  predicate NewestFirst(bs: seq<Beverage>) {
    forall i, j :: 0 <= i < j < |bs| ==> bs[i].consumedTime >= bs[j].consumedTime
  }

  /** Places `x` in front of the first entry that is not newer than it. */
  function Insert(x: Beverage, bs: seq<Beverage>): (r: seq<Beverage>)
    requires NewestFirst(bs)
    ensures NewestFirst(r)
    ensures multiset(r) == multiset(bs) + multiset{x}
  {
    if |bs| == 0 || bs[0].consumedTime <= x.consumedTime then [x] + bs
    else
      var rest := Insert(x, bs[1..]);
      assert multiset(bs) == multiset{bs[0]} + multiset(bs[1..]) by {
        assert bs == [bs[0]] + bs[1..];
      }
      assert forall k :: 0 <= k < |rest| ==> rest[k] in multiset(rest);
      [bs[0]] + rest
  }

  /** The display order of the beverage table: a newest-first, stable sort of a copy
      (`[...beverages].sort((a, b) => new Date(b.consumedTime) - new Date(a.consumedTime))`,
      with the stored times as the numbers the `Date`s stand for). */
  function SortNewestFirst(bs: seq<Beverage>): (r: seq<Beverage>)
    ensures NewestFirst(r)
    ensures multiset(r) == multiset(bs)
  {
    if |bs| == 0 then []
    else
      assert bs == [bs[0]] + bs[1..];
      Insert(bs[0], SortNewestFirst(bs[1..]))
  }

  /** The entries consumed at time `t`, in list order. */
  function AtTime(bs: seq<Beverage>, t: real): seq<Beverage> {
    if |bs| == 0 then []
    else if bs[0].consumedTime == t then [bs[0]] + AtTime(bs[1..], t)
    else AtTime(bs[1..], t)
  }

  lemma {:induction false} AtTimeInsert(x: Beverage, bs: seq<Beverage>, t: real)
    requires NewestFirst(bs)
    ensures AtTime(Insert(x, bs), t) == if x.consumedTime == t then [x] + AtTime(bs, t) else AtTime(bs, t)
    decreases |bs|
  {
    var r := Insert(x, bs);
    if |bs| == 0 || bs[0].consumedTime <= x.consumedTime {
      assert r[1..] == bs;
    } else {
      AtTimeInsert(x, bs[1..], t);
      assert r[1..] == Insert(x, bs[1..]);
    }
  }

  /** Stability: entries consumed at the same moment keep their original relative order. */
  lemma {:induction false} SortIsStable(bs: seq<Beverage>, t: real)
    ensures AtTime(SortNewestFirst(bs), t) == AtTime(bs, t)
    decreases |bs|
  {
    if |bs| > 0 {
      SortIsStable(bs[1..], t);
      AtTimeInsert(bs[0], SortNewestFirst(bs[1..]), t);
    }
  }
}
