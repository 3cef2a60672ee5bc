/**
 * The page arithmetic shared by the product and quote listings:
 * `skip = (page - 1) * limit`, `take: limit`, `pages = Math.ceil(total / limit)`.
 */
module Paging {
  import opened Schema
  import opened Sorting

  const DefaultPage: int := 1
  const DefaultLimit: int := 10

  /** `parseInt(searchParams.get(key) || default)`, with the parse already done. */
  function Param(given: Option<int>, default: int): (v: int)
    ensures given.None? ==> v == default
    ensures given.Some? ==> v == given.value
  {
    given.GetOr(default)
  }

  function Skip(page: int, limit: int): (skip: int)
    ensures page >= 1 && limit >= 0 ==> skip >= 0
    ensures page < 1 && limit >= 1 ==> skip < 0
  {
    (page - 1) * limit
  }

  /** `Math.ceil(total / limit)` for a positive limit. */
  function PageCount(total: nat, limit: int): (pages: nat)
    requires limit > 0
    ensures total <= pages * limit
    ensures (pages - 1) * limit < total
  {
    (total + limit - 1) / limit
  }

  /** `skip`/`take` over an ordered result: the rows at offsets skip .. skip+take-1. */
  function Window<T>(s: seq<T>, skip: nat, take: nat): (r: seq<T>)
    ensures |r| <= take
    ensures skip >= |s| ==> r == []
    ensures skip < |s| ==> |r| == if skip + take <= |s| then take else |s| - skip
    ensures forall i :: 0 <= i < |r| ==> skip + i < |s| && r[i] == s[skip + i]
  {
    if skip >= |s| then []
    else if skip + take <= |s| then s[skip..skip + take]
    else s[skip..]
  }

  /** A window of a newest-first sequence is newest first. */
  lemma WindowKeepsOrder<T>(s: seq<T>, skip: nat, take: nat, stamp: T -> int)
    requires NewestFirst(s, stamp)
    ensures NewestFirst(Window(s, skip, take), stamp)
  {
    var r := Window(s, skip, take);
    forall i, j | 0 <= i < j < |r| ensures stamp(r[i]) >= stamp(r[j]) {
      assert r[i] == s[skip + i] && r[j] == s[skip + j];
    }
  }

  /** Consecutive pages of the same result never share an offset, and together cover it. */
  lemma {:induction false} WindowsTile<T>(s: seq<T>, page: int, limit: int)
    requires page >= 1 && limit >= 1
    ensures Window(s, Skip(page, limit), limit) + Window(s, Skip(page + 1, limit), limit)
         == Window(s, Skip(page, limit), 2 * limit)
  {
    var a := Skip(page, limit);
    assert Skip(page + 1, limit) == a + limit;
    var w1 := Window(s, a, limit);
    var w2 := Window(s, a + limit, limit);
    var w := Window(s, a, 2 * limit);
    assert |w1 + w2| == |w|;
    forall i | 0 <= i < |w| ensures (w1 + w2)[i] == w[i] {
      if i >= |w1| {
        assert w2[i - |w1|] == s[a + limit + (i - |w1|)];
      }
    }
  }
}
