/**
 * The two orders the list endpoints ask the store for: by name ascending
 * (categories, printing techniques) and by creation stamp descending
 * (products, quotes). Both are stable insertion sorts, so rows with equal
 * keys keep their table order.
 */
module Sorting {
  import opened Text

  ghost predicate SortedByName<T>(s: seq<T>, name: T -> string) {
    forall i, j :: 0 <= i < j < |s| ==> LexLe(name(s[i]), name(s[j]))
  }

  function InsertByName<T>(x: T, s: seq<T>, name: T -> string): (r: seq<T>)
    ensures multiset(r) == multiset(s) + multiset{x}
    ensures |r| == |s| + 1
  {
    if s == [] then [x]
    else if LexLe(name(x), name(s[0])) then [x] + s
    else
      assert s == [s[0]] + s[1..];
      [s[0]] + InsertByName(x, s[1..], name)
  }

  /** Every name in `s` is at least `b`. */
  ghost predicate NamesFrom<T>(b: string, s: seq<T>, name: T -> string) {
    forall k :: 0 <= k < |s| ==> LexLe(b, name(s[k]))
  }

  lemma SortedByNameCons<T>(h: T, t: seq<T>, name: T -> string)
    requires SortedByName(t, name) && NamesFrom(name(h), t, name)
    ensures SortedByName([h] + t, name)
  {
    var r := [h] + t;
    forall i, j | 0 <= i < j < |r| ensures LexLe(name(r[i]), name(r[j])) {
      assert r[j] == t[j - 1];
      if i > 0 {
        assert r[i] == t[i - 1];
      }
    }
  }

  lemma {:induction false} InsertByNameFrom<T>(b: string, x: T, s: seq<T>, name: T -> string)
    requires LexLe(b, name(x)) && NamesFrom(b, s, name)
    ensures NamesFrom(b, InsertByName(x, s, name), name)
  {
    if s != [] && !LexLe(name(x), name(s[0])) {
      InsertByNameFrom(b, x, s[1..], name);
      var r := InsertByName(x, s, name);
      assert r == [s[0]] + InsertByName(x, s[1..], name);
      forall k | 0 <= k < |r| ensures LexLe(b, name(r[k])) {
        if k > 0 {
          assert r[k] == InsertByName(x, s[1..], name)[k - 1];
        }
      }
    }
  }

  lemma {:induction false} InsertByNameSorted<T>(x: T, s: seq<T>, name: T -> string)
    requires SortedByName(s, name)
    ensures SortedByName(InsertByName(x, s, name), name)
  {
    if s == [] {
    } else if LexLe(name(x), name(s[0])) {
      forall k | 0 <= k < |s| ensures LexLe(name(x), name(s[k])) {
        if k > 0 { LexLeTransitive(name(x), name(s[0]), name(s[k])); }
      }
      SortedByNameCons(x, s, name);
    } else {
      var tail := s[1..];
      assert SortedByName(tail, name) by {
        forall i, j | 0 <= i < j < |tail| ensures LexLe(name(tail[i]), name(tail[j])) {
          assert tail[i] == s[i + 1] && tail[j] == s[j + 1];
        }
      }
      assert NamesFrom(name(s[0]), tail, name) by {
        forall k | 0 <= k < |tail| ensures LexLe(name(s[0]), name(tail[k])) {
          assert tail[k] == s[k + 1];
        }
      }
      LexLeTotal(name(x), name(s[0]));
      InsertByNameSorted(x, tail, name);
      InsertByNameFrom(name(s[0]), x, tail, name);
      SortedByNameCons(s[0], InsertByName(x, tail, name), name);
    }
  }

  /** `orderBy: { name: 'asc' }` */
  function ByName<T>(s: seq<T>, name: T -> string): (r: seq<T>)
    ensures multiset(r) == multiset(s)
    ensures SortedByName(r, name)
  {
    if s == [] then []
    else
      var rest := ByName(s[1..], name);
      InsertByNameSorted(s[0], rest, name);
      assert multiset(s) == multiset{s[0]} + multiset(s[1..]) by {
        assert s == [s[0]] + s[1..];
      }
      InsertByName(s[0], rest, name)
  }

  /** Sorting only reorders: the same values are present before and after. */
  lemma SameMembers<T>(a: seq<T>, b: seq<T>)
    requires multiset(a) == multiset(b)
    ensures forall x :: x in a <==> x in b
  {
    forall x ensures x in a <==> x in b {
      assert x in a <==> x in multiset(a);
      assert x in b <==> x in multiset(b);
    }
  }

  ghost predicate NewestFirst<T>(s: seq<T>, stamp: T -> int) {
    forall i, j :: 0 <= i < j < |s| ==> stamp(s[i]) >= stamp(s[j])
  }

  function InsertByStamp<T>(x: T, s: seq<T>, stamp: T -> int): (r: seq<T>)
    ensures multiset(r) == multiset(s) + multiset{x}
    ensures |r| == |s| + 1
  {
    if s == [] then [x]
    else if stamp(x) >= stamp(s[0]) then [x] + s
    else
      assert s == [s[0]] + s[1..];
      [s[0]] + InsertByStamp(x, s[1..], stamp)
  }

  /** Every stamp in `s` is at most `b`. */
  ghost predicate StampsUpTo<T>(b: int, s: seq<T>, stamp: T -> int) {
    forall k :: 0 <= k < |s| ==> stamp(s[k]) <= b
  }

  lemma NewestFirstCons<T>(h: T, t: seq<T>, stamp: T -> int)
    requires NewestFirst(t, stamp) && StampsUpTo(stamp(h), t, stamp)
    ensures NewestFirst([h] + t, stamp)
  {
    var r := [h] + t;
    forall i, j | 0 <= i < j < |r| ensures stamp(r[i]) >= stamp(r[j]) {
      assert r[j] == t[j - 1];
      if i > 0 {
        assert r[i] == t[i - 1];
      }
    }
  }

  lemma {:induction false} InsertByStampUpTo<T>(b: int, x: T, s: seq<T>, stamp: T -> int)
    requires stamp(x) <= b && StampsUpTo(b, s, stamp)
    ensures StampsUpTo(b, InsertByStamp(x, s, stamp), stamp)
  {
    if s != [] && stamp(x) < stamp(s[0]) {
      InsertByStampUpTo(b, x, s[1..], stamp);
      var r := InsertByStamp(x, s, stamp);
      assert r == [s[0]] + InsertByStamp(x, s[1..], stamp);
      forall k | 0 <= k < |r| ensures stamp(r[k]) <= b {
        if k > 0 {
          assert r[k] == InsertByStamp(x, s[1..], stamp)[k - 1];
        }
      }
    }
  }

  lemma {:induction false} InsertByStampSorted<T>(x: T, s: seq<T>, stamp: T -> int)
    requires NewestFirst(s, stamp)
    ensures NewestFirst(InsertByStamp(x, s, stamp), stamp)
  {
    if s == [] {
    } else if stamp(x) >= stamp(s[0]) {
      NewestFirstCons(x, s, stamp);
    } else {
      var tail := s[1..];
      assert NewestFirst(tail, stamp) by {
        forall i, j | 0 <= i < j < |tail| ensures stamp(tail[i]) >= stamp(tail[j]) {
          assert tail[i] == s[i + 1] && tail[j] == s[j + 1];
        }
      }
      assert StampsUpTo(stamp(s[0]), tail, stamp) by {
        forall k | 0 <= k < |tail| ensures stamp(tail[k]) <= stamp(s[0]) {
          assert tail[k] == s[k + 1];
        }
      }
      InsertByStampSorted(x, tail, stamp);
      InsertByStampUpTo(stamp(s[0]), x, tail, stamp);
      NewestFirstCons(s[0], InsertByStamp(x, tail, stamp), stamp);
    }
  }

  /** `orderBy: { createdAt: 'desc' }` */
  function ByStampDesc<T>(s: seq<T>, stamp: T -> int): (r: seq<T>)
    ensures multiset(r) == multiset(s)
    ensures NewestFirst(r, stamp)
  {
    if s == [] then []
    else
      var rest := ByStampDesc(s[1..], stamp);
      InsertByStampSorted(s[0], rest, stamp);
      assert multiset(s) == multiset{s[0]} + multiset(s[1..]) by {
        assert s == [s[0]] + s[1..];
      }
      InsertByStamp(s[0], rest, stamp)
  }
}
