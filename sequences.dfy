/** The array operations the client code relies on: `filter`, `find`, `slice`
    and a stable `sort` by a numeric key, newest (largest key) first. */
module Sequences {
  import opened Wrappers

  /** `Array.prototype.filter`: the elements satisfying `p`, in order. */
  function Filter<T>(s: seq<T>, p: T -> bool): (r: seq<T>)
    ensures |r| <= |s|
  {
    if |s| == 0 then []
    else if p(s[0]) then [s[0]] + Filter(s[1..], p)
    else Filter(s[1..], p)
  }

  /** Filtering keeps exactly the elements that satisfy `p`. */
  lemma {:induction false} FilterMembers<T>(s: seq<T>, p: T -> bool)
    ensures forall i | 0 <= i < |Filter(s, p)| :: Filter(s, p)[i] in s && p(Filter(s, p)[i])
    ensures forall i | 0 <= i < |s| :: p(s[i]) ==> s[i] in Filter(s, p)
  {
    if |s| > 0 {
      FilterMembers(s[1..], p);
      assert forall i | 1 <= i < |s| :: s[i] == s[1..][i - 1];
    }
  }

  /** Filtering a concatenation filters each part. */
  lemma {:induction false} FilterConcat<T>(a: seq<T>, b: seq<T>, p: T -> bool)
    ensures Filter(a + b, p) == Filter(a, p) + Filter(b, p)
  {
    if |a| == 0 {
      assert a + b == b;
    } else {
      FilterConcat(a[1..], b, p);
      assert (a + b)[0] == a[0];
      assert (a + b)[1..] == a[1..] + b;
      var rest := Filter(a[1..], p);
      if p(a[0]) {
        assert Filter(a + b, p) == [a[0]] + (rest + Filter(b, p));
        assert [a[0]] + (rest + Filter(b, p)) == ([a[0]] + rest) + Filter(b, p);
      } else {
        assert Filter(a + b, p) == rest + Filter(b, p);
      }
    }
  }

  /** Filtering a non-empty sequence: its initial part, then its last element if kept. */
  lemma FilterSnoc<T>(s: seq<T>, p: T -> bool)
    requires |s| > 0
    ensures Filter(s, p) == Filter(s[..|s| - 1], p) + (if p(s[|s| - 1]) then [s[|s| - 1]] else [])
  {
    var x := s[|s| - 1];
    FilterConcat(s[..|s| - 1], [x], p);
    assert [x][1..] == [];
    assert s == s[..|s| - 1] + [x];
  }

  /** When every element satisfies `p`, filtering keeps the whole sequence. */
  lemma {:induction false} FilterAll<T>(s: seq<T>, p: T -> bool)
    requires forall i | 0 <= i < |s| :: p(s[i])
    ensures Filter(s, p) == s
  {
    if |s| > 0 {
      FilterAll(s[1..], p);
    }
  }

  /** When no element satisfies `p`, filtering gives the empty sequence. */
  lemma {:induction false} FilterNone<T>(s: seq<T>, p: T -> bool)
    requires forall i | 0 <= i < |s| :: !p(s[i])
    ensures Filter(s, p) == []
  {
    if |s| > 0 {
      FilterNone(s[1..], p);
    }
  }

  /** The position of the first element satisfying `p`, if any. */
  function FindIndex<T>(s: seq<T>, p: T -> bool): (r: Option<nat>)
    ensures r.Some? ==> r.value < |s| && p(s[r.value])
    ensures r.Some? ==> forall j | 0 <= j < r.value :: !p(s[j])
    ensures r.None? <==> forall j | 0 <= j < |s| :: !p(s[j])
  {
    if |s| == 0 then None
    else if p(s[0]) then Some(0)
    else match FindIndex(s[1..], p)
      case None => None
      case Some(i) => Some(i + 1)
  }

  /** `Array.prototype.find`: the first element satisfying `p`, or undefined. */
  function Find<T>(s: seq<T>, p: T -> bool): (r: Option<T>)
    ensures r.None? <==> forall j | 0 <= j < |s| :: !p(s[j])
    ensures r.Some? ==> exists i | 0 <= i < |s| :: s[i] == r.value && p(s[i])
                                                && forall j | 0 <= j < i :: !p(s[j])
  {
    match FindIndex(s, p)
      case None => None
      case Some(i) => Some(s[i])
  }

  /** `map`: `f` applied to every element, in order. */
  function Map<A, B>(s: seq<A>, f: A -> B): (r: seq<B>)
    ensures |r| == |s|
    ensures forall i | 0 <= i < |s| :: r[i] == f(s[i])
  {
    if |s| == 0 then [] else Map(s[..|s| - 1], f) + [f(s[|s| - 1])]
  }

  /** `slice(0, n)`: at most the first `n` elements. */
  function Take<T>(s: seq<T>, n: nat): (r: seq<T>)
    ensures |r| == if |s| < n then |s| else n
    ensures r <= s
  {
    if |s| < n then s else s[..n]
  }

  /** Largest key first. */
  predicate SortedDesc<T>(s: seq<T>, key: T -> int) {
    forall i, j | 0 <= i < j < |s| :: key(s[i]) >= key(s[j])
  }

  /** Holds of the elements whose key is `k`. */
  function KeyIs<T>(key: T -> int, k: int): T -> bool {
    e => key(e) == k
  }

  /** Inserts `x` after every element whose key is at least its own. */
  function InsertDesc<T>(x: T, s: seq<T>, key: T -> int): (r: seq<T>)
    ensures |r| == |s| + 1
    ensures multiset(r) == multiset(s) + multiset{x}
  {
    if |s| == 0 then [x]
    else if key(s[0]) < key(x) then [x] + s
    else
      assert s == [s[0]] + s[1..];
      [s[0]] + InsertDesc(x, s[1..], key)
  }

  /** `sort((a, b) => key(b) - key(a))`: a stable sort by descending key. */
  function SortDesc<T>(s: seq<T>, key: T -> int): (r: seq<T>)
    ensures |r| == |s|
  {
    if |s| == 0 then [] else InsertDesc(s[|s| - 1], SortDesc(s[..|s| - 1], key), key)
  }

  lemma {:induction false} InsertDescSorted<T>(x: T, s: seq<T>, key: T -> int)
    requires SortedDesc(s, key)
    ensures SortedDesc(InsertDesc(x, s, key), key)
  {
    if |s| > 0 && key(s[0]) >= key(x) {
      InsertDescSorted(x, s[1..], key);
      var r := InsertDesc(x, s, key);
      var t := InsertDesc(x, s[1..], key);
      assert r == [s[0]] + t;
      assert forall k | 0 <= k < |t| :: t[k] in multiset(t);
      forall k | 0 <= k < |t|
        ensures key(s[0]) >= key(t[k])
      {
        assert t[k] in multiset(s[1..]) + multiset{x};
        if t[k] in multiset(s[1..]) {
          assert t[k] in s[1..];
        }
      }
    }
  }

  /** The sorted sequence is ordered by descending key. */
  lemma {:induction false} SortDescSorted<T>(s: seq<T>, key: T -> int)
    ensures SortedDesc(SortDesc(s, key), key)
  {
    if |s| > 0 {
      SortDescSorted(s[..|s| - 1], key);
      InsertDescSorted(s[|s| - 1], SortDesc(s[..|s| - 1], key), key);
    }
  }

  /** The sorted sequence holds exactly the same elements, with the same multiplicities. */
  lemma {:induction false} SortDescPermutes<T>(s: seq<T>, key: T -> int)
    ensures multiset(SortDesc(s, key)) == multiset(s)
  {
    if |s| > 0 {
      SortDescPermutes(s[..|s| - 1], key);
      assert s == s[..|s| - 1] + [s[|s| - 1]];
    }
  }

  /** Sorting neither adds nor drops an element. */
  lemma SortDescMembers<T>(s: seq<T>, key: T -> int)
    ensures forall x :: x in SortDesc(s, key) <==> x in s
  {
    SortDescPermutes(s, key);
    forall x
      ensures x in SortDesc(s, key) <==> x in s
    {
      assert x in SortDesc(s, key) <==> x in multiset(SortDesc(s, key));
      assert x in s <==> x in multiset(s);
    }
  }

  /** Sorting a concatenation keeps every element of both parts. */
  lemma SortDescConcatMembers<T>(xs: seq<T>, ys: seq<T>, key: T -> int)
    ensures forall i | 0 <= i < |xs| :: xs[i] in SortDesc(xs + ys, key)
    ensures forall i | 0 <= i < |ys| :: ys[i] in SortDesc(xs + ys, key)
  {
    SortDescMembers(xs + ys, key);
    forall i | 0 <= i < |xs|
      ensures xs[i] in xs + ys
    {
      assert (xs + ys)[i] == xs[i];
    }
    forall i | 0 <= i < |ys|
      ensures ys[i] in xs + ys
    {
      assert (xs + ys)[|xs| + i] == ys[i];
    }
  }

  /** Among the elements sharing one key, inserting keeps the sorted elements
      first and puts the new one last. */
  lemma {:induction false} InsertDescStable<T>(x: T, s: seq<T>, key: T -> int, k: int)
    requires SortedDesc(s, key)
    ensures Filter(InsertDesc(x, s, key), KeyIs(key, k))
            == Filter(s, KeyIs(key, k)) + (if KeyIs(key, k)(x) then [x] else [])
  {
    var p := KeyIs(key, k);
    if |s| == 0 {
    } else if key(s[0]) < key(x) {
      assert InsertDesc(x, s, key) == [x] + s;
      if key(x) == k {
        FilterNone(s, p);
      } else {
        assert ([x] + s)[1..] == s;
      }
    } else {
      InsertDescStable(x, s[1..], key, k);
      var t := InsertDesc(x, s[1..], key);
      assert InsertDesc(x, s, key) == [s[0]] + t;
      assert ([s[0]] + t)[1..] == t;
    }
  }

  /** Stability: the elements sharing any one key keep their original order. */
  lemma {:induction false} SortDescStable<T>(s: seq<T>, key: T -> int, k: int)
    ensures Filter(SortDesc(s, key), KeyIs(key, k)) == Filter(s, KeyIs(key, k))
  {
    if |s| > 0 {
      var init, last := s[..|s| - 1], s[|s| - 1];
      var p := KeyIs(key, k);
      var tail: seq<T> := if p(last) then [last] else [];
      SortDescStable(init, key, k);
      SortDescSorted(init, key);
      InsertDescStable(last, SortDesc(init, key), key, k);
      assert Filter(SortDesc(s, key), p) == Filter(init, p) + tail;
      FilterSnoc(s, p);
    }
  }

  /** Sorting a sequence that is already ordered leaves it as it is. */
  lemma {:induction false} SortDescOfSorted<T>(s: seq<T>, key: T -> int)
    requires SortedDesc(s, key)
    ensures SortDesc(s, key) == s
  {
    if |s| > 0 {
      var init, last := s[..|s| - 1], s[|s| - 1];
      assert SortedDesc(init, key);
      SortDescOfSorted(init, key);
      assert forall i | 0 <= i < |init| :: key(init[i]) >= key(last) by {
        forall i | 0 <= i < |init| ensures key(init[i]) >= key(last) {
          assert init[i] == s[i];
        }
      }
      AppendSmallest(last, init, key);
      assert s == init + [last];
    }
  }

  lemma {:induction false} AppendSmallest<T>(x: T, s: seq<T>, key: T -> int)
    requires forall i | 0 <= i < |s| :: key(s[i]) >= key(x)
    ensures InsertDesc(x, s, key) == s + [x]
  {
    if |s| > 0 {
      AppendSmallest(x, s[1..], key);
    }
  }
}
