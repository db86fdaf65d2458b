/**
 * `Array.prototype.sort` with a comparator. The language standard makes the
 * sort stable (elements the comparator calls equal keep their order); an
 * insertion sort is the reference algorithm here. What a comparator that
 * breaks the rules (one that never answers 0) makes the engine do with its
 * ties is left open: the lemmas below assume only what they state.
 */
module JsSort {

  import Seqs

  /** Puts `x` in front of the first element it does not compare greater than. */
  function Insert<T>(x: T, r: seq<T>, cmp: (T, T) -> int): seq<T>
  {
    if r == [] then [x]
    else if cmp(x, r[0]) <= 0 then [x] + r
    else [r[0]] + Insert(x, r[1..], cmp)
  }

  /** `s.sort(cmp)` */
  function Sort<T>(s: seq<T>, cmp: (T, T) -> int): seq<T>
  {
    if s == [] then [] else Insert(s[0], Sort(s[1..], cmp), cmp)
  }

  lemma {:induction false} InsertPermutes<T>(x: T, r: seq<T>, cmp: (T, T) -> int)
    ensures multiset(Insert(x, r, cmp)) == multiset(r) + multiset{x}
  {
    if r != [] && cmp(x, r[0]) > 0 {
      InsertPermutes(x, r[1..], cmp);
      assert r == [r[0]] + r[1..];
    }
  }

  /** The sorted sequence is a permutation of the input. */
  lemma {:induction false} SortPermutes<T>(s: seq<T>, cmp: (T, T) -> int)
    ensures multiset(Sort(s, cmp)) == multiset(s)
  {
    if s != [] {
      SortPermutes(s[1..], cmp);
      InsertPermutes(s[0], Sort(s[1..], cmp), cmp);
      assert s == [s[0]] + s[1..];
    }
  }

  lemma SortLength<T>(s: seq<T>, cmp: (T, T) -> int)
    ensures |Sort(s, cmp)| == |s|
  {
    SortPermutes(s, cmp);
    assert |multiset(Sort(s, cmp))| == |multiset(s)|;
  }

  lemma SortMembers<T>(s: seq<T>, cmp: (T, T) -> int)
    ensures forall x :: x in Sort(s, cmp) <==> x in s
  {
    SortPermutes(s, cmp);
    forall x ensures x in Sort(s, cmp) <==> x in s {
      assert x in Sort(s, cmp) <==> x in multiset(Sort(s, cmp));
      assert x in s <==> x in multiset(s);
    }
  }

  /** Every earlier element compares at most equal to every later one. */
  ghost predicate Sorted<T>(r: seq<T>, cmp: (T, T) -> int)
  {
    forall i, j :: 0 <= i < j < |r| ==> cmp(r[i], r[j]) <= 0
  }

  /** The comparator orders any two members of `s` one way or the other. */
  ghost predicate TotalOn<T(!new)>(s: seq<T>, cmp: (T, T) -> int)
  {
    forall a, b :: a in s && b in s ==> cmp(a, b) <= 0 || cmp(b, a) <= 0
  }

  /** "Compares at most equal" is transitive on the members of `s`. */
  ghost predicate TransitiveOn<T(!new)>(s: seq<T>, cmp: (T, T) -> int)
  {
    forall a, b, c :: a in s && b in s && c in s && cmp(a, b) <= 0 && cmp(b, c) <= 0 ==> cmp(a, c) <= 0
  }

  lemma InsertMembers<T>(x: T, r: seq<T>, cmp: (T, T) -> int)
    ensures forall y :: y in Insert(x, r, cmp) <==> y == x || y in r
  {
    var out := Insert(x, r, cmp);
    InsertPermutes(x, r, cmp);
    forall y ensures y in out <==> y == x || y in r {
      assert y in out <==> y in multiset(out);
      assert y in r <==> y in multiset(r);
    }
  }

  lemma ConsSorted<T>(a: T, t: seq<T>, cmp: (T, T) -> int)
    requires Sorted(t, cmp)
    requires forall j :: 0 <= j < |t| ==> cmp(a, t[j]) <= 0
    ensures Sorted([a] + t, cmp)
  {
    var out := [a] + t;
    forall i, j | 0 <= i < j < |out| ensures cmp(out[i], out[j]) <= 0 {
      if i == 0 { assert out[j] == t[j - 1]; } else { assert out[i] == t[i - 1] && out[j] == t[j - 1]; }
    }
  }

  lemma TailSorted<T>(r: seq<T>, cmp: (T, T) -> int)
    requires r != [] && Sorted(r, cmp)
    ensures Sorted(r[1..], cmp)
  {
    forall i, j | 0 <= i < j < |r[1..]| ensures cmp(r[1..][i], r[1..][j]) <= 0 {
      assert r[1..][i] == r[i + 1] && r[1..][j] == r[j + 1];
    }
  }

  lemma {:induction false} InsertSorted<T(!new)>(x: T, r: seq<T>, cmp: (T, T) -> int, s: seq<T>)
    requires x in s && forall y :: y in r ==> y in s
    requires TotalOn(s, cmp) && TransitiveOn(s, cmp) && Sorted(r, cmp)
    ensures Sorted(Insert(x, r, cmp), cmp)
  {
    if r == [] {
    } else if cmp(x, r[0]) <= 0 {
      forall j | 0 <= j < |r| ensures cmp(x, r[j]) <= 0 {
        if j > 0 { assert cmp(r[0], r[j]) <= 0 && r[0] in s && r[j] in s; }
      }
      ConsSorted(x, r, cmp);
    } else {
      var r1 := r[1..];
      var tail := Insert(x, r1, cmp);
      assert forall y :: y in r1 ==> y in r;
      TailSorted(r, cmp);
      InsertSorted(x, r1, cmp, s);
      InsertMembers(x, r1, cmp);
      forall j | 0 <= j < |tail| ensures cmp(r[0], tail[j]) <= 0 {
        assert tail[j] in tail;
        if tail[j] != x {
          var k :| 0 <= k < |r1| && r1[k] == tail[j];
          assert r1[k] == r[k + 1];
        }
      }
      ConsSorted(r[0], tail, cmp);
      assert Insert(x, r, cmp) == [r[0]] + tail;
    }
  }

  lemma {:induction false} SortSortedIn<T(!new)>(t: seq<T>, cmp: (T, T) -> int, s: seq<T>)
    requires forall y :: y in t ==> y in s
    requires TotalOn(s, cmp) && TransitiveOn(s, cmp)
    ensures Sorted(Sort(t, cmp), cmp)
  {
    if t != [] {
      assert forall y :: y in t[1..] ==> y in t;
      SortSortedIn(t[1..], cmp, s);
      SortMembers(t[1..], cmp);
      InsertSorted(t[0], Sort(t[1..], cmp), cmp, s);
    }
  }

  /** With a comparator that is a total preorder on the input, the output is
      in order. */
  lemma SortSorted<T(!new)>(s: seq<T>, cmp: (T, T) -> int)
    requires TotalOn(s, cmp) && TransitiveOn(s, cmp)
    ensures Sorted(Sort(s, cmp), cmp)
  {
    SortSortedIn(s, cmp, s);
  }

  lemma {:induction false} InsertFilter<T(!new)>(x: T, r: seq<T>, cmp: (T, T) -> int, p: T -> bool)
    requires forall y :: y in r && p(x) && p(y) ==> cmp(x, y) <= 0
    ensures Seqs.Filter(Insert(x, r, cmp), p) == (if p(x) then [x] else []) + Seqs.Filter(r, p)
  {
    if r == [] {
      Seqs.FilterCons(x, [], p);
    } else if cmp(x, r[0]) <= 0 {
      Seqs.FilterCons(x, r, p);
    } else {
      var r1 := r[1..];
      var tail := Insert(x, r1, cmp);
      assert r == [r[0]] + r1;
      assert forall y :: y in r1 ==> y in r;
      InsertFilter(x, r1, cmp, p);
      Seqs.FilterCons(r[0], tail, p);
      Seqs.FilterCons(r[0], r1, p);
      var rest := Seqs.Filter(r1, p);
      if p(x) {
        assert r[0] in r;
        assert !p(r[0]);
        assert Seqs.Filter(r, p) == rest;
        assert Seqs.Filter(Insert(x, r, cmp), p) == [x] + rest;
      } else {
        assert Seqs.Filter(tail, p) == rest;
      }
    }
  }

  /** Stability: if the comparator ranks no element of a class after another
      (for example all cars with the same key), the class keeps its order. */
  lemma {:induction false} SortStable<T(!new)>(s: seq<T>, cmp: (T, T) -> int, p: T -> bool)
    requires forall a, b :: a in s && b in s && p(a) && p(b) ==> cmp(a, b) <= 0
    ensures Seqs.Filter(Sort(s, cmp), p) == Seqs.Filter(s, p)
  {
    if s != [] {
      var t := s[1..];
      assert forall y :: y in t ==> y in s;
      SortStable(t, cmp, p);
      SortMembers(t, cmp);
      InsertFilter(s[0], Sort(t, cmp), cmp, p);
      Seqs.FilterCons(s[0], t, p);
      assert s == [s[0]] + t;
    }
  }

  /** A comparator that never ranks an element after another leaves the order
      unchanged. */
  lemma {:induction false} SortUnchanged<T>(s: seq<T>, cmp: (T, T) -> int)
    requires forall i, j :: 0 <= i < |s| && 0 <= j < |s| ==> cmp(s[i], s[j]) <= 0
    ensures Sort(s, cmp) == s
  {
    if s != [] {
      var t := s[1..];
      forall i, j | 0 <= i < |t| && 0 <= j < |t| ensures cmp(t[i], t[j]) <= 0 {
        assert t[i] == s[i + 1] && t[j] == s[j + 1];
      }
      SortUnchanged(t, cmp);
      assert Sort(s, cmp) == Insert(s[0], t, cmp);
      if t != [] {
        assert cmp(s[0], t[0]) <= 0 by { assert t[0] == s[1]; }
      }
      assert s == [s[0]] + t;
    }
  }

  lemma {:induction false} InsertAgrees<T>(x: T, r: seq<T>, c1: (T, T) -> int, c2: (T, T) -> int)
    requires forall i :: 0 <= i < |r| ==> c1(x, r[i]) == c2(x, r[i])
    ensures Insert(x, r, c1) == Insert(x, r, c2)
  {
    if r != [] {
      assert c1(x, r[0]) == c2(x, r[0]);
      if c1(x, r[0]) > 0 {
        InsertAgrees(x, r[1..], c1, c2);
      }
    }
  }

  /** Two comparators that agree on every pair of distinct members sort a
      duplicate-free input the same way. */
  lemma {:induction false} SortAgrees<T(!new)>(s: seq<T>, c1: (T, T) -> int, c2: (T, T) -> int)
    requires Seqs.NoDuplicates(s)
    requires forall a, b :: a in s && b in s && a != b ==> c1(a, b) == c2(a, b)
    ensures Sort(s, c1) == Sort(s, c2)
  {
    if s != [] {
      var t := s[1..];
      assert forall y :: y in t ==> y in s;
      assert Seqs.NoDuplicates(t) by {
        forall i, j | 0 <= i < j < |t| ensures t[i] != t[j] { assert t[i] == s[i + 1] && t[j] == s[j + 1]; }
      }
      SortAgrees(t, c1, c2);
      var r := Sort(t, c1);
      SortMembers(t, c1);
      assert s[0] !in t;
      forall i | 0 <= i < |r| ensures c1(s[0], r[i]) == c2(s[0], r[i]) {
        assert r[i] in t;
      }
      InsertAgrees(s[0], r, c1, c2);
    }
  }
}
