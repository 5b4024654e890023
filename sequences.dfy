/**
 Order-preserving selection over sequences: the behaviour of JavaScript's
 `Array.prototype.filter`, which the dashboard uses both to select orders by
 status and to drop a deleted order from its local list.
 */
module Sequences {

  /** The elements of `s` that satisfy `p`, left to right. */
  function Filter<T>(s: seq<T>, p: T -> bool): (r: seq<T>)
    ensures |r| <= |s|
  {
    if s == [] then []
    else (if p(s[0]) then [s[0]] else []) + Filter(s[1..], p)
  }

  /**
   Filter keeps every satisfying element exactly as often as `s` holds it, and
   nothing else; in particular `x in Filter(s, p)` iff `x in s && p(x)`.
   */
  lemma {:induction false} FilterCounts<T(!new)>(s: seq<T>, p: T -> bool)
    ensures forall x :: multiset(Filter(s, p))[x] == if p(x) then multiset(s)[x] else 0
    ensures forall x :: x in Filter(s, p) <==> x in s && p(x)
    decreases |s|
  {
    if s != [] {
      FilterCounts(s[1..], p);
      assert s == [s[0]] + s[1..];
      assert multiset(Filter(s, p)) == multiset(if p(s[0]) then [s[0]] else []) + multiset(Filter(s[1..], p));
      forall x ensures x in Filter(s, p) <==> x in s && p(x) {
        assert x in Filter(s, p) <==> x in multiset(Filter(s, p));
        assert x in s <==> x in multiset(s);
      }
    }
  }

  /** `r` can be obtained from `s` by deleting elements: it keeps their relative order. */
  predicate IsSubsequence<T(==)>(r: seq<T>, s: seq<T>)
    decreases |s|
  {
    || r == []
    || (s != [] && ((r[0] == s[0] && IsSubsequence(r[1..], s[1..])) || IsSubsequence(r, s[1..])))
  }

  /** A subsequence never holds an element more often than the sequence it came from. */
  lemma {:induction false} SubsequenceMultiset<T(!new)>(r: seq<T>, s: seq<T>)
    requires IsSubsequence(r, s)
    ensures multiset(r) <= multiset(s)
    decreases |s|
  {
    if r != [] {
      assert s == [s[0]] + s[1..];
      if r[0] == s[0] && IsSubsequence(r[1..], s[1..]) {
        SubsequenceMultiset(r[1..], s[1..]);
        assert r == [r[0]] + r[1..];
      } else {
        SubsequenceMultiset(r, s[1..]);
      }
    }
  }

  /** Filtering keeps the original relative order. */
  lemma {:induction false} FilterIsSubsequence<T(!new)>(s: seq<T>, p: T -> bool)
    ensures IsSubsequence(Filter(s, p), s)
    decreases |s|
  {
    if s != [] {
      FilterIsSubsequence(s[1..], p);
      var r := Filter(s, p);
      if p(s[0]) {
        assert r[0] == s[0] && r[1..] == Filter(s[1..], p);
      } else {
        assert r == Filter(s[1..], p);
      }
    }
  }

  /**
   Filter is pinned down by what it promises: any subsequence of `s` that holds
   exactly the satisfying elements, each as often as `s` does, is `Filter(s, p)`.
   */
  lemma {:induction false} FilterUnique<T(!new)>(s: seq<T>, p: T -> bool, r: seq<T>)
    requires IsSubsequence(r, s)
    requires forall x :: multiset(r)[x] == if p(x) then multiset(s)[x] else 0
    ensures r == Filter(s, p)
    decreases |s|
  {
    if s == [] {
      assert r == [];
    } else {
      var x, t := s[0], s[1..];
      assert s == [x] + t;
      assert multiset(s)[x] == multiset(t)[x] + 1;
      if p(x) {
        assert multiset(r)[x] > 0;
        assert r != [];
        if !(r[0] == x && IsSubsequence(r[1..], t)) {
          SubsequenceMultiset(r, t);
          assert false;
        }
        assert r == [x] + r[1..];
        forall y ensures multiset(r[1..])[y] == if p(y) then multiset(t)[y] else 0 {
          assert multiset(r)[y] == multiset(r[1..])[y] + (if y == x then 1 else 0);
        }
        FilterUnique(t, p, r[1..]);
      } else {
        assert x !in multiset(r);
        if r != [] {
          assert r[0] in multiset(r);
        }
        assert IsSubsequence(r, t);
        forall y ensures multiset(r)[y] == if p(y) then multiset(t)[y] else 0 {
          if y == x {
            assert multiset(r)[y] == 0;
          } else {
            assert multiset(s)[y] == multiset(t)[y];
          }
        }
        FilterUnique(t, p, r);
      }
    }
  }

  /** A predicate that every element satisfies keeps the whole sequence. */
  lemma {:induction false} FilterKeepsAll<T(!new)>(s: seq<T>, p: T -> bool)
    requires forall i :: 0 <= i < |s| ==> p(s[i])
    ensures Filter(s, p) == s
    decreases |s|
  {
    if s != [] {
      FilterKeepsAll(s[1..], p);
      assert s == [s[0]] + s[1..];
    }
  }

  /** Filtering distributes over concatenation. */
  lemma {:induction false} FilterAppend<T(!new)>(a: seq<T>, b: seq<T>, p: T -> bool)
    ensures Filter(a + b, p) == Filter(a, p) + Filter(b, p)
    decreases |a|
  {
    if a != [] {
      var head := if p(a[0]) then [a[0]] else [];
      assert (a + b)[0] == a[0] && (a + b)[1..] == a[1..] + b;
      calc {
        Filter(a + b, p);
        head + Filter(a[1..] + b, p);
        { FilterAppend(a[1..], b, p); }
        head + (Filter(a[1..], p) + Filter(b, p));
        (head + Filter(a[1..], p)) + Filter(b, p);
        Filter(a, p) + Filter(b, p);
      }
    } else {
      assert a + b == b;
    }
  }

  /** The number of positions of `s` whose element satisfies `p`. */
  function Positions<T(!new)>(s: seq<T>, p: T -> bool): set<nat>
  {
    set i: nat | i < |s| && p(s[i])
  }

  /** Filter's length counts exactly the satisfying positions. */
  lemma {:induction false} FilterLengthCounts<T(!new)>(s: seq<T>, p: T -> bool)
    ensures |Filter(s, p)| == |Positions(s, p)|
    decreases |s|
  {
    if s != [] {
      var n := |s| - 1;
      var t := s[..n];
      assert s == t + [s[n]];
      FilterLengthCounts(t, p);
      FilterAppend(t, [s[n]], p);
      assert [s[n]][1..] == [];
      if p(s[n]) {
        assert Positions(s, p) == Positions(t, p) + {n};
      } else {
        assert Positions(s, p) == Positions(t, p);
      }
    } else {
      assert Positions(s, p) == {};
    }
  }
}
