/**
  Sequence combinators standing for the JavaScript array methods the services
  and pages use: `filter`, `findIndex` and `find`, together with an independent
  description of what a filter computes (an order-preserving subsequence that
  keeps exactly the satisfying elements) and the algebra the proofs rely on.
*/
module Seqs {
  import opened Wrappers

  /** `s.filter(p)`: the elements of `s` satisfying `p`, in their original order. */
  function Filter<T>(s: seq<T>, p: T -> bool): (r: seq<T>)
    ensures |r| <= |s|
    ensures forall x | x in r :: x in s && p(x)
    ensures forall x | x in s && p(x) :: x in r
  {
    if s == [] then []
    else if p(s[0]) then [s[0]] + Filter(s[1..], p)
    else Filter(s[1..], p)
  }

  /** The number of elements of `s` satisfying `p`, counted one by one. */
  function CountWhere<T>(s: seq<T>, p: T -> bool): nat
  {
    if s == [] then 0 else (if p(s[0]) then 1 else 0) + CountWhere(s[1..], p)
  }

  /** `r` can be obtained from `s` by deleting elements, keeping the order of the rest. */
  ghost predicate IsSubsequence<T>(r: seq<T>, s: seq<T>)
    decreases |s|
  {
    if r == [] then true
    else if s == [] then false
    else (r[0] == s[0] && IsSubsequence(r[1..], s[1..])) || IsSubsequence(r, s[1..])
  }

  /**
    `r` is the result of sieving `s` through `p`: it keeps the order of `s`,
    holds only elements satisfying `p`, and holds every such element as often
    as `s` does.
  */
  ghost predicate Sieved<T>(r: seq<T>, s: seq<T>, p: T -> bool)
  {
    && IsSubsequence(r, s)
    && (forall x | x in r :: p(x))
    && (forall x | x in s && p(x) :: multiset(r)[x] == multiset(s)[x])
  }

  /** `i` is the first position of `s` whose element satisfies `p`. */
  ghost predicate IsFirst<T>(s: seq<T>, i: int, p: T -> bool)
  {
    0 <= i < |s| && p(s[i]) && forall j :: 0 <= j < i ==> !p(s[j])
  }

  /** `s.findIndex(p)`: the first satisfying position, or -1 when there is none. */
  function FindIndex<T>(s: seq<T>, p: T -> bool): (r: int)
    ensures -1 <= r < |s|
    ensures r == -1 <==> forall i :: 0 <= i < |s| ==> !p(s[i])
    ensures r != -1 ==> IsFirst(s, r, p)
  {
    if s == [] then -1
    else if p(s[0]) then 0
    else
      var k := FindIndex(s[1..], p);
      if k == -1 then -1 else k + 1
  }

  /** `s.find(p) || null`: the first satisfying element, if any. */
  function Find<T>(s: seq<T>, p: T -> bool): (r: Option<T>)
    ensures r.None? <==> forall i :: 0 <= i < |s| ==> !p(s[i])
    ensures r.Some? ==> exists i :: IsFirst(s, i, p) && s[i] == r.value
  {
    var k := FindIndex(s, p);
    if k == -1 then None else Some(s[k])
  }

  lemma {:induction false} FilterIsSubsequence<T>(s: seq<T>, p: T -> bool)
    ensures IsSubsequence(Filter(s, p), s)
  {
    if s != [] {
      FilterIsSubsequence(s[1..], p);
      if p(s[0]) {
        assert Filter(s, p)[1..] == Filter(s[1..], p);
      }
    }
  }

  lemma {:induction false} FilterMultiplicity<T>(s: seq<T>, p: T -> bool, x: T)
    ensures multiset(Filter(s, p))[x] == if p(x) then multiset(s)[x] else 0
  {
    if s != [] {
      FilterMultiplicity(s[1..], p, x);
      assert s == [s[0]] + s[1..];
    }
  }

  /** Filter computes exactly the sieve described by `Sieved`. */
  lemma FilterSieves<T>(s: seq<T>, p: T -> bool)
    ensures Sieved(Filter(s, p), s, p)
  {
    FilterIsSubsequence(s, p);
    forall x | x in s && p(x) ensures multiset(Filter(s, p))[x] == multiset(s)[x] {
      FilterMultiplicity(s, p, x);
    }
  }

  lemma {:induction false} SubsequenceMultiset<T>(r: seq<T>, s: seq<T>)
    requires IsSubsequence(r, s)
    ensures multiset(r) <= multiset(s)
    decreases |s|
  {
    if r != [] {
      assert s == [s[0]] + s[1..];
      if r[0] == s[0] && IsSubsequence(r[1..], s[1..]) {
        SubsequenceMultiset(r[1..], s[1..]);
        assert r == [r[0]] + r[1..];
      } else {
        SubsequenceMultiset(r, s[1..]);
      }
    }
  }

  /** The sieve of `s` through `p` is unique: any sequence with its three properties is `Filter(s, p)`. */
  lemma {:induction false} SievedUnique<T>(r: seq<T>, s: seq<T>, p: T -> bool)
    requires Sieved(r, s, p)
    ensures r == Filter(s, p)
    decreases |s|
  {
    if s == [] {
    } else {
      var a, rest := s[0], s[1..];
      assert s == [a] + rest;
      if r == [] {
        if p(a) {
          assert false;
        }
        SievedUnique(r, rest, p);
      } else {
        assert r == [r[0]] + r[1..];
        if p(a) {
          if !(r[0] == a && IsSubsequence(r[1..], rest)) {
            SubsequenceMultiset(r, rest);
            assert false;
          }
          forall x | x in rest && p(x) ensures multiset(r[1..])[x] == multiset(rest)[x] {
            assert multiset(r)[x] == multiset(s)[x];
          }
          SievedUnique(r[1..], rest, p);
        } else {
          assert r[0] in r;
          assert IsSubsequence(r, rest);
          forall x | x in rest && p(x) ensures multiset(r)[x] == multiset(rest)[x] {
            assert multiset(r)[x] == multiset(s)[x];
          }
          SievedUnique(r, rest, p);
        }
      }
    }
  }

  /** Filtering by `p` and then by `q` is filtering once by their conjunction. */
  lemma {:induction false} FilterFuse<T>(s: seq<T>, p: T -> bool, q: T -> bool, pq: T -> bool)
    requires forall x :: pq(x) == (p(x) && q(x))
    ensures Filter(Filter(s, p), q) == Filter(s, pq)
  {
    if s != [] {
      FilterFuse(s[1..], p, q, pq);
    }
  }

  /** Filters with the same verdict on every element compute the same sequence. */
  lemma {:induction false} FilterExtensional<T>(s: seq<T>, p: T -> bool, q: T -> bool)
    requires forall x :: p(x) == q(x)
    ensures Filter(s, p) == Filter(s, q)
  {
    if s != [] {
      FilterExtensional(s[1..], p, q);
    }
  }

  /** A filter that every element passes returns its input. */
  lemma {:induction false} FilterKeepsAll<T>(s: seq<T>, p: T -> bool)
    requires forall i :: 0 <= i < |s| ==> p(s[i])
    ensures Filter(s, p) == s
  {
    if s != [] {
      FilterKeepsAll(s[1..], p);
    }
  }

  /** Filtering a second time by the same predicate changes nothing. */
  lemma FilterIdempotent<T>(s: seq<T>, p: T -> bool)
    ensures Filter(Filter(s, p), p) == Filter(s, p)
  {
  }

  /** The length of a filter is the number of satisfying elements. */
  lemma {:induction false} FilterLength<T>(s: seq<T>, p: T -> bool)
    ensures |Filter(s, p)| == CountWhere(s, p)
  {
    if s != [] {
      FilterLength(s[1..], p);
    }
  }

  /** Replacing one element changes a count by what the old and new element contribute. */
  lemma {:induction false} CountWhereUpdate<T>(s: seq<T>, i: int, v: T, p: T -> bool)
    requires 0 <= i < |s|
    ensures CountWhere(s[i := v], p)
         == CountWhere(s, p) - (if p(s[i]) then 1 else 0) + (if p(v) then 1 else 0)
  {
    if i > 0 {
      assert s[i := v][1..] == s[1..][i - 1 := v];
      CountWhereUpdate(s[1..], i - 1, v, p);
    } else {
      assert s[i := v][1..] == s[1..];
    }
  }
}
