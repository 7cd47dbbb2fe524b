/** Sequence operations the JavaScript code gets from its standard library
    (`filter`, `findIndex`, `Math.max`, spreading a `Set`), with the facts the
    handlers and the browser code rely on. */
module Seqs {

  /** `sub` is `s` with some elements deleted and the rest kept in order. */
  ghost predicate IsSubsequence<T>(sub: seq<T>, s: seq<T>)
    decreases |s|
  {
    || sub == []
    || (&& s != []
        && ((sub[0] == s[0] && IsSubsequence(sub[1..], s[1..])) || IsSubsequence(sub, s[1..])))
  }

  /** No value occurs twice. */
  predicate NoDuplicates<T(==)>(s: seq<T>)
  {
    forall i, j :: 0 <= i < j < |s| ==> s[i] != s[j]
  }

  // ---------------------------------------------------------------------
  // Array.prototype.filter
  // ---------------------------------------------------------------------

  /** The elements of `s` that satisfy `p`, in their order in `s`. */
  function Filter<T(!new)>(s: seq<T>, p: T -> bool): (r: seq<T>)
    ensures |r| <= |s|
    ensures forall x :: x in r <==> x in s && p(x)
  {
    if s == [] then []
    else
      assert s == [s[0]] + s[1..];
      (if p(s[0]) then [s[0]] else []) + Filter(s[1..], p)
  }

  lemma {:induction false} FilterIsSubsequence<T(!new)>(s: seq<T>, p: T -> bool)
    ensures IsSubsequence(Filter(s, p), s)
  {
    if s != [] {
      FilterIsSubsequence(s[1..], p);
      var r := Filter(s, p);
      if p(s[0]) {
        assert r[0] == s[0] && r[1..] == Filter(s[1..], p);
      } else {
        assert r == Filter(s[1..], p);
      }
    }
  }

  /** Every value that passes `p` is kept as many times as it occurs; every
      other value is dropped. */
  lemma {:induction false} FilterCount<T(!new)>(s: seq<T>, p: T -> bool, x: T)
    ensures multiset(Filter(s, p))[x] == if p(x) then multiset(s)[x] else 0
  {
    if s != [] {
      FilterCount(s[1..], p, x);
      assert s == [s[0]] + s[1..];
    }
  }

  lemma {:induction false} SubsequenceCount<T(!new)>(sub: seq<T>, s: seq<T>, x: T)
    requires IsSubsequence(sub, s)
    ensures multiset(sub)[x] <= multiset(s)[x]
    decreases |s|
  {
    if sub != [] {
      assert s == [s[0]] + s[1..];
      if sub[0] == s[0] && IsSubsequence(sub[1..], s[1..]) {
        SubsequenceCount(sub[1..], s[1..], x);
        assert sub == [sub[0]] + sub[1..];
      } else {
        SubsequenceCount(sub, s[1..], x);
      }
    }
  }

  /** Filter is the only subsequence of `s` that keeps every occurrence of
      the values passing `p` and none of the others: the two facts above
      characterise it completely. */
  lemma {:induction false} FilterIsUnique<T(!new)>(s: seq<T>, p: T -> bool, r: seq<T>)
    requires IsSubsequence(r, s)
    requires forall x :: multiset(r)[x] == if p(x) then multiset(s)[x] else 0
    ensures r == Filter(s, p)
    decreases |s|
  {
    if s != [] {
      var h, t := s[0], s[1..];
      assert s == [h] + t;
      if r != [] && r[0] == h && IsSubsequence(r[1..], t) {
        assert r == [h] + r[1..];
        assert multiset(r)[h] > 0;
        forall x
          ensures multiset(r[1..])[x] == if p(x) then multiset(t)[x] else 0
        {
        }
        FilterIsUnique(t, p, r[1..]);
      } else {
        assert IsSubsequence(r, t);
        SubsequenceCount(r, t, h);
        assert !p(h);
        forall x
          ensures multiset(r)[x] == if p(x) then multiset(t)[x] else 0
        {
        }
        FilterIsUnique(t, p, r);
      }
    }
  }

  lemma {:induction false} FilterKeepsAll<T(!new)>(s: seq<T>, p: T -> bool)
    requires forall i :: 0 <= i < |s| ==> p(s[i])
    ensures Filter(s, p) == s
  {
    if s != [] {
      assert p(s[0]);
      FilterKeepsAll(s[1..], p);
      assert s == [s[0]] + s[1..];
    }
  }

  lemma {:induction false} FilterAppend<T(!new)>(a: seq<T>, b: seq<T>, p: T -> bool)
    ensures Filter(a + b, p) == Filter(a, p) + Filter(b, p)
  {
    if a != [] {
      FilterAppend(a[1..], b, p);
      assert (a + b)[1..] == a[1..] + b;
    } else {
      assert a + b == b;
    }
  }

  /** When exactly the element at `i` fails `p`, filtering is splicing `i` out. */
  lemma {:induction false} FilterDropsOne<T(!new)>(s: seq<T>, p: T -> bool, i: nat)
    requires i < |s| && !p(s[i])
    requires forall j :: 0 <= j < |s| && j != i ==> p(s[j])
    ensures Filter(s, p) == s[..i] + s[i + 1..]
  {
    var before, rest, after := s[..i], s[i..], s[i + 1..];
    assert Filter(before, p) == before by {
      forall k | 0 <= k < |before| ensures p(before[k]) {
        assert before[k] == s[k];
      }
      FilterKeepsAll(before, p);
    }
    assert Filter(rest, p) == after by {
      forall k | 0 <= k < |after| ensures p(after[k]) {
        assert after[k] == s[i + 1 + k];
      }
      FilterKeepsAll(after, p);
      assert rest == [s[i]] + after;
    }
    assert s == before + rest;
    FilterAppend(before, rest, p);
  }

  /** Filters by two tests that agree everywhere give the same result. */
  lemma {:induction false} FilterCongruent<T(!new)>(s: seq<T>, p: T -> bool, q: T -> bool)
    requires forall x :: p(x) == q(x)
    ensures Filter(s, p) == Filter(s, q)
  {
    if s != [] {
      FilterCongruent(s[1..], p, q);
    }
  }

  /** Two filters in a row are one filter by the conjunction. */
  lemma {:induction false} FilterFilter<T(!new)>(s: seq<T>, p: T -> bool, q: T -> bool, pq: T -> bool)
    requires forall x :: pq(x) == (p(x) && q(x))
    ensures Filter(Filter(s, p), q) == Filter(s, pq)
  {
    if s != [] {
      FilterFilter(s[1..], p, q, pq);
      FilterAppend(if p(s[0]) then [s[0]] else [], Filter(s[1..], p), q);
    }
  }

  /** A relation that holds between every earlier and later element of `s`
      still holds in what the filter keeps: filtering never reorders. */
  lemma {:induction false} FilterKeepsPairwise<T(!new)>(s: seq<T>, p: T -> bool, R: (T, T) -> bool)
    requires forall i, j :: 0 <= i < j < |s| ==> R(s[i], s[j])
    ensures forall i, j :: 0 <= i < j < |Filter(s, p)| ==> R(Filter(s, p)[i], Filter(s, p)[j])
  {
    if s != [] {
      var t := s[1..];
      forall i, j | 0 <= i < j < |t|
        ensures R(t[i], t[j])
      {
        assert t[i] == s[i + 1] && t[j] == s[j + 1];
      }
      FilterKeepsPairwise(t, p, R);
      var r, rt := Filter(s, p), Filter(t, p);
      if p(s[0]) {
        forall i, j | 0 <= i < j < |r|
          ensures R(r[i], r[j])
        {
          assert r[j] == rt[j - 1];
          if i == 0 {
            assert rt[j - 1] in t;
            var k :| 0 <= k < |t| && t[k] == rt[j - 1];
            assert R(s[0], s[k + 1]);
          } else {
            assert r[i] == rt[i - 1];
          }
        }
      } else {
        assert r == rt;
      }
    }
  }

  // ---------------------------------------------------------------------
  // Array.prototype.findIndex
  // ---------------------------------------------------------------------

  /** The index of the first element satisfying `p`, or -1 when none does. */
  function FindIndex<T>(s: seq<T>, p: T -> bool): (r: int)
    ensures -1 <= r < |s|
    ensures r == -1 <==> forall i :: 0 <= i < |s| ==> !p(s[i])
    ensures 0 <= r ==> p(s[r]) && forall j :: 0 <= j < r ==> !p(s[j])
  {
    if s == [] then -1
    else if p(s[0]) then 0
    else
      var k := FindIndex(s[1..], p);
      assert forall i :: 0 <= i < |s| - 1 ==> s[1..][i] == s[i + 1];
      if k == -1 then -1 else k + 1
  }

  // ---------------------------------------------------------------------
  // Math.max(...s)
  // ---------------------------------------------------------------------

  function Max(s: seq<int>): (m: int)
    requires s != []
    ensures m in s
    ensures forall i :: 0 <= i < |s| ==> s[i] <= m
  {
    if |s| == 1 then s[0]
    else
      var rest := Max(s[1..]);
      assert forall i :: 1 <= i < |s| ==> s[i] == s[1..][i - 1];
      if s[0] >= rest then s[0] else rest
  }

  // ---------------------------------------------------------------------
  // [...new Set(s)]
  // ---------------------------------------------------------------------

  /** The position of the first occurrence of `x` in `s`. */
  function FirstIndex<T(==)>(s: seq<T>, x: T): (k: nat)
    requires x in s
    ensures k < |s| && s[k] == x
    ensures forall j :: 0 <= j < k ==> s[j] != x
  {
    if s[0] == x then 0
    else
      var k := FirstIndex(s[1..], x);
      assert forall j :: 1 <= j < |s| ==> s[j] == s[1..][j - 1];
      1 + k
  }

  lemma FirstIndexInPrefix<T>(s: seq<T>, n: nat, x: T)
    requires n <= |s| && x in s[..n]
    ensures x in s && FirstIndex(s, x) == FirstIndex(s[..n], x)
  {
    var k := FirstIndex(s[..n], x);
    assert s[k] == x;
  }

  /** The distinct values of `s`, each once, in the order of their first
      occurrence: what spreading a JavaScript `Set` built from `s` yields. */
  function Distinct<T(==,!new)>(s: seq<T>): (r: seq<T>)
    ensures forall x :: x in r <==> x in s
    ensures NoDuplicates(r)
    ensures forall i, j :: 0 <= i < j < |r| ==>
              r[i] in s && r[j] in s && FirstIndex(s, r[i]) < FirstIndex(s, r[j])
  {
    if s == [] then []
    else
      var n := |s| - 1;
      var d, x := Distinct(s[..n]), s[n];
      assert s == s[..n] + [x];
      if x in d then
        assert forall i :: 0 <= i < |d| ==> FirstIndex(s, d[i]) == FirstIndex(s[..n], d[i]) by {
          forall i | 0 <= i < |d| ensures FirstIndex(s, d[i]) == FirstIndex(s[..n], d[i]) {
            FirstIndexInPrefix(s, n, d[i]);
          }
        }
        d
      else
        var r := d + [x];
        assert forall i :: 0 <= i < |d| ==> FirstIndex(s, d[i]) == FirstIndex(s[..n], d[i]) < n by {
          forall i | 0 <= i < |d| ensures FirstIndex(s, d[i]) == FirstIndex(s[..n], d[i]) < n {
            FirstIndexInPrefix(s, n, d[i]);
          }
        }
        assert FirstIndex(s, x) == n;
        r
  }
}
