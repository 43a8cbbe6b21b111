/** Sequence and set helpers that stand for Python built-ins used by the converter:
    the "append if not already in the list" idiom, `dict(enumerate(xs))` and
    `sorted(d.keys())` over integer keys. */
module Collections {

  /** The elements of `s` with repeats dropped, each kept where it was first seen.
      Defined from the end, the way an append loop builds it. */
  function Dedup<T(==)>(s: seq<T>): (d: seq<T>)
    ensures |d| <= |s|
    decreases |s|
  {
    if s == [] then []
    else
      var prev := Dedup(s[..|s| - 1]);
      var last := s[|s| - 1];
      if last in prev then prev else prev + [last]
  }

  /** The de-duplicated list holds exactly the elements of `s`, each once. */
  lemma {:induction false} DedupElements<T>(s: seq<T>)
    ensures forall i :: 0 <= i < |Dedup(s)| ==> Dedup(s)[i] in s
    ensures forall i :: 0 <= i < |s| ==> s[i] in Dedup(s)
    ensures forall i, j :: 0 <= i < j < |Dedup(s)| ==> Dedup(s)[i] != Dedup(s)[j]
    decreases |s|
  {
    if s != [] {
      var p := s[..|s| - 1];
      var last := s[|s| - 1];
      DedupElements(p);
      assert s == p + [last];
      var dp := Dedup(p);
      forall i | 0 <= i < |s| ensures s[i] in Dedup(s) {
        if i < |p| {
          assert s[i] == p[i];
        }
      }
    }
  }

  /** The position of the first occurrence of `x` in `s`. */
  function FirstIndex<T(==)>(s: seq<T>, x: T): (i: nat)
    requires x in s
    ensures i < |s| && s[i] == x && x !in s[..i]
  {
    if s[0] == x then 0
    else
      var i := 1 + FirstIndex(s[1..], x);
      assert s[..i] == [s[0]] + s[1..][..i - 1];
      i
  }

  lemma FirstIndexIs<T>(s: seq<T>, x: T, i: nat)
    requires i < |s| && s[i] == x && x !in s[..i]
    ensures FirstIndex(s, x) == i
  {
  }

  /** Every element of a prefix of `s` is first seen at the same place in `s`. */
  lemma FirstIndexInPrefix<T>(s: seq<T>, n: nat, x: T)
    requires n <= |s| && x in s[..n]
    ensures FirstIndex(s, x) == FirstIndex(s[..n], x)
  {
    var i := FirstIndex(s[..n], x);
    assert s[..n][..i] == s[..i];
    FirstIndexIs(s, x, i);
  }

  /** The de-duplicated list follows first-seen order: an element listed earlier
      was first seen earlier. */
  lemma {:induction false} DedupFirstSeenOrder<T>(s: seq<T>)
    ensures forall i :: 0 <= i < |Dedup(s)| ==> Dedup(s)[i] in s
    ensures forall i, j :: 0 <= i < j < |Dedup(s)| ==>
              FirstIndex(s, Dedup(s)[i]) < FirstIndex(s, Dedup(s)[j])
    decreases |s|
  {
    DedupElements(s);
    if s != [] {
      var n := |s| - 1;
      var p := s[..n];
      var last := s[n];
      DedupFirstSeenOrder(p);
      DedupElements(p);
      var d, dp := Dedup(s), Dedup(p);
      forall x | x in p
        ensures FirstIndex(s, x) == FirstIndex(p, x) && FirstIndex(p, x) < n
      {
        FirstIndexInPrefix(s, n, x);
      }
      if last !in dp {
        FirstIndexIs(s, last, n);
        assert d == dp + [last];
        forall i, j | 0 <= i < j < |d|
          ensures FirstIndex(s, d[i]) < FirstIndex(s, d[j])
        {
          assert d[i] == dp[i] && d[i] in p;
          if j < |dp| {
            assert d[j] == dp[j] && d[j] in p;
          }
        }
      } else {
        assert d == dp;
        forall i, j | 0 <= i < j < |d|
          ensures FirstIndex(s, d[i]) < FirstIndex(s, d[j])
        {
          assert d[i] in p && d[j] in p;
        }
      }
    }
  }

  /** Each value occurs exactly once in the de-duplicated list if it occurs at all. */
  lemma {:induction false} DedupCount<T>(s: seq<T>, x: T)
    ensures multiset(Dedup(s))[x] == if x in s then 1 else 0
    decreases |s|
  {
    if s != [] {
      var p := s[..|s| - 1];
      var last := s[|s| - 1];
      assert s == p + [last];
      DedupCount(p, x);
    }
  }

  /** A list without repeats is its own de-duplication. */
  lemma {:induction false} DedupOfDistinct<T>(s: seq<T>)
    requires forall i, j :: 0 <= i < j < |s| ==> s[i] != s[j]
    ensures Dedup(s) == s
    decreases |s|
  {
    if s != [] {
      var p := s[..|s| - 1];
      DedupOfDistinct(p);
      assert s[|s| - 1] !in p by {
        forall i | 0 <= i < |p| ensures p[i] != s[|s| - 1] {
          assert p[i] == s[i];
        }
      }
      assert s == p + [s[|s| - 1]];
    }
  }

  /** `dict(enumerate(s))`: position to element. */
  function IndexMap<T>(s: seq<T>): (m: map<int, T>)
    ensures forall k :: k in m <==> 0 <= k < |s|
    ensures forall k :: 0 <= k < |s| ==> m[k] == s[k]
  {
    map k | 0 <= k < |s| :: s[k]
  }

  lemma {:induction false} MinExists(s: set<int>)
    requires s != {}
    ensures exists m :: m in s && forall k :: k in s ==> m <= k
    decreases |s|
  {
    if forall y :: y !in s {
      assert false;  // extensionality: s would equal {}
    }
    var x :| x in s;
    var rest := s - {x};
    if rest == {} {
      forall k | k in s ensures x <= k {
        assert k !in rest;
      }
    } else {
      MinExists(rest);
      var m :| m in rest && forall k :: k in rest ==> m <= k;
      var least := if x < m then x else m;
      forall k | k in s ensures least <= k {
        if k != x {
          assert k in rest;
        }
      }
      assert least in s;
    }
  }

  /** The least element of a non-empty finite set of integers. */
  function Min(s: set<int>): (m: int)
    requires s != {}
    ensures m in s && forall k :: k in s ==> m <= k
  {
    MinExists(s);
    var m :| m in s && forall k :: k in s ==> m <= k;
    m
  }

  /** `sorted(keys)` for a finite set of integer keys: ascending, each key once. */
  function SortedKeys(s: set<int>): (ks: seq<int>)
    ensures forall i :: 0 <= i < |ks| ==> ks[i] in s
    ensures forall i, j :: 0 <= i < j < |ks| ==> ks[i] < ks[j]
    ensures |ks| == |s|
    decreases |s|
  {
    if s == {} then []
    else [Min(s)] + SortedKeys(s - {Min(s)})
  }

  /** Every key is listed. */
  lemma {:induction false} SortedKeysComplete(s: set<int>)
    ensures forall k :: k in s ==> k in SortedKeys(s)
    decreases |s|
  {
    if s != {} {
      var m := Min(s);
      SortedKeysComplete(s - {m});
      forall k | k in s ensures k in SortedKeys(s) {
        if k != m {
          assert k in s - {m};
        }
      }
    }
  }

  /** The integers 0 .. n-1 as a set. */
  function Range(n: nat): (s: set<int>)
    ensures forall k :: k in s <==> 0 <= k < n
    ensures |s| == n
  {
    if n == 0 then {} else Range(n - 1) + {n - 1}
  }

  lemma {:induction false} IncreasingGap(ks: seq<int>, i: nat, j: nat)
    requires forall a, b :: 0 <= a < b < |ks| ==> ks[a] < ks[b]
    requires i <= j < |ks|
    ensures ks[j] - ks[i] >= j - i
    decreases j - i
  {
    if i < j {
      IncreasingGap(ks, i + 1, j);
    }
  }

  /** A strictly increasing list of `n` values drawn from `0 .. n-1` lists each value
      at its own position. */
  lemma {:induction false} IncreasingWithin(ks: seq<int>)
    requires forall a, b :: 0 <= a < b < |ks| ==> ks[a] < ks[b]
    requires forall i :: 0 <= i < |ks| ==> 0 <= ks[i] < |ks|
    ensures forall i :: 0 <= i < |ks| ==> ks[i] == i
  {
    forall i | 0 <= i < |ks| ensures ks[i] == i {
      IncreasingGap(ks, 0, i);
      IncreasingGap(ks, i, |ks| - 1);
    }
  }

  /** The keys 0 .. n-1, sorted, are listed at their own positions. */
  lemma {:induction false} SortedRangeKeys(n: nat)
    ensures |SortedKeys(Range(n))| == n
    ensures forall i :: 0 <= i < n ==> SortedKeys(Range(n))[i] == i
  {
    var ks := SortedKeys(Range(n));
    IncreasingWithin(ks);
  }
}
