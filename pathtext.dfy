/** String operations the converter takes from Python: POSIX `os.path.join` of two
    parts and `str.replace(pattern, "")`. */
module PathText {

  predicate StartsWith(s: string, prefix: string) {
    |prefix| <= |s| && forall i :: 0 <= i < |prefix| ==> s[i] == prefix[i]
  }

  predicate EndsWith(s: string, suffix: string) {
    |suffix| <= |s| && forall i :: 0 <= i < |suffix| ==> s[|s| - |suffix| + i] == suffix[i]
  }

  /** POSIX `os.path.join(a, b)`: an absolute `b` replaces `a`; otherwise a single
      '/' is put between them unless `a` is empty or already ends with one. */
  function JoinPath(a: string, b: string): (p: string)
    ensures |b| <= |p| <= |a| + 1 + |b|
  {
    if |b| > 0 && b[0] == '/' then b
    else if a == [] || a[|a| - 1] == '/' then a + b
    else a + "/" + b
  }

  /** The joined path ends with `b`; an absolute `b` is the whole result; otherwise it
      starts with `a`, followed by exactly one separator when `a` lacks a trailing one. */
  lemma JoinPathShape(a: string, b: string)
    ensures EndsWith(JoinPath(a, b), b)
    ensures StartsWith(b, "/") ==> JoinPath(a, b) == b
    ensures !StartsWith(b, "/") ==> StartsWith(JoinPath(a, b), a)
    ensures !StartsWith(b, "/") && (a == [] || EndsWith(a, "/")) ==> |JoinPath(a, b)| == |a| + |b|
    ensures !StartsWith(b, "/") && !(a == [] || EndsWith(a, "/")) ==>
              |JoinPath(a, b)| == |a| + 1 + |b| && JoinPath(a, b)[|a|] == '/'
  {
    if a != [] && EndsWith(a, "/") {
      assert a[|a| - 1 + 0] == "/"[0];
    }
  }

  /** The image URL the converter builds by default: the root ends in "?d=", so the
      join inserts a '/' before the file name. */
  lemma DefaultRootJoin()
    ensures JoinPath("/data/local-files/?d=", "img.jpg") == "/data/local-files/?d=/img.jpg"
  {
  }

  /** `pat` occurs in `s` at position `i`. */
  predicate OccursAt(s: string, pat: string, i: int) {
    0 <= i && i + |pat| <= |s| && s[i..i + |pat|] == pat
  }

  predicate Free(s: string, pat: string) {
    forall i :: 0 <= i <= |s| - |pat| ==> !OccursAt(s, pat, i)
  }

  /** No proper suffix of `pat` is also a prefix of it, so two occurrences can never overlap. */
  predicate Unbordered(pat: string) {
    forall m :: 0 < m < |pat| ==> pat[m..] != pat[..|pat| - m]
  }

  /** `s.replace(pat, "")`: scanning left to right, every occurrence of `pat` that does
      not overlap an earlier removed one is deleted. */
  function RemoveAll(s: string, pat: string): (r: string)
    requires pat != []
    ensures |r| <= |s|
    decreases |s|
  {
    if |s| < |pat| then s
    else if s[..|pat|] == pat then RemoveAll(s[|pat|..], pat)
    else [s[0]] + RemoveAll(s[1..], pat)
  }

  lemma FreeTail(s: string, pat: string)
    requires s != [] && Free(s, pat)
    ensures Free(s[1..], pat)
  {
    forall i | 0 <= i <= |s[1..]| - |pat| ensures !OccursAt(s[1..], pat, i) {
      assert !OccursAt(s, pat, i + 1);
      assert s[1..][i..i + |pat|] == s[i + 1..i + 1 + |pat|];
    }
  }

  /** Nothing is removed from a string in which `pat` does not occur. */
  lemma {:induction false} RemoveAllFree(s: string, pat: string)
    requires pat != [] && Free(s, pat)
    ensures RemoveAll(s, pat) == s
    decreases |s|
  {
    if |s| >= |pat| {
      assert !OccursAt(s, pat, 0);
      FreeTail(s, pat);
      RemoveAllFree(s[1..], pat);
    }
  }

  /** An unbordered `pat` cannot start inside a string shorter than itself and run into
      a following copy of itself. */
  lemma NoOverlap(s: string, pat: string)
    requires 0 < |s| < |pat| && Unbordered(pat)
    ensures (s + pat)[..|pat|] != pat
  {
    var t := s + pat;
    var m := |s|;
    assert pat[m..] != pat[..|pat| - m];
    assert t[m..|pat|] == pat[..|pat| - m];
  }

  /** A `pat`-free `s` followed by an unbordered `pat`: the scan keeps `s`, drops that
      occurrence and carries on with what follows. */
  lemma {:induction false} RemoveAllStep(s: string, pat: string, t: string)
    requires pat != [] && Unbordered(pat) && Free(s, pat)
    ensures RemoveAll(s + pat + t, pat) == s + RemoveAll(t, pat)
    decreases |s|
  {
    var u := s + pat + t;
    if s == [] {
      assert u == pat + t && u[..|pat|] == pat && u[|pat|..] == t;
    } else {
      if |s| >= |pat| {
        assert !OccursAt(s, pat, 0);
        assert u[..|pat|] == s[..|pat|];
      } else {
        NoOverlap(s, pat);
        assert u[..|pat|] == (s + pat)[..|pat|];
      }
      FreeTail(s, pat);
      assert u[1..] == s[1..] + pat + t;
      RemoveAllStep(s[1..], pat, t);
    }
  }

  /** Removing an unbordered `pat` from `s + pat`, where `s` is free of it, gives `s`. */
  lemma RemoveAllTrailing(s: string, pat: string)
    requires pat != [] && Unbordered(pat) && Free(s, pat)
    ensures RemoveAll(s + pat, pat) == s
  {
    RemoveAllStep(s, pat, []);
    assert s + pat + [] == s + pat;
  }

  /** `pat.join(segs)`. */
  function JoinedBy(segs: seq<string>, pat: string): string
    decreases |segs|
  {
    if segs == [] then []
    else if |segs| == 1 then segs[0]
    else segs[0] + pat + JoinedBy(segs[1..], pat)
  }

  /** `"".join(segs)`. */
  function Concat(segs: seq<string>): string
    decreases |segs|
  {
    if segs == [] then [] else segs[0] + Concat(segs[1..])
  }

  /** `s.split(pat)`: the pieces between the occurrences of `pat` found scanning left
      to right. */
  function Split(s: string, pat: string): (segs: seq<string>)
    requires pat != []
    ensures |segs| > 0
    decreases |s|
  {
    if |s| < |pat| then [s]
    else if s[..|pat|] == pat then [[]] + Split(s[|pat|..], pat)
    else
      var rest := Split(s[1..], pat);
      [[s[0]] + rest[0]] + rest[1..]
  }

  /** Splitting cuts `s` into `pat`-free pieces that join back to `s`. */
  lemma SplitJoins(s: string, pat: string)
    requires pat != []
    ensures JoinedBy(Split(s, pat), pat) == s
    ensures forall k :: 0 <= k < |Split(s, pat)| ==> Free(Split(s, pat)[k], pat)
  {
    SplitRejoins(s, pat);
    SplitPiecesFree(s, pat);
  }

  lemma {:induction false} SplitRejoins(s: string, pat: string)
    requires pat != []
    ensures JoinedBy(Split(s, pat), pat) == s
    decreases |s|
  {
    if |s| < |pat| {
    } else if s[..|pat|] == pat {
      var tail := s[|pat|..];
      SplitRejoins(tail, pat);
      JoinedByEmptyHead(Split(tail, pat), pat);
      assert s == pat + tail;
    } else {
      SplitRejoins(s[1..], pat);
      JoinedByCons(s[0], Split(s[1..], pat), pat);
      assert s == [s[0]] + s[1..];
    }
  }

  /** An empty first piece: the joined string opens with `pat`. */
  lemma JoinedByEmptyHead(rest: seq<string>, pat: string)
    requires rest != []
    ensures JoinedBy([[]] + rest, pat) == pat + JoinedBy(rest, pat)
  {
    var segs := [[]] + rest;
    assert segs[1..] == rest;
    assert segs[0] + pat == pat;
  }

  /** A character put in front of the first piece is put in front of the joined string. */
  lemma JoinedByCons(c: char, rest: seq<string>, pat: string)
    requires rest != []
    ensures JoinedBy([[c] + rest[0]] + rest[1..], pat) == [c] + JoinedBy(rest, pat)
  {
    var segs := [[c] + rest[0]] + rest[1..];
    if |rest| > 1 {
      assert segs[1..] == rest[1..];
      assert segs[0] + pat + JoinedBy(segs[1..], pat) == [c] + (rest[0] + pat + JoinedBy(rest[1..], pat));
    }
  }

  /** The first piece opens the joined string. */
  lemma JoinedByHead(segs: seq<string>, pat: string)
    requires segs != []
    ensures |segs[0]| <= |JoinedBy(segs, pat)| && JoinedBy(segs, pat)[..|segs[0]|] == segs[0]
  {
  }

  lemma {:induction false} SplitPiecesFree(s: string, pat: string)
    requires pat != []
    ensures forall k :: 0 <= k < |Split(s, pat)| ==> Free(Split(s, pat)[k], pat)
    decreases |s|
  {
    var segs := Split(s, pat);
    if |s| < |pat| {
    } else if s[..|pat|] == pat {
      SplitPiecesFree(s[|pat|..], pat);
      forall k | 0 <= k < |segs| ensures Free(segs[k], pat) {
        if k > 0 {
          assert segs[k] == Split(s[|pat|..], pat)[k - 1];
        }
      }
    } else {
      var rest := Split(s[1..], pat);
      SplitPiecesFree(s[1..], pat);
      SplitRejoins(s[1..], pat);
      JoinedByHead(rest, pat);
      assert s[1..][..|rest[0]|] == rest[0];
      FreeHead(s, rest[0], pat);
      forall k | 0 <= k < |segs| ensures Free(segs[k], pat) {
        if k > 0 {
          assert segs[k] == rest[k];
        }
      }
    }
  }

  /** `s[0]` followed by a `pat`-free prefix of `s[1..]` is `pat`-free when `pat` does
      not open `s`. */
  lemma FreeHead(s: string, r: string, pat: string)
    requires pat != [] && |pat| <= |s| && s[..|pat|] != pat
    requires |r| < |s| && s[1..][..|r|] == r && Free(r, pat)
    ensures Free([s[0]] + r, pat)
  {
    var f := [s[0]] + r;
    assert f == s[..|f|];
    forall i | 0 <= i <= |f| - |pat| ensures !OccursAt(f, pat, i) {
      if i == 0 {
        assert f[..|pat|] == s[..|pat|];
      } else {
        assert !OccursAt(r, pat, i - 1);
        assert f[i..i + |pat|] == r[i - 1..i - 1 + |pat|];
      }
    }
  }

  /** An unbordered `pat` is removed from every joint of `pat`-free pieces, and from
      nowhere else: `pat.join(segs).replace(pat, "") == "".join(segs)`. */
  lemma {:induction false} RemoveAllJoined(segs: seq<string>, pat: string)
    requires pat != [] && Unbordered(pat)
    requires forall k :: 0 <= k < |segs| ==> Free(segs[k], pat)
    ensures RemoveAll(JoinedBy(segs, pat), pat) == Concat(segs)
    decreases |segs|
  {
    if |segs| == 1 {
      RemoveAllFree(segs[0], pat);
      assert Concat(segs) == segs[0] + Concat([]);
    } else if |segs| > 1 {
      var tail := segs[1..];
      assert forall k :: 0 <= k < |tail| ==> tail[k] == segs[k + 1];
      RemoveAllJoined(tail, pat);
      RemoveAllStep(segs[0], pat, JoinedBy(tail, pat));
    }
  }
}
