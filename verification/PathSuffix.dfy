/** Matching a concise file reference against a disclosed path. */
module PathSuffixes {
  import opened Basics

  type Segments = seq<string>

  /** `reference` is obtained from `path` by leaving out segments. */
  predicate Subsequence(reference: Segments, path: Segments) {
    if reference == [] then true
    else if path == [] then false
    else if Last(reference) == Last(path) && Subsequence(reference[..|reference| - 1], path[..|path| - 1]) then true
    else Subsequence(reference, path[..|path| - 1])
  }

  /** The positions at which a choice of segments spells the reference. */
  predicate Spells(reference: Segments, path: Segments, at: seq<int>) {
    |at| == |reference|
    && (forall i :: 0 <= i < |at| ==> 0 <= at[i] < |path| && path[at[i]] == reference[i])
    && forall i, j :: 0 <= i < j < |at| ==> at[i] < at[j]
  }

  /** The recursive reading is the existence of increasing positions. */
  lemma {:induction false} SubsequenceExactly(reference: Segments, path: Segments)
    ensures Subsequence(reference, path) <==> exists at :: Spells(reference, path, at)
  {
    if reference == [] {
      assert Spells(reference, path, []);
    } else if path != [] {
      var front, shorter := reference[..|reference| - 1], path[..|path| - 1];
      SubsequenceExactly(front, shorter);
      SubsequenceExactly(reference, shorter);
      if Subsequence(reference, path) {
        if Last(reference) == Last(path) && Subsequence(front, shorter) {
          var at :| Spells(front, shorter, at);
          assert Spells(reference, path, at + [|path| - 1]);
        } else {
          var at :| Spells(reference, shorter, at);
          assert Spells(reference, path, at);
        }
      }
      if at :| Spells(reference, path, at) {
        SpelledShorter(reference, path, at);
      }
    } else {
      forall at | |at| == |reference|
        ensures !Spells(reference, path, at)
      {
        assert |at| > 0 && !(0 <= at[0] < |path|);
      }
    }
  }

  lemma SpelledShorter(reference: Segments, path: Segments, at: seq<int>)
    requires reference != [] && path != [] && Spells(reference, path, at)
    ensures var front, shorter := reference[..|reference| - 1], path[..|path| - 1];
            (Last(reference) == Last(path) && exists b :: Spells(front, shorter, b))
            || exists b :: Spells(reference, shorter, b)
  {
    var front, shorter := reference[..|reference| - 1], path[..|path| - 1];
    var n := |at| - 1;
    if at[n] == |path| - 1 {
      var b := at[..n];
      forall i | 0 <= i < |b|
        ensures 0 <= b[i] < |shorter| && shorter[b[i]] == front[i]
      {
        assert at[i] < at[n];
      }
      assert Spells(front, shorter, b);
    } else {
      forall i | 0 <= i < |at|
        ensures 0 <= at[i] < |shorter| && shorter[at[i]] == reference[i]
      {
        assert i == n || at[i] < at[n];
      }
      assert Spells(reference, shorter, at);
    }
  }

  /** If a reference can be spelled at all, the last occurrence of its last segment may be used. */
  lemma {:induction false} GreedyStep(reference: Segments, path: Segments)
    requires reference != [] && path != [] && Last(reference) == Last(path)
    ensures Subsequence(reference, path) <==> Subsequence(reference[..|reference| - 1], path[..|path| - 1])
  {
    var front, shorter := reference[..|reference| - 1], path[..|path| - 1];
    if Subsequence(reference, shorter) {
      DropLast(reference, shorter);
    }
  }

  lemma {:induction false} DropLast(reference: Segments, path: Segments)
    requires reference != [] && Subsequence(reference, path)
    ensures Subsequence(reference[..|reference| - 1], path)
  {
    var front := reference[..|reference| - 1];
    if front != [] {
      if Last(reference) == Last(path) && Subsequence(front, path[..|path| - 1]) {
        Longer(front, path);
      } else {
        DropLast(reference, path[..|path| - 1]);
        Longer(front, path);
      }
    }
  }

  lemma Longer(reference: Segments, path: Segments)
    requires path != [] && Subsequence(reference, path[..|path| - 1])
    ensures Subsequence(reference, path)
  {
  }

  /** `reference` is literally the end of `path`, compared as the source does: the slice has at
      most the reference's length, and is compared position by position. */
  predicate TailEquals(reference: Segments, path: Segments) {
    var tail := path[Max(0, |path| - |reference|)..];
    forall i :: 0 <= i < |tail| ==> i < |reference| && tail[i] == reference[i]
  }

  /** What the matcher is for: a non-empty reference, found in order, ending at the file name. */
  predicate Identifies(reference: Segments, path: Segments) {
    reference != [] && path != [] && Last(reference) == Last(path) && Subsequence(reference, path)
  }

  lemma {:induction false} TailIsSubsequence(reference: Segments, path: Segments)
    requires |reference| <= |path| && path[|path| - |reference|..] == reference
    ensures Subsequence(reference, path)
  {
    if reference != [] {
      var front, shorter := reference[..|reference| - 1], path[..|path| - 1];
      assert Last(path) == path[|path| - |reference|..][|reference| - 1];
      assert shorter[|shorter| - |front|..] == front;
      TailIsSubsequence(front, shorter);
    }
  }

  lemma {:induction false} SubsequenceFits(reference: Segments, path: Segments)
    requires Subsequence(reference, path)
    ensures |reference| <= |path|
  {
    if reference != [] {
      if Last(reference) == Last(path) && Subsequence(reference[..|reference| - 1], path[..|path| - 1]) {
        SubsequenceFits(reference[..|reference| - 1], path[..|path| - 1]);
      } else {
        SubsequenceFits(reference, path[..|path| - 1]);
      }
    }
  }

  /** The matcher, on normalised segments. It agrees with its purpose except that a path that
      is a proper prefix of the reference also matches. */
  method PathSuffixMatches(path: Segments, reference: Segments) returns (matches: bool)
    ensures matches <==>
            || (reference != [] && path != [] && Last(reference) == Last(path) && exists at :: Spells(reference, path, at))
            || (path != [] && |path| < |reference| && path <= reference)
  {
    SubsequenceExactly(reference, path);
    hide Spells;
    if reference == [] || path == [] {
      return false;
    }
    if TailEquals(reference, path) {
      TailMeans(reference, path);
      return true;
    }
    TailMeans(reference, path);
    if Last(path) != Last(reference) {
      return false;
    }
    var fullIndex := |path| - 1;
    var suffixIndex := |reference| - 1;
    assert path[..fullIndex + 1] == path && reference[..suffixIndex + 1] == reference;
    while suffixIndex >= 0
      invariant -1 <= suffixIndex < |reference| && -1 <= fullIndex < |path|
      invariant Subsequence(reference, path) <==> Subsequence(reference[..suffixIndex + 1], path[..fullIndex + 1])
      decreases suffixIndex
    {
      var wanted := reference[..suffixIndex + 1];
      while fullIndex >= 0 && path[fullIndex] != reference[suffixIndex]
        invariant -1 <= fullIndex < |path|
        invariant Subsequence(reference, path) <==> Subsequence(wanted, path[..fullIndex + 1])
        decreases fullIndex
      {
        assert path[..fullIndex + 1][..fullIndex] == path[..fullIndex];
        fullIndex := fullIndex - 1;
      }
      if fullIndex < 0 {
        return false;
      }
      assert wanted[..suffixIndex] == reference[..suffixIndex];
      assert path[..fullIndex + 1][..fullIndex] == path[..fullIndex];
      GreedyStep(wanted, path[..fullIndex + 1]);
      fullIndex := fullIndex - 1;
      suffixIndex := suffixIndex - 1;
    }
    return true;
  }

  lemma TailMeans(reference: Segments, path: Segments)
    requires reference != [] && path != []
    ensures |reference| <= |path| ==> (TailEquals(reference, path) <==> path[|path| - |reference|..] == reference)
    ensures |reference| <= |path| && TailEquals(reference, path) ==> Identifies(reference, path)
    ensures |reference| > |path| ==> (TailEquals(reference, path) <==> path <= reference) && !Subsequence(reference, path)
  {
    if |reference| <= |path| {
      var tail := path[|path| - |reference|..];
      if TailEquals(reference, path) {
        assert tail == reference;
        assert Last(path) == tail[|reference| - 1];
        TailIsSubsequence(reference, path);
      }
    } else {
      assert path[0..] == path;
      if Subsequence(reference, path) {
        SubsequenceFits(reference, path);
      }
    }
  }
}
