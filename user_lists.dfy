/** The list helpers of the user store: the order-preserving duplicate removal
    applied to every user's event list on read, and the filter that keeps only
    the events that have not ended yet. */
module UserLists {

  /** No element occurs twice. */
  predicate NoDuplicates(s: seq<int>)
  {
    forall i, j :: 0 <= i < j < |s| ==> s[i] != s[j]
  }

  /** The position of the first occurrence of `x` in `s`. */
  function FirstIndex(s: seq<int>, x: int): (r: nat)
    requires x in s
    ensures r < |s| && s[r] == x && x !in s[..r]
  {
    if s[0] == x then 0
    else
      var k := FirstIndex(s[1..], x);
      assert s[1..][..k] == s[1..k + 1];
      assert s[..k + 1] == [s[0]] + s[1..k + 1];
      1 + k
  }

  /** `idx` lists strictly increasing positions of `b` that spell out `a`. */
  predicate Embeds(idx: seq<int>, a: seq<int>, b: seq<int>)
  {
    && |idx| == |a|
    && (forall k :: 0 <= k < |idx| ==> 0 <= idx[k] < |b| && b[idx[k]] == a[k])
    && (forall k, l :: 0 <= k < l < |idx| ==> idx[k] < idx[l])
  }

  /** Reference definition of the duplicate removal: scanning left to right,
      an element is kept when it has not been kept before. */
  function Dedup(s: seq<int>): seq<int>
  {
    if s == [] then []
    else
      var d := Dedup(s[..|s| - 1]);
      if s[|s| - 1] in d then d else d + [s[|s| - 1]]
  }

  /** `removeDuplicates`: builds the result in one pass, remembering what it
      has seen; an empty input is returned as it is. */
  method RemoveDuplicates(slice: seq<int>) returns (result: seq<int>)
    ensures result == Dedup(slice)
    ensures NoDuplicates(result)
    ensures forall x :: x in result <==> x in slice
  {
    DedupNoDuplicates(slice);
    DedupElements(slice);
    if |slice| == 0 {
      return slice;
    }
    var seen: set<int> := {};
    result := [];
    var i := 0;
    while i < |slice|
      invariant 0 <= i <= |slice|
      invariant result == Dedup(slice[..i])
      invariant forall x :: x in seen <==> x in result
    {
      var item := slice[i];
      assert slice[..i + 1][..i] == slice[..i];
      if item !in seen {
        seen := seen + {item};
        result := result + [item];
      }
      i := i + 1;
    }
    assert slice[..i] == slice;
  }

  /** Deduplication keeps exactly the elements of the input. */
  lemma {:induction false} DedupElements(s: seq<int>)
    ensures forall x :: x in Dedup(s) <==> x in s
  {
    if s != [] {
      var p := s[..|s| - 1];
      DedupElements(p);
      assert s == p + [s[|s| - 1]];
    }
  }

  /** The output of deduplication has no repeated element. */
  lemma {:induction false} DedupNoDuplicates(s: seq<int>)
    ensures NoDuplicates(Dedup(s))
  {
    if s != [] {
      DedupNoDuplicates(s[..|s| - 1]);
    }
  }

  /** Each kept element sits at the first occurrence of its value, so the
      output is a subsequence of the input in order of first occurrence. */
  lemma {:induction false} DedupFirstOccurrences(s: seq<int>) returns (idx: seq<int>)
    ensures Embeds(idx, Dedup(s), s)
    ensures forall k :: 0 <= k < |idx| ==> Dedup(s)[k] in s && idx[k] == FirstIndex(s, Dedup(s)[k])
  {
    if s == [] {
      idx := [];
    } else {
      var p, x := s[..|s| - 1], s[|s| - 1];
      assert s == p + [x];
      var before := DedupFirstOccurrences(p);
      var d := Dedup(p);
      DedupElements(p);
      forall k | 0 <= k < |d|
        ensures FirstIndex(s, d[k]) == FirstIndex(p, d[k])
      {
        FirstIndexExtend(p, x, d[k]);
      }
      if x in d {
        idx := before;
      } else {
        assert x !in p;
        FirstIndexOfNew(p, x);
        idx := before + [|p|];
        assert Dedup(s) == d + [x];
      }
    }
  }

  lemma FirstIndexExtend(p: seq<int>, x: int, y: int)
    requires y in p
    ensures FirstIndex(p + [x], y) == FirstIndex(p, y)
  {
    var s := p + [x];
    var r1, r2 := FirstIndex(s, y), FirstIndex(p, y);
    forall k | 0 <= k < r1 ensures s[k] != y {
      assert s[..r1][k] == s[k];
    }
    forall k | 0 <= k < r2 ensures p[k] != y {
      assert p[..r2][k] == p[k];
    }
    assert s[r2] == y;
  }

  lemma FirstIndexOfNew(p: seq<int>, x: int)
    requires x !in p
    ensures FirstIndex(p + [x], x) == |p|
  {
    var s := p + [x];
    forall k | 0 <= k < |p| ensures s[k] != x {
      assert s[k] == p[k];
    }
  }

  /** A list without duplicates is its own deduplication. */
  lemma {:induction false} DedupOfDistinct(s: seq<int>)
    requires NoDuplicates(s)
    ensures Dedup(s) == s
  {
    if s != [] {
      var p := s[..|s| - 1];
      DedupOfDistinct(p);
      DedupElements(p);
      assert s == p + [s[|s| - 1]];
    }
  }

  /** `removeDuplicates` is idempotent. */
  lemma DedupIdempotent(s: seq<int>)
    ensures Dedup(Dedup(s)) == Dedup(s)
  {
    DedupNoDuplicates(s);
    DedupOfDistinct(Dedup(s));
  }

  /** Reference definition of the filter: the elements of `s` that lie in
      `valid`, in their order. */
  function Keep(s: seq<int>, valid: set<int>): seq<int>
  {
    if s == [] then []
    else
      var k := Keep(s[..|s| - 1], valid);
      if s[|s| - 1] in valid then k + [s[|s| - 1]] else k
  }

  /** The filter loop of `GetUserByID`: append every id that is marked valid. */
  method FilterValid(ids: seq<int>, valid: set<int>) returns (kept: seq<int>)
    ensures kept == Keep(ids, valid)
    ensures forall x :: x in kept <==> x in ids && x in valid
  {
    KeepElements(ids, valid);
    kept := [];
    var i := 0;
    while i < |ids|
      invariant 0 <= i <= |ids|
      invariant kept == Keep(ids[..i], valid)
    {
      assert ids[..i + 1][..i] == ids[..i];
      if ids[i] in valid {
        kept := kept + [ids[i]];
      }
      i := i + 1;
    }
    assert ids[..i] == ids;
  }

  /** The filter keeps exactly the valid elements. */
  lemma {:induction false} KeepElements(s: seq<int>, valid: set<int>)
    ensures forall x :: x in Keep(s, valid) <==> x in s && x in valid
  {
    if s != [] {
      var p := s[..|s| - 1];
      KeepElements(p, valid);
      assert s == p + [s[|s| - 1]];
    }
  }

  /** The filter output is a subsequence of its input; in particular it keeps
      their order and a duplicate-free input stays duplicate-free. */
  lemma {:induction false} KeepSubsequence(s: seq<int>, valid: set<int>) returns (idx: seq<int>)
    ensures Embeds(idx, Keep(s, valid), s)
  {
    if s == [] {
      idx := [];
    } else {
      var p, x := s[..|s| - 1], s[|s| - 1];
      var before := KeepSubsequence(p, valid);
      assert s == p + [x];
      EmbedsSnoc(before, Keep(p, valid), p, x);
      idx := if x in valid then before + [|p|] else before;
    }
  }

  /** An embedding survives appending to the longer list, and extends by one
      position when the same element is appended to both. */
  lemma EmbedsSnoc(idx: seq<int>, a: seq<int>, b: seq<int>, x: int)
    requires Embeds(idx, a, b)
    ensures Embeds(idx, a, b + [x])
    ensures Embeds(idx + [|b|], a + [x], b + [x])
  {
  }

  /** Deleting elements from a duplicate-free list leaves it duplicate-free. */
  lemma SubsequenceOfDistinct(idx: seq<int>, a: seq<int>, b: seq<int>)
    requires Embeds(idx, a, b) && NoDuplicates(b)
    ensures NoDuplicates(a)
  {
    forall i, j | 0 <= i < j < |a|
      ensures a[i] != a[j]
    {
      assert b[idx[i]] != b[idx[j]];
    }
  }
}
