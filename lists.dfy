/**
 * Small facts about Python lists of prices, as the ladder engine uses them:
 * `list.remove`, membership, and filtering out the prices that are already tracked.
 */
module Lists {

  /** No price occurs twice. */
  predicate Distinct(s: seq<int>)
  {
    forall i, j :: 0 <= i < j < |s| ==> s[i] != s[j]
  }

  /** Python's `list.remove(x)`: drops the first occurrence of `x` (the engine only calls it when `x` is present). */
  function RemoveFirst(s: seq<int>, x: int): (r: seq<int>)
    ensures multiset(r) == multiset(s) - multiset{x}
    ensures x !in s ==> r == s
  {
    if s == [] then []
    else if s[0] == x then
      assert s == [s[0]] + s[1..];
      s[1..]
    else
      assert s == [s[0]] + s[1..];
      [s[0]] + RemoveFirst(s[1..], x)
  }

  /** Where `x` first occurs in `s`. */
  function FirstIndex(s: seq<int>, x: int): (i: int)
    requires x in s
    ensures 0 <= i < |s| && s[i] == x && x !in s[..i]
  {
    if s[0] == x then 0
    else
      assert x in s[1..];
      var j := FirstIndex(s[1..], x);
      assert s[..j + 1] == [s[0]] + s[1..][..j];
      j + 1
  }

  /** `list.remove` takes out the first occurrence only, and everything else keeps its order. */
  lemma {:induction false} RemoveFirstSplits(s: seq<int>, x: int)
    requires x in s
    ensures var i := FirstIndex(s, x); RemoveFirst(s, x) == s[..i] + s[i + 1..]
  {
    if s[0] == x {
      assert s[..0] + s[1..] == s[1..];
    } else {
      assert x in s[1..];
      RemoveFirstSplits(s[1..], x);
      var j := FirstIndex(s[1..], x);
      assert FirstIndex(s, x) == j + 1;
      ConsSplit(s, j);
    }
  }

  /** Cutting one element out of the tail, with the head put back in front. */
  lemma ConsSplit(s: seq<int>, j: int)
    requires 0 <= j < |s| - 1
    ensures [s[0]] + (s[1..][..j] + s[1..][j + 1..]) == s[..j + 1] + s[j + 2..]
  {
    var t := s[1..];
    assert [s[0]] + (t[..j] + t[j + 1..]) == ([s[0]] + t[..j]) + t[j + 1..];
    assert [s[0]] + t[..j] == s[..j + 1];
    assert t[j + 1..] == s[j + 2..];
  }

  /** The elements of `s` that do not occur in `seen`, in their order in `s`. */
  function Missing(s: seq<int>, seen: seq<int>): (r: seq<int>)
    ensures forall x :: x in r <==> x in s && x !in seen
    ensures |r| <= |s|
  {
    if s == [] then []
    else (if s[0] in seen then [] else [s[0]]) + Missing(s[1..], seen)
  }

  /** The head of a distinct list is not in its tail, and the tail is distinct. */
  lemma DistinctTail(s: seq<int>)
    requires Distinct(s) && s != []
    ensures s[0] !in s[1..] && Distinct(s[1..])
  {
    forall k | 0 <= k < |s| - 1
      ensures s[1..][k] != s[0]
    {
      assert s[1..][k] == s[k + 1];
    }
  }

  /** The `i`-th element of a distinct list is not among the ones before it. */
  lemma DistinctPrefix(s: seq<int>, i: int)
    requires Distinct(s) && 0 <= i < |s|
    ensures s[i] !in s[..i] && s[..i + 1] == s[..i] + [s[i]]
  {
  }

  lemma {:induction false} MissingDistinct(s: seq<int>, seen: seq<int>)
    requires Distinct(s)
    ensures Distinct(Missing(s, seen))
  {
    if s != [] {
      DistinctTail(s);
      MissingDistinct(s[1..], seen);
    }
  }

  /** A price absent from `s` can be added to `seen` without changing what is missing. */
  lemma {:induction false} MissingIgnores(s: seq<int>, seen: seq<int>, p: int)
    requires p !in s
    ensures Missing(s, seen + [p]) == Missing(s, seen)
  {
    if s != [] {
      assert s[0] in seen + [p] <==> s[0] in seen;
      MissingIgnores(s[1..], seen, p);
    }
  }

  /** Removing a kept price from the still-missing prices is the same as having seen it. */
  lemma {:induction false} RemoveFirstMissing(s: seq<int>, seen: seq<int>, p: int)
    requires Distinct(s) && p !in seen
    ensures RemoveFirst(Missing(s, seen), p) == Missing(s, seen + [p])
  {
    if s != [] {
      DistinctTail(s);
      var rest := Missing(s[1..], seen);
      if s[0] in seen {
        assert Missing(s, seen) == rest;
        assert Missing(s, seen + [p]) == Missing(s[1..], seen + [p]);
        RemoveFirstMissing(s[1..], seen, p);
      } else if s[0] == p {
        assert Missing(s, seen) == [p] + rest;
        assert Missing(s, seen + [p]) == Missing(s[1..], seen + [p]);
        MissingIgnores(s[1..], seen, p);
      } else {
        assert Missing(s, seen) == [s[0]] + rest;
        assert Missing(s, seen + [p]) == [s[0]] + Missing(s[1..], seen + [p]);
        RemoveFirstMissing(s[1..], seen, p);
        assert RemoveFirst([s[0]] + rest, p) == [s[0]] + RemoveFirst(rest, p) by {
          assert ([s[0]] + rest)[0] == s[0];
          assert ([s[0]] + rest)[1..] == rest;
        }
      }
    }
  }

  /** Filtering distributes over concatenation. */
  lemma {:induction false} MissingAppend(a: seq<int>, b: seq<int>, seen: seq<int>)
    ensures Missing(a + b, seen) == Missing(a, seen) + Missing(b, seen)
  {
    if a != [] {
      assert (a + b)[0] == a[0];
      assert (a + b)[1..] == a[1..] + b;
      MissingAppend(a[1..], b, seen);
    } else {
      assert a + b == b;
    }
  }

  /** Nothing seen: nothing is filtered out. */
  lemma {:induction false} MissingNothing(s: seq<int>)
    ensures Missing(s, []) == s
  {
    if s != [] {
      MissingNothing(s[1..]);
    }
  }

  /** Striking one more element off a multiset difference. */
  lemma MultisetStrike(a: multiset<int>, b: multiset<int>, x: int)
    ensures (a - b) - multiset{x} == a - (b + multiset{x})
    ensures a[x] == 0 ==> a - (b + multiset{x}) == a - b
  {
    assert forall y :: ((a - b) - multiset{x})[y] == (a - (b + multiset{x}))[y];
    if a[x] == 0 {
      assert forall y :: (a - (b + multiset{x}))[y] == (a - b)[y];
    }
  }
}
