/** `Array.prototype.filter` and the sums the pages total their rows with. */
module Seqs {
  /** `xs.filter(keep)`: the elements that pass, in their original order. */
  function Keep<T>(xs: seq<T>, keep: T -> bool): (r: seq<T>)
    ensures |r| <= |xs|
    ensures forall i :: 0 <= i < |r| ==> r[i] in xs && keep(r[i])
    ensures forall i :: 0 <= i < |xs| && keep(xs[i]) ==> xs[i] in r
    decreases |xs|
  {
    if xs == [] then []
    else
      var rest := Keep(xs[1..], keep);
      assert forall i :: 1 <= i < |xs| ==> xs[i] == xs[1..][i - 1];
      (if keep(xs[0]) then [xs[0]] else []) + rest
  }

  /** Filtering distributes over concatenation: the kept elements keep their relative order. */
  lemma {:induction false} KeepAppend<T>(a: seq<T>, b: seq<T>, keep: T -> bool)
    ensures Keep(a + b, keep) == Keep(a, keep) + Keep(b, keep)
    decreases |a|
  {
    if a == [] {
      assert a + b == b;
    } else {
      assert (a + b)[1..] == a[1..] + b;
      KeepAppend(a[1..], b, keep);
    }
  }

  /** When every element passes, the filter gives the list back unchanged. */
  lemma {:induction false} KeepAll<T>(xs: seq<T>, keep: T -> bool)
    requires forall i :: 0 <= i < |xs| ==> keep(xs[i])
    ensures Keep(xs, keep) == xs
    decreases |xs|
  {
    if xs != [] {
      KeepAll(xs[1..], keep);
      assert [xs[0]] + xs[1..] == xs;
    }
  }

  /** When no element passes, nothing is kept. */
  lemma {:induction false} KeepNone<T>(xs: seq<T>, keep: T -> bool)
    requires forall i :: 0 <= i < |xs| ==> !keep(xs[i])
    ensures Keep(xs, keep) == []
    decreases |xs|
  {
    if xs != [] {
      KeepNone(xs[1..], keep);
    }
  }

  /** Keeping by a test, then by a second one, is keeping by both. */
  lemma {:induction false} KeepKeep<T>(xs: seq<T>, p: T -> bool, q: T -> bool)
    ensures Keep(Keep(xs, p), q) == Keep(xs, x => p(x) && q(x))
    decreases |xs|
  {
    if xs != [] {
      KeepKeep(xs[1..], p, q);
      var both := x => p(x) && q(x);
      assert Keep(xs, both) == (if both(xs[0]) then [xs[0]] else []) + Keep(xs[1..], both);
      if p(xs[0]) {
        assert Keep(xs, p) == [xs[0]] + Keep(xs[1..], p);
        assert Keep(xs, p)[1..] == Keep(xs[1..], p);
      } else {
        assert Keep(xs, p) == Keep(xs[1..], p);
      }
    }
  }

  /** `xs.reduce((sum, x) => sum + value(x), 0)`. */
  function Sum<T>(xs: seq<T>, value: T -> int): int
    decreases |xs|
  {
    if xs == [] then 0 else value(xs[0]) + Sum(xs[1..], value)
  }

  /** A sum of non-negative terms is non-negative, and the sum of a concatenation adds up. */
  lemma {:induction false} SumAppend<T>(a: seq<T>, b: seq<T>, value: T -> int)
    ensures Sum(a + b, value) == Sum(a, value) + Sum(b, value)
    decreases |a|
  {
    if a == [] {
      assert a + b == b;
    } else {
      assert (a + b)[1..] == a[1..] + b;
      SumAppend(a[1..], b, value);
    }
  }

  lemma {:induction false} SumNonNegative<T>(xs: seq<T>, value: T -> int)
    requires forall i :: 0 <= i < |xs| ==> value(xs[i]) >= 0
    ensures Sum(xs, value) >= 0
    decreases |xs|
  {
    if xs != [] {
      SumNonNegative(xs[1..], value);
    }
  }

  /** How many elements pass a test: the length of what `Keep` keeps. */
  lemma {:induction false} KeepCountIsSum<T>(xs: seq<T>, keep: T -> bool)
    ensures |Keep(xs, keep)| == Sum(xs, x => if keep(x) then 1 else 0)
    decreases |xs|
  {
    if xs != [] {
      KeepCountIsSum(xs[1..], keep);
    }
  }

  /** How many elements pass a test, counted by any indicator of that test. */
  lemma {:induction false} KeepCountIsIndicatorSum<T>(xs: seq<T>, keep: T -> bool, indicator: T -> int)
    requires forall i :: 0 <= i < |xs| ==> indicator(xs[i]) == if keep(xs[i]) then 1 else 0
    ensures |Keep(xs, keep)| == Sum(xs, indicator)
    decreases |xs|
  {
    if xs != [] {
      KeepCountIsIndicatorSum(xs[1..], keep, indicator);
    }
  }

  /** Two tests that agree on every element keep the same elements. */
  lemma {:induction false} KeepExt<T>(xs: seq<T>, p: T -> bool, q: T -> bool)
    requires forall i :: 0 <= i < |xs| ==> p(xs[i]) == q(xs[i])
    ensures Keep(xs, p) == Keep(xs, q)
    decreases |xs|
  {
    if xs != [] {
      KeepExt(xs[1..], p, q);
    }
  }

  /** When no element passes both tests, keeping by either one keeps as many as the two together. */
  lemma {:induction false} KeepEitherCount<T>(xs: seq<T>, p: T -> bool, q: T -> bool, either: T -> bool)
    requires forall i :: 0 <= i < |xs| ==> !(p(xs[i]) && q(xs[i]))
    requires forall i :: 0 <= i < |xs| ==> either(xs[i]) == (p(xs[i]) || q(xs[i]))
    ensures |Keep(xs, either)| == |Keep(xs, p)| + |Keep(xs, q)|
    decreases |xs|
  {
    if xs != [] {
      KeepEitherCount(xs[1..], p, q, either);
    }
  }

  /** Sums of terms that agree element by element are equal. */
  lemma {:induction false} SumExt<T>(xs: seq<T>, f: T -> int, g: T -> int)
    requires forall i :: 0 <= i < |xs| ==> f(xs[i]) == g(xs[i])
    ensures Sum(xs, f) == Sum(xs, g)
    decreases |xs|
  {
    if xs != [] {
      SumExt(xs[1..], f, g);
    }
  }

  /** `groups.flat()`: the groups one after the other. */
  function Concat<T>(groups: seq<seq<T>>): seq<T>
    decreases |groups|
  {
    if groups == [] then [] else Concat(groups[..|groups| - 1]) + groups[|groups| - 1]
  }

  /** The first groups' elements come first. */
  lemma {:induction false} ConcatPrefix<T>(groups: seq<seq<T>>, m: nat)
    requires m <= |groups|
    ensures Concat(groups[..m]) <= Concat(groups)
    decreases |groups|
  {
    if m < |groups| {
      var front := groups[..|groups| - 1];
      ConcatPrefix(front, m);
      assert front[..m] == groups[..m];
    } else {
      assert groups[..m] == groups;
    }
  }

  /** Where element `k` of group `i` sits in the concatenation. */
  lemma ConcatAt<T>(groups: seq<seq<T>>, i: nat, k: nat) returns (j: nat)
    requires i < |groups| && k < |groups[i]|
    ensures j < |Concat(groups)| && Concat(groups)[j] == groups[i][k]
  {
    ConcatPrefix(groups, i + 1);
    assert groups[..i + 1][..i] == groups[..i];
    var before := Concat(groups[..i]);
    assert Concat(groups[..i + 1]) == before + groups[i];
    j := |before| + k;
    assert Concat(groups[..i + 1])[j] == groups[i][k];
  }

  /** Each element of the concatenation is an element of one of the groups. */
  lemma {:induction false} ConcatSource<T>(groups: seq<seq<T>>, j: nat) returns (i: nat, k: nat)
    requires j < |Concat(groups)|
    ensures i < |groups| && k < |groups[i]| && Concat(groups)[j] == groups[i][k]
    decreases |groups|
  {
    var front := groups[..|groups| - 1];
    var before := Concat(front);
    if j < |before| {
      i, k := ConcatSource(front, j);
      assert groups[i] == front[i];
    } else {
      i, k := |groups| - 1, j - |before|;
    }
  }

  /** A sequence is what comes before position `j`, the element there, and what comes after. */
  lemma SplitAround<T>(b: seq<T>, j: nat)
    requires j < |b|
    ensures b == (b[..j] + [b[j]]) + b[j + 1..]
    ensures multiset(b[..j] + b[j + 1..]) == multiset(b) - multiset{b[j]}
  {
    assert b[..j + 1] == b[..j] + [b[j]];
    assert b == b[..j + 1] + b[j + 1..];
    assert multiset(b) == multiset(b[..j]) + multiset{b[j]} + multiset(b[j + 1..]);
  }

  /** A non-empty sequence is its front followed by its last element. */
  lemma LastSplit<T>(s: seq<T>)
    requires s != []
    ensures s == s[..|s| - 1] + [s[|s| - 1]]
  {
  }

  /** Dropping the last element of `a + b`, for a non-empty `b`, drops it from `b`. */
  lemma AppendFront<T>(a: seq<T>, b: seq<T>)
    requires b != []
    ensures (a + b)[..|a + b| - 1] == a + b[..|b| - 1]
    ensures (a + b)[|a + b| - 1] == b[|b| - 1]
  {
  }

  /** The prefix one longer is the prefix followed by the next element. */
  lemma PrefixStep<T>(s: seq<T>, i: nat)
    requires i < |s|
    ensures s[..i + 1] == s[..i] + [s[i]]
  {
  }

  /** Concatenation regrouped to the right. */
  lemma Regroup<T>(a: seq<T>, b: seq<T>, c: seq<T>, d: seq<T>)
    ensures (a + b + c) + d == a + (b + (c + d))
  {
  }
}
