/**
 * The filter drop-downs the list pages build from their rows: each row offers
 * a (key, label) candidate, a `Map` keyed by the normalised key keeps the
 * first label seen for each key, and some pages then sort the options by label.
 */
module FilterOptions {
  import opened Wrappers
  import opened Strings
  import opened Json

  /** `normalizeFilterValue`: trimmed, lower-cased text for a string and `""` for anything else. */
  function NormalizeFilterValue(v: Json): (r: string)
    ensures IsTrimmed(r) && NoUpper(r)
    ensures !v.Str? ==> r == []
    ensures v.Str? ==> (r == [] <==> IsBlank(v.s))
  {
    if v.Str? then
      LowerKeepsTrimmed(Trim(v.s));
      Lower(Trim(v.s))
    else []
  }

  /** One drop-down entry: the key compared with rows, and the label shown. */
  datatype FilterOption = FilterOption(value: string, text: string)

  function Values(opts: seq<FilterOption>): (r: seq<string>)
    ensures |r| == |opts|
    ensures forall i :: 0 <= i < |opts| ==> r[i] == opts[i].value
  {
    seq(|opts|, i requires 0 <= i < |opts| => opts[i].value)
  }

  /** The labels shown, in order. */
  function Labels(opts: seq<FilterOption>): (r: seq<string>)
    ensures |r| == |opts|
    ensures forall i :: 0 <= i < |opts| ==> r[i] == opts[i].text
  {
    seq(|opts|, i requires 0 <= i < |opts| => opts[i].text)
  }

  /** A candidate the `forEach` returns early on: an empty key, or one of the excluded keys. */
  predicate Skipped(c: FilterOption, excluded: set<string>)
  {
    c.value == [] || c.value in excluded
  }

  /** The `Map` after the `forEach`: the first candidate of each key not skipped, in first-seen order. */
  function FirstSeen(cands: seq<FilterOption>, excluded: set<string>): (r: seq<FilterOption>)
    ensures |r| <= |cands|
    decreases |cands|
  {
    if cands == [] then []
    else
      var prev := FirstSeen(cands[..|cands| - 1], excluded);
      var c := cands[|cands| - 1];
      if Skipped(c, excluded) || c.value in Values(prev) then prev else prev + [c]
  }

  /** One more candidate: it is added unless skipped or its key is already there. */
  lemma FirstSeenSnoc(cands: seq<FilterOption>, c: FilterOption, excluded: set<string>)
    ensures var prev := FirstSeen(cands, excluded);
      FirstSeen(cands + [c], excluded) == if Skipped(c, excluded) || c.value in Values(prev) then prev else prev + [c]
  {
    assert (cands + [c])[..|cands|] == cands;
  }

  predicate DistinctValues(opts: seq<FilterOption>)
  {
    forall i, j :: 0 <= i < j < |opts| ==> opts[i].value != opts[j].value
  }

  /** `c` is the earliest candidate with its key. */
  predicate FirstWithValue(cands: seq<FilterOption>, c: FilterOption)
  {
    exists i :: 0 <= i < |cands| && cands[i] == c && forall j :: 0 <= j < i ==> cands[j].value != c.value
  }

  /**
   * The options have distinct keys, none skipped; every key a candidate offers
   * is among them; and each option is the first candidate with its key.
   */
  lemma {:induction false} FirstSeenSpec(cands: seq<FilterOption>, excluded: set<string>)
    ensures var r := FirstSeen(cands, excluded);
      && DistinctValues(r)
      && (forall k :: 0 <= k < |r| ==> !Skipped(r[k], excluded) && FirstWithValue(cands, r[k]))
      && (forall i :: 0 <= i < |cands| && !Skipped(cands[i], excluded) ==> cands[i].value in Values(r))
    decreases |cands|
  {
    if cands != [] {
      var front := cands[..|cands| - 1];
      var prev := FirstSeen(front, excluded);
      var c := cands[|cands| - 1];
      assert cands == front + [c];
      FirstSeenSpec(front, excluded);
      forall k | 0 <= k < |prev| ensures FirstWithValue(cands, prev[k]) {
        FirstWithValueExtends(front, c, prev[k]);
      }
      if !(Skipped(c, excluded) || c.value in Values(prev)) {
        forall j | 0 <= j < |front| ensures front[j].value != c.value {
          if !Skipped(front[j], excluded) {
            assert front[j].value in Values(prev);
          }
        }
        NewKeyFirst(front, c);
        var r := prev + [c];
        assert forall k :: 0 <= k < |prev| ==> r[k] == prev[k];
        assert Values(r) == Values(prev) + [c.value];
      }
      forall i | 0 <= i < |cands| - 1 ensures cands[i] == front[i] {
      }
    }
  }

  /** A candidate first with its key stays first when another is appended. */
  lemma FirstWithValueExtends(front: seq<FilterOption>, c: FilterOption, x: FilterOption)
    requires FirstWithValue(front, x)
    ensures FirstWithValue(front + [c], x)
  {
    var i :| 0 <= i < |front| && front[i] == x && forall j :: 0 <= j < i ==> front[j].value != x.value;
    var cands := front + [c];
    assert cands[i] == x;
    assert forall j :: 0 <= j < i ==> cands[j] == front[j];
  }

  /** An appended candidate whose key no earlier candidate has is the first with its key. */
  lemma NewKeyFirst(front: seq<FilterOption>, c: FilterOption)
    requires forall j :: 0 <= j < |front| ==> front[j].value != c.value
    ensures FirstWithValue(front + [c], c)
  {
    var cands := front + [c];
    assert cands[|front|] == c;
    assert forall j :: 0 <= j < |front| ==> cands[j] == front[j];
  }

  /** The candidate an option came from. */
  lemma FirstSeenFrom(cands: seq<FilterOption>, excluded: set<string>, m: nat) returns (j: nat)
    requires m < |FirstSeen(cands, excluded)|
    ensures j < |cands| && FirstSeen(cands, excluded)[m] == cands[j] && !Skipped(cands[j], excluded)
  {
    var r := FirstSeen(cands, excluded);
    FirstSeenSpec(cands, excluded);
    assert FirstWithValue(cands, r[m]);
    j :| 0 <= j < |cands| && cands[j] == r[m] && forall n :: 0 <= n < j ==> cands[n].value != r[m].value;
  }

  /** Where a kept candidate's key sits among the options, and the candidate that option came from. */
  lemma FirstSeenHas(cands: seq<FilterOption>, excluded: set<string>, i: nat) returns (m: nat, j: nat)
    requires i < |cands| && !Skipped(cands[i], excluded)
    ensures m < |FirstSeen(cands, excluded)| && j < |cands|
    ensures FirstSeen(cands, excluded)[m].value == cands[i].value && FirstSeen(cands, excluded)[m] == cands[j]
  {
    var r := FirstSeen(cands, excluded);
    FirstSeenSpec(cands, excluded);
    m :| 0 <= m < |r| && r[m].value == cands[i].value;
    assert FirstWithValue(cands, r[m]);
    j :| 0 <= j < |cands| && cands[j] == r[m] && forall n :: 0 <= n < j ==> cands[n].value != r[m].value;
  }

  /** The drop-down's entry `k` after its leading entry is the label of option `k - 1`. */
  lemma EntryAfterHead(head: string, opts: seq<FilterOption>, k: nat)
    requires 1 <= k <= |opts|
    ensures ([head] + Labels(opts))[k] == opts[k - 1].text
  {
  }

  /** Where every candidate's label is its key, an option's label is its key and comes from a kept candidate. */
  lemma LabelFrom(cands: seq<FilterOption>, excluded: set<string>, m: nat) returns (j: nat)
    requires m < |FirstSeen(cands, excluded)|
    requires forall j :: 0 <= j < |cands| ==> cands[j].value == cands[j].text
    ensures j < |cands| && !Skipped(cands[j], excluded)
    ensures Labels(FirstSeen(cands, excluded))[m] == cands[j].text == FirstSeen(cands, excluded)[m].value
  {
    j := FirstSeenFrom(cands, excluded, m);
  }

  /** Where every candidate's label is its key, a candidate that is not skipped has its label offered. */
  lemma LabelOffered(cands: seq<FilterOption>, excluded: set<string>, i: nat)
    requires i < |cands| && !Skipped(cands[i], excluded)
    requires forall j :: 0 <= j < |cands| ==> cands[j].value == cands[j].text
    ensures cands[i].text in Labels(FirstSeen(cands, excluded))
  {
    var m, j := FirstSeenHas(cands, excluded, i);
    assert Labels(FirstSeen(cands, excluded))[m] == cands[j].text;
  }


  /** The `forEach` that fills the `Map`; `seen` is its key set (`unique.has`). */
  method CollectFirstSeen(cands: seq<FilterOption>, excluded: set<string>) returns (opts: seq<FilterOption>)
    ensures opts == FirstSeen(cands, excluded)
  {
    opts := [];
    var seen: set<string> := {};
    for i := 0 to |cands|
      invariant opts == FirstSeen(cands[..i], excluded)
      invariant forall x :: x in seen <==> x in Values(opts)
    {
      assert cands[..i + 1][..i] == cands[..i];
      var c := cands[i];
      if !Skipped(c, excluded) && c.value !in seen {
        assert Values(opts + [c]) == Values(opts) + [c.value];
        opts := opts + [c];
        seen := seen + {c.value};
      }
    }
    assert cands[..|cands|] == cands;
  }

  /**
   * One step of a `forEach` filling the `Map`: `if (!unique.has(key)) unique.set(key, label)`
   * after the early returns; `seen` is the `Map`'s key set.
   */
  method Admit(c: FilterOption, excluded: set<string>, ghost before: seq<FilterOption>,
               entries0: seq<FilterOption>, seen0: set<string>)
    returns (entries: seq<FilterOption>, seen: set<string>)
    requires entries0 == FirstSeen(before, excluded)
    requires forall x :: x in seen0 <==> x in Values(entries0)
    ensures entries == FirstSeen(before + [c], excluded)
    ensures forall x :: x in seen <==> x in Values(entries)
  {
    FirstSeenSnoc(before, c, excluded);
    entries, seen := entries0, seen0;
    if !Skipped(c, excluded) && c.value !in seen {
      assert Values(entries + [c]) == Values(entries) + [c.value];
      entries := entries + [c];
      seen := seen + {c.value};
    }
  }

  // ------------------------------------------------------------ sorting by label

  /**
   * The order labels are sorted in, code point by code point; a prefix
   * comes first. (`localeCompare` collates by locale rules instead.)
   */
  predicate TextLe(a: string, b: string)
    decreases |a|
  {
    a == [] || (b != [] && (a[0] < b[0] || (a[0] == b[0] && TextLe(a[1..], b[1..]))))
  }

  lemma {:induction false} TextLeTotal(a: string, b: string)
    ensures TextLe(a, b) || TextLe(b, a)
    decreases |a|
  {
    if a != [] && b != [] && a[0] == b[0] {
      TextLeTotal(a[1..], b[1..]);
    }
  }

  lemma {:induction false} TextLeTransitive(a: string, b: string, c: string)
    requires TextLe(a, b) && TextLe(b, c)
    ensures TextLe(a, c)
    decreases |a|
  {
    if a != [] && b != [] && c != [] && a[0] == b[0] && b[0] == c[0] {
      TextLeTransitive(a[1..], b[1..], c[1..]);
    }
  }

  predicate SortedByText(opts: seq<FilterOption>)
  {
    forall i, j :: 0 <= i < j < |opts| ==> TextLe(opts[i].text, opts[j].text)
  }

  /** Puts `o` before the first option whose label follows it. */
  function InsertByText(o: FilterOption, sorted: seq<FilterOption>): (r: seq<FilterOption>)
    ensures multiset(r) == multiset(sorted) + multiset{o}
    ensures |r| == |sorted| + 1
    decreases |sorted|
  {
    if sorted == [] || TextLe(o.text, sorted[0].text) then [o] + sorted
    else
      var rest := InsertByText(o, sorted[1..]);
      assert sorted == [sorted[0]] + sorted[1..];
      [sorted[0]] + rest
  }

  lemma {:induction false} InsertKeepsSorted(o: FilterOption, sorted: seq<FilterOption>)
    requires SortedByText(sorted)
    ensures SortedByText(InsertByText(o, sorted))
    ensures InsertByText(o, sorted) != [] &&
      (InsertByText(o, sorted)[0] == o || (sorted != [] && InsertByText(o, sorted)[0] == sorted[0]))
    decreases |sorted|
  {
    if sorted == [] || TextLe(o.text, sorted[0].text) {
      forall j | 0 < j < |sorted| + 1 ensures TextLe(o.text, ([o] + sorted)[j].text) {
        if j > 1 {
          TextLeTransitive(o.text, sorted[0].text, sorted[j - 1].text);
        }
      }
    } else {
      TextLeTotal(o.text, sorted[0].text);
      InsertKeepsSorted(o, sorted[1..]);
      var rest := InsertByText(o, sorted[1..]);
      forall j | 0 <= j < |rest| ensures TextLe(sorted[0].text, rest[j].text) {
        assert rest[j] in multiset(sorted[1..]) + multiset{o};
        if rest[j] != o {
          assert rest[j] in sorted[1..];
        }
      }
    }
  }

  /** `.sort((a, b) => a.label.localeCompare(b.label))`: the same options, ordered by label. */
  function SortByText(opts: seq<FilterOption>): (r: seq<FilterOption>)
    ensures multiset(r) == multiset(opts)
    ensures |r| == |opts|
    ensures SortedByText(r)
    decreases |opts|
  {
    if opts == [] then []
    else
      var rest := SortByText(opts[1..]);
      InsertKeepsSorted(opts[0], rest);
      assert opts == [opts[0]] + opts[1..];
      InsertByText(opts[0], rest)
  }

  /** The sorted drop-down: sorted by label, holding exactly the first-seen options. */
  lemma SortedOptions(cands: seq<FilterOption>, excluded: set<string>)
    ensures var r := SortByText(FirstSeen(cands, excluded));
      && SortedByText(r)
      && |r| <= |cands|
      && (forall k :: 0 <= k < |r| ==> !Skipped(r[k], excluded) && FirstWithValue(cands, r[k]))
      && (forall i :: 0 <= i < |cands| && !Skipped(cands[i], excluded) ==>
            exists k :: 0 <= k < |r| && r[k].value == cands[i].value)
  {
    var f := FirstSeen(cands, excluded);
    var r := SortByText(f);
    FirstSeenSpec(cands, excluded);
    forall k | 0 <= k < |r| ensures !Skipped(r[k], excluded) && FirstWithValue(cands, r[k]) {
      assert r[k] in multiset(f);
    }
    forall i | 0 <= i < |cands| && !Skipped(cands[i], excluded)
      ensures exists k :: 0 <= k < |r| && r[k].value == cands[i].value
    {
      var k :| 0 <= k < |f| && f[k].value == cands[i].value;
      assert f[k] in multiset(r);
    }
  }

  /** Inserting an option whose key is new keeps the keys distinct. */
  lemma {:induction false} InsertKeepsDistinct(o: FilterOption, sorted: seq<FilterOption>)
    requires DistinctValues(sorted) && forall k :: 0 <= k < |sorted| ==> sorted[k].value != o.value
    ensures DistinctValues(InsertByText(o, sorted))
    decreases |sorted|
  {
    if !(sorted == [] || TextLe(o.text, sorted[0].text)) {
      InsertKeepsDistinct(o, sorted[1..]);
      var rest := InsertByText(o, sorted[1..]);
      forall j | 0 <= j < |rest| ensures rest[j].value != sorted[0].value {
        assert rest[j] in multiset(sorted[1..]) + multiset{o};
        if rest[j] != o {
          assert rest[j] in sorted[1..];
        }
      }
    }
  }

  /** Sorting options with distinct keys keeps the keys distinct. */
  lemma {:induction false} SortKeepsDistinct(opts: seq<FilterOption>)
    requires DistinctValues(opts)
    ensures DistinctValues(SortByText(opts))
    decreases |opts|
  {
    if opts != [] {
      SortKeepsDistinct(opts[1..]);
      var rest := SortByText(opts[1..]);
      forall k | 0 <= k < |rest| ensures rest[k].value != opts[0].value {
        assert rest[k] in multiset(opts[1..]);
        assert rest[k] in opts[1..];
      }
      InsertKeepsDistinct(opts[0], rest);
    }
  }

  /** The sorted drop-down offers each key once. */
  lemma SortedOptionsDistinct(cands: seq<FilterOption>, excluded: set<string>)
    ensures DistinctValues(SortByText(FirstSeen(cands, excluded)))
  {
    FirstSeenSpec(cands, excluded);
    SortKeepsDistinct(FirstSeen(cands, excluded));
  }

  /** Each sorted option is the first candidate with its key. */
  lemma SortedOptionsFirst(cands: seq<FilterOption>, excluded: set<string>, k: nat)
    requires k < |SortByText(FirstSeen(cands, excluded))|
    ensures FirstWithValue(cands, SortByText(FirstSeen(cands, excluded))[k])
  {
    SortedOptions(cands, excluded);
  }
}
