/**
 * The customers page's table (components/customers/customers-table.jsx): the
 * totals badges, the gender and sport drop-downs, the two filters, the empty
 * state, and the table's state (the rows of the current page, paging, the side
 * sheet and the filters). The rows are the raw `users` rows of the current
 * page, each carrying `enrollments` and `turf_bookings` as `[{ count }]`
 * aggregate arrays.
 */
module CustomersTable {
  import opened Wrappers
  import opened Strings
  import opened Json
  import opened Seqs
  import opened FilterOptions
  import RecordHelpers

  // ------------------------------------------------------------ totals

  /** `Array.isArray(v) && v.length > 0 ? (v[0]?.count ?? 0) : 0`: only the first entry's count. */
  function FirstCount(v: Json): (r: int)
    ensures !v.Arr? || v.items == [] ==> r == 0
    ensures v.Arr? && v.items != [] && Get(v.items[0], "count").Num? ==> r == Get(v.items[0], "count").n
    ensures v.Arr? && v.items != [] && !Get(v.items[0], "count").Num? ==> r == 0
  {
    if v.Arr? && |v.items| > 0 then
      var c := Get(v.items[0], "count");
      if c.Num? then c.n else 0
    else 0
  }

  function EnrollmentCount(customer: Json): int
  {
    FirstCount(Get(customer, "enrollments"))
  }

  function BookingCount(customer: Json): int
  {
    FirstCount(Get(customer, "turf_bookings"))
  }

  datatype Totals = Totals(total: int, enrollment: int, turfBookings: int)

  /** `totals`: the customer count and the first aggregate counts added up. */
  function CustomerTotals(customers: seq<Json>): (r: Totals)
    ensures r.total == |customers|
  {
    Totals(|customers|,
           Sum(customers, EnrollmentCount),
           Sum(customers, BookingCount))
  }

  /**
   * The totals are the reduce's accumulator: zero for no rows, and each further
   * row adds one customer, its first enrollment count and its first booking count.
   */
  lemma TotalsReduce(customers: seq<Json>, c: Json)
    ensures CustomerTotals([]) == Totals(0, 0, 0)
    ensures var t, t2 := CustomerTotals(customers), CustomerTotals(customers + [c]);
      && t2.total == t.total + 1
      && t2.enrollment == t.enrollment + FirstCount(Get(c, "enrollments"))
      && t2.turfBookings == t.turfBookings + FirstCount(Get(c, "turf_bookings"))
  {
    SumAppend(customers, [c], EnrollmentCount);
    SumAppend(customers, [c], BookingCount);
  }

  /** The totals of two lists of rows, one after the other, are the sums of their totals. */
  lemma TotalsAppend(a: seq<Json>, b: seq<Json>)
    ensures var ta, tb, tab := CustomerTotals(a), CustomerTotals(b), CustomerTotals(a + b);
      && tab.total == ta.total + tb.total
      && tab.enrollment == ta.enrollment + tb.enrollment
      && tab.turfBookings == ta.turfBookings + tb.turfBookings
  {
    SumAppend(a, b, EnrollmentCount);
    SumAppend(a, b, BookingCount);
  }

  /**
   * With the one-entry array the aggregate query returns, the first count is the
   * count the customer records sum up (`extractAggregateCount`).
   */
  lemma FirstCountOfSingleAggregate(v: Json)
    requires v.Arr? && |v.items| == 1 && Get(v.items[0], "count").Num?
    ensures RecordHelpers.ExtractAggregateCount(v) == Some(FirstCount(v))
  {
    assert v.items[..0] == [];
    assert RecordHelpers.SumCounts(v.items) ==
           RecordHelpers.Plus(RecordHelpers.SumCounts([]), RecordHelpers.EntryCount(v.items[0]));
  }

  /** With two entries the table counts the first only, where the customer records add both. */
  lemma FirstCountIgnoresLaterEntries()
    ensures var v := Arr([Obj(map["count" := Num(2)]), Obj(map["count" := Num(3)])]);
      FirstCount(v) == 2 && RecordHelpers.ExtractAggregateCount(v) == Some(5)
  {
    var v := Arr([Obj(map["count" := Num(2)]), Obj(map["count" := Num(3)])]);
    assert v.items[..1] == [v.items[0]];
    assert v.items[..1][..0] == [];
    assert RecordHelpers.SumCounts([v.items[0]]) == Some(2);
    assert RecordHelpers.SumCounts(v.items) == RecordHelpers.Plus(Some(2), RecordHelpers.EntryCount(v.items[1]));
  }

  // ------------------------------------------------------------ the drop-downs

  /** An option label, and its key: the label lower-cased. */
  function Keyed(text: string): (r: FilterOption)
    ensures r.value == Lower(r.text) && r.text == text
  {
    FilterOption(Lower(text), text)
  }

  /** A customer's gender as a candidate: none (an empty key) when nullish, else its trimmed text. */
  function GenderCandidate(customer: Json): (r: FilterOption)
    ensures r.value == Lower(r.text) && IsTrimmed(r.text)
    ensures r.value == [] <==> Nullish(Get(customer, "gender")) || IsBlank(ToStr(Get(customer, "gender")))
  {
    var g := Get(customer, "gender");
    if Nullish(g) then Keyed("") else Keyed(Trim(ToStr(g)))
  }

  function GenderCandidates(customers: seq<Json>): (r: seq<FilterOption>)
    ensures |r| == |customers|
    ensures forall i :: 0 <= i < |r| ==> r[i] == GenderCandidate(customers[i])
  {
    seq(|customers|, i requires 0 <= i < |customers| => GenderCandidate(customers[i]))
  }

  /** `customer?.likedSports ?? []`. */
  function LikedSports(customer: Json): seq<Json>
  {
    var v := Get(customer, "likedSports");
    if v.Arr? then v.items else []
  }

  /** A liked sport as a candidate: none when falsy, else its trimmed text. */
  function SportCandidate(sport: Json): (r: FilterOption)
    ensures r.value == Lower(r.text) && IsTrimmed(r.text)
    ensures r.value == [] <==> !Truthy(sport) || IsBlank(ToStr(sport))
  {
    if !Truthy(sport) then Keyed("") else Keyed(Trim(ToStr(sport)))
  }

  /** What one customer offers, in its `likedSports` order. */
  function SportGroup(customer: Json): (r: seq<FilterOption>)
    ensures |r| == |LikedSports(customer)|
    ensures forall k :: 0 <= k < |r| ==> r[k] == SportCandidate(LikedSports(customer)[k])
  {
    var sports := LikedSports(customer);
    seq(|sports|, k requires 0 <= k < |sports| => SportCandidate(sports[k]))
  }

  function SportGroups(customers: seq<Json>): (r: seq<seq<FilterOption>>)
    ensures |r| == |customers|
    ensures forall i :: 0 <= i < |r| ==> r[i] == SportGroup(customers[i])
  {
    seq(|customers|, i requires 0 <= i < |customers| => SportGroup(customers[i]))
  }

  /** Every liked sport of every customer, in the order the nested `forEach` visits them. */
  function SportCandidates(customers: seq<Json>): seq<FilterOption>
  {
    Concat(SportGroups(customers))
  }

  /** `genderOptions`: "all", then the first spelling of each gender, in the order first seen. */
  function GenderOptions(customers: seq<Json>): (r: seq<string>)
    ensures 1 <= |r| <= |customers| + 1 && r[0] == "all"
  {
    ["all"] + Labels(FirstSeen(GenderCandidates(customers), {}))
  }

  /** `sportOptions`: "all", then the first spelling of each liked sport, in the order first seen. */
  function SportOptions(customers: seq<Json>): (r: seq<string>)
    ensures |r| >= 1 && r[0] == "all"
  {
    ["all"] + Labels(FirstSeen(SportCandidates(customers), {}))
  }

  /** The `forEach` over the customers that fills the gender `Map`. */
  method CollectGenderOptions(customers: seq<Json>) returns (opts: seq<string>)
    ensures opts == GenderOptions(customers)
  {
    var cands := GenderCandidates(customers);
    var entries: seq<FilterOption> := [];
    var seen: set<string> := {};
    for i := 0 to |cands|
      invariant entries == FirstSeen(cands[..i], {})
      invariant forall x :: x in seen <==> x in Values(entries)
    {
      Seqs.PrefixStep(cands, i);
      entries, seen := Admit(cands[i], {}, cands[..i], entries, seen);
    }
    assert cands[..|cands|] == cands;
    opts := ["all"] + Labels(entries);
  }

  lemma GroupStep(group: seq<FilterOption>, before: seq<FilterOption>, k: nat)
    requires k < |group|
    ensures before + group[..k + 1] == (before + group[..k]) + [group[k]]
  {
    assert group[..k + 1] == group[..k] + [group[k]];
  }

  /** One customer of the outer `forEach`: the inner `forEach` over its liked sports. */
  method AddCustomerSports(customer: Json, ghost before: seq<FilterOption>, entries0: seq<FilterOption>, seen0: set<string>)
    returns (entries: seq<FilterOption>, seen: set<string>)
    requires entries0 == FirstSeen(before, {})
    requires forall x :: x in seen0 <==> x in Values(entries0)
    ensures entries == FirstSeen(before + SportGroup(customer), {})
    ensures forall x :: x in seen <==> x in Values(entries)
  {
    var sports := LikedSports(customer);
    var group := SportGroup(customer);
    entries, seen := entries0, seen0;
    assert before + group[..0] == before;
    for k := 0 to |sports|
      invariant entries == FirstSeen(before + group[..k], {})
      invariant forall x :: x in seen <==> x in Values(entries)
    {
      GroupStep(group, before, k);
      entries, seen := Admit(SportCandidate(sports[k]), {}, before + group[..k], entries, seen);
    }
    assert group[..|sports|] == group;
  }

  /** The nested `forEach` that fills the sport `Map`. */
  method CollectSportOptions(customers: seq<Json>) returns (opts: seq<string>)
    ensures opts == SportOptions(customers)
  {
    var entries: seq<FilterOption> := [];
    var seen: set<string> := {};
    for i := 0 to |customers|
      invariant entries == FirstSeen(Concat(SportGroups(customers)[..i]), {})
      invariant forall x :: x in seen <==> x in Values(entries)
    {
      assert Concat(SportGroups(customers)[..i + 1]) == Concat(SportGroups(customers)[..i]) + SportGroup(customers[i]) by {
        assert SportGroups(customers)[..i + 1][..i] == SportGroups(customers)[..i];
      }
      entries, seen := AddCustomerSports(customers[i], Concat(SportGroups(customers)[..i]), entries, seen);
    }
    assert SportGroups(customers)[..|customers|] == SportGroups(customers);
    opts := ["all"] + Labels(entries);
  }

  /** The entries kept are candidates, so each is keyed by its trimmed label. */
  lemma EntriesKeyed(cands: seq<FilterOption>)
    requires forall i :: 0 <= i < |cands| ==> cands[i].value == Lower(cands[i].text) && IsTrimmed(cands[i].text)
    ensures var f := FirstSeen(cands, {});
      forall k :: 0 <= k < |f| ==> f[k] == Keyed(f[k].text) && IsTrimmed(f[k].text)
  {
    var f := FirstSeen(cands, {});
    FirstSeenSpec(cands, {});
    forall k | 0 <= k < |f| ensures f[k] == Keyed(f[k].text) && IsTrimmed(f[k].text) {
      var i :| 0 <= i < |cands| && cands[i] == f[k] && forall j :: 0 <= j < i ==> cands[j].value != f[k].value;
    }
  }

  /**
   * The labels after "all" are the `Map`'s entries: trimmed, non-empty, with
   * keys that differ case-insensitively, each the first candidate with its key,
   * and every candidate's key is among them.
   */
  lemma OptionsSpec(cands: seq<FilterOption>)
    requires forall i :: 0 <= i < |cands| ==> cands[i].value == Lower(cands[i].text) && IsTrimmed(cands[i].text)
    ensures var r := ["all"] + Labels(FirstSeen(cands, {}));
      && r[0] == "all"
      && (forall k :: 1 <= k < |r| ==> r[k] != [] && IsTrimmed(r[k]))
      && (forall j, k :: 1 <= j < k < |r| ==> Lower(r[j]) != Lower(r[k]))
      && (forall k :: 1 <= k < |r| ==> FirstWithValue(cands, Keyed(r[k])))
      && (forall i :: 0 <= i < |cands| && cands[i].value != [] ==>
            exists k :: 1 <= k < |r| && Lower(r[k]) == cands[i].value)
  {
    var f := FirstSeen(cands, {});
    var r := ["all"] + Labels(f);
    FirstSeenSpec(cands, {});
    EntriesKeyed(cands);
    assert forall k :: 1 <= k < |r| ==> r[k] == f[k - 1].text;
    OptionsComplete(cands);
  }

  /** Every candidate with a key has its key among the labels after "all". */
  lemma OptionsComplete(cands: seq<FilterOption>)
    requires forall i :: 0 <= i < |cands| ==> cands[i].value == Lower(cands[i].text) && IsTrimmed(cands[i].text)
    ensures var r := ["all"] + Labels(FirstSeen(cands, {}));
      forall i :: 0 <= i < |cands| && cands[i].value != [] ==>
        exists k :: 1 <= k < |r| && Lower(r[k]) == cands[i].value
  {
    var f := FirstSeen(cands, {});
    var r := ["all"] + Labels(f);
    FirstSeenSpec(cands, {});
    EntriesKeyed(cands);
    forall i | 0 <= i < |cands| && cands[i].value != []
      ensures exists k :: 1 <= k < |r| && Lower(r[k]) == cands[i].value
    {
      assert !Skipped(cands[i], {});
      var m :| 0 <= m < |f| && f[m].value == cands[i].value;
      assert r[m + 1] == f[m].text;
    }
  }

  /**
   * `genderOptions` opens with "all"; the genders after it are trimmed, non-empty and
   * distinct ignoring case, each spelled as the first customer with that gender spelled
   * it; and every customer's non-blank gender is offered.
   */
  lemma GenderOptionsSpec(customers: seq<Json>)
    ensures var r := GenderOptions(customers);
      && r[0] == "all"
      && (forall k :: 1 <= k < |r| ==> r[k] != [] && IsTrimmed(r[k]))
      && (forall j, k :: 1 <= j < k < |r| ==> Lower(r[j]) != Lower(r[k]))
      && (forall k :: 1 <= k < |r| ==> FirstWithValue(GenderCandidates(customers), Keyed(r[k])))
      && (forall i :: 0 <= i < |customers| && GenderCandidate(customers[i]).value != [] ==>
            exists k :: 1 <= k < |r| && Lower(r[k]) == GenderCandidate(customers[i]).value)
  {
    OptionsSpec(GenderCandidates(customers));
  }

  /**
   * `sportOptions` opens with "all"; the sports after it are trimmed, non-empty and
   * distinct ignoring case, each spelled as first met; and every customer's truthy,
   * non-blank liked sport is offered.
   */
  lemma SportOptionsSpec(customers: seq<Json>)
    ensures var r := SportOptions(customers);
      && r[0] == "all"
      && (forall k :: 1 <= k < |r| ==> r[k] != [] && IsTrimmed(r[k]))
      && (forall j, k :: 1 <= j < k < |r| ==> Lower(r[j]) != Lower(r[k]))
      && (forall k :: 1 <= k < |r| ==> FirstWithValue(SportCandidates(customers), Keyed(r[k])))
  {
    SportCandidatesKeyed(customers);
    OptionsSpec(SportCandidates(customers));
  }

  /** Each sport candidate is keyed by its trimmed label. */
  lemma SportCandidatesKeyed(customers: seq<Json>)
    ensures var cands := SportCandidates(customers);
      forall j :: 0 <= j < |cands| ==> cands[j].value == Lower(cands[j].text) && IsTrimmed(cands[j].text)
  {
    var cands := SportCandidates(customers);
    forall j | 0 <= j < |cands| ensures cands[j].value == Lower(cands[j].text) && IsTrimmed(cands[j].text) {
      var i, k := ConcatSource(SportGroups(customers), j);
    }
  }

  /** Every customer's truthy, non-blank liked sport is offered. */
  lemma SportOptionsComplete(customers: seq<Json>, i: nat, k: nat)
    requires i < |customers| && k < |LikedSports(customers[i])|
    requires SportCandidate(LikedSports(customers[i])[k]).value != []
    ensures exists m :: 1 <= m < |SportOptions(customers)| &&
                        Lower(SportOptions(customers)[m]) == SportCandidate(LikedSports(customers[i])[k]).value
  {
    var cands := SportCandidates(customers);
    SportCandidatesKeyed(customers);
    OptionsSpec(cands);
    var j := ConcatAt(SportGroups(customers), i, k);
    assert cands[j] == SportCandidate(LikedSports(customers[i])[k]);
    var r := SportOptions(customers);
    var m :| 1 <= m < |r| && Lower(r[m]) == cands[j].value;
  }

  // ------------------------------------------------------------ filters

  /** `String(customer?.gender ?? "").toLowerCase()`. */
  function GenderText(customer: Json): string
  {
    Lower(ToStr(Coalesce(Get(customer, "gender"), Str(""))))
  }

  /** The liked sports, each `String(sport).toLowerCase()`. */
  function SportTexts(customer: Json): (r: seq<string>)
    ensures |r| == |LikedSports(customer)|
    ensures forall k :: 0 <= k < |r| ==> r[k] == Lower(ToStr(LikedSports(customer)[k]))
  {
    var sports := LikedSports(customer);
    seq(|sports|, k requires 0 <= k < |sports| => Lower(ToStr(sports[k])))
  }

  predicate MatchesGender(customer: Json, genderFilter: string)
  {
    genderFilter == "all" || GenderText(customer) == Lower(genderFilter)
  }

  predicate MatchesSport(customer: Json, sportFilter: string)
  {
    sportFilter == "all" || Lower(sportFilter) in SportTexts(customer)
  }

  predicate CustomerShown(customer: Json, genderFilter: string, sportFilter: string)
  {
    MatchesGender(customer, genderFilter) && MatchesSport(customer, sportFilter)
  }

  /** `filteredCustomers`: the customers passing both filters, each switched off by "all". */
  function FilteredCustomers(customers: seq<Json>, genderFilter: string, sportFilter: string): (r: seq<Json>)
    ensures forall i :: 0 <= i < |r| ==> r[i] in customers && CustomerShown(r[i], genderFilter, sportFilter)
    ensures forall i :: 0 <= i < |customers| && CustomerShown(customers[i], genderFilter, sportFilter) ==>
              customers[i] in r
  {
    Keep(customers, c => CustomerShown(c, genderFilter, sportFilter))
  }

  /**
   * With both filters on "all" every customer is listed, in order; and the filters
   * ignore case: two spellings of the same filter list the same customers.
   */
  lemma FilteredCustomersFacts(customers: seq<Json>, g1: string, g2: string, s1: string, s2: string)
    ensures FilteredCustomers(customers, "all", "all") == customers
    ensures (g1 == "all" <==> g2 == "all") && Lower(g1) == Lower(g2) &&
            (s1 == "all" <==> s2 == "all") && Lower(s1) == Lower(s2) ==>
              FilteredCustomers(customers, g1, s1) == FilteredCustomers(customers, g2, s2)
  {
    KeepAll(customers, c => CustomerShown(c, "all", "all"));
    if (g1 == "all" <==> g2 == "all") && Lower(g1) == Lower(g2) && (s1 == "all" <==> s2 == "all") && Lower(s1) == Lower(s2) {
      KeepExt(customers, c => CustomerShown(c, g1, s1), c => CustomerShown(c, g2, s2));
    }
  }

  /** Choosing the gender option offered for a customer whose gender is trimmed text lists that customer. */
  lemma OfferedGenderListsItsCustomers(customers: seq<Json>, i: nat)
    requires i < |customers|
    requires var g := Get(customers[i], "gender"); g.Str? && g.s != [] && IsTrimmed(g.s)
    ensures exists k :: 1 <= k < |GenderOptions(customers)| &&
                        customers[i] in FilteredCustomers(customers, GenderOptions(customers)[k], "all")
  {
    var r := GenderOptions(customers);
    GenderOptionsSpec(customers);
    assert GenderCandidate(customers[i]).value != [];
    var k :| 1 <= k < |r| && Lower(r[k]) == GenderCandidate(customers[i]).value;
    assert NoUpper(Lower(r[k]));
    assert CustomerShown(customers[i], r[k], "all");
  }

  /** Choosing the sport option offered for a liked sport that is trimmed text lists that customer. */
  lemma OfferedSportListsItsCustomers(customers: seq<Json>, i: nat, k: nat)
    requires i < |customers| && k < |LikedSports(customers[i])|
    requires var s := LikedSports(customers[i])[k]; s.Str? && s.s != [] && IsTrimmed(s.s)
    ensures exists m :: 1 <= m < |SportOptions(customers)| &&
                        customers[i] in FilteredCustomers(customers, "all", SportOptions(customers)[m])
  {
    var r := SportOptions(customers);
    var sport := LikedSports(customers[i])[k];
    assert SportCandidate(sport).value != [];
    SportOptionsComplete(customers, i, k);
    var m :| 1 <= m < |r| && Lower(r[m]) == SportCandidate(sport).value;
    assert NoUpper(Lower(r[m]));
    assert SportTexts(customers[i])[k] == Lower(r[m]);
    assert CustomerShown(customers[i], "all", r[m]);
  }

  /**
   * A gender stored with surrounding spaces is offered trimmed, but the filter
   * compares the untrimmed text, so choosing that option hides the customer who
   * supplied it.
   */
  lemma UntrimmedGenderHidden()
    ensures var cs := [Obj(map["gender" := Str(" M")])];
      && GenderOptions(cs) == ["all", "M"]
      && FilteredCustomers(cs, "M", "all") == []
  {
    UntrimmedGenderOffered();
    var cs := [Obj(map["gender" := Str(" M")])];
    assert Lower("M") == "m";
    assert Lower(" M") == " m";
    assert !CustomerShown(cs[0], "M", "all");
  }

  /** The option offered for a gender stored as `" M"` is the trimmed `"M"`. */
  lemma UntrimmedGenderOffered()
    ensures GenderOptions([Obj(map["gender" := Str(" M")])]) == ["all", "M"]
  {
    var cs := [Obj(map["gender" := Str(" M")])];
    assert Trim(" M") == "M" by {
      assert TrimStart(" M") == "M";
      assert TrimEnd("M") == "M";
    }
    assert GenderCandidates(cs) == [Keyed("M")];
    assert [Keyed("M")][..0] == [];
  }

  // ------------------------------------------------------------ the page

  /** The query `handlePageChange` and `handlePageSizeChange` navigate to. */
  function PageQuery(page: int, pageSize: int): map<string, string>
  {
    map["page" := IntToString(page), "pageSize" := IntToString(pageSize)]
  }

  /** `Number(searchParams?.[key]) || fallback` on the customers page. */
  function QueryNumber(q: map<string, string>, key: string, fallback: int): int
  {
    if key !in q then fallback
    else
      var n := TextToNumber(q[key]);
      if n.Some? && n.value != 0 then n.value else fallback
  }

  /** The page and page size the customers page reads back from a query. */
  function ReadPage(q: map<string, string>): (int, int)
  {
    (QueryNumber(q, "page", 1), QueryNumber(q, "pageSize", 10))
  }

  /** `(page - 1) * pageSize`: the first row the customers page fetches. */
  function Offset(page: int, pageSize: int): int
  {
    (page - 1) * pageSize
  }

  lemma IntTextReadsBack(n: int)
    ensures TextToNumber(IntToString(n)) == Some(n)
  {
    IntToStringRoundTrip(n);
    assert IsTrimmed(IntToString(n));
  }

  /** The customers page reads back the page and the page size navigated to (a zero falls back to the default). */
  lemma PageQueryRoundTrip(page: int, pageSize: int)
    ensures ReadPage(PageQuery(page, pageSize)) ==
            (if page != 0 then page else 1, if pageSize != 0 then pageSize else 10)
  {
    IntTextReadsBack(page);
    IntTextReadsBack(pageSize);
  }

  /** What the table renders. */
  datatype CustomersView =
    | NoCustomers
    | LoadError(message: Json)
    | Loading(skeletonRows: int)
    | Table(rows: seq<Json>)

  /**
   * The render: the empty state for an empty list comes before the error check,
   * then the skeleton while a page loads, then the filtered rows.
   */
  function View(customers: seq<Json>, error: Json, isLoading: bool, pageSize: int,
                genderFilter: string, sportFilter: string): (r: CustomersView)
    ensures r.NoCustomers? <==> customers == []
    ensures r.LoadError? <==> customers != [] && Truthy(error)
    ensures r.Table? ==> r.rows == FilteredCustomers(customers, genderFilter, sportFilter)
  {
    if customers == [] then NoCustomers
    else if Truthy(error) then LoadError(error)
    else if isLoading then Loading(pageSize)
    else Table(FilteredCustomers(customers, genderFilter, sportFilter))
  }

  /**
   * The customers page: on a failed load it passes no rows and an error message,
   * otherwise the fetched rows and no error.
   */
  function PageProps(loaded: Option<seq<Json>>): (r: (seq<Json>, Json))
    ensures loaded.None? ==> r.0 == [] && Truthy(r.1)
    ensures loaded.Some? ==> r.0 == loaded.value && !Truthy(r.1)
  {
    if loaded.Some? then (loaded.value, Null) else ([], Str("Unable to load customers"))
  }

  /** The error message never shows: a failed load arrives with no rows, and the empty state wins. */
  lemma LoadFailureShowsEmptyState(isLoading: bool, pageSize: int, genderFilter: string, sportFilter: string)
    ensures var (rows, error) := PageProps(None);
      View(rows, error, isLoading, pageSize, genderFilter, sportFilter) == NoCustomers
    ensures forall loaded: Option<seq<Json>> ::
      !View(PageProps(loaded).0, PageProps(loaded).1, isLoading, pageSize, genderFilter, sportFilter).LoadError?
  {
  }

  // ------------------------------------------------------------ state

  class CustomersTableState {
    var customers: seq<Json>
    var total: int
    var currentPage: int
    var pageSize: int
    var isLoading: bool
    var sheetOpen: bool
    var selectedCustomer: Json
    var historyEnrollments: Json
    var historyBookings: Json
    var loadingHistory: bool
    var genderFilter: string
    var sportFilter: string

    /** The rows and the filters the table shows now. */
    function Shown(): seq<Json>
      reads this
    {
      FilteredCustomers(customers, genderFilter, sportFilter)
    }

    /** The side sheet: whether it is open, its customer, that customer's history and its loading flag. */
    function Sheet(): (bool, Json, Json, Json, bool)
      reads this
    {
      (sheetOpen, selectedCustomer, historyEnrollments, historyBookings, loadingHistory)
    }

    constructor(initialCustomers: seq<Json>, initialTotal: int, initialPage: int, initialPageSize: int)
      ensures customers == initialCustomers && total == initialTotal
      ensures currentPage == initialPage && pageSize == initialPageSize && !isLoading
      ensures !sheetOpen && selectedCustomer == Null && !loadingHistory
      ensures historyEnrollments == Arr([]) && historyBookings == Arr([])
      ensures genderFilter == "all" && sportFilter == "all"
      ensures Shown() == initialCustomers
    {
      customers := initialCustomers;
      total := initialTotal;
      currentPage := initialPage;
      pageSize := initialPageSize;
      isLoading := false;
      sheetOpen := false;
      selectedCustomer := Null;
      historyEnrollments := Arr([]);
      historyBookings := Arr([]);
      loadingHistory := false;
      genderFilter := "all";
      sportFilter := "all";
      new;
      FilteredCustomersFacts(customers, "all", "all", "all", "all");
    }

    /** The effect on new props: the new page's rows replace the old ones and loading ends. */
    method RowsArrived(initialCustomers: seq<Json>, initialTotal: int)
      modifies this
      ensures customers == initialCustomers && total == initialTotal && !isLoading
      ensures currentPage == old(currentPage) && pageSize == old(pageSize)
      ensures genderFilter == old(genderFilter) && sportFilter == old(sportFilter)
      ensures sheetOpen == old(sheetOpen) && selectedCustomer == old(selectedCustomer)
      ensures historyEnrollments == old(historyEnrollments) && historyBookings == old(historyBookings)
      ensures loadingHistory == old(loadingHistory)
    {
      customers := initialCustomers;
      total := initialTotal;
      isLoading := false;
    }

    method SetGenderFilter(value: string)
      modifies this
      ensures genderFilter == value && sportFilter == old(sportFilter) && customers == old(customers)
      ensures Shown() == FilteredCustomers(old(customers), value, old(sportFilter))
      ensures currentPage == old(currentPage) && pageSize == old(pageSize) && isLoading == old(isLoading)
      ensures total == old(total) && Sheet() == old(Sheet())
    {
      genderFilter := value;
    }

    method SetSportFilter(value: string)
      modifies this
      ensures sportFilter == value && genderFilter == old(genderFilter) && customers == old(customers)
      ensures Shown() == FilteredCustomers(old(customers), old(genderFilter), value)
      ensures currentPage == old(currentPage) && pageSize == old(pageSize) && isLoading == old(isLoading)
      ensures total == old(total) && Sheet() == old(Sheet())
    {
      sportFilter := value;
    }

    /** `handlePageChange`: the new page, loading on, and the query the router navigates to. */
    method PageChange(newPage: int) returns (query: map<string, string>)
      modifies this
      ensures currentPage == newPage && isLoading && pageSize == old(pageSize)
      ensures customers == old(customers) && total == old(total)
      ensures genderFilter == old(genderFilter) && sportFilter == old(sportFilter) && Sheet() == old(Sheet())
      ensures query == PageQuery(newPage, pageSize)
    {
      currentPage := newPage;
      isLoading := true;
      query := PageQuery(newPage, pageSize);
    }

    /** `handlePageSizeChange`: the new size, back to page 1 (the page's first row), loading on. */
    method PageSizeChange(newPageSize: int) returns (query: map<string, string>)
      modifies this
      ensures pageSize == newPageSize && currentPage == 1 && isLoading
      ensures Offset(currentPage, pageSize) == 0
      ensures customers == old(customers) && total == old(total)
      ensures genderFilter == old(genderFilter) && sportFilter == old(sportFilter) && Sheet() == old(Sheet())
      ensures query == PageQuery(1, newPageSize)
    {
      pageSize := newPageSize;
      currentPage := 1;
      isLoading := true;
      query := PageQuery(1, newPageSize);
    }

    /**
     * `handleOpen`: the sheet opens on the customer; when it has an id its history is
     * fetched (`response` is the parsed body of an ok response, `None` otherwise) and
     * `data.enrollments || []`, `data.bookings || []` replace the shown history.
     */
    method Open(customer: Json, response: Option<Json>)
      modifies this
      ensures sheetOpen && selectedCustomer == customer
      ensures loadingHistory == (old(loadingHistory) && !Truthy(Get(customer, "id")))
      ensures Truthy(Get(customer, "id")) && response.Some? ==>
                historyEnrollments == Or(Get(response.value, "enrollments"), Arr([])) &&
                historyBookings == Or(Get(response.value, "bookings"), Arr([]))
      ensures !(Truthy(Get(customer, "id")) && response.Some?) ==>
                historyEnrollments == old(historyEnrollments) && historyBookings == old(historyBookings)
      ensures customers == old(customers) && currentPage == old(currentPage) && pageSize == old(pageSize)
      ensures genderFilter == old(genderFilter) && sportFilter == old(sportFilter) && isLoading == old(isLoading)
      ensures total == old(total)
    {
      selectedCustomer := customer;
      sheetOpen := true;
      if Truthy(Get(customer, "id")) {
        loadingHistory := true;
        if response.Some? {
          historyEnrollments := Or(Get(response.value, "enrollments"), Arr([]));
          historyBookings := Or(Get(response.value, "bookings"), Arr([]));
        }
        loadingHistory := false;
      }
    }

    /** `handleSheetChange`: closing forgets the customer and the history; opening changes nothing. */
    method SheetChange(open: bool)
      modifies this
      ensures !open ==> !sheetOpen && selectedCustomer == Null &&
                        historyEnrollments == Arr([]) && historyBookings == Arr([])
      ensures open ==> sheetOpen == old(sheetOpen) && selectedCustomer == old(selectedCustomer) &&
                       historyEnrollments == old(historyEnrollments) && historyBookings == old(historyBookings)
      ensures customers == old(customers) && currentPage == old(currentPage) && pageSize == old(pageSize)
      ensures genderFilter == old(genderFilter) && sportFilter == old(sportFilter) && isLoading == old(isLoading)
      ensures total == old(total) && loadingHistory == old(loadingHistory)
    {
      if !open {
        sheetOpen := false;
        selectedCustomer := Null;
        historyEnrollments := Arr([]);
        historyBookings := Arr([]);
      }
    }
  }
}
