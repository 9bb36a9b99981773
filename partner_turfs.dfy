/**
 * The turfs section of a partner's page
 * (components/partners/partner-turfs-section.jsx): each turf's courts and
 * bookings joined from the flat court and booking lists and counted, the
 * totals, the court-sport drop-down, the status and sport filters, the
 * location and indoor labels, and the links to the orders page. Rows are raw
 * backend records; ids are compared with `===`.
 */
module PartnerTurfs {
  import opened Wrappers
  import opened Strings
  import opened Json
  import opened Seqs
  import opened FilterOptions
  import opened PartnerSection
  import Orders
  import OrdersTabs
  import PartnerDetail

  // ------------------------------------------------------------ flat join

  /** `court.turf_id === turf.id`. */
  predicate CourtOfTurf(court: Json, turf: Json)
  {
    SameId(Get(court, "turf_id"), Get(turf, "id"))
  }

  /** `booking.court_id === court.id`. */
  predicate BookingOfCourt(booking: Json, court: Json)
  {
    SameId(Get(booking, "court_id"), Get(court, "id"))
  }

  /** A court with the number of bookings on it. */
  datatype CourtCounts = CourtCounts(court: Json, bookingCount: nat)

  /** One for a booking with the court's id as `court_id`, declined or not, and zero otherwise. */
  function OnCourt(court: Json): Json -> int
  {
    b => if BookingOfCourt(b, court) then 1 else 0
  }

  /** A court's `bookingCount`: the number of bookings with its id as `court_id`, declined ones included. */
  function CourtWithCounts(court: Json, bookings: seq<Json>): (c: CourtCounts)
    ensures c.court == court && c.bookingCount <= |bookings|
    ensures c.bookingCount == Sum(bookings, OnCourt(court))
    ensures c.bookingCount > 0 <==> exists i :: 0 <= i < |bookings| && BookingOfCourt(bookings[i], court)
  {
    var mine := Keep(bookings, b => BookingOfCourt(b, court));
    assert mine != [] ==> mine[0] in bookings;
    KeepCountIsIndicatorSum(bookings, b => BookingOfCourt(b, court), OnCourt(court));
    CourtCounts(court, |mine|)
  }

  function TurfCourts(turf: Json, courts: seq<Json>): seq<Json>
  {
    Keep(courts, c => CourtOfTurf(c, turf))
  }

  function CourtsWithCounts(turfCourts: seq<Json>, bookings: seq<Json>): (r: seq<CourtCounts>)
    ensures |r| == |turfCourts|
    ensures forall k :: 0 <= k < |r| ==> r[k] == CourtWithCounts(turfCourts[k], bookings)
  {
    seq(|turfCourts|, k requires 0 <= k < |turfCourts| => CourtWithCounts(turfCourts[k], bookings))
  }

  /** `turfCourts.some(court => court.id === booking.court_id)`. */
  predicate OnCourts(booking: Json, turfCourts: seq<Json>)
  {
    exists k :: 0 <= k < |turfCourts| && BookingOfCourt(booking, turfCourts[k])
  }

  function TurfBookings(turfCourts: seq<Json>, bookings: seq<Json>): seq<Json>
  {
    Keep(bookings, b => OnCourts(b, turfCourts))
  }

  /** A turf with its courts and bookings attached and counted. */
  datatype TurfCounts = TurfCounts(turf: Json, courts: seq<CourtCounts>, bookings: seq<Json>, courtCount: nat, bookingCount: nat)

  /**
   * One entry of `turfsWithCounts`: the courts with the turf's id as `turf_id`,
   * each with its booking count, and the bookings on any of those courts.
   */
  function TurfWithCounts(turf: Json, courts: seq<Json>, bookings: seq<Json>): (t: TurfCounts)
    ensures t.turf == turf
    ensures t.courtCount == |t.courts| && t.bookingCount == |t.bookings|
    ensures forall k :: 0 <= k < |t.courts| ==> t.courts[k].court in courts && CourtOfTurf(t.courts[k].court, turf)
    ensures forall i :: 0 <= i < |courts| && CourtOfTurf(courts[i], turf) ==>
      exists k :: 0 <= k < |t.courts| && t.courts[k].court == courts[i]
    ensures forall i :: 0 <= i < |t.bookings| ==> t.bookings[i] in bookings && OnCourts(t.bookings[i], TurfCourts(turf, courts))
    ensures forall i :: 0 <= i < |bookings| && OnCourts(bookings[i], TurfCourts(turf, courts)) ==> bookings[i] in t.bookings
  {
    var tcs := TurfCourts(turf, courts);
    var withCounts := CourtsWithCounts(tcs, bookings);
    var tbs := TurfBookings(tcs, bookings);
    assert forall i :: 0 <= i < |courts| && CourtOfTurf(courts[i], turf) ==>
      exists k :: 0 <= k < |tcs| && tcs[k] == courts[i];
    TurfCounts(turf, withCounts, tbs, |tcs|, |tbs|)
  }

  /** `(turfs ?? []).map(...)`. */
  function TurfsWithCounts(turfs: Option<seq<Json>>, courts: seq<Json>, bookings: seq<Json>): (r: seq<TurfCounts>)
    ensures |r| == |turfs.GetOr([])|
    ensures forall i :: 0 <= i < |r| ==> r[i] == TurfWithCounts(turfs.GetOr([])[i], courts, bookings)
  {
    var ts := turfs.GetOr([]);
    seq(|ts|, i requires 0 <= i < |ts| => TurfWithCounts(ts[i], courts, bookings))
  }

  // ------------------------------------------------------------ counts add up

  function CourtBookings(turfCourts: seq<Json>, bookings: seq<Json>): int
  {
    Sum(turfCourts, c => |Keep(bookings, b => BookingOfCourt(b, c))|)
  }

  /** A booking on the turf is on its first court or on one of the others, never both. */
  lemma FirstCourtSplit(b: Json, tcs: seq<Json>)
    requires tcs != [] && DistinctIds(tcs)
    ensures !(BookingOfCourt(b, tcs[0]) && OnCourts(b, tcs[1..]))
    ensures OnCourts(b, tcs) == (BookingOfCourt(b, tcs[0]) || OnCourts(b, tcs[1..]))
  {
    var rest := tcs[1..];
    if OnCourts(b, rest) {
      var k :| 0 <= k < |rest| && BookingOfCourt(b, rest[k]);
      assert rest[k] == tcs[k + 1];
      assert !SameId(Get(tcs[0], "id"), Get(tcs[k + 1], "id"));
    }
    if OnCourts(b, tcs) {
      var k :| 0 <= k < |tcs| && BookingOfCourt(b, tcs[k]);
      if k > 0 {
        assert tcs[k] == rest[k - 1];
      }
    }
  }

  lemma {:induction false} CourtBookingsSum(tcs: seq<Json>, bookings: seq<Json>)
    requires DistinctIds(tcs)
    ensures |TurfBookings(tcs, bookings)| == CourtBookings(tcs, bookings)
    decreases |tcs|
  {
    if tcs == [] {
      KeepNone(bookings, b => OnCourts(b, tcs));
    } else {
      var rest := tcs[1..];
      assert DistinctIds(rest) by {
        forall i, j | 0 <= i < j < |rest| ensures !SameId(Get(rest[i], "id"), Get(rest[j], "id")) {
          assert rest[i] == tcs[i + 1] && rest[j] == tcs[j + 1];
        }
      }
      CourtBookingsSum(rest, bookings);
      var here := b => BookingOfCourt(b, tcs[0]);
      var later := b => OnCourts(b, rest);
      forall i | 0 <= i < |bookings|
        ensures !(here(bookings[i]) && later(bookings[i]))
        ensures OnCourts(bookings[i], tcs) == (here(bookings[i]) || later(bookings[i]))
      {
        FirstCourtSplit(bookings[i], tcs);
      }
      KeepEitherCount(bookings, here, later, b => OnCourts(b, tcs));
    }
  }

  /** Summing the attached counts is summing the court bookings. */
  lemma {:induction false} SumOverCourts(tcs: seq<Json>, bookings: seq<Json>)
    ensures Sum(CourtsWithCounts(tcs, bookings), (c: CourtCounts) => c.bookingCount as int) == CourtBookings(tcs, bookings)
    decreases |tcs|
  {
    if tcs != [] {
      SumOverCourts(tcs[1..], bookings);
      assert CourtsWithCounts(tcs, bookings)[1..] == CourtsWithCounts(tcs[1..], bookings);
    }
  }

  /**
   * With distinct court ids, a turf's `bookingCount` is the sum of its courts'
   * `bookingCount`s: the flat join counts each booking once.
   */
  lemma TurfBookingsAreCourtSum(turf: Json, courts: seq<Json>, bookings: seq<Json>)
    requires DistinctIds(TurfCourts(turf, courts))
    ensures var t := TurfWithCounts(turf, courts, bookings);
      t.bookingCount == Sum(t.courts, (c: CourtCounts) => c.bookingCount as int)
  {
    var tcs := TurfCourts(turf, courts);
    CourtBookingsSum(tcs, bookings);
    SumOverCourts(tcs, bookings);
  }

  /**
   * A declined booking on one of the turf's courts adds one to the turf's
   * `bookingCount` here, while the partner-detail roll-up leaves every court's
   * count as it was: the two paths disagree on declined bookings.
   */
  lemma DeclinedBookingCounted(turf: Json, courts: seq<Json>, bookings: seq<Json>, declined: Json, k: nat)
    requires k < |courts| && CourtOfTurf(courts[k], turf) && BookingOfCourt(declined, courts[k])
    requires Truthy(Get(declined, "declined"))
    ensures TurfWithCounts(turf, courts, bookings + [declined]).bookingCount ==
      TurfWithCounts(turf, courts, bookings).bookingCount + 1
    ensures PartnerDetail.CourtCounts(bookings + [declined]) == PartnerDetail.CourtCounts(bookings)
  {
    var tcs := TurfCourts(turf, courts);
    var m :| 0 <= m < |tcs| && tcs[m] == courts[k];
    assert OnCourts(declined, tcs);
    KeepAppend(bookings, [declined], b => OnCourts(b, tcs));
    PartnerDetail.DeclinedNotCounted(bookings, declined);
  }

  // ------------------------------------------------------------ totals

  datatype Totals = Totals(turfs: nat, courts: int, bookings: int)

  /** The `reduce` over the turfs, one turf after another. */
  function TotalsOf(ts: seq<TurfCounts>): Totals
    decreases |ts|
  {
    if ts == [] then Totals(0, 0, 0)
    else
      var acc := TotalsOf(ts[..|ts| - 1]);
      var t := ts[|ts| - 1];
      Totals(acc.turfs + 1, acc.courts + t.courtCount, acc.bookings + t.bookingCount)
  }

  /** `turfs` counts the turfs; `courts` and `bookings` add up the per-turf counts. */
  lemma {:induction false} TotalsAreSums(ts: seq<TurfCounts>)
    ensures TotalsOf(ts).turfs == |ts|
    ensures TotalsOf(ts).courts == Sum(ts, (t: TurfCounts) => t.courtCount as int)
    ensures TotalsOf(ts).bookings == Sum(ts, (t: TurfCounts) => t.bookingCount as int)
    decreases |ts|
  {
    if ts != [] {
      var front := ts[..|ts| - 1];
      var last := ts[|ts| - 1];
      TotalsAreSums(front);
      assert ts == front + [last];
      SumAppend(front, [last], (t: TurfCounts) => t.courtCount as int);
      SumAppend(front, [last], (t: TurfCounts) => t.bookingCount as int);
    }
  }

  // ------------------------------------------------------------ court-sport drop-down

  /** A sport's drop-down candidate: its normalised key, and the sport as typed for its label. */
  function SportCandidate(sport: Json): FilterOption
  {
    FilterOption(NormalizeFilterValue(sport), if sport.Str? then sport.s else "")
  }

  /** The turf's own sport for `k == -1`, else the sport of its court `k`. */
  function SportAt(t: TurfCounts, k: int): Json
    requires -1 <= k < |t.courts|
  {
    if k < 0 then Get(t.turf, "sport") else Get(t.courts[k].court, "sport")
  }

  /** What one turf offers, in the order visited: the turf's sport, then each court's. */
  function TurfCandidates(t: TurfCounts): (r: seq<FilterOption>)
    ensures |r| == |t.courts| + 1
    ensures forall j :: 0 <= j < |r| ==> r[j] == SportCandidate(SportAt(t, j - 1))
  {
    seq(|t.courts| + 1, j requires 0 <= j <= |t.courts| => SportCandidate(SportAt(t, j - 1)))
  }

  function SportCandidates(ts: seq<TurfCounts>): seq<FilterOption>
    decreases |ts|
  {
    if ts == [] then [] else SportCandidates(ts[..|ts| - 1]) + TurfCandidates(ts[|ts| - 1])
  }

  /** `courtSportOptions`: the first label of each normalised sport, blanks and "all" left out, sorted by label. */
  function CourtSportOptions(ts: seq<TurfCounts>): (r: seq<FilterOption>)
    ensures SortedByText(r)
    ensures forall k :: 0 <= k < |r| ==> r[k].value != [] && r[k].value != "all"
  {
    SortedOptions(SportCandidates(ts), {"all"});
    SortByText(FirstSeen(SportCandidates(ts), {"all"}))
  }

  /** The turf's own candidate opens its list, and each court's follows the ones before it. */
  lemma TurfCandidatesStep(t: TurfCounts, before: seq<FilterOption>, k: int)
    requires -1 <= k < |t.courts|
    ensures k == -1 ==> before + TurfCandidates(t)[..1] == before + [SportCandidate(Get(t.turf, "sport"))]
    ensures k >= 0 ==>
              before + TurfCandidates(t)[..k + 2] ==
              (before + TurfCandidates(t)[..k + 1]) + [SportCandidate(Get(t.courts[k].court, "sport"))]
    ensures TurfCandidates(t)[..|t.courts| + 1] == TurfCandidates(t)
  {
    var cands := TurfCandidates(t);
    assert cands[..k + 2] == cands[..k + 1] + [cands[k + 1]];
  }

  /** One turf of the outer `forEach`: its own sport, then the `forEach` over its courts. */
  method AddTurfSports(t: TurfCounts, ghost before: seq<FilterOption>, entries0: seq<FilterOption>, seen0: set<string>)
    returns (entries: seq<FilterOption>, seen: set<string>)
    requires entries0 == FirstSeen(before, {"all"})
    requires forall x :: x in seen0 <==> x in Values(entries0)
    ensures entries == FirstSeen(before + TurfCandidates(t), {"all"})
    ensures forall x :: x in seen <==> x in Values(entries)
  {
    TurfCandidatesStep(t, before, -1);
    entries, seen := Admit(SportCandidate(Get(t.turf, "sport")), {"all"}, before, entries0, seen0);
    for k := 0 to |t.courts|
      invariant entries == FirstSeen(before + TurfCandidates(t)[..k + 1], {"all"})
      invariant forall x :: x in seen <==> x in Values(entries)
    {
      TurfCandidatesStep(t, before, k);
      entries, seen := Admit(SportCandidate(Get(t.courts[k].court, "sport")), {"all"}, before + TurfCandidates(t)[..k + 1], entries, seen);
    }
  }

  /** The nested `forEach` that fills the `Map`, followed by the sort by label. */
  method CollectCourtSports(ts: seq<TurfCounts>) returns (opts: seq<FilterOption>)
    ensures opts == CourtSportOptions(ts)
  {
    var entries: seq<FilterOption> := [];
    var seen: set<string> := {};
    for i := 0 to |ts|
      invariant entries == FirstSeen(SportCandidates(ts[..i]), {"all"})
      invariant forall x :: x in seen <==> x in Values(entries)
    {
      assert SportCandidates(ts[..i + 1]) == SportCandidates(ts[..i]) + TurfCandidates(ts[i]) by {
        assert ts[..i + 1][..i] == ts[..i];
      }
      entries, seen := AddTurfSports(ts[i], SportCandidates(ts[..i]), entries, seen);
    }
    assert ts[..|ts|] == ts;
    opts := SortByText(entries);
  }

  /** Turf `t` offers `sport`: its own sport or one of its courts' sports normalises to it. */
  predicate SportMatches(t: TurfCounts, sport: string)
  {
    NormalizeFilterValue(Get(t.turf, "sport")) == sport ||
    exists k :: 0 <= k < |t.courts| && NormalizeFilterValue(Get(t.courts[k].court, "sport")) == sport
  }

  /** The candidates of the first turfs come first. */
  lemma {:induction false} CandidatesPrefix(ts: seq<TurfCounts>, m: nat)
    requires m <= |ts|
    ensures SportCandidates(ts[..m]) <= SportCandidates(ts)
    decreases |ts|
  {
    if m < |ts| {
      var front := ts[..|ts| - 1];
      CandidatesPrefix(front, m);
      assert front[..m] == ts[..m];
    } else {
      assert ts[..m] == ts;
    }
  }

  /** Where the sport of turf `i` (`k == -1`) or of its court `k` sits among the candidates. */
  lemma CandidateAt(ts: seq<TurfCounts>, i: nat, k: int) returns (j: nat)
    requires i < |ts| && -1 <= k < |ts[i].courts|
    ensures j < |SportCandidates(ts)| && SportCandidates(ts)[j] == SportCandidate(SportAt(ts[i], k))
  {
    CandidatesPrefix(ts, i + 1);
    assert ts[..i + 1][..i] == ts[..i];
    var before := SportCandidates(ts[..i]);
    assert SportCandidates(ts[..i + 1]) == before + TurfCandidates(ts[i]);
    j := |before| + k + 1;
    assert SportCandidates(ts[..i + 1])[j] == TurfCandidates(ts[i])[k + 1];
  }

  /** Each candidate is the sport of some turf or of one of its courts. */
  lemma {:induction false} CandidateSource(ts: seq<TurfCounts>, j: nat) returns (i: nat, k: int)
    requires j < |SportCandidates(ts)|
    ensures i < |ts| && -1 <= k < |ts[i].courts|
    ensures SportCandidates(ts)[j] == SportCandidate(SportAt(ts[i], k))
    decreases |ts|
  {
    var front := ts[..|ts| - 1];
    var before := SportCandidates(front);
    if j < |before| {
      i, k := CandidateSource(front, j);
      assert ts[i] == front[i];
    } else {
      i, k := |ts| - 1, j - |before| - 1;
      assert SportCandidates(ts)[j] == TurfCandidates(ts[i])[j - |before|];
    }
  }

  /** The key of a turf's or a court's sport is one the turf offers. */
  lemma SportAtMatches(t: TurfCounts, k: int)
    requires -1 <= k < |t.courts|
    ensures SportMatches(t, NormalizeFilterValue(SportAt(t, k)))
  {
  }

  /**
   * The drop-down is sorted, never offers a blank key or "all", and every key it
   * offers is some turf's own sport or one of its courts' sport.
   */
  lemma CourtSportOptionsSound(ts: seq<TurfCounts>)
    ensures var r := CourtSportOptions(ts);
      && SortedByText(r)
      && (forall k :: 0 <= k < |r| ==> r[k].value != [] && r[k].value != "all")
      && (forall k :: 0 <= k < |r| ==> exists i :: 0 <= i < |ts| && SportMatches(ts[i], r[k].value))
  {
    var cands := SportCandidates(ts);
    var r := CourtSportOptions(ts);
    SortedOptions(cands, {"all"});
    forall m | 0 <= m < |r| ensures exists i :: 0 <= i < |ts| && SportMatches(ts[i], r[m].value) {
      var j :| 0 <= j < |cands| && cands[j] == r[m] && forall n :: 0 <= n < j ==> cands[n].value != r[m].value;
      var i, k := CandidateSource(ts, j);
      SportAtMatches(ts[i], k);
    }
  }

  /** Every turf's and every court's sport that is not blank or "all" is offered. */
  lemma CourtSportOptionsComplete(ts: seq<TurfCounts>, i: nat, k: int)
    requires i < |ts| && -1 <= k < |ts[i].courts|
    requires NormalizeFilterValue(SportAt(ts[i], k)) !in {"", "all"}
    ensures exists m :: 0 <= m < |CourtSportOptions(ts)| &&
                        CourtSportOptions(ts)[m].value == NormalizeFilterValue(SportAt(ts[i], k))
  {
    var cands := SportCandidates(ts);
    var r := CourtSportOptions(ts);
    SortedOptions(cands, {"all"});
    var j := CandidateAt(ts, i, k);
    assert cands[j].value == NormalizeFilterValue(SportAt(ts[i], k));
    assert !Skipped(cands[j], {"all"});
    var m :| 0 <= m < |r| && r[m].value == cands[j].value;
  }

  // ------------------------------------------------------------ filters

  /** `turf.active ? "active" : "inactive"`. */
  function TurfStatus(t: TurfCounts): string
  {
    if Truthy(Get(t.turf, "active")) then "active" else "inactive"
  }

  predicate TurfShown(t: TurfCounts, statusFilter: string, sportFilter: string)
  {
    (statusFilter == "all" || TurfStatus(t) == statusFilter)
    && (sportFilter == "all" || SportMatches(t, sportFilter))
  }

  /** `filteredTurfs`: the turfs passing both filters, each switched off by "all"; the sport filter looks at the courts too. */
  function FilteredTurfs(ts: seq<TurfCounts>, statusFilter: string, sportFilter: string): (r: seq<TurfCounts>)
    ensures forall i :: 0 <= i < |r| ==> r[i] in ts && TurfShown(r[i], statusFilter, sportFilter)
    ensures forall i :: 0 <= i < |ts| && TurfShown(ts[i], statusFilter, sportFilter) ==> ts[i] in r
  {
    Keep(ts, t => TurfShown(t, statusFilter, sportFilter))
  }

  /**
   * Without an active filter every turf is listed, in order; a status filter
   * other than the three values hides all; and choosing any offered sport
   * leaves at least one turf listed.
   */
  lemma FilteredTurfsFacts(ts: seq<TurfCounts>, statusFilter: string, sportFilter: string)
    ensures !FiltersActive(statusFilter, sportFilter) ==> FilteredTurfs(ts, statusFilter, sportFilter) == ts
    ensures statusFilter !in {"all", "active", "inactive"} ==> FilteredTurfs(ts, statusFilter, sportFilter) == []
    ensures (exists k :: 0 <= k < |CourtSportOptions(ts)| && CourtSportOptions(ts)[k].value == sportFilter) ==>
      FilteredTurfs(ts, "all", sportFilter) != []
  {
    if !FiltersActive(statusFilter, sportFilter) {
      KeepAll(ts, t => TurfShown(t, statusFilter, sportFilter));
    }
    if statusFilter !in {"all", "active", "inactive"} {
      KeepNone(ts, t => TurfShown(t, statusFilter, sportFilter));
    }
    var r := CourtSportOptions(ts);
    if exists k :: 0 <= k < |r| && r[k].value == sportFilter {
      CourtSportOptionsSound(ts);
      var k :| 0 <= k < |r| && r[k].value == sportFilter;
      var i :| 0 <= i < |ts| && SportMatches(ts[i], sportFilter);
      assert TurfShown(ts[i], "all", sportFilter);
      assert ts[i] in FilteredTurfs(ts, "all", sportFilter);
    }
  }

  // ------------------------------------------------------------ labels

  /** `formatIndoor`: nothing for `null` or `undefined`, else "Indoor" or "Outdoor" by truthiness. */
  function FormatIndoor(indoor: Json): (r: Option<string>)
    ensures r.None? <==> Nullish(indoor)
    ensures r == Some("Indoor") <==> Truthy(indoor)
    ensures r.Some? ==> r.value in {"Indoor", "Outdoor"}
  {
    if Nullish(indoor) then None else if Truthy(indoor) then Some("Indoor") else Some("Outdoor")
  }

  /** `[city, state].filter(Boolean).join(", ") || "—"`. */
  function FormatLocation(turf: Json): (r: string)
    ensures r != []
  {
    var parts := Keep([Get(turf, "city"), Get(turf, "state")], Truthy);
    var text := Join(seq(|parts|, i requires 0 <= i < |parts| => ToStr(parts[i])), ", ");
    if text == [] then "—" else text
  }

  /** Both parts when both are given, the one given when only one is, and a dash when neither is. */
  lemma FormatLocationCases(turf: Json)
    ensures var city := Get(turf, "city"); var state := Get(turf, "state");
      && (!Truthy(city) && !Truthy(state) ==> FormatLocation(turf) == "—")
      && (city.Str? && state.Str? && city.s != [] && state.s != [] ==> FormatLocation(turf) == city.s + ", " + state.s)
      && (city.Str? && city.s != [] && !Truthy(state) ==> FormatLocation(turf) == city.s)
      && (state.Str? && state.s != [] && !Truthy(city) ==> FormatLocation(turf) == state.s)
  {
    var city := Get(turf, "city");
    var state := Get(turf, "state");
    KeepPair(city, state);
    if Truthy(city) && Truthy(state) {
      LocationOfParts(turf, [city, state]);
    } else if Truthy(city) {
      LocationOfParts(turf, [city]);
    } else if Truthy(state) {
      LocationOfParts(turf, [state]);
    } else {
      LocationOfParts(turf, []);
    }
  }

  /** The location text for a given list of the truthy parts among city and state. */
  lemma LocationOfParts(turf: Json, parts: seq<Json>)
    requires parts == Keep([Get(turf, "city"), Get(turf, "state")], Truthy)
    ensures parts == [] ==> FormatLocation(turf) == "—"
    ensures |parts| == 1 && parts[0].Str? && parts[0].s != [] ==> FormatLocation(turf) == parts[0].s
    ensures |parts| == 2 && parts[0].Str? && parts[1].Str? ==> FormatLocation(turf) == parts[0].s + ", " + parts[1].s
  {
    var texts := seq(|parts|, i requires 0 <= i < |parts| => ToStr(parts[i]));
    if |parts| == 2 {
      assert texts[1..] == [texts[1]];
    }
  }

  /** The truthy parts of a two-element list, in order. */
  lemma KeepPair(a: Json, b: Json)
    ensures Keep([a, b], Truthy) == (if Truthy(a) then [a] else []) + (if Truthy(b) then [b] else [])
  {
    var pair := [a, b];
    assert pair[1..] == [b];
    assert pair[1..][1..] == [];
  }

  // ------------------------------------------------------------ links to the orders page

  /**
   * The query `buildOrdersHref` builds: `order_tab` always, and the partner,
   * turf and court ids only when truthy, as their text.
   */
  function OrdersHrefQuery(partnerId: Json, turfId: Json, courtId: Json, tab: string): (q: map<string, string>)
    ensures "order_tab" in q && q["order_tab"] == tab
    ensures "partner_id" in q <==> Truthy(partnerId)
    ensures "turf_id" in q <==> Truthy(turfId)
    ensures "court_id" in q <==> Truthy(courtId)
    ensures "course_id" !in q && "batch_id" !in q && "plan_id" !in q
  {
    var q := map["order_tab" := tab];
    var q := SetIfTruthy(q, "partner_id", partnerId);
    var q := SetIfTruthy(q, "turf_id", turfId);
    SetIfTruthy(q, "court_id", courtId)
  }

  /** What the orders page reads back from each parameter of a turf link. */
  lemma HrefParams(partnerId: Json, turfId: Json, courtId: Json)
    requires IdLike(partnerId) && IdLike(turfId) && IdLike(courtId)
    ensures var q := OrdersHrefQuery(partnerId, turfId, courtId, "turf");
      && ParamOf(q, "order_tab") == "turf"
      && ParamOf(q, "partner_id") == IdText(partnerId) && ParamOf(q, "turf_id") == IdText(turfId)
      && ParamOf(q, "court_id") == IdText(courtId)
  {
    var q0 := map["order_tab" := "turf"];
    var q1 := SetIfTruthy(q0, "partner_id", partnerId);
    var q2 := SetIfTruthy(q1, "turf_id", turfId);
    assert ParamOf(q0, "order_tab") == "turf";
    assert ParamOf(q0, "partner_id") == "" && ParamOf(q1, "turf_id") == "" && ParamOf(q2, "court_id") == "";
    ParamSet(q0, "partner_id", partnerId);
    ParamSet(q1, "turf_id", turfId);
    ParamSet(q2, "court_id", courtId);
    ParamKept(q0, "partner_id", partnerId, "order_tab");
    ParamKept(q1, "turf_id", turfId, "order_tab");
    ParamKept(q1, "turf_id", turfId, "partner_id");
    ParamKept(q2, "court_id", courtId, "order_tab");
    ParamKept(q2, "court_id", courtId, "partner_id");
    ParamKept(q2, "court_id", courtId, "turf_id");
  }

  /**
   * Following a turf link lands on the turf tab, and a turf order passes the
   * page's filters exactly when it is an order of that partner on that turf
   * (and court, when one is given).
   */
  lemma OrdersHrefRoundTrip(partnerId: Json, turfId: Json, courtId: Json, order: Orders.Order)
    requires IdLike(partnerId) && IdLike(turfId) && IdLike(courtId)
    requires order.plan.None? && order.booking.Some?
    ensures var q := OrdersHrefQuery(partnerId, turfId, courtId, "turf");
      && OrdersTabs.NextTab(Lower(ParamOf(q, "order_tab")), ParamOf(q, "turf_id"), ParamOf(q, "court_id")) == OrdersTabs.TurfTab
      && (OrdersTabs.MatchesOrderFilters(order, Some(FiltersOf(q))) <==>
            && (Truthy(partnerId) ==> Coalesce(order.partner.id, Str("")) == partnerId)
            && (Truthy(turfId) ==> Coalesce(order.booking.value.turfId, Str("")) == turfId)
            && (Truthy(courtId) ==> Coalesce(order.booking.value.courtId, Str("")) == courtId))
  {
    var q := OrdersHrefQuery(partnerId, turfId, courtId, "turf");
    HrefParams(partnerId, turfId, courtId);
    OrdersHrefTab(q);
    var f := FiltersOf(q);
    assert f == OrdersTabs.Filters(IdText(partnerId), "", "", "", IdText(turfId), IdText(courtId));
    TurfFiltersMatch(partnerId, turfId, courtId, order);
  }

  /** A turf booking meets the partner, turf and court filters exactly when it has each given id. */
  lemma TurfFiltersMatch(partnerId: Json, turfId: Json, courtId: Json, order: Orders.Order)
    requires IdLike(partnerId) && IdLike(turfId) && IdLike(courtId)
    requires order.plan.None? && order.booking.Some?
    ensures var f := OrdersTabs.Filters(IdText(partnerId), "", "", "", IdText(turfId), IdText(courtId));
      OrdersTabs.MatchesOrderFilters(order, Some(f)) <==>
        && (Truthy(partnerId) ==> Coalesce(order.partner.id, Str("")) == partnerId)
        && (Truthy(turfId) ==> Coalesce(order.booking.value.turfId, Str("")) == turfId)
        && (Truthy(courtId) ==> Coalesce(order.booking.value.courtId, Str("")) == courtId)
  {
  }

  /** A link whose tab parameter is "turf" opens the turf tab, whatever its turf and court. */
  lemma OrdersHrefTab(q: map<string, string>)
    requires ParamOf(q, "order_tab") == "turf"
    ensures OrdersTabs.NextTab(Lower(ParamOf(q, "order_tab")), ParamOf(q, "turf_id"), ParamOf(q, "court_id")) == OrdersTabs.TurfTab
  {
    assert Lower("turf") == "turf";
  }

  function SelectedTurf(ts: seq<TurfCounts>, selectedId: Json): Option<TurfCounts>
  {
    FindById(ts, (t: TurfCounts) => Get(t.turf, "id"), selectedId)
  }

  /** The link under the selected turf, shown only for a turf with bookings and an id. */
  function SelectedTurfOrdersHref(selected: Option<TurfCounts>, partnerId: Json): (r: Option<map<string, string>>)
    ensures r.Some? <==> selected.Some? && selected.value.bookingCount > 0 && Truthy(Get(selected.value.turf, "id"))
    ensures r.Some? ==> "turf_id" in r.value && r.value["turf_id"] == ToStr(Get(selected.value.turf, "id"))
  {
    if selected.Some? && HasPositiveCount(Num(selected.value.bookingCount)) && Truthy(Get(selected.value.turf, "id")) then
      Some(OrdersHrefQuery(partnerId, Get(selected.value.turf, "id"), Undefined, "turf"))
    else None
  }

  /** The partner-wide link, shown only with a partner id and some booking. */
  function PartnerTurfOrdersHref(partnerId: Json, totals: Totals): (r: Option<map<string, string>>)
    ensures r.Some? <==> Truthy(partnerId) && totals.bookings > 0
    ensures r.Some? ==> "turf_id" !in r.value && "court_id" !in r.value
  {
    if Truthy(partnerId) && HasPositiveCount(Num(totals.bookings)) then
      Some(OrdersHrefQuery(partnerId, Undefined, Undefined, "turf"))
    else None
  }

  /** The side sheet's subtitle: the selected turf's location, or a fixed line. */
  function SheetSubtitle(selected: Option<TurfCounts>): (r: string)
    ensures r != []
    ensures selected.None? ==> r == "Detailed view for turf facilities."
  {
    if selected.Some? then FormatLocation(selected.value.turf) else "Detailed view for turf facilities."
  }

  // ------------------------------------------------------------ what the section shows

  datatype TurfsView = NoTurfs(message: string) | TurfTable(rows: seq<TurfCounts>)

  /** The dashed "no turfs" card replaces the whole section when the partner has no turfs, whatever the filters. */
  function SectionView(ts: seq<TurfCounts>, statusFilter: string, sportFilter: string): (v: TurfsView)
    ensures v.NoTurfs? <==> ts == []
    ensures v.TurfTable? ==> forall i :: 0 <= i < |v.rows| ==> v.rows[i] in ts
  {
    if ts == [] then NoTurfs("No turfs available for this partner.")
    else TurfTable(FilteredTurfs(ts, statusFilter, sportFilter))
  }
}
