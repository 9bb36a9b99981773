/**
 * The support page's two queues (components/support/support-tabs.jsx): rows
 * indexed for search, the status filter, the queue statistics, and the state
 * the resolve and save-solution handlers change once the backend call has
 * answered. The backend call's outcome, the clock and the date label are
 * parameters.
 */
module SupportTabs {
  import opened Wrappers
  import opened Strings
  import opened Json
  import opened Seqs
  import opened Support
  import SU = SearchUtils
  import PartnerSection

  // ------------------------------------------------------------ rows

  /** The record with its search index rebuilt from its current fields. */
  function Indexed(r: SupportRequest, parse: SU.DateParser): (x: SupportRequest)
    ensures x.searchIndex == Some(SupportIndex(Some(r), parse))
    ensures x.(searchIndex := r.searchIndex) == r
  {
    r.(searchIndex := Some(SupportIndex(Some(r), parse)))
  }

  /** `withSearchIndex`: a missing record passes through; otherwise a copy with its index rebuilt. */
  function WithSearchIndex(record: Option<SupportRequest>, parse: SU.DateParser): (r: Option<SupportRequest>)
    ensures r.None? <==> record.None?
    ensures r.Some? ==> r.value == Indexed(record.value, parse)
  {
    if record.None? then None else Some(Indexed(record.value, parse))
  }

  /** The index does not read the index: rebuilding it twice gives the same row. */
  lemma IndexedIdempotent(r: SupportRequest, parse: SU.DateParser)
    ensures Indexed(Indexed(r, parse), parse) == Indexed(r, parse)
  {
    var once := Indexed(r, parse);
    assert IndexedValues(once) == IndexedValues(r);
    assert IndexTokens(once, parse) == IndexTokens(r, parse);
  }

  /** `initializeRows`: every record indexed, in order; anything but an array gives no rows. */
  function InitializeRows(records: Option<seq<SupportRequest>>, parse: SU.DateParser): (rows: seq<SupportRequest>)
    ensures records.None? ==> rows == []
    ensures |rows| == |records.GetOr([])|
    ensures forall i :: 0 <= i < |rows| ==> rows[i] == Indexed(records.value[i], parse)
  {
    var rs := records.GetOr([]);
    seq(|rs|, i requires 0 <= i < |rs| => Indexed(rs[i], parse))
  }

  // ------------------------------------------------------------ status filter and statistics

  /** `filterRowsByStatus`: "all" keeps every row, "resolved" the resolved ones, any other value the open ones. */
  function FilterRowsByStatus(rows: Option<seq<SupportRequest>>, value: string): (r: seq<SupportRequest>)
    ensures rows.None? ==> r == []
    ensures rows.Some? && value == "all" ==> r == rows.value
  {
    if rows.None? || value == "all" then rows.GetOr([])
    else
      var showResolved := value == "resolved";
      Keep(rows.value, (row: SupportRequest) => row.resolved == showResolved)
  }

  /**
   * Apart from "all", the filter splits the rows in two: "resolved" keeps exactly
   * the resolved rows, every other value exactly the open ones.
   */
  lemma FilterRowsByStatusSpec(rows: seq<SupportRequest>, value: string)
    requires value != "all"
    ensures var r := FilterRowsByStatus(Some(rows), value);
      && (forall i :: 0 <= i < |r| ==> r[i] in rows && r[i].resolved == (value == "resolved"))
      && (forall i :: 0 <= i < |rows| && rows[i].resolved == (value == "resolved") ==> rows[i] in r)
    ensures value != "resolved" ==> FilterRowsByStatus(Some(rows), value) == FilterRowsByStatus(Some(rows), "open")
  {
  }

  datatype Stats = Stats(total: nat, open: nat, resolved: nat)

  /** `buildStats`: the number of rows, of open rows and of resolved rows. */
  function BuildStats(requests: Option<seq<SupportRequest>>): Stats
  {
    var list := requests.GetOr([]);
    Stats(|list|, |Keep(list, (r: SupportRequest) => !r.resolved)|, |Keep(list, (r: SupportRequest) => r.resolved)|)
  }

  /** Every row is open or resolved, so the two counts add up to the total, and each is what its filter lists. */
  lemma BuildStatsSpec(rows: seq<SupportRequest>)
    ensures BuildStats(Some(rows)).total == BuildStats(Some(rows)).open + BuildStats(Some(rows)).resolved
    ensures BuildStats(Some(rows)).open == |FilterRowsByStatus(Some(rows), "open")|
    ensures BuildStats(Some(rows)).resolved == |FilterRowsByStatus(Some(rows), "resolved")|
  {
    var isOpen := (r: SupportRequest) => !r.resolved;
    var isResolved := (r: SupportRequest) => r.resolved;
    var any := (r: SupportRequest) => true;
    KeepEitherCount(rows, isOpen, isResolved, any);
    KeepAll(rows, any);
    KeepExt(rows, isOpen, (row: SupportRequest) => row.resolved == false);
    KeepExt(rows, isResolved, (row: SupportRequest) => row.resolved == true);
  }

  /** The queue-health card: "Clear" when neither queue has an open request. */
  function QueueHealth(partnerStats: Stats, customerStats: Stats): (r: string)
    ensures r == "Clear" <==> partnerStats.open == 0 && customerStats.open == 0
  {
    if partnerStats.open + customerStats.open == 0 then "Clear" else "Attention"
  }

  // ------------------------------------------------------------ row updates

  /** `rows.map(entry => entry.id === id ? withSearchIndex({...entry, ...changes}) : entry)`. */
  function UpdateRows(rows: seq<SupportRequest>, id: Json, change: SupportRequest -> SupportRequest, parse: SU.DateParser): (r: seq<SupportRequest>)
    ensures |r| == |rows|
    ensures forall i :: 0 <= i < |rows| ==>
              r[i] == if PartnerSection.SameId(rows[i].id, id) then Indexed(change(rows[i]), parse) else rows[i]
  {
    seq(|rows|, i requires 0 <= i < |rows| =>
      if PartnerSection.SameId(rows[i].id, id) then Indexed(change(rows[i]), parse) else rows[i])
  }

  /** What resolving sets on the matching row. */
  function MarkResolved(now: Json, nowLabel: string): SupportRequest -> SupportRequest
  {
    (e: SupportRequest) => e.(resolved := true, updatedAt := now, updatedAtLabel := nowLabel)
  }

  /** What saving a solution sets on the matching row: the text trimmed. */
  function SetSolution(solution: string, now: Json, nowLabel: string): SupportRequest -> SupportRequest
  {
    (e: SupportRequest) => e.(solution := Trim(solution), updatedAt := now, updatedAtLabel := nowLabel)
  }

  /**
   * Resolving changes only the rows with the id: they become resolved with the
   * new update time and a rebuilt index; a resolved row stays resolved, so the
   * open count never grows.
   */
  lemma ResolveRowsSpec(rows: seq<SupportRequest>, id: Json, now: Json, nowLabel: string, parse: SU.DateParser)
    ensures var r := UpdateRows(rows, id, MarkResolved(now, nowLabel), parse);
      && (forall i :: 0 <= i < |rows| && PartnerSection.SameId(rows[i].id, id) ==>
            r[i].resolved && r[i].updatedAt == now && r[i].id == rows[i].id && r[i].solution == rows[i].solution)
      && (forall i :: 0 <= i < |rows| && rows[i].resolved ==> r[i].resolved)
      && |Keep(r, (x: SupportRequest) => x.resolved)| >= |Keep(rows, (x: SupportRequest) => x.resolved)|
  {
    var r := UpdateRows(rows, id, MarkResolved(now, nowLabel), parse);
    ResolveRowsMarked(rows, id, now, nowLabel, parse);
    ResolvedCountGrows(rows, r);
  }

  /** Resolving marks the rows with the id and unresolves none. */
  lemma ResolveRowsMarked(rows: seq<SupportRequest>, id: Json, now: Json, nowLabel: string, parse: SU.DateParser)
    ensures var r := UpdateRows(rows, id, MarkResolved(now, nowLabel), parse);
      && |r| == |rows|
      && (forall i :: 0 <= i < |rows| && PartnerSection.SameId(rows[i].id, id) ==>
            r[i].resolved && r[i].updatedAt == now && r[i].id == rows[i].id && r[i].solution == rows[i].solution)
      && (forall i :: 0 <= i < |rows| && rows[i].resolved ==> r[i].resolved)
  {
  }

  lemma {:induction false} ResolvedCountGrows(before: seq<SupportRequest>, after: seq<SupportRequest>)
    requires |after| == |before|
    requires forall i :: 0 <= i < |before| && before[i].resolved ==> after[i].resolved
    ensures |Keep(after, (x: SupportRequest) => x.resolved)| >= |Keep(before, (x: SupportRequest) => x.resolved)|
    decreases |before|
  {
    if before != [] {
      ResolvedCountGrows(before[1..], after[1..]);
    }
  }

  /** Saving a solution changes only the solution and update time of the rows with the id. */
  lemma SaveRowsSpec(rows: seq<SupportRequest>, id: Json, solution: string, now: Json, nowLabel: string, parse: SU.DateParser)
    ensures var r := UpdateRows(rows, id, SetSolution(solution, now, nowLabel), parse);
      forall i :: 0 <= i < |rows| && PartnerSection.SameId(rows[i].id, id) ==>
        && r[i].solution == Trim(solution) && IsTrimmed(r[i].solution)
        && r[i].resolved == rows[i].resolved && r[i].id == rows[i].id && r[i].updatedAt == now
  {
  }

  /** The resolve button: hidden on resolved rows, disabled while this row's request is in flight. */
  predicate ResolveDisabled(record: SupportRequest, resolvingId: Json)
  {
    record.resolved || PartnerSection.SameId(resolvingId, record.id)
  }

  /** The dialog's save button: disabled while saving or when the trimmed solution is empty. */
  predicate SaveDisabled(savingSolution: bool, solutionValue: string)
  {
    savingSolution || |Trim(solutionValue)| == 0
  }

  /** A solution made only of blanks cannot be saved. */
  lemma BlankSolutionCannotBeSaved(savingSolution: bool, solutionValue: string)
    ensures SaveDisabled(savingSolution, solutionValue) <==> savingSolution || IsBlank(solutionValue)
  {
  }

  // ------------------------------------------------------------ page state

  /** The page's state: both queues, the request being resolved, the solution dialog and the screenshot dialog. */
  class SupportTabsState {
    var partnerRows: seq<SupportRequest>
    var customerRows: seq<SupportRequest>
    var resolvingId: Json
    var dialogOpen: bool
    var dialogAudience: Option<string>
    var dialogRequest: Option<SupportRequest>
    var solutionValue: string
    var savingSolution: bool
    var screenshotOpen: bool
    var screenshotUrl: string
    var screenshotTitle: Json
    var partnerStatusFilter: string
    var customerStatusFilter: string

    /** An open solution dialog has a request; a closed one has nothing typed and nothing saving. */
    predicate Valid()
      reads this
    {
      && (dialogOpen <==> dialogRequest.Some?)
      && (!dialogOpen ==> dialogAudience.None? && solutionValue == "" && !savingSolution)
      && (screenshotOpen <==> screenshotUrl != "")
    }

    /** The solution dialog's fields. */
    function SolutionDialog(): (bool, Option<string>, Option<SupportRequest>, string, bool)
      reads this
    {
      (dialogOpen, dialogAudience, dialogRequest, solutionValue, savingSolution)
    }

    /** The screenshot dialog's fields. */
    function ScreenshotDialog(): (bool, string, Json)
      reads this
    {
      (screenshotOpen, screenshotUrl, screenshotTitle)
    }

    /** The two status filters. */
    function StatusFilters(): (string, string)
      reads this
    {
      (partnerStatusFilter, customerStatusFilter)
    }

    constructor(partnerRequests: Option<seq<SupportRequest>>, customerRequests: Option<seq<SupportRequest>>, parse: SU.DateParser)
      ensures Valid()
      ensures partnerRows == InitializeRows(partnerRequests, parse) && customerRows == InitializeRows(customerRequests, parse)
      ensures resolvingId == Null && SolutionDialog() == (false, None, None, "", false)
      ensures ScreenshotDialog() == (false, "", Str(""))
      ensures StatusFilters() == ("all", "all")
    {
      partnerRows := InitializeRows(partnerRequests, parse);
      customerRows := InitializeRows(customerRequests, parse);
      resolvingId := Null;
      dialogOpen := false;
      dialogAudience := None;
      dialogRequest := None;
      solutionValue := "";
      savingSolution := false;
      screenshotOpen := false;
      screenshotUrl := "";
      screenshotTitle := Str("");
      partnerStatusFilter := "all";
      customerStatusFilter := "all";
    }

    /** The effects that re-initialise a queue when its prop changes. */
    method ResetRows(partnerRequests: Option<seq<SupportRequest>>, customerRequests: Option<seq<SupportRequest>>, parse: SU.DateParser)
      requires Valid()
      modifies this
      ensures Valid()
      ensures partnerRows == InitializeRows(partnerRequests, parse) && customerRows == InitializeRows(customerRequests, parse)
      ensures resolvingId == old(resolvingId) && SolutionDialog() == old(SolutionDialog())
      ensures ScreenshotDialog() == old(ScreenshotDialog()) && StatusFilters() == old(StatusFilters())
    {
      partnerRows := InitializeRows(partnerRequests, parse);
      customerRows := InitializeRows(customerRequests, parse);
    }

    /** `openSolutionDialog`: the dialog opens on the record, prefilled with its solution. */
    method OpenSolutionDialog(record: SupportRequest, audience: string)
      requires Valid()
      modifies this
      ensures Valid()
      ensures dialogOpen && dialogRequest == Some(record) && dialogAudience == Some(audience)
      ensures solutionValue == record.solution && savingSolution == old(savingSolution)
      ensures partnerRows == old(partnerRows) && customerRows == old(customerRows) && resolvingId == old(resolvingId)
      ensures ScreenshotDialog() == old(ScreenshotDialog()) && StatusFilters() == old(StatusFilters())
    {
      dialogOpen := true;
      dialogAudience := Some(audience);
      dialogRequest := Some(record);
      solutionValue := record.solution;
    }

    /** `closeSolutionDialog`: closing clears the dialog, the text and the saving flag; opening changes nothing. */
    method CloseSolutionDialog(open: bool)
      requires Valid()
      modifies this
      ensures Valid()
      ensures !open ==> SolutionDialog() == (false, None, None, "", false)
      ensures open ==> SolutionDialog() == old(SolutionDialog())
      ensures partnerRows == old(partnerRows) && customerRows == old(customerRows) && resolvingId == old(resolvingId)
      ensures ScreenshotDialog() == old(ScreenshotDialog()) && StatusFilters() == old(StatusFilters())
    {
      if !open {
        dialogOpen := false;
        dialogAudience := None;
        dialogRequest := None;
        solutionValue := "";
        savingSolution := false;
      }
    }

    /** `setSolutionValue` from the text area. */
    method TypeSolution(value: string)
      requires Valid() && dialogOpen
      modifies this
      ensures Valid()
      ensures solutionValue == value && dialogOpen && dialogRequest == old(dialogRequest) && savingSolution == old(savingSolution)
      ensures dialogAudience == old(dialogAudience)
      ensures partnerRows == old(partnerRows) && customerRows == old(customerRows) && resolvingId == old(resolvingId)
      ensures ScreenshotDialog() == old(ScreenshotDialog()) && StatusFilters() == old(StatusFilters())
    {
      solutionValue := value;
    }

    /** `openScreenshotDialog`: nothing happens for a record without a screenshot. */
    method OpenScreenshotDialog(record: Option<SupportRequest>)
      requires Valid()
      modifies this
      ensures Valid()
      ensures record.None? || record.value.screenshot == "" ==>
        screenshotOpen == old(screenshotOpen) && screenshotUrl == old(screenshotUrl) && screenshotTitle == old(screenshotTitle)
      ensures record.Some? && record.value.screenshot != "" ==>
        screenshotOpen && screenshotUrl == record.value.screenshot &&
        screenshotTitle == Or(record.value.entityName, Str("Screenshot"))
      ensures partnerRows == old(partnerRows) && customerRows == old(customerRows) && resolvingId == old(resolvingId)
      ensures SolutionDialog() == old(SolutionDialog()) && StatusFilters() == old(StatusFilters())
    {
      if record.None? || record.value.screenshot == "" {
        return;
      }
      screenshotOpen := true;
      screenshotUrl := record.value.screenshot;
      screenshotTitle := Or(record.value.entityName, Str("Screenshot"));
    }

    /** `closeScreenshotDialog`. */
    method CloseScreenshotDialog(open: bool)
      requires Valid()
      modifies this
      ensures Valid()
      ensures !open ==> ScreenshotDialog() == (false, "", Str(""))
      ensures open ==> ScreenshotDialog() == old(ScreenshotDialog())
      ensures partnerRows == old(partnerRows) && customerRows == old(customerRows) && resolvingId == old(resolvingId)
      ensures SolutionDialog() == old(SolutionDialog()) && StatusFilters() == old(StatusFilters())
    {
      if !open {
        screenshotOpen := false;
        screenshotUrl := "";
        screenshotTitle := Str("");
      }
    }

    /**
     * `handleResolve`, once the backend call has answered (`succeeded`): a record
     * without an id changes nothing; otherwise the audience's queue is updated
     * only when the call succeeded, and `resolvingId` ends as null either way.
     */
    method Resolve(record: Option<SupportRequest>, audience: string, succeeded: bool, now: Json, nowLabel: string, parse: SU.DateParser)
      requires Valid()
      modifies this
      ensures Valid()
      ensures record.None? || !Truthy(record.value.id) ==>
        partnerRows == old(partnerRows) && customerRows == old(customerRows) && resolvingId == old(resolvingId)
      ensures record.Some? && Truthy(record.value.id) ==> resolvingId == Null
      ensures partnerRows == if record.Some? && Truthy(record.value.id) && succeeded && audience == "partner"
        then UpdateRows(old(partnerRows), record.value.id, MarkResolved(now, nowLabel), parse) else old(partnerRows)
      ensures customerRows == if record.Some? && Truthy(record.value.id) && succeeded && audience != "partner"
        then UpdateRows(old(customerRows), record.value.id, MarkResolved(now, nowLabel), parse) else old(customerRows)
      ensures SolutionDialog() == old(SolutionDialog()) && ScreenshotDialog() == old(ScreenshotDialog())
      ensures StatusFilters() == old(StatusFilters())
    {
      if record.None? || !Truthy(record.value.id) {
        return;
      }
      var id := record.value.id;
      resolvingId := id;
      if succeeded {
        if audience == "partner" {
          partnerRows := UpdateRows(partnerRows, id, MarkResolved(now, nowLabel), parse);
        } else {
          customerRows := UpdateRows(customerRows, id, MarkResolved(now, nowLabel), parse);
        }
      }
      resolvingId := Null;
    }

    /**
     * `handleSaveSolution`, once the backend call has answered: without a request
     * id nothing changes; on success the audience's queue gets the trimmed
     * solution and the dialog closes; on failure the rows stay and the dialog
     * stays open with saving switched off.
     */
    method SaveSolution(succeeded: bool, now: Json, nowLabel: string, parse: SU.DateParser)
      requires Valid()
      modifies this
      ensures Valid()
      ensures !(old(dialogRequest).Some? && Truthy(old(dialogRequest).value.id)) ==>
        && partnerRows == old(partnerRows) && customerRows == old(customerRows)
        && SolutionDialog() == old(SolutionDialog())
      ensures old(dialogRequest).Some? && Truthy(old(dialogRequest).value.id) ==>
        var id := old(dialogRequest).value.id;
        var change := SetSolution(old(solutionValue), now, nowLabel);
        && partnerRows == (if succeeded && old(dialogAudience) == Some("partner") then UpdateRows(old(partnerRows), id, change, parse) else old(partnerRows))
        && customerRows == (if succeeded && old(dialogAudience) != Some("partner") then UpdateRows(old(customerRows), id, change, parse) else old(customerRows))
        && (succeeded ==> SolutionDialog() == (false, None, None, "", false))
        && (!succeeded ==> dialogOpen == old(dialogOpen) && dialogRequest == old(dialogRequest) && solutionValue == old(solutionValue) && !savingSolution)
        && (!succeeded ==> dialogAudience == old(dialogAudience))
      ensures resolvingId == old(resolvingId) && ScreenshotDialog() == old(ScreenshotDialog())
      ensures StatusFilters() == old(StatusFilters())
    {
      if dialogRequest.None? || !Truthy(dialogRequest.value.id) {
        return;
      }
      var id := dialogRequest.value.id;
      savingSolution := true;
      if succeeded {
        if dialogAudience == Some("partner") {
          partnerRows := UpdateRows(partnerRows, id, SetSolution(solutionValue, now, nowLabel), parse);
        } else {
          customerRows := UpdateRows(customerRows, id, SetSolution(solutionValue, now, nowLabel), parse);
        }
        CloseSolutionDialog(false);
      } else {
        savingSolution := false;
      }
    }

    method SetPartnerStatusFilter(value: string)
      requires Valid()
      modifies this
      ensures Valid()
      ensures partnerStatusFilter == value && customerStatusFilter == old(customerStatusFilter)
      ensures partnerRows == old(partnerRows) && customerRows == old(customerRows) && resolvingId == old(resolvingId)
      ensures SolutionDialog() == old(SolutionDialog()) && ScreenshotDialog() == old(ScreenshotDialog())
    {
      partnerStatusFilter := value;
    }

    method SetCustomerStatusFilter(value: string)
      requires Valid()
      modifies this
      ensures Valid()
      ensures customerStatusFilter == value && partnerStatusFilter == old(partnerStatusFilter)
      ensures partnerRows == old(partnerRows) && customerRows == old(customerRows) && resolvingId == old(resolvingId)
      ensures SolutionDialog() == old(SolutionDialog()) && ScreenshotDialog() == old(ScreenshotDialog())
    {
      customerStatusFilter := value;
    }
  }
}
