/**
 * The partners page around the table (components/partners/partners-page-client.jsx):
 * the status summary badges, paging, and the local list updates after approving a
 * partner or switching it on or off. The backend calls are parameters: whether the
 * call succeeded.
 */
module PartnersPage {
  import opened Wrappers
  import opened Json
  import opened PartnerSection
  import opened PartnersTable
  import CustomersTable

  // ------------------------------------------------------------ summary

  /** How many partners have the derived status `status`. */
  function CountStatus(partners: seq<Json>, status: string): (r: nat)
    ensures r <= |partners|
    decreases |partners|
  {
    if partners == [] then 0
    else (if DerivedStatus(partners[0]) == status then 1 else 0) + CountStatus(partners[1..], status)
  }

  lemma {:induction false} CountStatusSnoc(partners: seq<Json>, p: Json, status: string)
    ensures CountStatus(partners + [p], status) == CountStatus(partners, status) + (if DerivedStatus(p) == status then 1 else 0)
    decreases |partners|
  {
    if partners != [] {
      assert (partners + [p])[1..] == partners[1..] + [p];
      CountStatusSnoc(partners[1..], p, status);
    }
  }

  /** Every partner has exactly one of the three statuses, so the three counts add up to the total. */
  lemma {:induction false} StatusCountsAddUp(partners: seq<Json>)
    ensures CountStatus(partners, "pending") + CountStatus(partners, "active") + CountStatus(partners, "suspended") == |partners|
    decreases |partners|
  {
    if partners != [] {
      StatusCountsAddUp(partners[1..]);
    }
  }

  /** No status other than the three is ever counted. */
  lemma {:induction false} OtherStatusUncounted(partners: seq<Json>, status: string)
    requires status != "pending" && status != "active" && status != "suspended"
    ensures CountStatus(partners, status) == 0
    decreases |partners|
  {
    if partners != [] {
      OtherStatusUncounted(partners[1..], status);
    }
  }

  /** The badge counts agree with the table: a status's count is the number of rows its filter lists. */
  lemma {:induction false} CountIsFilteredRows(partners: seq<Json>, parse: Parser, status: string)
    requires status != "all"
    ensures CountStatus(partners, status) == PartnersTable.StatusCount(ToRows(partners, parse), status)
    decreases |partners|
  {
    var rows := ToRows(partners, parse);
    if partners != [] {
      ToRowsTail(partners, parse);
      CountIsFilteredRows(partners[1..], parse, status);
      StatusCountCons(rows, status);
      DerivedStatusLower(partners[0]);
    }
  }

  datatype Summary = Summary(total: nat, byStatus: map<string, nat>)

  /** `summary`: the reduce that counts every partner and tallies its status key. */
  method Summarize(partners: seq<Json>) returns (summary: Summary)
    ensures summary.total == |partners|
    ensures forall key :: key in summary.byStatus <==> CountStatus(partners, key) > 0
    ensures forall key :: key in summary.byStatus ==> summary.byStatus[key] == CountStatus(partners, key)
  {
    summary := Summary(0, map[]);
    for i := 0 to |partners|
      invariant summary.total == i
      invariant forall key :: key in summary.byStatus <==> CountStatus(partners[..i], key) > 0
      invariant forall key :: key in summary.byStatus ==> summary.byStatus[key] == CountStatus(partners[..i], key)
    {
      summary := Tally(summary, partners[..i], partners[i]);
      assert partners[..i + 1] == partners[..i] + [partners[i]];
    }
    assert partners[..|partners|] == partners;
  }

  /** One step of the reduce: `byStatus[key] = (byStatus[key] ?? 0) + 1`. */
  method Tally(summary: Summary, ghost seen: seq<Json>, partner: Json) returns (next: Summary)
    requires forall key :: key in summary.byStatus <==> CountStatus(seen, key) > 0
    requires forall key :: key in summary.byStatus ==> summary.byStatus[key] == CountStatus(seen, key)
    ensures next.total == summary.total + 1
    ensures forall key :: key in next.byStatus <==> CountStatus(seen + [partner], key) > 0
    ensures forall key :: key in next.byStatus ==> next.byStatus[key] == CountStatus(seen + [partner], key)
  {
    var statusKey := DerivedStatus(partner);
    var before := if statusKey in summary.byStatus then summary.byStatus[statusKey] else 0;
    next := Summary(summary.total + 1, summary.byStatus[statusKey := before + 1]);
    forall key | true
      ensures CountStatus(seen + [partner], key) == CountStatus(seen, key) + (if statusKey == key then 1 else 0)
    {
      CountStatusSnoc(seen, partner, key);
    }
  }

  datatype SummaryBadge = SummaryBadge(text: string, value: nat, variant: string)

  /** `summary.byStatus[key] || 0`. */
  function ByStatus(summary: Summary, key: string): nat
  {
    if key in summary.byStatus && summary.byStatus[key] != 0 then summary.byStatus[key] else 0
  }

  /** The four badges: the total, then pending, active and suspended. */
  function SummaryBadges(summary: Summary): (r: seq<SummaryBadge>)
    ensures |r| == 4 && r[0].value == summary.total
    ensures r[1].value == ByStatus(summary, "pending") && r[2].value == ByStatus(summary, "active")
    ensures r[3].value == ByStatus(summary, "suspended")
  {
    [ SummaryBadge("Total", summary.total, ""),
      SummaryBadge("Pending", ByStatus(summary, "pending"), "warning"),
      SummaryBadge("Active", ByStatus(summary, "active"), "success"),
      SummaryBadge("Suspended", ByStatus(summary, "suspended"), "destructive") ]
  }

  /** Each status badge shows how many partners have that status, and the three add up to the total badge. */
  lemma BadgesCount(partners: seq<Json>, summary: Summary)
    requires summary.total == |partners|
    requires forall key :: key in summary.byStatus <==> CountStatus(partners, key) > 0
    requires forall key :: key in summary.byStatus ==> summary.byStatus[key] == CountStatus(partners, key)
    ensures var b := SummaryBadges(summary);
      && b[1].value == CountStatus(partners, "pending")
      && b[2].value == CountStatus(partners, "active")
      && b[3].value == CountStatus(partners, "suspended")
      && b[1].value + b[2].value + b[3].value == b[0].value
  {
    StatusCountsAddUp(partners);
  }

  // ------------------------------------------------------------ list updates

  /** After a successful approval: every partner with that id is marked verified. */
  function MarkVerified(partners: seq<Json>, partnerId: Json): (r: seq<Json>)
    ensures |r| == |partners|
    ensures forall i :: 0 <= i < |r| ==>
              r[i] == if SameId(Get(partners[i], "id"), partnerId) then With(partners[i], "verified", Bool(true)) else partners[i]
  {
    seq(|partners|, i requires 0 <= i < |partners| =>
      if SameId(Get(partners[i], "id"), partnerId) then With(partners[i], "verified", Bool(true)) else partners[i])
  }

  /** After a successful toggle: every partner with that id has `disabled` flipped. */
  function Toggled(partners: seq<Json>, partnerId: Json): (r: seq<Json>)
    ensures |r| == |partners|
    ensures forall i :: 0 <= i < |r| ==>
              r[i] == if SameId(Get(partners[i], "id"), partnerId) then Flip(partners[i]) else partners[i]
  {
    seq(|partners|, i requires 0 <= i < |partners| =>
      if SameId(Get(partners[i], "id"), partnerId) then Flip(partners[i]) else partners[i])
  }

  /** `{ ...p, disabled: !p.disabled }`. */
  function Flip(p: Json): (r: Json)
    ensures Truthy(Get(r, "disabled")) == !Truthy(Get(p, "disabled"))
  {
    With(p, "disabled", Bool(!Truthy(Get(p, "disabled"))))
  }

  /**
   * Approving makes the approved partners active unless they are disabled (then they stay
   * suspended) and leaves every other partner's status as it was.
   */
  lemma ApprovedStatuses(partners: seq<Json>, partnerId: Json, i: nat)
    requires i < |partners|
    ensures var p := partners[i];
      DerivedStatus(MarkVerified(partners, partnerId)[i]) ==
        if !SameId(Get(p, "id"), partnerId) then DerivedStatus(p)
        else if p.Obj? && Truthy(Get(p, "disabled")) then "suspended"
        else "active"
  {
  }

  /**
   * Toggling flips a partner between suspended and its verified status; toggling the
   * same partner twice gives back its status and its `disabled` truthiness.
   */
  lemma ToggledStatuses(partners: seq<Json>, partnerId: Json, i: nat)
    requires i < |partners|
    requires partners[i].Obj? && SameId(Get(partners[i], "id"), partnerId)
    ensures var p := partners[i];
      && DerivedStatus(Toggled(partners, partnerId)[i]) ==
           (if Truthy(Get(p, "disabled")) then (if Truthy(Get(p, "verified")) then "active" else "pending") else "suspended")
      && Truthy(Get(Toggled(Toggled(partners, partnerId), partnerId)[i], "disabled")) == Truthy(Get(p, "disabled"))
      && DerivedStatus(Toggled(Toggled(partners, partnerId), partnerId)[i]) == DerivedStatus(p)
  {
    var once := Toggled(partners, partnerId);
    assert Get(once[i], "id") == Get(partners[i], "id");
    assert Get(once[i], "verified") == Get(partners[i], "verified");
  }

  // ------------------------------------------------------------ the page

  datatype PartnersView = ErrorPage(message: Json) | Skeleton(rows: int) | TablePage(partners: seq<Json>)

  /** The error replaces the page; otherwise a skeleton while loading, else the table. */
  function View(initialError: Json, isLoading: bool, pageSize: int, partners: seq<Json>): (r: PartnersView)
    ensures r.ErrorPage? <==> Truthy(initialError)
    ensures r.Skeleton? <==> !Truthy(initialError) && isLoading
    ensures r.TablePage? ==> r.partners == partners
  {
    if Truthy(initialError) then ErrorPage(initialError)
    else if isLoading then Skeleton(pageSize)
    else TablePage(partners)
  }

  /** `value ?? fallback` for an optional prop. */
  function OrDefault<T>(value: Option<T>, fallback: T): (r: T)
    ensures value.Some? ==> r == value.value
    ensures value.None? ==> r == fallback
  {
    if value.Some? then value.value else fallback
  }

  class PartnersPageState {
    var partners: seq<Json>
    var total: int
    var currentPage: int
    var pageSize: int
    var isLoading: bool
    var approvingId: Json
    var togglingId: Json

    constructor(initialPartners: Option<seq<Json>>, initialTotal: Option<int>,
                initialPage: Option<int>, initialPageSize: Option<int>)
      ensures partners == OrDefault(initialPartners, []) && total == OrDefault(initialTotal, 0)
      ensures currentPage == OrDefault(initialPage, 1) && pageSize == OrDefault(initialPageSize, 10)
      ensures !isLoading && approvingId == Null && togglingId == Null
    {
      partners := OrDefault(initialPartners, []);
      total := OrDefault(initialTotal, 0);
      currentPage := OrDefault(initialPage, 1);
      pageSize := OrDefault(initialPageSize, 10);
      isLoading := false;
      approvingId := Null;
      togglingId := Null;
    }

    /** The effect on new props: the new partners and total replace the old ones and loading ends. */
    method RowsArrived(initialPartners: Option<seq<Json>>, initialTotal: Option<int>)
      modifies this
      ensures partners == OrDefault(initialPartners, []) && total == OrDefault(initialTotal, 0) && !isLoading
      ensures currentPage == old(currentPage) && pageSize == old(pageSize)
      ensures approvingId == old(approvingId) && togglingId == old(togglingId)
    {
      partners := OrDefault(initialPartners, []);
      total := OrDefault(initialTotal, 0);
      isLoading := false;
    }

    /** `handlePageChange`: the new page, loading on, and the query the router navigates to. */
    method PageChange(newPage: int) returns (query: map<string, string>)
      modifies this
      ensures currentPage == newPage && isLoading && pageSize == old(pageSize)
      ensures partners == old(partners) && total == old(total)
      ensures approvingId == old(approvingId) && togglingId == old(togglingId)
      ensures query == CustomersTable.PageQuery(newPage, old(pageSize))
    {
      isLoading := true;
      currentPage := newPage;
      query := CustomersTable.PageQuery(newPage, pageSize);
    }

    /** `handlePageSizeChange`: the new size, back to page 1, loading on. */
    method PageSizeChange(newPageSize: int) returns (query: map<string, string>)
      modifies this
      ensures pageSize == newPageSize && currentPage == 1 && isLoading
      ensures partners == old(partners) && total == old(total)
      ensures approvingId == old(approvingId) && togglingId == old(togglingId)
      ensures query == CustomersTable.PageQuery(1, newPageSize)
    {
      isLoading := true;
      pageSize := newPageSize;
      currentPage := 1;
      query := CustomersTable.PageQuery(1, newPageSize);
    }

    /**
     * `handleApprove`: on success the partners with that id are marked verified; the
     * list is kept on failure; either way the button stops showing progress.
     */
    method Approve(partnerId: Json, succeeded: bool) returns (message: string)
      modifies this
      ensures approvingId == Null && togglingId == old(togglingId)
      ensures succeeded ==> partners == MarkVerified(old(partners), partnerId) && message == "Partner verified successfully!"
      ensures !succeeded ==> partners == old(partners) && message == "Failed to verify partner"
      ensures total == old(total) && currentPage == old(currentPage) && pageSize == old(pageSize)
      ensures isLoading == old(isLoading)
    {
      approvingId := partnerId;
      if succeeded {
        message := "Partner verified successfully!";
        partners := MarkVerified(partners, partnerId);
      } else {
        message := "Failed to verify partner";
      }
      approvingId := Null;
    }

    /**
     * `handleToggleDisabled`: on success the partners with that id have `disabled`
     * flipped, and the message follows the first such partner's state before the flip.
     */
    method ToggleDisabled(partnerId: Json, succeeded: bool) returns (message: string)
      modifies this
      ensures togglingId == Null && approvingId == old(approvingId)
      ensures succeeded ==> partners == Toggled(old(partners), partnerId)
      ensures succeeded ==>
                var found := FindById(old(partners), IdOf, partnerId);
                message == if found.Some? && Truthy(Get(found.value, "disabled")) then "Partner enabled!" else "Partner disabled!"
      ensures !succeeded ==> partners == old(partners) && message == "Failed to update partner status"
      ensures total == old(total) && currentPage == old(currentPage) && pageSize == old(pageSize)
      ensures isLoading == old(isLoading)
    {
      togglingId := partnerId;
      var partner := FindById(partners, IdOf, partnerId);
      if succeeded {
        message := if partner.Some? && Truthy(Get(partner.value, "disabled")) then "Partner enabled!" else "Partner disabled!";
        partners := Toggled(partners, partnerId);
      } else {
        message := "Failed to update partner status";
      }
      togglingId := Null;
    }
  }

  /** A partner's id. */
  function IdOf(p: Json): Json { Get(p, "id") }
}
