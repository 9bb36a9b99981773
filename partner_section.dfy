/**
 * What the courses and the turfs sections of a partner's page share
 * (components/partners/partner-courses-section.jsx and
 * components/partners/partner-turfs-section.jsx each carry their own copy):
 * `===` on ids, `hasPositiveCount`, the `URLSearchParams` query the links to the
 * orders page are built from and read back by that page, finding the row
 * opened in the side sheet, and the section state (the opened row and the
 * status and sport filters).
 */
module PartnerSection {
  import opened Wrappers
  import opened Strings
  import opened Json
  import OrdersTabs

  /** `a === b` on the primitive ids the rows carry: `NaN` equals nothing. */
  predicate SameId(a: Json, b: Json)
  {
    a == b && !a.NaN?
  }

  /** No two rows share an id. */
  predicate DistinctIds(rows: seq<Json>)
  {
    forall i, j :: 0 <= i < j < |rows| ==> !SameId(Get(rows[i], "id"), Get(rows[j], "id"))
  }

  /** `Number.isFinite(Number(value)) && Number(value) > 0`. */
  predicate HasPositiveCount(value: Json)
  {
    var n := ToNumber(value);
    n.Some? && n.value > 0
  }

  /** `filtersActive`: either filter moved off "all". */
  predicate FiltersActive(statusFilter: string, sportFilter: string)
  {
    statusFilter != "all" || sportFilter != "all"
  }

  // ------------------------------------------------------------ links to the orders page

  /** `if (v) params.set(key, v)`. */
  function SetIfTruthy(q: map<string, string>, key: string, v: Json): (r: map<string, string>)
    ensures key in r <==> key in q || Truthy(v)
    ensures Truthy(v) ==> r[key] == ToStr(v)
  {
    if Truthy(v) then q[key := ToStr(v)] else q
  }

  /** `cleanParam(searchParams.get(key))` on the orders page. */
  function ParamOf(q: map<string, string>, key: string): string
  {
    if key in q then Trim(q[key]) else ""
  }

  /** The filters the orders page reads from a query. */
  function FiltersOf(q: map<string, string>): OrdersTabs.Filters
  {
    OrdersTabs.Filters(ParamOf(q, "partner_id"), ParamOf(q, "course_id"), ParamOf(q, "batch_id"),
      ParamOf(q, "plan_id"), ParamOf(q, "turf_id"), ParamOf(q, "court_id"))
  }

  /** An id as the pages pass it: when truthy, trimmed text. */
  predicate IdLike(v: Json)
  {
    Truthy(v) ==> v.Str? && IsTrimmed(v.s)
  }

  /** The text an id travels as: its string when truthy, else nothing. */
  function IdText(v: Json): string
  {
    if Truthy(v) && v.Str? then v.s else ""
  }

  /** Setting one parameter: it reads back as the id's text. */
  lemma ParamSet(q: map<string, string>, key: string, v: Json)
    requires IdLike(v)
    ensures ParamOf(SetIfTruthy(q, key, v), key) == (if Truthy(v) then IdText(v) else ParamOf(q, key))
  {
  }

  /** Setting one parameter leaves another as it was. */
  lemma ParamKept(q: map<string, string>, key: string, v: Json, other: string)
    requires other != key
    ensures ParamOf(SetIfTruthy(q, key, v), other) == ParamOf(q, other)
  {
  }

  // ------------------------------------------------------------ the opened row

  /** `rows.find(row => row.id === selectedId) ?? null`. */
  function FindById<T>(rows: seq<T>, idOf: T -> Json, selectedId: Json): (r: Option<T>)
    ensures r.Some? ==> r.value in rows && SameId(idOf(r.value), selectedId)
    ensures r.None? <==> forall i :: 0 <= i < |rows| ==> !SameId(idOf(rows[i]), selectedId)
    decreases |rows|
  {
    if rows == [] then None
    else if SameId(idOf(rows[0]), selectedId) then Some(rows[0])
    else
      var r := FindById(rows[1..], idOf, selectedId);
      assert forall i :: 1 <= i < |rows| ==> rows[i] == rows[1..][i - 1];
      r
  }

  /** The row found is the first with that id: every row before the one found has another id. */
  lemma {:induction false} FindByIdFirst<T>(rows: seq<T>, idOf: T -> Json, selectedId: Json)
    requires FindById(rows, idOf, selectedId).Some?
    ensures exists i ::
              && 0 <= i < |rows| && rows[i] == FindById(rows, idOf, selectedId).value
              && forall j :: 0 <= j < i ==> !SameId(idOf(rows[j]), selectedId)
    decreases |rows|
  {
    if !SameId(idOf(rows[0]), selectedId) {
      var tail := rows[1..];
      FindByIdFirst(tail, idOf, selectedId);
      var i :|
              && 0 <= i < |tail| && tail[i] == FindById(tail, idOf, selectedId).value
              && forall j :: 0 <= j < i ==> !SameId(idOf(tail[j]), selectedId);
      assert rows[i + 1] == tail[i];
      assert forall j :: 1 <= j < i + 1 ==> rows[j] == tail[j - 1];
    } else {
      assert rows[0] == FindById(rows, idOf, selectedId).value;
    }
  }

  /** The section's own state: the row opened in the side sheet and the two filters. */
  class SectionState {
    var selectedId: Json
    var statusFilter: string
    var sportFilter: string

    constructor()
      ensures selectedId == Null && statusFilter == "all" && sportFilter == "all"
    {
      selectedId := Null;
      statusFilter := "all";
      sportFilter := "all";
    }

    method SetStatusFilter(value: string)
      modifies this
      ensures statusFilter == value && sportFilter == old(sportFilter) && selectedId == old(selectedId)
    {
      statusFilter := value;
    }

    method SetSportFilter(value: string)
      modifies this
      ensures sportFilter == value && statusFilter == old(statusFilter) && selectedId == old(selectedId)
    {
      sportFilter := value;
    }

    /** `handleFiltersClear`: both filters back to "all", which lists every row again. */
    method FiltersClear()
      modifies this
      ensures !FiltersActive(statusFilter, sportFilter) && selectedId == old(selectedId)
    {
      statusFilter := "all";
      sportFilter := "all";
    }

    /** `handleOpen`. */
    method Open(id: Json)
      modifies this
      ensures selectedId == id
      ensures statusFilter == old(statusFilter) && sportFilter == old(sportFilter)
    {
      selectedId := id;
    }

    /** `handleSheetChange`: closing the sheet forgets the row; opening changes nothing. */
    method SheetChange(open: bool)
      modifies this
      ensures selectedId == if open then old(selectedId) else Null
      ensures statusFilter == old(statusFilter) && sportFilter == old(sportFilter)
    {
      if !open {
        selectedId := Null;
      }
    }
  }

  /** Once the sheet has closed no row is found, as long as no row has a `null` id. */
  lemma ClosedSheetSelectsNothing<T>(rows: seq<T>, idOf: T -> Json)
    requires forall i :: 0 <= i < |rows| ==> !idOf(rows[i]).Null?
    ensures FindById(rows, idOf, Null).None?
  {
  }
}
