/**
 * The pure logic inside the data-access layer (lib/supabase.js): the sports
 * normaliser applied to paginated partner rows, the page range and `hasMore`,
 * the disabled-flag flip, the payment-id cleaning of `getPaymentsByIds`, the
 * identifier precedence of `getPartnerDetail` and the plan/batch/course
 * hydration of `getCourseOrders`. Every query is a parameter: a function from
 * what is asked to what the backend answers.
 */
module Supabase {
  import opened Wrappers
  import opened Strings
  import opened Json

  // ------------------------------------------------------------ sports

  /** `trimmed.split(",").map(s => s.trim()).filter(Boolean)`. */
  function CommaParts(t: string): (r: seq<string>)
    ensures forall i :: 0 <= i < |r| ==> r[i] != [] && IsTrimmed(r[i])
  {
    var parts := Split(t, {','});
    var trimmed := seq(|parts|, i requires 0 <= i < |parts| => Trim(parts[i]));
    NonEmptyMembers(trimmed);
    NonEmpty(trimmed)
  }

  function Texts(ss: seq<string>): (r: seq<Json>)
    ensures |r| == |ss| && forall i :: 0 <= i < |ss| ==> r[i] == Str(ss[i])
  {
    seq(|ss|, i requires 0 <= i < |ss| => Str(ss[i]))
  }

  /**
   * `normalizeSports`: falsy gives no sports; an array is returned as it is; text
   * that is a bracketed JSON array gives the parsed array; any other text is split
   * on commas with its brackets left in place; anything else gives no sports.
   */
  function NormalizeSports(value: Json, parse: Parser): (r: seq<Json>)
    ensures !Truthy(value) ==> r == []
    ensures Truthy(value) && value.Arr? ==> r == value.items
    ensures !value.Arr? && !value.Str? ==> r == []
    ensures Truthy(value) && value.Str? ==>
      var trimmed := Trim(value.s);
      StartsWith(trimmed, "[") && EndsWith(trimmed, "]") && parse(trimmed).Some? && parse(trimmed).value.Arr? ==>
        r == parse(trimmed).value.items
  {
    if !Truthy(value) then []
    else match value
      case Arr(items) => items
      case Str(s) =>
        var trimmed := Trim(s);
        var parsed := if StartsWith(trimmed, "[") && EndsWith(trimmed, "]") then parse(trimmed) else None;
        if parsed.Some? && parsed.value.Arr? then parsed.value.items
        else Texts(CommaParts(trimmed))
      case _ => []
  }

  /** A text sport list is its comma-separated words, parsed or not: the only two outcomes. */
  lemma SportsOfText(s: string, parse: Parser)
    requires s != []
    ensures var r := NormalizeSports(Str(s), parse);
      (exists items :: parse(Trim(s)) == Some(Arr(items)) && r == items)
      || r == Texts(CommaParts(Trim(s)))
  {
  }

  /** A word containing neither a comma nor an opening bracket. */
  predicate PlainWord(w: string)
  {
    w != [] && IsTrimmed(w) && forall i :: 0 <= i < |w| ==> w[i] != ',' && w[i] != '['
  }

  /** Plain words joined with commas come back as exactly those words. */
  lemma {:induction false} CommaListRoundTrip(words: seq<string>, parse: Parser)
    requires |words| >= 1 && forall i :: 0 <= i < |words| ==> PlainWord(words[i])
    ensures NormalizeSports(Str(Join(words, ",")), parse) == Texts(words)
  {
    var t := Join(words, ",");
    JoinEnds(words, ",");
    assert IsTrimmed(t);
    assert !StartsWith(t, "[");
    JoinSplit(words, ',');
    var parts := Split(t, {','});
    var trimmed := seq(|parts|, i requires 0 <= i < |parts| => Trim(parts[i]));
    assert trimmed == words;
    NonEmptyOfNonEmpty(words);
  }

  /**
   * Bracketed text that does not parse keeps its brackets: `[tennis]` with a
   * failing parse is the single sport `[tennis]`, where `parseSports` of
   * lib/partners.js strips them.
   */
  lemma {:induction false} UnparsedBracketsKept(w: string, parse: Parser)
    requires PlainWord(w)
    requires parse("[" + w + "]").None?
    ensures NormalizeSports(Str("[" + w + "]"), parse) == [Str("[" + w + "]")]
  {
    var t := "[" + w + "]";
    BracketedWordParts(w);
    assert StartsWith(t, "[") && EndsWith(t, "]");
  }

  lemma BracketedWordParts(w: string)
    requires PlainWord(w)
    ensures var t := "[" + w + "]";
      Trim(t) == t && CommaParts(t) == [t]
  {
    var t := "[" + w + "]";
    assert t[0] == '[' && t[|t| - 1] == ']';
    assert IsTrimmed(t);
    forall i | 0 <= i < |t| ensures t[i] !in {','} {
      if 0 < i < |t| - 1 { assert t[i] == w[i - 1]; }
    }
    SplitNoSeparator(t, {','});
    assert NonEmpty([t]) == [t];
  }

  // ------------------------------------------------------------ whole-table reads

  /**
   * What `getPartners` and `getCustomers` resolve to: an object, not a list, holding
   * the rows under `key` ("partners" or "customers") and the row count under `total`.
   */
  function ListObject(key: string, rows: seq<Json>, total: nat): (r: Json)
    requires key != "total"
    ensures r.Obj? && Truthy(r)
    ensures Get(r, key) == Arr(rows) && Get(r, "total") == Num(total)
  {
    Obj(map[key := Arr(rows), "total" := Num(total)])
  }

  // ------------------------------------------------------------ paginated partners

  /** A PostgREST error: its `code` and `message` as the client library returns them. */
  datatype DbError = DbError(code: Json, message: Json)

  datatype PartnersPage = PartnersPage(partners: seq<Json>, totalCount: int, hasMore: bool, currentPage: int)

  /** A page, or the error `getPartnersPaginated` throws. */
  datatype PageOutcome = PageOk(page: PartnersPage) | PageThrown(message: string)

  /** The inclusive row range `[from, to]` requested for a page. */
  function PageRange(page: int, limit: int): (r: (int, int))
    ensures r.1 - r.0 + 1 == limit
  {
    var from := page * limit;
    (from, from + limit - 1)
  }

  /** Consecutive pages are adjacent ranges: no row is skipped or fetched twice. */
  lemma PagesAdjacent(page: int, limit: int)
    ensures PageRange(page + 1, limit).0 == PageRange(page, limit).1 + 1
  {
  }

  /** `count || 0`: the exact count, `null` (`None`) reading as 0. */
  function CountOrZero(count: Option<int>): int
  {
    if count.Some? && count.value != 0 then count.value else 0
  }

  /** `count ? (from + limit) < count : false`. */
  predicate HasMore(from: int, limit: int, count: Option<int>)
  {
    count.Some? && count.value != 0 && from + limit < count.value
  }

  /** For a valid page there are more rows exactly when the total exceeds the rows up to this page's end. */
  lemma HasMoreMeansRowsBeyond(page: int, limit: int, count: Option<int>)
    requires page >= 0 && limit >= 1
    ensures HasMore(PageRange(page, limit).0, limit, count) <==> (page + 1) * limit < CountOrZero(count)
    ensures HasMore(PageRange(page, limit).0, limit, count) ==> PageRange(page + 1, limit).0 < CountOrZero(count)
  {
    assert page * limit >= 0;
    assert (page + 1) * limit == page * limit + limit;
  }

  /**
   * `{ ...partner, sports: normalizeSports(partner.sports) }` for a row that is an
   * object; the model spreads any other row to no fields, where a string or an
   * array row would spread its indices.
   */
  function WithSports(partner: Json, parse: Parser): (r: Json)
    ensures r.Obj? && Get(r, "sports") == Arr(NormalizeSports(Get(partner, "sports"), parse))
    ensures forall k :: k != "sports" && partner.Obj? ==> Get(r, k) == Get(partner, k)
  {
    var fields := if partner.Obj? then partner.fields else map[];
    Obj(fields["sports" := Arr(NormalizeSports(Get(partner, "sports"), parse))])
  }

  /**
   * `getPartnersPaginated` after the query returns `data`, `error` and `count`:
   * an out-of-range request (PGRST103) is an empty last page, any other error
   * throws, and otherwise every row gets its sports normalised.
   */
  function PaginatedPartners(page: int, limit: int, data: Json, error: Option<DbError>, count: Option<int>, parse: Parser): (r: PageOutcome)
    ensures error.Some? && error.value.code == Str("PGRST103") ==>
      r.PageOk? && r.page.partners == [] && !r.page.hasMore
    ensures error.Some? && error.value.code != Str("PGRST103") ==> r == PageThrown("Unable to fetch partners")
    ensures error.None? ==> r.PageOk? && |r.page.partners| == (if data.Arr? then |data.items| else 0)
    ensures error.None? && data.Arr? ==> forall i :: 0 <= i < |data.items| ==>
      r.page.partners[i] == WithSports(data.items[i], parse)
    ensures r.PageOk? ==> r.page.currentPage == page && r.page.totalCount == CountOrZero(count)
    ensures error.None? ==> (r.page.hasMore <==> HasMore(page * limit, limit, count))
  {
    var (from, _) := PageRange(page, limit);
    if error.Some? then
      if error.value.code == Str("PGRST103") then PageOk(PartnersPage([], CountOrZero(count), false, page))
      else PageThrown("Unable to fetch partners")
    else
      var rows := if data.Arr? then data.items else [];
      var partners := seq(|rows|, i requires 0 <= i < |rows| => WithSports(rows[i], parse));
      PageOk(PartnersPage(partners, CountOrZero(count), HasMore(from, limit, count), page))
  }

  // ------------------------------------------------------------ disabled flag

  /** What `toggleDisabledPartner` writes and the row the update returns, or the error it throws. */
  datatype ToggleOutcome = Written(disabled: bool, row: Json) | ToggleThrown(message: string)

  /**
   * `toggleDisabledPartner`: a missing id, a failed read and a missing row each
   * throw; otherwise the new flag is the negation of the stored one, and a failed
   * update or an update that returns no row throws in turn. The backend's answers
   * are parameters: whether the read failed and the row it found, whether the
   * update failed and the row it returned.
   */
  function ToggleDisabled(partnerId: Json, readFailed: bool, current: Json, updateFailed: bool, updated: Json): (r: ToggleOutcome)
    ensures !Truthy(partnerId) ==> r == ToggleThrown("Partner id is required")
    ensures Truthy(partnerId) && readFailed ==> r == ToggleThrown("Unable to fetch partner status")
    ensures Truthy(partnerId) && !readFailed && !Truthy(current) ==> r == ToggleThrown("Partner not found")
    ensures Truthy(partnerId) && !readFailed && Truthy(current) && updateFailed ==>
      r == ToggleThrown("Unable to update partner status")
    ensures Truthy(partnerId) && !readFailed && Truthy(current) && !updateFailed && !Truthy(updated) ==>
      r == ToggleThrown("Partner not found")
    ensures r.Written? <==> Truthy(partnerId) && !readFailed && Truthy(current) && !updateFailed && Truthy(updated)
    ensures r.Written? ==> (r.disabled <==> !Truthy(Get(current, "disabled"))) && r.row == updated
  {
    if !Truthy(partnerId) then ToggleThrown("Partner id is required")
    else if readFailed then ToggleThrown("Unable to fetch partner status")
    else if !Truthy(current) then ToggleThrown("Partner not found")
    else if updateFailed then ToggleThrown("Unable to update partner status")
    else if !Truthy(updated) then ToggleThrown("Partner not found")
    else Written(!Truthy(Get(current, "disabled")), updated)
  }

  /** Toggling twice restores a boolean flag, and a partner with no flag becomes disabled. */
  lemma ToggleTwice(partnerId: Json, row: map<string, Json>, b: bool, updated: Json)
    requires Truthy(partnerId) && Truthy(updated)
    ensures var first := ToggleDisabled(partnerId, false, Obj(row["disabled" := Bool(b)]), false, updated);
      first == Written(!b, updated) &&
      ToggleDisabled(partnerId, false, Obj(row["disabled" := Bool(first.disabled)]), false, updated) == Written(b, updated)
    ensures "disabled" !in row ==> ToggleDisabled(partnerId, false, Obj(row), false, updated) == Written(true, updated)
  {
  }

  // ------------------------------------------------------------ payment ids

  /** `typeof id === "string" && id.trim() !== ""`. */
  predicate IsIdText(id: Json)
  {
    id.Str? && Trim(id.s) != []
  }

  /** The values kept by `.filter(keep)`, in order. */
  function Where(xs: seq<Json>, keep: Json -> bool): (r: seq<Json>)
    ensures |r| <= |xs|
    ensures forall i :: 0 <= i < |r| ==> keep(r[i]) && r[i] in xs
    ensures forall x :: x in xs && keep(x) ==> x in r
    decreases |xs|
  {
    if xs == [] then []
    else
      var front := Where(xs[..|xs| - 1], keep);
      var last := xs[|xs| - 1];
      assert forall x :: x in xs ==> x in xs[..|xs| - 1] || x == last;
      if keep(last) then front + [last] else front
  }

  /** `Array.from(new Set(xs))`: the first occurrence of each value, in order. */
  function Distinct(xs: seq<Json>): (r: seq<Json>)
    ensures forall x :: x in r <==> x in xs
    ensures forall p, q :: 0 <= p < q < |r| ==> r[p] != r[q]
    decreases |xs|
  {
    if xs == [] then []
    else
      var front := Distinct(xs[..|xs| - 1]);
      var last := xs[|xs| - 1];
      assert forall x :: x in xs ==> x in xs[..|xs| - 1] || x == last;
      if last in front then front else front + [last]
  }

  /** The ids `getPaymentsByIds` queries: its argument's non-blank text ids, each once. */
  function PaymentQueryIds(ids: Json): (r: seq<Json>)
    ensures forall x :: x in r <==> ids.Arr? && x in ids.items && IsIdText(x)
    ensures forall p, q :: 0 <= p < q < |r| ==> r[p] != r[q]
  {
    Distinct(Where(if ids.Arr? then ids.items else [], IsIdText))
  }

  /**
   * `getPaymentsByIds`: no query when no id survives the cleaning; a failed
   * query (`None`) and a non-array answer both give no payments.
   */
  function PaymentsByIds(ids: Json, query: seq<Json> -> Option<Json>): (r: seq<Json>)
    ensures PaymentQueryIds(ids) == [] ==> r == []
    ensures var answer := query(PaymentQueryIds(ids));
      PaymentQueryIds(ids) != [] && answer.Some? && answer.value.Arr? ==> r == answer.value.items
  {
    var unique := PaymentQueryIds(ids);
    if unique == [] then []
    else match query(unique)
      case None => []
      case Some(data) => if data.Arr? then data.items else []
  }

  /** Without a usable id the result does not depend on the backend at all. */
  lemma NoIdsNoQuery(ids: Json, q1: seq<Json> -> Option<Json>, q2: seq<Json> -> Option<Json>)
    requires !ids.Arr? || forall i :: 0 <= i < |ids.items| ==> !IsIdText(ids.items[i])
    ensures PaymentsByIds(ids, q1) == [] && PaymentsByIds(ids, q2) == []
  {
  }

  // ------------------------------------------------------------ partner detail lookup

  /** What one `.eq(column, value).maybeSingle()` query answers. */
  datatype QueryResult = QueryResult(data: Json, error: Option<DbError>)

  /** The backend, asked for the partner row whose `column` equals a value. */
  type DetailQuery = (string, Json) -> QueryResult

  datatype DetailOutcome = DetailFound(column: string, row: Json) | DetailMissing | DetailThrown(message: string)

  /** The identifier columns `getPartnerDetail` tries, in order. */
  const Attempts: seq<string> := ["id", "public_id", "slug"]

  /** `error.code && error.code === "PGRST116"`: no row matched. */
  predicate NoRows(e: DbError)
  {
    Truthy(e.code) && e.code == Str("PGRST116")
  }

  /** `${error?.message || "Unknown error"}`. */
  function ErrorText(e: DbError): string
  {
    if Truthy(e.message) then ToStr(e.message) else "Unknown error"
  }

  /** An attempt that moves on to the next column: a skipped value, no matching row, or an empty answer. */
  predicate Missed(column: string, identifier: Json, query: DetailQuery)
  {
    !Truthy(identifier) ||
    (var res := query(column, identifier);
     if res.error.Some? then NoRows(res.error.value) else !Truthy(res.data))
  }

  /** The outcome of trying the given columns in order. */
  function LookupFrom(columns: seq<string>, identifier: Json, query: DetailQuery): DetailOutcome
    decreases |columns|
  {
    if columns == [] then DetailMissing
    else if !Truthy(identifier) then LookupFrom(columns[1..], identifier, query)
    else
      var res := query(columns[0], identifier);
      if res.error.Some? then
        if NoRows(res.error.value) then LookupFrom(columns[1..], identifier, query)
        else DetailThrown("Unable to fetch partner detail: " + ErrorText(res.error.value))
      else if Truthy(res.data) then DetailFound(columns[0], res.data)
      else LookupFrom(columns[1..], identifier, query)
  }

  /** The row found is the one the first non-missed column answered, and every earlier column missed. */
  lemma {:induction false} FirstHitWins(columns: seq<string>, identifier: Json, query: DetailQuery)
    ensures var r := LookupFrom(columns, identifier, query);
      r.DetailFound? ==>
        exists k :: 0 <= k < |columns| && columns[k] == r.column &&
          query(columns[k], identifier) == QueryResult(r.row, None) && Truthy(r.row) &&
          forall j :: 0 <= j < k ==> Missed(columns[j], identifier, query)
    ensures var r := LookupFrom(columns, identifier, query);
      r == DetailMissing <==> forall j :: 0 <= j < |columns| ==> Missed(columns[j], identifier, query)
    decreases |columns|
  {
    if columns != [] {
      FirstHitWins(columns[1..], identifier, query);
      var r := LookupFrom(columns, identifier, query);
      if !Missed(columns[0], identifier, query) {
        assert r != DetailMissing;
      } else if r.DetailFound? {
        var k :| 0 <= k < |columns[1..]| && columns[1..][k] == r.column &&
          query(columns[1..][k], identifier) == QueryResult(r.row, None) && Truthy(r.row) &&
          forall j :: 0 <= j < k ==> Missed(columns[1..][j], identifier, query);
        assert forall j :: 0 <= j < k + 1 ==> Missed(columns[j], identifier, query) by {
          forall j | 0 <= j < k + 1 ensures Missed(columns[j], identifier, query) {
            if j > 0 { assert columns[j] == columns[1..][j - 1]; }
          }
        }
      }
      if r == DetailMissing {
        forall j | 0 <= j < |columns| ensures Missed(columns[j], identifier, query) {
          if j > 0 { assert columns[j] == columns[1..][j - 1]; }
        }
      }
      if forall j :: 0 <= j < |columns| ==> Missed(columns[j], identifier, query) {
        assert Missed(columns[0], identifier, query);
        forall j | 0 <= j < |columns[1..]| ensures Missed(columns[1..][j], identifier, query) {
          assert columns[1..][j] == columns[j + 1];
        }
      }
    }
  }

  /** `getPartnerDetail` up to the related-row fetches: an empty identifier throws before any query. */
  function PartnerDetailLookup(identifier: Json, query: DetailQuery): (r: DetailOutcome)
    ensures !Truthy(identifier) ==> r == DetailThrown("Partner identifier is required")
    ensures r.DetailFound? ==> r.column in Attempts
  {
    if !Truthy(identifier) then DetailThrown("Partner identifier is required")
    else
      FirstHitWins(Attempts, identifier, query);
      LookupFrom(Attempts, identifier, query)
  }

  /** An `id` hit wins over the other columns; a missed `id` falls through to `public_id`. */
  lemma IdPrecedence(identifier: Json, query: DetailQuery)
    requires Truthy(identifier)
    ensures var res := query("id", identifier);
      res.error.None? && Truthy(res.data) ==> PartnerDetailLookup(identifier, query) == DetailFound("id", res.data)
    ensures var res := query("public_id", identifier);
      Missed("id", identifier, query) && res.error.None? && Truthy(res.data) ==>
      PartnerDetailLookup(identifier, query) == DetailFound("public_id", res.data)
  {
    assert Attempts[1..] == ["public_id", "slug"];
  }

  /** The loop over the attempts, returning at the first row found. */
  method FindPartnerDetail(identifier: Json, query: DetailQuery) returns (r: DetailOutcome)
    ensures r == PartnerDetailLookup(identifier, query)
  {
    if !Truthy(identifier) {
      return DetailThrown("Partner identifier is required");
    }
    for i := 0 to |Attempts|
      invariant LookupFrom(Attempts[i..], identifier, query) == LookupFrom(Attempts, identifier, query)
    {
      var column := Attempts[i];
      assert Attempts[i..][1..] == Attempts[i + 1..];
      if !Truthy(identifier) {
        continue;
      }
      var res := query(column, identifier);
      if res.error.Some? {
        if NoRows(res.error.value) {
          continue;
        }
        return DetailThrown("Unable to fetch partner detail: " + ErrorText(res.error.value));
      }
      if Truthy(res.data) {
        return DetailFound(column, res.data);
      }
    }
    r := DetailMissing;
  }

  // ------------------------------------------------------------ course-order hydration

  /** `rows.map(r => r?.[key]).filter(Boolean)`. */
  function TruthyColumn(rows: seq<Json>, key: string): (r: seq<Json>)
    ensures forall x :: x in r <==> exists i :: 0 <= i < |rows| && Truthy(Get(rows[i], key)) && Get(rows[i], key) == x
    decreases |rows|
  {
    if rows == [] then []
    else
      var front := rows[..|rows| - 1];
      var v := Get(rows[|rows| - 1], key);
      var r := TruthyColumn(front, key) + (if Truthy(v) then [v] else []);
      assert forall i :: 0 <= i < |front| ==> front[i] == rows[i];
      r
  }

  lemma TruthyColumnHas(rows: seq<Json>, key: string, i: nat)
    requires i < |rows|
    ensures Truthy(Get(rows[i], key)) ==> Get(rows[i], key) in TruthyColumn(rows, key)
  {
  }

  /** `Map.set(row.id, row)` for every row with a truthy id: a later row with the same id wins. */
  function IdIndex(rows: seq<Json>): map<Json, Json>
    decreases |rows|
  {
    if rows == [] then map[]
    else
      var last := rows[|rows| - 1];
      var m := IdIndex(rows[..|rows| - 1]);
      if Truthy(last) && Truthy(Get(last, "id")) then m[Get(last, "id") := last] else m
  }

  /** An id is a key exactly when some row carries it. */
  lemma {:induction false} IdIndexKeys(rows: seq<Json>, k: Json)
    ensures k in IdIndex(rows) <==> exists i :: 0 <= i < |rows| && Truthy(Get(rows[i], "id")) && Get(rows[i], "id") == k
    decreases |rows|
  {
    if rows != [] {
      var front := rows[..|rows| - 1];
      IdIndexKeys(front, k);
      if exists i :: 0 <= i < |rows| && Truthy(Get(rows[i], "id")) && Get(rows[i], "id") == k {
        var i :| 0 <= i < |rows| && Truthy(Get(rows[i], "id")) && Get(rows[i], "id") == k;
        if i < |front| {
          assert front[i] == rows[i];
        }
      }
      if k in IdIndex(front) {
        var i :| 0 <= i < |front| && Truthy(Get(front[i], "id")) && Get(front[i], "id") == k;
        assert rows[i] == front[i];
      }
    }
  }

  /** A key maps to the last row carrying it. */
  lemma {:induction false} IdIndexLast(rows: seq<Json>, k: Json)
    requires k in IdIndex(rows)
    ensures exists i ::
      && 0 <= i < |rows| && IdIndex(rows)[k] == rows[i] && Get(rows[i], "id") == k
      && forall j :: i < j < |rows| ==> Get(rows[j], "id") != k
    decreases |rows|
  {
    var front := rows[..|rows| - 1];
    var last := rows[|rows| - 1];
    IdIndexKeys(rows, k);
    if Truthy(last) && Truthy(Get(last, "id")) && Get(last, "id") == k {
      assert IdIndex(rows)[k] == rows[|rows| - 1];
    } else {
      assert IdIndex(rows)[k] == IdIndex(front)[k];
      IdIndexLast(front, k);
      var i :| 0 <= i < |front| && IdIndex(front)[k] == front[i] && Get(front[i], "id") == k &&
        forall j :: i < j < |front| ==> Get(front[j], "id") != k;
      assert rows[i] == front[i];
      assert forall j :: i < j < |rows| - 1 ==> rows[j] == front[j];
      assert Get(last, "id") != k;
    }
  }

  /** The loop that fills one of `plansMap`, `batchesMap` and `coursesMap`. */
  method IndexById(rows: seq<Json>) returns (m: map<Json, Json>)
    ensures m == IdIndex(rows)
  {
    m := map[];
    for i := 0 to |rows|
      invariant m == IdIndex(rows[..i])
    {
      assert rows[..i + 1][..i] == rows[..i];
      var row := rows[i];
      if Truthy(row) && Truthy(Get(row, "id")) {
        m := m[Get(row, "id") := row];
      }
    }
    assert rows[..|rows|] == rows;
  }

  /** The loop adding each row's truthy `key` to the insertion-ordered id set. */
  method AddIds(ids: seq<Json>, rows: seq<Json>, key: string, ghost before: seq<Json>) returns (out: seq<Json>)
    requires ids == Distinct(before)
    ensures out == Distinct(before + TruthyColumn(rows, key))
  {
    out := ids;
    assert before + TruthyColumn(rows[..0], key) == before;
    for i := 0 to |rows|
      invariant out == Distinct(before + TruthyColumn(rows[..i], key))
    {
      assert rows[..i + 1][..i] == rows[..i];
      var v := Get(rows[i], key);
      var seen := before + TruthyColumn(rows[..i], key);
      if Truthy(v) {
        assert before + TruthyColumn(rows[..i + 1], key) == seen + [v];
        assert (seen + [v])[..|seen|] == seen;
        if v !in out {
          out := out + [v];
        }
      } else {
        assert before + TruthyColumn(rows[..i + 1], key) == seen;
      }
    }
    assert rows[..|rows|] == rows;
  }

  /** `map.get(key)`: `undefined` for a missing key. */
  function Lookup(m: map<Json, Json>, key: Json): Json
  {
    if key in m then m[key] else Undefined
  }

  /** The own fields a spread `{...v}` copies; a value that is not a keyed object copies none. */
  function Spread(v: Json): map<string, Json>
  {
    if v.Obj? then v.fields else map[]
  }

  /** The lookups the hydration builds. */
  datatype Lookups = Lookups(plans: map<Json, Json>, batches: map<Json, Json>, courses: map<Json, Json>)

  /**
   * The course a plan resolves to: the course found under its own `course_id`,
   * else the course found under its batch's `course_id`, else null.
   */
  function ResolvedCourse(plan: Json, batch: Json, courses: map<Json, Json>): (r: Json)
    ensures Truthy(Get(plan, "course_id")) && Truthy(Lookup(courses, Get(plan, "course_id"))) ==>
      r == Lookup(courses, Get(plan, "course_id"))
    ensures !(Truthy(Get(plan, "course_id")) && Truthy(Lookup(courses, Get(plan, "course_id")))) ==>
      if Truthy(Get(batch, "course_id")) && Truthy(Lookup(courses, Get(batch, "course_id")))
      then r == Lookup(courses, Get(batch, "course_id"))
      else r == Null
    ensures !Truthy(r) ==> r == Null
  {
    var fromPlan := if Truthy(Get(plan, "course_id")) then Lookup(courses, Get(plan, "course_id")) else Null;
    var fromBatch := if Truthy(Get(batch, "course_id")) then Lookup(courses, Get(batch, "course_id")) else Null;
    Or(Or(fromPlan, fromBatch), Null)
  }

  /** One enrollment after the join (the `enrollments.map` callback). */
  function HydrateEnrollment(enrollment: Json, lookups: Lookups): Json
  {
    var planId := Get(enrollment, "plan_id");
    if !Truthy(planId) then enrollment
    else
      var plan := Lookup(lookups.plans, planId);
      if !Truthy(plan) then Obj(Spread(enrollment)["plan" := Null])
      else
        var batch := if Truthy(Get(plan, "batch_id")) then Lookup(lookups.batches, Get(plan, "batch_id")) else Null;
        var course := ResolvedCourse(plan, batch, lookups.courses);
        var batchWithCourse :=
          if Truthy(batch) then Obj(Spread(batch)["course" := Coalesce(Get(batch, "course"), course)]) else Null;
        Obj(Spread(enrollment)["plan" := Obj(Spread(plan)["batch" := batchWithCourse]["course" := course])])
  }

  /**
   * The join's promises: an enrollment without a plan id is untouched, an unknown
   * plan becomes `null`, and otherwise the plan carries its batch and the course
   * resolved through the plan first and the batch second, and nothing else of the
   * enrollment changes.
   */
  lemma HydrationCases(enrollment: Json, lookups: Lookups)
    requires enrollment.Obj?
    ensures !Truthy(Get(enrollment, "plan_id")) ==> HydrateEnrollment(enrollment, lookups) == enrollment
    ensures var r := HydrateEnrollment(enrollment, lookups);
      forall k :: k != "plan" ==> Get(r, k) == Get(enrollment, k)
    ensures var planId := Get(enrollment, "plan_id");
      Truthy(planId) && !Truthy(Lookup(lookups.plans, planId)) ==> Get(HydrateEnrollment(enrollment, lookups), "plan") == Null
    ensures var planId := Get(enrollment, "plan_id");
      var plan := Lookup(lookups.plans, planId);
      var batch := if Truthy(Get(plan, "batch_id")) then Lookup(lookups.batches, Get(plan, "batch_id")) else Null;
      var joined := Get(HydrateEnrollment(enrollment, lookups), "plan");
      Truthy(planId) && Truthy(plan) ==>
        Get(joined, "course") == ResolvedCourse(plan, batch, lookups.courses) &&
        (Truthy(batch) ==> Get(joined, "batch").Obj? && Get(Get(joined, "batch"), "id") == Get(batch, "id")) &&
        (!Truthy(batch) ==> Get(joined, "batch") == Null) &&
        (plan.Obj? ==> Get(joined, "id") == Get(plan, "id"))
    ensures var planId := Get(enrollment, "plan_id");
      var plan := Lookup(lookups.plans, planId);
      var joined := Get(HydrateEnrollment(enrollment, lookups), "plan");
      Truthy(planId) && plan.Obj? ==>
        joined.Obj? && forall k :: k in plan.fields && k != "batch" && k != "course" ==> Get(joined, k) == Get(plan, k)
    ensures var planId := Get(enrollment, "plan_id");
      var plan := Lookup(lookups.plans, planId);
      var batch := if Truthy(Get(plan, "batch_id")) then Lookup(lookups.batches, Get(plan, "batch_id")) else Null;
      var joinedBatch := Get(Get(HydrateEnrollment(enrollment, lookups), "plan"), "batch");
      Truthy(planId) && Truthy(plan) && batch.Obj? ==>
        Get(joinedBatch, "course") == Coalesce(Get(batch, "course"), ResolvedCourse(plan, batch, lookups.courses)) &&
        forall k :: k in batch.fields && k != "course" ==> Get(joinedBatch, k) == Get(batch, k)
  {
  }

  /** A non-empty array of rows from a query that did not fail. */
  predicate HasRows(answer: Option<Json>)
  {
    answer.Some? && answer.value.Arr? && |answer.value.items| > 0
  }

  /** The backend, asked for the rows of a table whose `id` is among the given ids; `None` is a query error. */
  type RowsQuery = (string, seq<Json>) -> Option<Json>

  /** The ids whose plans are fetched. */
  function PlanIds(enrollments: seq<Json>): seq<Json>
  {
    Distinct(TruthyColumn(enrollments, "plan_id"))
  }

  /** The course lookup, fetched for the course ids of the plans first and then of the batches. */
  function CourseLookup(plans: seq<Json>, batches: seq<Json>, query: RowsQuery): map<Json, Json>
  {
    var courseIds := Distinct(TruthyColumn(plans, "course_id") + TruthyColumn(batches, "course_id"));
    var coursesData := query("courses", courseIds);
    if courseIds != [] && HasRows(coursesData) then IdIndex(coursesData.value.items) else map[]
  }

  /** The lookups once plans came back: batches only for their batch ids, courses only when batches came back. */
  function LookupsAfterPlans(plans: seq<Json>, query: RowsQuery): (r: Lookups)
    ensures r.plans == IdIndex(plans)
  {
    var batchIds := Distinct(TruthyColumn(plans, "batch_id"));
    var batchesData := query("batches", batchIds);
    if batchIds == [] || !HasRows(batchesData) then Lookups(IdIndex(plans), map[], map[])
    else
      var batches := batchesData.value.items;
      Lookups(IdIndex(plans), IdIndex(batches), CourseLookup(plans, batches, query))
  }

  /**
   * The lookups after the fetch chain: batches are fetched only when plans came
   * back, and courses only when batches came back; a failed step leaves its
   * lookup and every later one empty.
   */
  function LookupsOf(enrollments: seq<Json>, query: RowsQuery): (r: Lookups)
    ensures !HasRows(query("batch_plans", PlanIds(enrollments))) ==> r == Lookups(map[], map[], map[])
  {
    var planIds := PlanIds(enrollments);
    var plansData := query("batch_plans", planIds);
    if planIds == [] || !HasRows(plansData) then Lookups(map[], map[], map[])
    else LookupsAfterPlans(plansData.value.items, query)
  }

  /** The course step: two loops fill the id set, then one query fills the lookup. */
  method FetchCourses(plans: seq<Json>, batches: seq<Json>, query: RowsQuery) returns (courses: map<Json, Json>)
    ensures courses == CourseLookup(plans, batches, query)
  {
    var courseIds := AddIds([], plans, "course_id", []);
    assert [] + TruthyColumn(plans, "course_id") == TruthyColumn(plans, "course_id");
    courseIds := AddIds(courseIds, batches, "course_id", TruthyColumn(plans, "course_id"));
    courses := map[];
    if |courseIds| > 0 {
      var coursesData := query("courses", courseIds);
      if HasRows(coursesData) {
        courses := IndexById(coursesData.value.items);
      }
    }
  }

  /** The batch step and, inside it, the course step. */
  method FetchAfterPlans(plans: seq<Json>, query: RowsQuery) returns (lookups: Lookups)
    ensures lookups == LookupsAfterPlans(plans, query)
  {
    var planLookup := IndexById(plans);
    lookups := Lookups(planLookup, map[], map[]);
    var batchIds := Distinct(TruthyColumn(plans, "batch_id"));
    if |batchIds| > 0 {
      var batchesData := query("batches", batchIds);
      if HasRows(batchesData) {
        var batchRows := batchesData.value.items;
        var batchLookup := IndexById(batchRows);
        var courses := FetchCourses(plans, batchRows, query);
        lookups := Lookups(planLookup, batchLookup, courses);
      }
    }
  }

  /**
   * Courses are looked up only inside the batch step: when no batch comes back,
   * no enrollment gets a course, even through its plan's own `course_id`.
   */
  lemma CourseNeedsBatches(enrollments: seq<Json>, query: RowsQuery)
    requires var planIds := PlanIds(enrollments);
      var plans := query("batch_plans", planIds);
      HasRows(plans) ==> !HasRows(query("batches", Distinct(TruthyColumn(plans.value.items, "batch_id"))))
    ensures LookupsOf(enrollments, query).courses == map[]
    ensures forall i :: 0 <= i < |enrollments| && Truthy(Get(enrollments[i], "plan_id")) ==>
      !Truthy(Get(Get(HydrateEnrollment(enrollments[i], LookupsOf(enrollments, query)), "plan"), "course"))
  {
  }

  /** The enrollments after the join. */
  function Hydration(enrollments: seq<Json>, lookups: Lookups): (r: seq<Json>)
    ensures |r| == |enrollments|
    ensures forall i :: 0 <= i < |r| ==> r[i] == HydrateEnrollment(enrollments[i], lookups)
  {
    seq(|enrollments|, i requires 0 <= i < |enrollments| => HydrateEnrollment(enrollments[i], lookups))
  }

  /** With no plan id among the enrollments they are returned untouched. */
  lemma NoPlanIdsUnchanged(enrollments: seq<Json>, lookups: Lookups)
    requires PlanIds(enrollments) == []
    ensures Hydration(enrollments, lookups) == enrollments
  {
    forall i | 0 <= i < |enrollments| ensures !Truthy(Get(enrollments[i], "plan_id")) {
      TruthyColumnHas(enrollments, "plan_id", i);
    }
  }

  /**
   * `getCourseOrders` after the enrollment query: the three lookups are filled
   * by loops over what each follow-up query returned, then every enrollment is
   * joined with them.
   */
  method HydrateCourseOrders(enrollments: seq<Json>, query: RowsQuery) returns (r: seq<Json>)
    ensures enrollments == [] ==> r == []
    ensures r == Hydration(enrollments, LookupsOf(enrollments, query))
  {
    if |enrollments| == 0 {
      return [];
    }
    var planIds := PlanIds(enrollments);
    if |planIds| == 0 {
      NoPlanIdsUnchanged(enrollments, LookupsOf(enrollments, query));
      return enrollments;
    }
    var lookups := Lookups(map[], map[], map[]);
    var plansData := query("batch_plans", planIds);
    if HasRows(plansData) {
      lookups := FetchAfterPlans(plansData.value.items, query);
    }
    r := Hydration(enrollments, lookups);
  }
}
