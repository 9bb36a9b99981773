/**
 * The partners list (components/partners/partners-table.jsx): the rows the
 * table derives from each partner (status, sports, address line, map link),
 * the status and type badges, the type and sport drop-downs, the three
 * filters, the address column and the approve / enable-disable buttons.
 * `JSON.parse` is a parameter.
 */
module PartnersTable {
  import opened Wrappers
  import opened Strings
  import opened Json
  import opened Seqs
  import opened FilterOptions
  import PartnerSection
  import Partners
  import RecordHelpers

  // ------------------------------------------------------------ badges

  datatype StatusStyle = StatusStyle(text: string, variant: string)

  const PendingStyle := StatusStyle("Pending", "warning")
  const ActiveStyle := StatusStyle("Active", "success")
  const SuspendedStyle := StatusStyle("Suspended", "destructive")

  /** `resolveStatus`: the style of the lower-cased key, pending for an empty or unknown key. */
  function ResolveStatus(status: string): (r: StatusStyle)
    ensures r == ActiveStyle <==> Lower(status) == "active"
    ensures r == SuspendedStyle <==> Lower(status) == "suspended"
    ensures r == PendingStyle <==> Lower(status) != "active" && Lower(status) != "suspended"
  {
    if status == [] then PendingStyle
    else
      var key := Lower(status);
      if key == "active" then ActiveStyle
      else if key == "suspended" then SuspendedStyle
      else PendingStyle
  }

  /**
   * `resolveType`: the badge colour of the lower-cased type, academy's for a falsy
   * or unknown type (a truthy type that is not a string is not modelled, see README).
   */
  function ResolveType(partnerType: Json): (r: string)
    ensures r in {"color1", "color2", "color3"}
    ensures r == "color2" <==> partnerType.Str? && Lower(partnerType.s) == "gym"
    ensures r == "color3" <==> partnerType.Str? && Lower(partnerType.s) == "turf"
  {
    if !Truthy(partnerType) || !partnerType.Str? then "color1"
    else
      var key := Lower(partnerType.s);
      if key == "gym" then "color2" else if key == "turf" then "color3" else "color1"
  }

  /** The derived status: `disabled` gives suspended whatever `verified` says, then `verified` gives active. */
  function DerivedStatus(partner: Json): (r: string)
    ensures r == "suspended" <==> Truthy(Get(partner, "disabled"))
    ensures r == "active" <==> !Truthy(Get(partner, "disabled")) && Truthy(Get(partner, "verified"))
    ensures r == "pending" <==> !Truthy(Get(partner, "disabled")) && !Truthy(Get(partner, "verified"))
  {
    if Truthy(Get(partner, "disabled")) then "suspended"
    else if Truthy(Get(partner, "verified")) then "active"
    else "pending"
  }

  /** The status badge always shows the derived status. */
  lemma StatusBadgeOfDerived(partner: Json)
    ensures ResolveStatus(DerivedStatus(partner)) ==
      if Truthy(Get(partner, "disabled")) then SuspendedStyle
      else if Truthy(Get(partner, "verified")) then ActiveStyle
      else PendingStyle
  {
  }

  /**
   * The list's own status (lib/partners.js) reads `status` and `verified` and never
   * `disabled`: a disabled, verified partner is active there and suspended here.
   */
  lemma StatusDisagreesWithList()
    ensures var p := Obj(map["disabled" := Bool(true), "verified" := Bool(true)]);
      DerivedStatus(p) == "suspended" && Partners.PartnerStatus(p) == "active"
  {
  }

  // ------------------------------------------------------------ sports

  predicate NotQuote(c: char) { !RecordHelpers.IsQuote(c) }

  predicate NotDoubleQuote(c: char) { c != '"' }

  /** `startsWith("[") && endsWith("]")`: one character cannot be both, so there are at least two. */
  predicate Bracketed(t: string)
  {
    2 <= |t| && t[0] == '[' && t[|t| - 1] == ']'
  }

  /** `trimmed.slice(1, -1).split(",")`, each part cleaned by `clean`. */
  function SplitInner(t: string, clean: string -> string): (r: seq<Json>)
    requires Bracketed(t)
    ensures var parts := Split(t[1..|t| - 1], {','});
      |r| == |parts| && forall i :: 0 <= i < |r| ==> r[i] == Str(clean(parts[i]))
  {
    var parts := Split(t[1..|t| - 1], {','});
    seq(|parts|, i requires 0 <= i < |parts| => Str(clean(parts[i])))
  }

  /** The row's fallback: `s.trim().replace(/"/g, '').replace(/'/g, '')`. */
  function CleanPart(s: string): (r: string)
    ensures forall i :: 0 <= i < |r| ==> !RecordHelpers.IsQuote(r[i])
  {
    Filter(Trim(s), NotQuote)
  }

  /** The drop-down's fallback: `s.trim().replace(/"/g, '')`. */
  function CleanPartDouble(s: string): (r: string)
    ensures forall i :: 0 <= i < |r| ==> r[i] != '"'
  {
    Filter(Trim(s), NotDoubleQuote)
  }

  /**
   * The sports the row keeps: an array as it is; a non-blank string, trimmed, parsed
   * as JSON when bracketed, else split on commas with all quotes removed; any other
   * non-blank string as a single sport; anything else, nothing.
   */
  function NormalizeSports(sports: Json, parse: Parser): (r: seq<Json>)
    ensures sports.Arr? ==> r == sports.items
    ensures !sports.Arr? && !sports.Str? ==> r == []
    ensures sports.Str? && IsBlank(sports.s) ==> r == []
    ensures sports.Str? && !IsBlank(sports.s) && !Bracketed(Trim(sports.s)) ==> r == [Str(Trim(sports.s))]
    ensures sports.Str? && Bracketed(Trim(sports.s)) && parse(Trim(sports.s)).None? ==>
              r == SplitInner(Trim(sports.s), CleanPart)
  {
    if sports.Arr? then sports.items
    else if !sports.Str? || Trim(sports.s) == [] then []
    else
      var t := Trim(sports.s);
      if Bracketed(t) then
        match parse(t)
        case Some(v) => if v.Arr? then v.items else []
        case None => SplitInner(t, CleanPart)
      else [Str(t)]
  }

  /**
   * The normalisation `sportOptions` repeats (it removes only double quotes and keeps
   * a blank string as one empty sport). The rows it reads already hold an array,
   * which it keeps as it is.
   */
  function OptionSports(sports: Json, parse: Parser): (r: seq<Json>)
    ensures sports.Arr? ==> r == sports.items
  {
    if sports.Arr? then sports.items
    else if !sports.Str? then []
    else
      var t := Trim(sports.s);
      if Bracketed(t) then
        match parse(t)
        case Some(v) => if v.Arr? then v.items else []
        case None => SplitInner(t, CleanPartDouble)
      else [Str(t)]
  }

  /** A sport name with no comma, no bracket and no quote anywhere. */
  predicate PlainName(w: string)
  {
    Partners.CommaFree(w) && forall i :: 0 <= i < |w| ==> NotQuote(w[i])
  }

  /** `["a","b"]` reads as the two sports whether the text parses as JSON or falls back to the split. */
  lemma BracketedSportsPair(a: string, b: string, parse: Parser)
    requires PlainName(a) && PlainName(b)
    requires var t := "[" + RecordHelpers.Quoted(a) + "," + RecordHelpers.Quoted(b) + "]";
      parse(t) == Some(Arr([Str(a), Str(b)])) || parse(t).None?
    ensures NormalizeSports(Str("[" + RecordHelpers.Quoted(a) + "," + RecordHelpers.Quoted(b) + "]"), parse) ==
            [Str(a), Str(b)]
  {
    var t := "[" + RecordHelpers.Quoted(a) + "," + RecordHelpers.Quoted(b) + "]";
    assert t[0] == '[' && t[|t| - 1] == ']';
    assert Trim(t) == t;
    assert Bracketed(t);
    if parse(t).None? {
      PairFallback(a, b);
    }
  }

  /** The fallback splits the inside of `["a","b"]` at its one comma and drops the quotes. */
  lemma PairFallback(a: string, b: string)
    requires PlainName(a) && PlainName(b)
    ensures var t := "[" + RecordHelpers.Quoted(a) + "," + RecordHelpers.Quoted(b) + "]";
      Bracketed(t) && SplitInner(t, CleanPart) == [Str(a), Str(b)]
  {
    var qa, qb := RecordHelpers.Quoted(a), RecordHelpers.Quoted(b);
    var t := "[" + qa + "," + qb + "]";
    assert t[0] == '[' && t[|t| - 1] == ']';
    assert t[1..|t| - 1] == qa + [','] + qb;
    Partners.CommaFreeSplit(a);
    Partners.CommaFreeSplit(b);
    SplitAtSeparator(qa, ',', qb, {','});
    assert Split(t[1..|t| - 1], {','}) == [qa, qb];
    QuotesRemoved(a);
    QuotesRemoved(b);
  }

  /** A quoted name loses its quotes. */
  lemma QuotesRemoved(w: string)
    requires PlainName(w)
    ensures CleanPart(RecordHelpers.Quoted(w)) == w
  {
    var q := RecordHelpers.Quoted(w);
    assert q[0] == '"' && q[|q| - 1] == '"';
    assert Trim(q) == q;
    assert q == ['"'] + w + ['"'];
    FilterAppend(['"'] + w, ['"'], NotQuote);
    FilterAppend(['"'], w, NotQuote);
    assert Filter(['"'], NotQuote) == [];
  }

  lemma {:induction false} FilterAppend(a: string, b: string, keep: char -> bool)
    ensures Filter(a + b, keep) == Filter(a, keep) + Filter(b, keep)
    decreases |a|
  {
    if a == [] {
      assert a + b == b;
    } else {
      assert (a + b)[1..] == a[1..] + b;
      FilterAppend(a[1..], b, keep);
    }
  }

  // ------------------------------------------------------------ address

  /** The five parts `buildAddressLine` reads, in order. */
  function AddressFields(address: Json): (r: seq<Json>)
    ensures |r| == 5
  {
    [Get(address, "street"), Get(address, "area"), Get(address, "city"), Get(address, "state"), Get(address, "pincode")]
  }

  /** `partner.address`, parsed when it is non-blank text; `None` when that text is not JSON. */
  function AddressValue(partner: Json, parse: Parser): Option<Json>
  {
    var address := Get(partner, "address");
    if address.Str? && Trim(address.s) != [] then parse(address.s) else Some(address)
  }

  /**
   * `buildAddressLine`: "" for a falsy partner; the trimmed text of an address that is
   * not JSON; "" for an address that is not an object; else the truthy parts among
   * street, area, city, state and pincode joined with ", ".
   */
  function AddressLine(partner: Json, parse: Parser): (r: string)
    ensures !Truthy(partner) ==> r == ""
  {
    if !Truthy(partner) then ""
    else
      var address := AddressValue(partner, parse);
      if address.None? then Trim(Get(partner, "address").s)
      else if !Truthy(address.value) || !IsObject(address.value) then ""
      else Join(Partners.PresentTexts(AddressFields(address.value)), ", ")
  }

  /** `buildAddressLine` as written: the truthy parts pushed onto `parts`, then joined. */
  method BuildAddressLine(partner: Json, parse: Parser) returns (line: string)
    ensures line == AddressLine(partner, parse)
  {
    if !Truthy(partner) {
      return "";
    }
    var address := Get(partner, "address");
    if address.Str? && Trim(address.s) != [] {
      var parsed := parse(address.s);
      if parsed.None? {
        return Trim(address.s);
      }
      address := parsed.value;
    }
    if !Truthy(address) || !IsObject(address) {
      return "";
    }
    var parts := PushParts(AddressFields(address));
    line := Join(parts, ", ");
  }

  /** The `if (value) parts.push(String(value))` steps: the truthy values' texts, in order. */
  method PushParts(values: seq<Json>) returns (parts: seq<string>)
    ensures parts == Partners.PresentTexts(values)
  {
    parts := [];
    for i := 0 to |values|
      invariant parts + Partners.PresentTexts(values[i..]) == Partners.PresentTexts(values)
    {
      ghost var rest := Partners.PresentTexts(values[i + 1..]);
      PresentTextsStep(values, i);
      if Truthy(values[i]) {
        assert parts + Partners.PresentTexts(values[i..]) == (parts + [ToStr(values[i])]) + rest;
        parts := parts + [ToStr(values[i])];
      } else {
        assert Partners.PresentTexts(values[i..]) == rest;
      }
    }
    assert values[|values|..] == [];
  }

  lemma PresentTextsStep(values: seq<Json>, i: nat)
    requires i < |values|
    ensures Partners.PresentTexts(values[i..]) ==
              (if Truthy(values[i]) then [ToStr(values[i])] else []) + Partners.PresentTexts(values[i + 1..])
  {
    assert values[i..][1..] == values[i + 1..];
  }

  /** Each truthy part of an address object occurs in the line. */
  lemma AddressLineHasParts(partner: Json, parse: Parser, i: nat)
    requires Truthy(partner) && i < 5
    requires var a := AddressValue(partner, parse); a.Some? && a.value.Obj? && Truthy(AddressFields(a.value)[i])
    ensures Contains(AddressLine(partner, parse), ToStr(AddressFields(AddressValue(partner, parse).value)[i]))
  {
    var fields := AddressFields(AddressValue(partner, parse).value);
    assert AddressLine(partner, parse) == Join(Partners.PresentTexts(fields), ", ");
    Partners.PresentTextsKeepTruthy(fields, i);
    var parts := Partners.PresentTexts(fields);
    var j :| 0 <= j < |parts| && parts[j] == ToStr(fields[i]);
    JoinContainsParts(parts, ", ", j);
  }

  /** Text that is not JSON is shown trimmed; an object with no truthy part gives "". */
  lemma AddressLineCases(partner: Json, parse: Parser)
    requires Truthy(partner)
    ensures var a := Get(partner, "address");
      a.Str? && !IsBlank(a.s) && parse(a.s).None? ==> AddressLine(partner, parse) == Trim(a.s)
    ensures var a := AddressValue(partner, parse);
      a.Some? && a.value.Obj? && (forall i :: 0 <= i < 5 ==> !Truthy(AddressFields(a.value)[i])) ==>
        AddressLine(partner, parse) == ""
  {
    var a := AddressValue(partner, parse);
    if a.Some? && a.value.Obj? && (forall i :: 0 <= i < 5 ==> !Truthy(AddressFields(a.value)[i])) {
      Partners.PresentTextsOfFalsy(AddressFields(a.value));
    }
  }

  /** The list's address text (lib/partners.js) has no `area` and reads `pin`, not `pincode`. */
  lemma AddressDisagreesWithList(parse: Parser)
    ensures var address := Obj(map["area" := Str("A")]);
      AddressLine(Obj(map["address" := address]), parse) == "A" && Partners.AddressText(address) == ""
  {
    AreaOnlyLine(parse);
    var address := Obj(map["area" := Str("A")]);
    var lib := [Get(address, "street"), Get(address, "city"), Get(address, "state"), Get(address, "pin")];
    Partners.PresentTextsOfFalsy(lib);
  }

  /** An address holding only an area shows that area in the table. */
  lemma AreaOnlyLine(parse: Parser)
    ensures AddressLine(Obj(map["address" := Obj(map["area" := Str("A")])]), parse) == "A"
  {
    var address := Obj(map["area" := Str("A")]);
    var partner := Obj(map["address" := address]);
    assert AddressValue(partner, parse) == Some(address);
    AreaOnlyParts();
  }

  /** Of the five address parts only the area is present. */
  lemma AreaOnlyParts()
    ensures Partners.PresentTexts(AddressFields(Obj(map["area" := Str("A")]))) == ["A"]
  {
    var fields := AddressFields(Obj(map["area" := Str("A")]));
    assert fields == [Undefined, Str("A"), Undefined, Undefined, Undefined];
    assert Partners.PresentTexts(fields[2..]) == [] by {
      Partners.PresentTextsOfFalsy(fields[2..]);
    }
    assert Partners.PresentTexts(fields[1..]) == ["A"] + Partners.PresentTexts(fields[2..]);
  }

  /**
   * `extractMapLink`: `mapLink`, else `map_link`, else null, read from the address
   * (parsed when it is non-blank text); null for a falsy or non-object address and
   * for text that is not JSON.
   */
  function MapLink(address: Json, parse: Parser): (r: Json)
    ensures r.Null? || Truthy(r)
    ensures !Truthy(address) ==> r.Null?
    ensures address.Str? && !IsBlank(address.s) && parse(address.s).None? ==> r.Null?
    ensures address.Obj? && Truthy(Get(address, "mapLink")) ==> r == Get(address, "mapLink")
    ensures address.Obj? && !Truthy(Get(address, "mapLink")) ==> r == Or(Get(address, "map_link"), Null)
  {
    if !Truthy(address) then Null
    else
      var value := if address.Str? && Trim(address.s) != [] then parse(address.s) else Some(address);
      if value.None? || !Truthy(value.value) || !IsObject(value.value) then Null
      else Or(Or(Get(value.value, "mapLink"), Get(value.value, "map_link")), Null)
  }

  // ------------------------------------------------------------ rows

  /** What `searchablePartners` adds to a partner: sports as a list, the derived status, the address line and the map link. */
  datatype Row = Row(partner: Json, sports: seq<Json>, status: string, addressLine: string, mapLink: Json)

  function ToRow(partner: Json, parse: Parser): (r: Row)
    ensures r.partner == partner && r.status == DerivedStatus(partner)
    ensures r.sports == NormalizeSports(Get(partner, "sports"), parse)
  {
    Row(partner, NormalizeSports(Get(partner, "sports"), parse), DerivedStatus(partner),
        AddressLine(partner, parse), MapLink(Get(partner, "address"), parse))
  }

  function ToRows(partners: seq<Json>, parse: Parser): (r: seq<Row>)
    ensures |r| == |partners|
    ensures forall i :: 0 <= i < |r| ==> r[i] == ToRow(partners[i], parse)
  {
    seq(|partners|, i requires 0 <= i < |partners| => ToRow(partners[i], parse))
  }

  lemma ToRowsTail(partners: seq<Json>, parse: Parser)
    requires partners != []
    ensures ToRows(partners[1..], parse) == ToRows(partners, parse)[1..]
  {
  }

  /** The derived status is already lower-case, so the status filter compares it as it is. */
  lemma DerivedStatusLower(partner: Json)
    ensures Lower(DerivedStatus(partner)) == DerivedStatus(partner)
  {
  }

  /** `addressById`: the address line of each id; a later row with the same id wins. */
  function AddressById(rows: seq<Row>): (r: map<Json, string>)
    ensures forall i :: 0 <= i < |rows| ==> Get(rows[i].partner, "id") in r
    decreases |rows|
  {
    if rows == [] then map[]
    else
      var last := rows[|rows| - 1];
      AddressById(rows[..|rows| - 1])[Get(last.partner, "id") := last.addressLine]
  }

  /** The address column shows a row's own line when no later row shares its id. */
  lemma {:induction false} AddressColumnOwn(rows: seq<Row>, i: nat)
    requires i < |rows|
    requires forall j :: i < j < |rows| ==> Get(rows[j].partner, "id") != Get(rows[i].partner, "id")
    ensures AddressById(rows)[Get(rows[i].partner, "id")] == rows[i].addressLine
    decreases |rows|
  {
    if i < |rows| - 1 {
      var front := rows[..|rows| - 1];
      assert forall j :: i < j < |front| ==> front[j] == rows[j];
      AddressColumnOwn(front, i);
    }
  }

  // ------------------------------------------------------------ the drop-downs

  /** A row's type candidate: `role ?? type`, trimmed, when truthy; the key is the text itself. */
  function TypeCandidate(row: Row): (r: FilterOption)
    ensures r.value == r.text
  {
    var role := Coalesce(Get(row.partner, "role"), Get(row.partner, "type"));
    if !Truthy(role) then FilterOption("", "") else FilterOption(Trim(ToStr(role)), Trim(ToStr(role)))
  }

  function TypeCandidates(rows: seq<Row>): (r: seq<FilterOption>)
    ensures |r| == |rows|
    ensures forall i :: 0 <= i < |rows| ==> r[i] == TypeCandidate(rows[i])
  {
    seq(|rows|, i requires 0 <= i < |rows| => TypeCandidate(rows[i]))
  }

  /** `typeOptions`: "all", then each distinct non-empty trimmed type, in the order first seen (a `Set`). */
  function TypeOptions(rows: seq<Row>): seq<string>
  {
    ["all"] + Labels(FirstSeen(TypeCandidates(rows), {}))
  }

  /** A sport's candidate: a string's trimmed, lower-cased key with the sport as written for its label; no key otherwise. */
  function SportCandidate(sport: Json): (r: FilterOption)
    ensures sport.Str? ==> r == FilterOption(Lower(Trim(sport.s)), sport.s)
    ensures !sport.Str? ==> r.value == []
  {
    if sport.Str? then FilterOption(Lower(Trim(sport.s)), sport.s) else FilterOption("", "")
  }

  /** One row's candidates, from the drop-down's own reading of its sports. */
  function SportGroup(row: Row, parse: Parser): (r: seq<FilterOption>)
    ensures |r| == |row.sports|
    ensures forall k :: 0 <= k < |r| ==> r[k] == SportCandidate(row.sports[k])
  {
    var sports := OptionSports(Arr(row.sports), parse);
    seq(|sports|, k requires 0 <= k < |sports| => SportCandidate(sports[k]))
  }

  function SportGroups(rows: seq<Row>, parse: Parser): (r: seq<seq<FilterOption>>)
    ensures |r| == |rows|
    ensures forall i :: 0 <= i < |rows| ==> r[i] == SportGroup(rows[i], parse)
  {
    seq(|rows|, i requires 0 <= i < |rows| => SportGroup(rows[i], parse))
  }

  const AllSports := FilterOption("all", "All Sports")

  /** `sportOptions`: "All Sports", then the first label of each trimmed lower-cased sport, sorted by label. */
  function SportOptions(rows: seq<Row>, parse: Parser): (r: seq<FilterOption>)
    ensures |r| >= 1 && r[0] == AllSports && SortedByText(r[1..])
  {
    [AllSports] + SortByText(FirstSeen(Concat(SportGroups(rows, parse)), {}))
  }

  // ------------------------------------------------------------ filters

  predicate StatusMatches(row: Row, statusFilter: string)
  {
    statusFilter == "all" || Lower(row.status) == statusFilter
  }

  /** `String(partner.role ?? partner.type ?? "").trim() === typeFilter`. */
  predicate TypeMatches(row: Row, typeFilter: string)
  {
    typeFilter == "all" ||
    Trim(ToStr(Coalesce(Coalesce(Get(row.partner, "role"), Get(row.partner, "type")), Str("")))) == typeFilter
  }

  /** Some string sport whose trimmed, lower-cased text is the filter. */
  predicate SportMatches(row: Row, sportFilter: string)
  {
    sportFilter == "all" ||
    exists k :: 0 <= k < |row.sports| && row.sports[k].Str? && Lower(Trim(row.sports[k].s)) == sportFilter
  }

  predicate RowShown(row: Row, statusFilter: string, typeFilter: string, sportFilter: string)
  {
    StatusMatches(row, statusFilter) && TypeMatches(row, typeFilter) && SportMatches(row, sportFilter)
  }

  /** `filteredPartners`: the rows passing all three filters, each switched off by "all". */
  function FilteredRows(rows: seq<Row>, statusFilter: string, typeFilter: string, sportFilter: string): (r: seq<Row>)
    ensures forall i :: 0 <= i < |r| ==> r[i] in rows && RowShown(r[i], statusFilter, typeFilter, sportFilter)
    ensures forall i :: 0 <= i < |rows| && RowShown(rows[i], statusFilter, typeFilter, sportFilter) ==> rows[i] in r
  {
    Keep(rows, row => RowShown(row, statusFilter, typeFilter, sportFilter))
  }

  predicate FiltersActive(statusFilter: string, typeFilter: string, sportFilter: string)
  {
    statusFilter != "all" || typeFilter != "all" || sportFilter != "all"
  }

  /** Without an active filter every row is listed, in order. */
  lemma NoFilterListsAll(rows: seq<Row>, statusFilter: string, typeFilter: string, sportFilter: string)
    requires !FiltersActive(statusFilter, typeFilter, sportFilter)
    ensures FilteredRows(rows, statusFilter, typeFilter, sportFilter) == rows
  {
    KeepAll(rows, row => RowShown(row, statusFilter, typeFilter, sportFilter));
  }

  function StatusCount(rows: seq<Row>, status: string): nat
  {
    |FilteredRows(rows, status, "all", "all")|
  }

  /** One status filter over a non-empty list: the first row if it has that status, then the rest. */
  lemma StatusCountCons(rows: seq<Row>, status: string)
    requires rows != [] && status != "all"
    ensures StatusCount(rows, status) == (if Lower(rows[0].status) == status then 1 else 0) + StatusCount(rows[1..], status)
  {
    var keep := row => RowShown(row, status, "all", "all");
    assert FilteredRows(rows, status, "all", "all") == Keep(rows, keep);
    assert FilteredRows(rows[1..], status, "all", "all") == Keep(rows[1..], keep);
  }

  /** The three status filters split the rows: every row is pending, active or suspended, and only one of them. */
  lemma {:induction false} StatusFiltersPartition(rows: seq<Row>)
    requires forall i :: 0 <= i < |rows| ==> rows[i].status == DerivedStatus(rows[i].partner)
    ensures StatusCount(rows, "pending") + StatusCount(rows, "active") + StatusCount(rows, "suspended") == |rows|
    decreases |rows|
  {
    if rows != [] {
      StatusFiltersPartition(rows[1..]);
      StatusCountCons(rows, "pending");
      StatusCountCons(rows, "active");
      StatusCountCons(rows, "suspended");
      DerivedStatusLower(rows[0].partner);
    }
  }

  /** A row whose type is offered is listed when that type is the filter. */
  lemma TypeCandidateListed(rows: seq<Row>, i: nat, t: string)
    requires i < |rows| && TypeCandidate(rows[i]).value != [] && t == TypeCandidate(rows[i]).text
    ensures FilteredRows(rows, "all", t, "all") != []
  {
    assert RowShown(rows[i], "all", t, "all");
  }

  /** The types after "all" are distinct, and each lists at least one row. */
  lemma TypeOptionsSpec(rows: seq<Row>)
    ensures var r := TypeOptions(rows);
      && r[0] == "all"
      && (forall j, k :: 1 <= j < k < |r| ==> r[j] != r[k])
      && (forall k :: 1 <= k < |r| ==> FilteredRows(rows, "all", r[k], "all") != [])
  {
    var cands := TypeCandidates(rows);
    var f := FirstSeen(cands, {});
    var r := TypeOptions(rows);
    FirstSeenSpec(cands, {});
    forall k | 1 <= k < |r| ensures r[k] == f[k - 1].value && FilteredRows(rows, "all", r[k], "all") != [] {
      TypeOptionKey(rows, k);
      TypeOptionListed(rows, k);
    }
  }

  /** One type option's text is its key. */
  lemma TypeOptionKey(rows: seq<Row>, k: nat)
    requires 1 <= k < |TypeOptions(rows)|
    ensures TypeOptions(rows)[k] == FirstSeen(TypeCandidates(rows), {})[k - 1].value
  {
    var f := FirstSeen(TypeCandidates(rows), {});
    var _ := LabelFrom(TypeCandidates(rows), {}, k - 1);
    EntryAfterHead("all", f, k);
    assert TypeOptions(rows) == ["all"] + Labels(f);
  }

  /** Filtering by one type option lists a row. */
  lemma TypeOptionListed(rows: seq<Row>, k: nat)
    requires 1 <= k < |TypeOptions(rows)|
    ensures FilteredRows(rows, "all", TypeOptions(rows)[k], "all") != []
  {
    var cands := TypeCandidates(rows);
    var f := FirstSeen(cands, {});
    var i := LabelFrom(cands, {}, k - 1);
    EntryAfterHead("all", f, k);
    assert TypeOptions(rows) == ["all"] + Labels(f);
    assert cands[i] == TypeCandidate(rows[i]);
    TypeCandidateListed(rows, i, TypeOptions(rows)[k]);
  }

  /** Each row's non-empty type is offered. */
  lemma TypeOptionsComplete(rows: seq<Row>, i: nat)
    requires i < |rows| && TypeCandidate(rows[i]).value != []
    ensures TypeCandidate(rows[i]).text in TypeOptions(rows)
  {
    LabelOffered(TypeCandidates(rows), {}, i);
  }

  /**
   * The sport drop-down is sorted by label after "All Sports"; each sport it offers lists
   * at least one row; and every string sport of every row that is not blank is offered.
   */
  lemma SportOptionsSpec(rows: seq<Row>, parse: Parser)
    ensures var r := SportOptions(rows, parse);
      && r[0] == AllSports
      && SortedByText(r[1..])
      && (forall k :: 1 <= k < |r| ==> r[k].value != [] && FilteredRows(rows, "all", "all", r[k].value) != [])
  {
    var groups := SportGroups(rows, parse);
    var cands := Concat(groups);
    var r := SportOptions(rows, parse);
    SortedOptions(cands, {});
    assert r[1..] == SortByText(FirstSeen(cands, {}));
    forall k | 1 <= k < |r| ensures FilteredRows(rows, "all", "all", r[k].value) != [] {
      var s := r[1..];
      assert s[k - 1] == r[k];
      var j :| 0 <= j < |cands| && cands[j] == s[k - 1] && forall n :: 0 <= n < j ==> cands[n].value != s[k - 1].value;
      var i, m := ConcatSource(groups, j);
      assert SportCandidate(rows[i].sports[m]) == r[k];
      assert RowShown(rows[i], "all", "all", r[k].value);
    }
  }

  /** Every string sport of a row that is not blank is offered. */
  lemma SportOptionsComplete(rows: seq<Row>, parse: Parser, i: nat, k: nat)
    requires i < |rows| && k < |rows[i].sports|
    requires rows[i].sports[k].Str? && !IsBlank(rows[i].sports[k].s)
    ensures exists m :: 1 <= m < |SportOptions(rows, parse)| &&
                        SportOptions(rows, parse)[m].value == Lower(Trim(rows[i].sports[k].s))
  {
    var groups := SportGroups(rows, parse);
    var cands := Concat(groups);
    var r := SportOptions(rows, parse);
    SortedOptions(cands, {});
    var j := ConcatAt(groups, i, k);
    assert cands[j] == SportCandidate(rows[i].sports[k]);
    assert !Skipped(cands[j], {});
    var m :| 0 <= m < |r[1..]| && r[1..][m].value == cands[j].value;
    assert r[m + 1] == r[1..][m];
  }

  // ------------------------------------------------------------ cells

  /** The sports cell: a dash for no sports, else badges for the first three and a count of the rest. */
  datatype SportsCell = NoSports | SportBadges(shown: seq<Json>, more: nat)

  function SportsCellOf(sports: seq<Json>): (r: SportsCell)
    ensures r.NoSports? <==> sports == []
    ensures r.SportBadges? ==> r.shown <= sports && |r.shown| == if |sports| < 3 then |sports| else 3
    ensures r.SportBadges? ==> r.shown + sports[|r.shown|..] == sports && r.more == |sports| - |r.shown|
  {
    if sports == [] then NoSports
    else if |sports| <= 3 then SportBadges(sports, 0)
    else SportBadges(sports[..3], |sports| - 3)
  }

  // ------------------------------------------------------------ actions

  /** The approve control: a badge once verified, else a button, disabled while this partner is approved. */
  datatype ApproveControl = Approved | ApproveButton(enabled: bool, busy: bool)

  datatype ToggleControl = ToggleButton(enabled: bool, busy: bool, caption: string)

  datatype Actions = Actions(approve: ApproveControl, toggle: ToggleControl)

  /** The actions column of one row; `canApprove` and `canToggle` say whether the handlers were passed. */
  function RowActions(partner: Json, approvingId: Json, togglingId: Json, canApprove: bool, canToggle: bool): (r: Actions)
    ensures r.approve.Approved? <==> Truthy(Get(partner, "verified"))
    ensures r.approve.ApproveButton? ==>
              r.approve.busy == PartnerSection.SameId(approvingId, Get(partner, "id")) &&
              (r.approve.enabled <==> canApprove && !r.approve.busy)
    ensures r.toggle.busy == PartnerSection.SameId(togglingId, Get(partner, "id"))
    ensures r.toggle.enabled <==> canToggle && !r.toggle.busy
    ensures !r.toggle.busy ==> r.toggle.caption == if Truthy(Get(partner, "disabled")) then "Enable" else "Disable"
  {
    var id := Get(partner, "id");
    var approving := PartnerSection.SameId(approvingId, id);
    var toggling := PartnerSection.SameId(togglingId, id);
    Actions(
      if Truthy(Get(partner, "verified")) then Approved else ApproveButton(canApprove && !approving, approving),
      ToggleButton(canToggle && !toggling, toggling,
                   if toggling then "" else if Truthy(Get(partner, "disabled")) then "Enable" else "Disable"))
  }

  // ------------------------------------------------------------ state

  class PartnersTableState {
    var statusFilter: string
    var typeFilter: string
    var sportFilter: string

    constructor()
      ensures statusFilter == "all" && typeFilter == "all" && sportFilter == "all"
    {
      statusFilter := "all";
      typeFilter := "all";
      sportFilter := "all";
    }

    method SetStatusFilter(value: string)
      modifies this
      ensures statusFilter == value && typeFilter == old(typeFilter) && sportFilter == old(sportFilter)
    {
      statusFilter := value;
    }

    method SetTypeFilter(value: string)
      modifies this
      ensures typeFilter == value && statusFilter == old(statusFilter) && sportFilter == old(sportFilter)
    {
      typeFilter := value;
    }

    method SetSportFilter(value: string)
      modifies this
      ensures sportFilter == value && statusFilter == old(statusFilter) && typeFilter == old(typeFilter)
    {
      sportFilter := value;
    }

    /** `handleClearFilters`: all three back to "all", which lists every row. */
    method ClearFilters()
      modifies this
      ensures !FiltersActive(statusFilter, typeFilter, sportFilter)
    {
      statusFilter := "all";
      typeFilter := "all";
      sportFilter := "all";
    }
  }
}
