/**
 * The orders page (components/orders/orders-tabs.jsx): the query-string
 * filters applied to normalised course and turf orders, the active-tab rule,
 * the turf status filter, the rows of the customer and payment dialogs, the
 * status badge colours, the status labels and the empty states. Currency
 * formatting (`Intl.NumberFormat`) is a parameter.
 */
module OrdersTabs {
  import opened Wrappers
  import opened Strings
  import opened Json
  import opened Orders
  import DataTable
  import opened Seqs

  // ------------------------------------------------------------ query filters

  /** The cleaned query parameters (`cleanParam` always yields trimmed text, `""` when absent). */
  datatype Filters = Filters(partnerId: string, courseId: string, batchId: string, planId: string, turfId: string, courtId: string)

  /** A filter field constrains only when non-empty, and then the order's value (or `""`) must equal it. */
  predicate Passes(filter: string, value: Json)
  {
    filter == [] || Str(filter) == Coalesce(value, Str(""))
  }

  function PlanField(order: Order, field: string): Json
  {
    match order.plan
    case None => Undefined
    case Some(p) =>
      if field == "id" then p.id else if field == "courseId" then p.courseId
      else if field == "batchId" then p.batchId else Undefined
  }

  function BookingField(order: Order, field: string): Json
  {
    match order.booking
    case None => Undefined
    case Some(b) => if field == "turfId" then b.turfId else if field == "courtId" then b.courtId else Undefined
  }

  /**
   * `matchesOrderFilters`: no filters pass everything; otherwise every non-empty
   * field must match, the turf id matching either the plan's or the booking's.
   */
  predicate MatchesOrderFilters(order: Order, filters: Option<Filters>)
    ensures filters.None? || filters == Some(NoFilters) ==> MatchesOrderFilters(order, filters)
    ensures MatchesOrderFilters(order, filters) && filters.Some? && filters.value.partnerId != [] ==>
      order.partner.id == Str(filters.value.partnerId)
    ensures MatchesOrderFilters(order, filters) && filters.Some? && filters.value.courtId != [] ==>
      order.booking.Some? && order.booking.value.courtId == Str(filters.value.courtId)
  {
    filters.None? ||
    var f := filters.value;
    && Passes(f.partnerId, order.partner.id)
    && Passes(f.courseId, PlanField(order, "courseId"))
    && Passes(f.batchId, PlanField(order, "batchId"))
    && Passes(f.planId, PlanField(order, "id"))
    && (Passes(f.turfId, PlanField(order, "turfId")) || Passes(f.turfId, BookingField(order, "turfId")))
    && Passes(f.courtId, BookingField(order, "courtId"))
  }

  const NoFilters := Filters("", "", "", "", "", "")

  /** Blank filters constrain nothing; a turf filter is met through the booking's turf. */
  lemma FilterFacts(order: Order, f: Filters)
    ensures MatchesOrderFilters(order, Some(NoFilters))
    ensures f.turfId != [] && f.partnerId == [] && f.courseId == [] && f.batchId == [] && f.planId == [] && f.courtId == [] ==>
      (MatchesOrderFilters(order, Some(f)) <==> order.booking.Some? && order.booking.value.turfId == Str(f.turfId))
  {
  }

  /** `(orders ?? []).filter(order => matchesOrderFilters(order, filters))`. */
  function FilterOrders(orders: Option<seq<Order>>, filters: Option<Filters>): (r: seq<Order>)
    ensures |r| <= |orders.GetOr([])|
    ensures forall i :: 0 <= i < |r| ==> r[i] in orders.GetOr([]) && MatchesOrderFilters(r[i], filters)
    ensures forall o :: o in orders.GetOr([]) && MatchesOrderFilters(o, filters) ==> o in r
  {
    Keep(orders.GetOr([]), o => MatchesOrderFilters(o, filters))
  }

  /**
   * Absent orders filter to nothing; no filters, or blank ones, keep every order
   * in order; filtering two lists together is filtering each.
   */
  lemma FilterOrdersFacts(a: seq<Order>, b: seq<Order>, filters: Option<Filters>)
    ensures FilterOrders(None, filters) == []
    ensures filters.None? || filters == Some(NoFilters) ==> FilterOrders(Some(a), filters) == a
    ensures FilterOrders(Some(a + b), filters) == FilterOrders(Some(a), filters) + FilterOrders(Some(b), filters)
  {
    KeepAppend(a, b, o => MatchesOrderFilters(o, filters));
    if filters.None? || filters == Some(NoFilters) {
      forall i | 0 <= i < |a| ensures MatchesOrderFilters(a[i], filters) {
        FilterFacts(a[i], NoFilters);
      }
      KeepAll(a, o => MatchesOrderFilters(o, filters));
    }
  }

  /** An order without a booking has no turf id to match. */
  lemma NoTurfNoMatch(o: Order, f: Filters)
    requires f.turfId != [] && o.booking.None?
    ensures !MatchesOrderFilters(o, Some(f))
  {
    assert PlanField(o, "turfId") == Undefined;
  }

  /** Course orders carry no turf id, so a turf filter hides every course order. */
  lemma TurfFilterHidesCourseOrders(orders: seq<Order>, f: Filters)
    requires f.turfId != []
    requires forall i :: 0 <= i < |orders| ==> orders[i].booking.None?
    ensures FilterOrders(Some(orders), Some(f)) == []
  {
    forall i | 0 <= i < |orders| ensures !MatchesOrderFilters(orders[i], Some(f)) {
      NoTurfNoMatch(orders[i], f);
    }
    KeepNone(orders, o => MatchesOrderFilters(o, Some(f)));
  }

  /** `hasQueryFilters`: some query parameter is set. */
  predicate HasQueryFilters(f: Filters)
  {
    f != NoFilters
  }

  // ------------------------------------------------------------ tabs

  datatype Tab = CourseTab | TurfTab

  /** The tab the effect selects from `order_tab` (lower-cased), `turf_id` and `court_id`. */
  function NextTab(orderTab: string, turfId: string, courtId: string): (r: Tab)
    ensures r == TurfTab <==> orderTab == "turf" || (orderTab != "course" && (turfId != [] || courtId != []))
  {
    if orderTab == "turf" then TurfTab
    else if orderTab == "course" then CourseTab
    else if turfId != [] || courtId != [] then TurfTab
    else CourseTab
  }

  /** The tab chosen before the effect first runs. */
  function InitialTab(orderTab: string, turfId: string, courtId: string): (r: Tab)
    ensures orderTab in {"", "turf", "course"} ==> r == NextTab(orderTab, turfId, courtId)
  {
    if orderTab == "turf" || (orderTab == [] && (turfId != [] || courtId != [])) then TurfTab else CourseTab
  }

  /**
   * The explicit tab wins; without one a turf or court filter selects the turf
   * tab. The initial choice agrees with the effect except for an unknown
   * `order_tab` next to a turf or court filter, where the effect moves to the turf tab.
   */
  lemma TabRule(orderTab: string, turfId: string, courtId: string)
    ensures orderTab == "turf" ==> NextTab(orderTab, turfId, courtId) == TurfTab
    ensures orderTab == "course" ==> NextTab(orderTab, turfId, courtId) == CourseTab
    ensures orderTab != "turf" && orderTab != "course" ==>
      (NextTab(orderTab, turfId, courtId) == TurfTab <==> turfId != [] || courtId != [])
    ensures InitialTab(orderTab, turfId, courtId) != NextTab(orderTab, turfId, courtId) <==>
      orderTab !in {"", "turf", "course"} && (turfId != [] || courtId != [])
  {
  }

  // ------------------------------------------------------------ turf status filter

  const TurfStatusFilters: seq<string> := ["all", "accepted", "declined"]

  /** `(order.status ?? "").toLowerCase() === normalized`. */
  predicate HasStatus(order: Order, normalized: string)
  {
    Lower(order.status) == normalized
  }

  /** The turf tab's status filter: "all" keeps the list, any other value the orders with that status. */
  function TurfStatusFiltered(orders: seq<Order>, turfStatus: string): (r: seq<Order>)
    ensures turfStatus == "all" ==> r == orders
    ensures turfStatus != "all" ==> forall i :: 0 <= i < |r| ==> r[i] in orders && HasStatus(r[i], Lower(turfStatus))
    ensures turfStatus != "all" ==> forall o :: o in orders && HasStatus(o, Lower(turfStatus)) ==> o in r
  {
    if turfStatus == "all" then orders
    else Keep(orders, o => HasStatus(o, Lower(turfStatus)))
  }

  /** The status of a normalised turf order: "Declined" exactly for declined bookings, else "Accepted". */
  predicate NormalizedTurf(o: Order)
  {
    && o.booking.Some?
    && (o.status == "Declined" <==> o.booking.value.declined)
    && (o.status == "Declined" || o.status == "Accepted")
  }

  /** On normalised turf orders the "declined" filter keeps exactly the declined bookings. */
  lemma DeclinedFilter(orders: seq<Order>)
    requires forall i :: 0 <= i < |orders| ==> NormalizedTurf(orders[i])
    ensures forall o :: o in TurfStatusFiltered(orders, "declined") <==> o in orders && o.booking.Some? && o.booking.value.declined
  {
    LowerWord("declined");
    LowerWord("Declined");
    LowerWord("Accepted");
  }

  /** ... and the "accepted" filter exactly the others. */
  lemma AcceptedFilter(orders: seq<Order>)
    requires forall i :: 0 <= i < |orders| ==> NormalizedTurf(orders[i])
    ensures forall o :: o in TurfStatusFiltered(orders, "accepted") <==> o in orders && o.booking.Some? && !o.booking.value.declined
  {
    LowerWord("accepted");
    LowerWord("Declined");
    LowerWord("Accepted");
  }

  /** The lower-case forms of the status words the page compares. */
  lemma LowerWord(w: string)
    requires w in {"declined", "accepted", "Declined", "Accepted"}
    ensures w == "declined" || w == "Declined" ==> Lower(w) == "declined"
    ensures w == "accepted" || w == "Accepted" ==> Lower(w) == "accepted"
  {
    assert Lower(w)[0] == LowerChar(w[0]);
  }

  /** The effect that falls back to "all" for a status the options do not offer. */
  function CheckedTurfStatus(turfStatus: string): (r: string)
    ensures r in TurfStatusFilters
  {
    if turfStatus != "all" && turfStatus !in TurfStatusFilters then "all" else turfStatus
  }

  // ------------------------------------------------------------ labels and badges

  predicate IsWordChar(c: char)
  {
    IsLowerLetter(c) || IsUpper(c) || IsDigit(c) || c == '_'
  }

  /** `.replace(/[_-]/g, " ")`. */
  function Unhyphenate(s: string): (r: string)
    ensures |r| == |s|
    ensures forall i :: 0 <= i < |s| ==> r[i] == (if s[i] == '_' || s[i] == '-' then ' ' else s[i])
  {
    seq(|s|, i requires 0 <= i < |s| => if s[i] == '_' || s[i] == '-' then ' ' else s[i])
  }

  /** `.replace(/\s+/g, " ")`: every run of whitespace becomes one space. */
  function CollapseSpaces(s: string): (r: string)
    ensures forall i :: 0 <= i < |r| ==> r[i] == ' ' || (r[i] in s && !IsSpace(r[i]))
    ensures forall i :: 1 <= i < |r| ==> !(IsSpace(r[i - 1]) && IsSpace(r[i]))
    ensures s != [] && !IsSpace(s[0]) ==> r != [] && r[0] == s[0]
    ensures s != [] && IsSpace(s[0]) ==> r != [] && r[0] == ' '
    decreases |s|, if s != [] && IsSpace(s[0]) then 1 else 0
  {
    if s == [] then []
    else if IsSpace(s[0]) then
      TrimStartSuffix(s[1..]);
      var rest := CollapseSpaces(TrimStart(s[1..]));
      [' '] + rest
    else
      var rest := CollapseSpaces(s[1..]);
      [s[0]] + rest
  }

  /** `.replace(/\b\w/g, c => c.toUpperCase())`: the first character of every word upper-cased. */
  function CapitalizeWords(s: string): (r: string)
    ensures |r| == |s|
  {
    seq(|s|, i requires 0 <= i < |s| => CapitalizedAt(s, i))
  }

  /** The character at `i` after capitalising: upper-cased when a word starts there. */
  function CapitalizedAt(s: string, i: nat): char
    requires i < |s|
  {
    if IsWordChar(s[i]) && (i == 0 || !IsWordChar(s[i - 1])) then UpperChar(s[i]) else s[i]
  }

  /** Only a lower-case letter changes; whitespace stays whitespace; a word start is never lower-case. */
  lemma CapitalizedAtFacts(s: string, i: nat)
    requires i < |s|
    ensures CapitalizedAt(s, i) == s[i] || IsLowerLetter(s[i])
    ensures IsSpace(CapitalizedAt(s, i)) <==> IsSpace(s[i])
    ensures CapitalizedAt(s, i) == ' ' <==> s[i] == ' '
    ensures CapitalizedAt(s, i) != '_' && CapitalizedAt(s, i) != '-' <==> s[i] != '_' && s[i] != '-'
    ensures i == 0 || s[i - 1] == ' ' ==> !IsLowerLetter(CapitalizedAt(s, i))
  {
  }

  /**
   * `toTitleCase`: the words of the text once `_` and `-` are spaces, each with its
   * word starts capitalised, joined by single spaces. The label therefore has no `_`
   * or `-`, no leading, trailing or doubled whitespace, and no word that starts with
   * a lower-case letter.
   */
  function ToTitleCase(text: string): (r: string)
    ensures r == Join(CapitalizeEach(WordsOf(Unhyphenate(text))), " ")
    ensures NoDash(r) && IsTrimmed(r) && NoDoubleSpace(r) && WordsCapitalized(r)
  {
    if text == [] then []
    else
      var u := Unhyphenate(text);
      CollapsedShape(u);
      TrimmedShape(CollapseSpaces(u));
      CapitalizedShape(Trim(CollapseSpaces(u)));
      NormalizedWords(u);
      CapitalizeJoined(WordsOf(u));
      CapitalizeWords(Trim(CollapseSpaces(u)))
  }

  // ------------------------------------------------------------ words of a label

  /** The longest prefix without whitespace. */
  function LeadingWord(s: string): (r: string)
    ensures |r| <= |s| && r == s[..|r|] && HasNoSpace(r)
    ensures |r| < |s| ==> IsSpace(s[|r|])
    ensures s != [] && !IsSpace(s[0]) ==> r != []
    decreases |s|
  {
    if s != [] && !IsSpace(s[0]) then [s[0]] + LeadingWord(s[1..]) else []
  }

  /** The maximal runs of characters other than whitespace, in order. */
  function WordsOf(s: string): (r: seq<string>)
    ensures forall i :: 0 <= i < |r| ==> r[i] != [] && HasNoSpace(r[i])
    decreases |s|
  {
    if s == [] then []
    else if IsSpace(s[0]) then WordsOf(s[1..])
    else
      var w := LeadingWord(s);
      [w] + WordsOf(s[|w|..])
  }

  /** Each word with its word starts capitalised. */
  function CapitalizeEach(words: seq<string>): (r: seq<string>)
    ensures |r| == |words|
    ensures forall i :: 0 <= i < |words| ==> r[i] == CapitalizeWords(words[i])
  {
    seq(|words|, i requires 0 <= i < |words| => CapitalizeWords(words[i]))
  }

  /** Leading whitespace separates no word. */
  lemma {:induction false} WordsOfTrimStart(s: string)
    ensures WordsOf(TrimStart(s)) == WordsOf(s)
    decreases |s|
  {
    if s != [] && IsSpace(s[0]) {
      WordsOfTrimStart(s[1..]);
    }
  }

  /** Collapsing whitespace keeps a run without whitespace as it is and goes on after it. */
  lemma {:induction false} CollapseAfterWord(w: string, x: string)
    requires HasNoSpace(w)
    ensures CollapseSpaces(w + x) == w + CollapseSpaces(x)
    decreases |w|
  {
    if w == [] {
      assert w + x == x;
    } else {
      var wx := w + x;
      assert wx[0] == w[0] && !IsSpace(wx[0]);
      assert wx[1..] == w[1..] + x;
      CollapseAfterWord(w[1..], x);
      assert [w[0]] + (w[1..] + CollapseSpaces(x)) == w + CollapseSpaces(x);
    }
  }

  /**
   * Without its leading whitespace, text collapses to its words joined by single
   * spaces, with at most one space after the last.
   */
  lemma {:induction false} CollapsedWords(s: string)
    ensures CollapsesToWords(s)
    decreases |s|
  {
    var t := TrimStart(s);
    WordsOfTrimStart(s);
    if t != [] {
      var w := LeadingWord(t);
      var rest := t[|w|..];
      assert |rest| < |s|;
      CollapsedWords(rest);
      CollapsedWordsCons(t, w, rest);
      assert TrimStart(t) == t;
    }
  }

  /**
   * Text collapses to its words joined by single spaces, with at most one space
   * after the last, once its leading whitespace is dropped; without words it
   * collapses to nothing.
   */
  ghost predicate CollapsesToWords(t: string)
  {
    var c, j := CollapseSpaces(TrimStart(t)), Join(WordsOf(t), " ");
    && (c == j || c == j + " ")
    && (WordsOf(t) == [] ==> c == [])
    && (j == [] || !IsSpace(j[|j| - 1]))
  }

  /** A word in front of text that collapses to its words collapses to that word and those words. */
  lemma CollapsedWordsCons(t: string, w: string, rest: string)
    requires t != [] && !IsSpace(t[0]) && w == LeadingWord(t) && rest == t[|w|..]
    requires CollapsesToWords(rest)
    ensures CollapsesToWords(t)
  {
    var ws := WordsOf(rest);
    var c, j := CollapseSpaces(TrimStart(t)), Join(WordsOf(t), " ");
    WordsAfterWord(t, w, rest);
    CollapseFrontWord(t, w, rest);
    if rest == [] {
      assert c == w && j == w;
    } else {
      var c0, j0 := CollapseSpaces(TrimStart(rest)), Join(ws, " ");
      CollapseFrontSpace(rest);
      assert c == w + (" " + c0);
      if ws == [] {
        assert j == w;
        WordThenSpaceBefore(w, c0, j0, c, j);
      } else {
        JoinAfterWord(w, ws);
        WordThenSpaceBefore(w, c0, j0, c, j);
      }
    }
  }

  lemma WordsAfterWord(t: string, w: string, rest: string)
    requires t != [] && !IsSpace(t[0]) && w == LeadingWord(t) && rest == t[|w|..]
    ensures WordsOf(t) == [w] + WordsOf(rest) && w != [] && HasNoSpace(w)
  {
  }

  lemma CollapseFrontWord(t: string, w: string, rest: string)
    requires t != [] && !IsSpace(t[0]) && w == LeadingWord(t) && rest == t[|w|..]
    ensures CollapseSpaces(TrimStart(t)) == w + CollapseSpaces(rest)
  {
    assert t == w + rest;
    CollapseAfterWord(w, rest);
  }

  lemma CollapseFrontSpace(rest: string)
    requires rest != [] && IsSpace(rest[0])
    ensures CollapseSpaces(rest) == " " + CollapseSpaces(TrimStart(rest))
  {
  }

  lemma JoinAfterWord(w: string, ws: seq<string>)
    requires ws != [] && forall i :: 0 <= i < |ws| ==> ws[i] != []
    ensures Join([w] + ws, " ") == w + " " + Join(ws, " ") && Join(ws, " ") != []
  {
    assert ([w] + ws)[1..] == ws;
  }

  /** The text arithmetic of `CollapsedWordsCons`, once the collapsed and joined rests are known. */
  lemma WordThenSpaceBefore(w: string, c0: string, j0: string, c: string, j: string)
    requires w != [] && HasNoSpace(w)
    requires c0 == j0 || c0 == j0 + " "
    requires j0 == [] || !IsSpace(j0[|j0| - 1])
    requires c == w + (" " + c0)
    requires j == w || (j0 != [] && j == w + " " + j0)
    requires j == w ==> c0 == []
    ensures c == j || c == j + " "
    ensures !IsSpace(j[|j| - 1])
  {
    if j == w {
      assert c == j + " ";
    } else if c0 == j0 {
      assert c == j;
    } else {
      assert c == j + " ";
    }
  }

  /** Collapsing whitespace, then dropping what leads, is dropping it first. */
  lemma CollapseTrimStart(u: string)
    ensures TrimStart(CollapseSpaces(u)) == CollapseSpaces(TrimStart(u))
  {
    if u != [] && IsSpace(u[0]) {
      var c := CollapseSpaces(TrimStart(u[1..]));
      assert CollapseSpaces(u) == [' '] + c;
      assert c == [] || !IsSpace(c[0]);
    }
  }

  /** Collapsing and trimming text leaves exactly its words joined by single spaces. */
  lemma NormalizedWords(u: string)
    ensures Trim(CollapseSpaces(u)) == Join(WordsOf(u), " ")
  {
    var x := CollapseSpaces(u);
    CollapseTrimStart(u);
    CollapsedWords(u);
    assert Trim(x) == TrimEnd(TrimStart(x));
    TrimEndGap(Join(WordsOf(u), " "));
  }

  /** Text ending in no whitespace loses nothing to `TrimEnd`, and one space after it is dropped. */
  lemma TrimEndGap(j: string)
    requires j == [] || !IsSpace(j[|j| - 1])
    ensures TrimEnd(j) == j && TrimEnd(j + " ") == j
  {
    assert (j + " ")[..|j|] == j;
  }

  /** Capitalising works word by word across a space, which is no word character. */
  lemma CapitalizeAcrossSpace(a: string, b: string)
    ensures CapitalizeWords(a + " " + b) == CapitalizeWords(a) + " " + CapitalizeWords(b)
  {
    var s := a + " " + b;
    var r := CapitalizeWords(a) + " " + CapitalizeWords(b);
    forall i | 0 <= i < |s|
      ensures CapitalizedAt(s, i) == r[i]
    {
      if i > |a| {
        assert s[i] == b[i - |a| - 1];
        assert i - |a| - 1 > 0 ==> s[i - 1] == b[i - |a| - 2];
      }
    }
  }

  /** Capitalising joined words is joining the capitalised words. */
  lemma {:induction false} CapitalizeJoined(words: seq<string>)
    ensures CapitalizeWords(Join(words, " ")) == Join(CapitalizeEach(words), " ")
    decreases |words|
  {
    if |words| >= 2 {
      CapitalizeJoined(words[1..]);
      CapitalizeAcrossSpace(words[0], Join(words[1..], " "));
      assert CapitalizeEach(words)[1..] == CapitalizeEach(words[1..]);
    }
  }

  predicate NoDash(s: string)
  {
    forall i :: 0 <= i < |s| ==> s[i] != '_' && s[i] != '-'
  }

  predicate NoDoubleSpace(s: string)
  {
    forall i :: 1 <= i < |s| ==> !(IsSpace(s[i - 1]) && IsSpace(s[i]))
  }

  /** Every word starts with something other than a lower-case letter. */
  predicate WordsCapitalized(s: string)
  {
    forall i :: 0 <= i < |s| && (i == 0 || s[i - 1] == ' ') ==> !IsLowerLetter(s[i])
  }

  /** `Trim` keeps a contiguous piece of its input. */
  lemma TrimIsSlice(s: string)
    ensures exists a, b :: 0 <= a <= b <= |s| && Trim(s) == s[a..b]
  {
    TrimStartSuffix(s);
    var t := TrimStart(s);
    TrimEndPrefix(t);
    var a := |s| - |t|;
    var b := a + |TrimEnd(t)|;
    assert Trim(s) == TrimEnd(t) == t[..|TrimEnd(t)|] == s[a..b];
  }

  /** Collapsing the whitespace of text without dashes leaves no dashes and no doubled whitespace. */
  lemma CollapsedShape(u: string)
    requires NoDash(u)
    ensures NoDash(CollapseSpaces(u)) && NoDoubleSpace(CollapseSpaces(u))
  {
    var c := CollapseSpaces(u);
    forall i | 0 <= i < |c| ensures c[i] != '_' && c[i] != '-' {
      if c[i] != ' ' {
        var k :| 0 <= k < |u| && u[k] == c[i];
      }
    }
  }

  /** Trimming keeps both properties, since it keeps a piece of the text. */
  lemma TrimmedShape(c: string)
    requires NoDash(c) && NoDoubleSpace(c)
    ensures NoDash(Trim(c)) && NoDoubleSpace(Trim(c))
  {
    TrimIsSlice(c);
    var a, b :| 0 <= a <= b <= |c| && Trim(c) == c[a..b];
    assert forall i :: 0 <= i < b - a ==> Trim(c)[i] == c[a + i];
  }

  /** Capitalising word starts changes only letters, so the shape survives and every word starts capitalised. */
  lemma CapitalizedShape(t: string)
    requires NoDash(t) && NoDoubleSpace(t) && IsTrimmed(t)
    ensures var r := CapitalizeWords(t);
      NoDash(r) && NoDoubleSpace(r) && IsTrimmed(r) && WordsCapitalized(r)
  {
    forall i | 0 <= i < |t| {
      CapitalizedAtFacts(t, i);
    }
  }

  datatype Variant = DefaultVariant | Success | Warning | Destructive

  /** `getStatusVariant`, case-insensitive; an empty or unknown status is the default colour. */
  function StatusVariant(status: string): (v: Variant)
    ensures status == [] ==> v == DefaultVariant
  {
    if status == [] then DefaultVariant
    else
      var n := Lower(status);
      if n in ["completed", "confirmed", "success", "active", "accepted"] then Success
      else if n in ["pending", "processing", "in-progress"] then Warning
      else if n in ["cancelled", "canceled", "failed", "declined", "error"] then Destructive
      else DefaultVariant
  }

  /** The colour depends only on the lower-cased status. */
  lemma StatusVariantIgnoresCase(status: string)
    ensures StatusVariant(Lower(status)) == StatusVariant(status)
  {
    assert Lower(Lower(status)) == Lower(status);
  }

  /** The statuses the turf tab shows are coloured: declined as destructive, accepted as success. */
  lemma TurfStatusColours()
    ensures StatusVariant("Declined") == Destructive && StatusVariant("Accepted") == Success
  {
    LowerWord("Declined");
    LowerWord("Accepted");
  }

  // ------------------------------------------------------------ dialog rows

  datatype DetailRow = DetailRow(caption: string, value: Json)

  function Labels(rows: seq<DetailRow>): seq<string>
  {
    seq(|rows|, i requires 0 <= i < |rows| => rows[i].caption)
  }

  /** `value.charAt(0).toUpperCase() + value.slice(1)` on a value's text. */
  function CapitalizeText(v: Json): Json
  {
    Str(Capitalize(ToStr(v)))
  }

  const Dash := Str("—")

  /** `buildCustomerRows`: five rows, the order's `customerDetails` taking precedence over its customer. */
  function BuildCustomerRows(order: Option<Order>): (rows: seq<DetailRow>)
    ensures order.None? ==> rows == []
    ensures order.Some? ==> Labels(rows) == ["Age", "Name", "Email", "Phone", "Gender"]
    ensures order.Some? ==> forall k :: 0 <= k < 4 ==> Truthy(rows[k].value)
  {
    match order
    case None => []
    case Some(o) =>
      var details := Or(o.customerDetails, Obj(map[]));
      var customer := o.customer;
      var gender :=
        if Truthy(Get(details, "gender")) then CapitalizeText(Get(details, "gender"))
        else if customer.gender != [] then Str(Capitalize(customer.gender))
        else Dash;
      [ DetailRow("Age", Or(Get(details, "age"), Dash)),
        DetailRow("Name", Or(Or(Get(details, "name"), Str(customer.name)), Dash)),
        DetailRow("Email", Or(Or(Get(details, "email"), Str(customer.email)), Dash)),
        DetailRow("Phone", Or(Or(Get(details, "phone"), Str(customer.phone)), Dash)),
        DetailRow("Gender", gender) ]
  }

  /**
   * Each customer row is read from `customerDetails` when that holds a truthy value
   * for it, from the order's customer when that text is not empty, and is the dash
   * otherwise; a gender is shown with its first letter capitalised.
   */
  lemma CustomerRowValues(o: Order)
    ensures var rows := BuildCustomerRows(Some(o));
      var details := if Truthy(o.customerDetails) then o.customerDetails else Obj(map[]);
      var gender := Get(details, "gender");
      && rows[0].value == (if Truthy(Get(details, "age")) then Get(details, "age") else Dash)
      && rows[1].value == (if Truthy(Get(details, "name")) then Get(details, "name")
                           else if o.customer.name != [] then Str(o.customer.name) else Dash)
      && rows[2].value == (if Truthy(Get(details, "email")) then Get(details, "email")
                           else if o.customer.email != [] then Str(o.customer.email) else Dash)
      && rows[3].value == (if Truthy(Get(details, "phone")) then Get(details, "phone")
                           else if o.customer.phone != [] then Str(o.customer.phone) else Dash)
      && rows[4].value == (if Truthy(gender) then Str(Capitalize(ToStr(gender)))
                           else if o.customer.gender != [] then Str(Capitalize(o.customer.gender)) else Dash)
  {
  }

  /** The money formatter, given an integer amount and a currency code. */
  type MoneyFormat = (int, string) -> string

  /** `formatCurrency(amount, currency)` for an integer amount: a falsy currency formats as INR. */
  function FormatCurrency(amount: int, currency: Json, fmt: MoneyFormat): string
  {
    fmt(amount, if Truthy(currency) then ToStr(currency) else "INR")
  }

  const PaymentLabels: seq<string> := ["Payment Id", "Status", "Type", "Amount", "Currency",
    "Razorpay Order Id", "Razorpay Payment Id", "Created At", "User Id"]

  /**
   * `buildPaymentRows`: nothing without a payment or a payment id; otherwise nine
   * rows in a fixed order, read from the payment when there is one and from the
   * order otherwise.
   */
  function BuildPaymentRows(order: Option<Order>, fmt: MoneyFormat): (rows: seq<DetailRow>)
    ensures order.None? || (order.value.payment.None? && !Truthy(order.value.paymentId)) <==> rows == []
    ensures rows != [] ==> Labels(rows) == PaymentLabels
  {
    match order
    case None => []
    case Some(o) =>
      if o.payment.None? && !Truthy(o.paymentId) then []
      else
        var p := o.payment;
        var text := (s: string) => if s == [] then Dash else Str(s);
        [ DetailRow("Payment Id", if p.Some? then Coalesce(p.value.id, Coalesce(o.paymentId, Dash)) else Coalesce(o.paymentId, Dash)),
          DetailRow("Status", if p.Some? then text(p.value.status) else Dash),
          DetailRow("Type", if p.Some? then text(p.value.paymentType) else Dash),
          DetailRow("Amount", Str(if p.Some? then FormatCurrency(p.value.amount, p.value.currency, fmt)
                                  else FormatCurrency(o.amount, o.currency, fmt))),
          DetailRow("Currency", Or(Or(if p.Some? then p.value.currency else Undefined, o.currency), Str("INR"))),
          DetailRow("Razorpay Order Id", if p.Some? then text(p.value.razorpayOrderId) else Dash),
          DetailRow("Razorpay Payment Id", if p.Some? then text(p.value.razorpayPaymentId) else Dash),
          DetailRow("Created At", if p.Some? then text(p.value.createdAtLabel) else Dash),
          DetailRow("User Id", Or(Or(if p.Some? then p.value.userId else Undefined, o.customer.id), Dash)) ]
  }

  /**
   * With a joined payment every row but the currency and the user id is read from
   * the payment alone, an empty text showing as the dash; the currency falls back to
   * the order's and then to INR, the user id to the customer's and then to the dash.
   */
  lemma PaymentRowValues(o: Order, fmt: MoneyFormat)
    requires o.payment.Some?
    ensures var rows := BuildPaymentRows(Some(o), fmt);
      var p := o.payment.value;
      && rows[0].value == (if !Nullish(p.id) then p.id else if !Nullish(o.paymentId) then o.paymentId else Dash)
      && rows[1].value == (if p.status != [] then Str(p.status) else Dash)
      && rows[2].value == (if p.paymentType != [] then Str(p.paymentType) else Dash)
      && rows[3].value == Str(FormatCurrency(p.amount, p.currency, fmt))
      && rows[4].value == (if Truthy(p.currency) then p.currency else if Truthy(o.currency) then o.currency else Str("INR"))
      && rows[5].value == (if p.razorpayOrderId != [] then Str(p.razorpayOrderId) else Dash)
      && rows[6].value == (if p.razorpayPaymentId != [] then Str(p.razorpayPaymentId) else Dash)
      && rows[7].value == (if p.createdAtLabel != [] then Str(p.createdAtLabel) else Dash)
      && rows[8].value == (if Truthy(p.userId) then p.userId else if Truthy(o.customer.id) then o.customer.id else Dash)
  {
  }

  /**
   * Without a joined payment but with a payment id, the id and the order's own amount
   * and currency are shown, the user id falls back to the customer's, and every
   * payment-only row is the dash.
   */
  lemma PaymentRowsWithoutPayment(o: Order, fmt: MoneyFormat)
    requires o.payment.None? && Truthy(o.paymentId)
    ensures var rows := BuildPaymentRows(Some(o), fmt);
      && rows[0].value == o.paymentId
      && rows[1].value == Dash && rows[2].value == Dash
      && rows[3].value == Str(FormatCurrency(o.amount, o.currency, fmt))
      && rows[4].value == (if Truthy(o.currency) then o.currency else Str("INR"))
      && rows[5].value == Dash && rows[6].value == Dash && rows[7].value == Dash
      && rows[8].value == (if Truthy(o.customer.id) then o.customer.id else Dash)
  {
  }

  // ------------------------------------------------------------ empty states

  datatype CourseView = NoCourseOrders | CourseTable(orders: seq<Order>, body: DataTable.Body)

  const CourseNoMatch := "No course orders match the current filters."

  /**
   * The course tab: the empty-state card only when there are no course orders at
   * all; otherwise the table of filtered orders, whose own empty row says that
   * nothing matches.
   */
  function CourseTabView(courseOrders: Option<seq<Order>>, filters: Option<Filters>, columnCount: nat): (v: CourseView)
    ensures v.NoCourseOrders? <==> |courseOrders.GetOr([])| == 0
  {
    if |courseOrders.GetOr([])| == 0 then NoCourseOrders
    else
      var shown := FilterOrders(courseOrders, filters);
      CourseTable(shown, DataTable.TableBody(|shown|, Some(CourseNoMatch), columnCount))
  }

  /** Orders that exist but do not match show the no-match row, not the empty-state card. */
  lemma CourseNoMatchShown(courseOrders: seq<Order>, filters: Option<Filters>, columnCount: nat)
    requires courseOrders != [] && FilterOrders(Some(courseOrders), filters) == []
    ensures CourseTabView(Some(courseOrders), filters, columnCount) ==
      CourseTable([], DataTable.EmptyRow(CourseNoMatch, columnCount))
  {
  }

  const TurfNoData := "Turf reservations will show up once customers book a time slot."
  const TurfNoMatch := "No bookings match the current filters."

  /** The turf table's empty message: "no data" only with status "all" and no filters active. */
  function TurfEmptyMessage(statusValue: string, filtersActive: bool): (m: string)
    ensures m == TurfNoData <==> statusValue == "all" && !filtersActive
  {
    if statusValue == "all" && !filtersActive then TurfNoData else TurfNoMatch
  }

  /** The turf tab counts a non-"all" status as an active filter, so any status choice gives the no-match text. */
  lemma TurfStatusCountsAsFilter(f: Filters, turfStatus: string)
    ensures var active := HasQueryFilters(f) || turfStatus != "all";
      TurfEmptyMessage(turfStatus, active) == TurfNoData <==> turfStatus == "all" && !HasQueryFilters(f)
  {
  }

  const NoDeclineReason := "No decline reason was provided for this booking."

  /** The decline dialog's text: the booking's trimmed reason, or a fixed sentence when it is blank or missing. */
  function DeclineReasonText(order: Option<Order>): (t: string)
    ensures t != []
    ensures order.Some? && order.value.booking.Some? && !IsBlank(order.value.booking.value.declineReason) ==>
      t == Trim(order.value.booking.value.declineReason)
    ensures order.None? || order.value.booking.None? ==> t == NoDeclineReason
  {
    var reason := if order.Some? && order.value.booking.Some? then Trim(order.value.booking.value.declineReason) else [];
    if reason != [] then reason else NoDeclineReason
  }

  // ------------------------------------------------------------ page state

  /** A dialog: whether it is open, and the order it shows (`null` once closed). */
  datatype Dialog = Dialog(open: bool, order: Option<Order>)

  /** `onOpenChange(open)`: the dialog follows `open`, and closing it forgets its order. */
  function AfterOpenChange(d: Dialog, open: bool): (r: Dialog)
    ensures r.open == open
    ensures open ==> r.order == d.order
    ensures !open ==> r.order.None?
  {
    Dialog(open, if open then d.order else None)
  }

  /** The page's own state: the active tab, the turf status filter and the three dialogs. */
  class OrdersTabsState {
    var activeTab: Tab
    var turfStatus: string
    var customerDialog: Dialog
    var paymentDialog: Dialog
    var declineDialog: Dialog

    /**
     * The customer and payment dialogs are open only on an order (the decline
     * dialog may open on none), and the status filter is one the page offers.
     */
    predicate Valid()
      reads this
    {
      && (customerDialog.open ==> customerDialog.order.Some?)
      && (paymentDialog.open ==> paymentDialog.order.Some?)
      && turfStatus in TurfStatusFilters
    }

    /** The tab is chosen from the lower-cased `order_tab` and the turf and court filters. */
    constructor(orderTab: string, turfId: string, courtId: string)
      ensures Valid()
      ensures activeTab == InitialTab(orderTab, turfId, courtId) && turfStatus == "all"
      ensures !customerDialog.open && !paymentDialog.open && !declineDialog.open
    {
      activeTab := InitialTab(orderTab, turfId, courtId);
      turfStatus := "all";
      customerDialog := Dialog(false, None);
      paymentDialog := Dialog(false, None);
      declineDialog := Dialog(false, None);
    }

    /** The effect that follows the query string. */
    method SyncTab(orderTab: string, turfId: string, courtId: string)
      requires Valid()
      modifies this
      ensures Valid()
      ensures activeTab == NextTab(orderTab, turfId, courtId)
      ensures turfStatus == old(turfStatus) && customerDialog == old(customerDialog)
      ensures paymentDialog == old(paymentDialog) && declineDialog == old(declineDialog)
    {
      var next := NextTab(orderTab, turfId, courtId);
      if activeTab != next {
        activeTab := next;
      }
    }

    /** The tab list's `onValueChange`. */
    method SelectTab(tab: Tab)
      requires Valid()
      modifies this
      ensures Valid()
      ensures activeTab == tab && turfStatus == old(turfStatus)
      ensures customerDialog == old(customerDialog) && paymentDialog == old(paymentDialog)
      ensures declineDialog == old(declineDialog)
    {
      activeTab := tab;
    }

    /**
     * The status select's `onStatusChange` followed by the effect that puts an
     * unknown status back to "all".
     */
    method SetTurfStatus(status: string)
      requires Valid()
      modifies this
      ensures Valid()
      ensures turfStatus == CheckedTurfStatus(status)
      ensures status in TurfStatusFilters ==> turfStatus == status
      ensures activeTab == old(activeTab) && customerDialog == old(customerDialog)
      ensures paymentDialog == old(paymentDialog) && declineDialog == old(declineDialog)
    {
      turfStatus := status;
      if turfStatus != "all" && turfStatus !in TurfStatusFilters {
        turfStatus := "all";
      }
    }

    /** `handleTurfClear`: the status filter returns to "all" (the query string is cleared by navigation). */
    method TurfClear()
      requires Valid()
      modifies this
      ensures Valid()
      ensures turfStatus == "all" && activeTab == old(activeTab)
      ensures customerDialog == old(customerDialog) && paymentDialog == old(paymentDialog)
      ensures declineDialog == old(declineDialog)
    {
      turfStatus := "all";
    }

    method ShowCustomerDetails(order: Order)
      requires Valid()
      modifies this
      ensures Valid()
      ensures customerDialog == Dialog(true, Some(order))
      ensures activeTab == old(activeTab) && turfStatus == old(turfStatus)
      ensures paymentDialog == old(paymentDialog) && declineDialog == old(declineDialog)
    {
      customerDialog := Dialog(true, Some(order));
    }

    method ShowPaymentDetails(order: Order)
      requires Valid()
      modifies this
      ensures Valid()
      ensures paymentDialog == Dialog(true, Some(order))
      ensures activeTab == old(activeTab) && turfStatus == old(turfStatus)
      ensures customerDialog == old(customerDialog) && declineDialog == old(declineDialog)
    {
      paymentDialog := Dialog(true, Some(order));
    }

    /** `handleShowDeclineReason`: the dialog opens on the order, or on nothing when none is given. */
    method ShowDeclineReason(order: Option<Order>)
      requires Valid()
      modifies this
      ensures Valid()
      ensures declineDialog == Dialog(true, order)
      ensures activeTab == old(activeTab) && turfStatus == old(turfStatus)
      ensures customerDialog == old(customerDialog) && paymentDialog == old(paymentDialog)
    {
      declineDialog := Dialog(true, order);
    }

    /**
     * The three dialogs' `onOpenChange`. The dialogs have no trigger of their own,
     * so the change reports a close, or the open state the dialog already has.
     */
    method CustomerDialogChange(open: bool)
      requires Valid() && (open ==> customerDialog.open)
      modifies this
      ensures Valid()
      ensures customerDialog == AfterOpenChange(old(customerDialog), open)
      ensures activeTab == old(activeTab) && turfStatus == old(turfStatus)
      ensures paymentDialog == old(paymentDialog) && declineDialog == old(declineDialog)
    {
      customerDialog := customerDialog.(open := open);
      if !open {
        customerDialog := customerDialog.(order := None);
      }
    }

    method PaymentDialogChange(open: bool)
      requires Valid() && (open ==> paymentDialog.open)
      modifies this
      ensures Valid()
      ensures paymentDialog == AfterOpenChange(old(paymentDialog), open)
      ensures activeTab == old(activeTab) && turfStatus == old(turfStatus)
      ensures customerDialog == old(customerDialog) && declineDialog == old(declineDialog)
    {
      paymentDialog := paymentDialog.(open := open);
      if !open {
        paymentDialog := paymentDialog.(order := None);
      }
    }

    method DeclineDialogChange(open: bool)
      requires Valid()
      modifies this
      ensures Valid()
      ensures declineDialog == AfterOpenChange(old(declineDialog), open)
      ensures activeTab == old(activeTab) && turfStatus == old(turfStatus)
      ensures customerDialog == old(customerDialog) && paymentDialog == old(paymentDialog)
    {
      declineDialog := declineDialog.(open := open);
      if !open {
        declineDialog := declineDialog.(order := None);
      }
    }
  }

  /** Closing a dialog and reopening it (without a new order) shows nothing: its rows are empty. */
  lemma ReopenedDialogIsEmpty(d: Dialog, fmt: MoneyFormat)
    ensures var r := AfterOpenChange(AfterOpenChange(d, false), true);
      r.open && BuildCustomerRows(r.order) == [] && BuildPaymentRows(r.order, fmt) == []
      && DeclineReasonText(r.order) == NoDeclineReason
  {
  }
}
