/**
 * The two partner list endpoints: `GET /api/partners/paginated`
 * (app/api/partners/paginated/route.js), which validates `page` and `limit` before
 * querying, and `GET /api/partners` (app/api/partners/route.js), which answers every
 * normalised partner and the active ones, cut to `limit`. The paginated route reads its
 * numbers with `parseInt(text, 10)`, modelled here with its JavaScript reading: leading
 * white space, an optional sign, then the longest run of digits; no digit at all is NaN
 * (`None`). The list route calls `parseInt(limit)` with no radix, which reads a `0x` or
 * `0X` after the sign as the start of a hexadecimal numeral.
 */
module PartnersRoutes {
  import opened Wrappers
  import opened Strings
  import opened Json
  import opened Seqs
  import opened Partners
  import opened RecordHelpers
  import Supabase

  // ------------------------------------------------------------ parseInt

  /** The longest prefix of decimal digits. */
  function LeadingDigits(s: string): (r: string)
    ensures |r| <= |s| && r == s[..|r|] && AllDigits(r)
    ensures |r| < |s| ==> !IsDigit(s[|r|])
    decreases |s|
  {
    if s != [] && IsDigit(s[0]) then [s[0]] + LeadingDigits(s[1..]) else []
  }

  /** `parseInt(s, 10)`: `None` stands for NaN. */
  function ParseLeadingInt(s: string): (r: Option<int>)
    ensures r.None? <==> LeadingDigits(Unsigned(TrimStart(s))) == []
  {
    var t := TrimStart(s);
    var digits := LeadingDigits(Unsigned(t));
    if digits == [] then None
    else if t != [] && t[0] == '-' then Some(-(DigitsValue(digits) as int))
    else Some(DigitsValue(digits))
  }

  /** The text after one leading sign, if any. */
  function Unsigned(t: string): (r: string)
    ensures t != [] && (t[0] == '-' || t[0] == '+') ==> r == t[1..]
    ensures t == [] || (t[0] != '-' && t[0] != '+') ==> r == t
  {
    if t != [] && (t[0] == '-' || t[0] == '+') then t[1..] else t
  }

  /** The digits of a numeral followed by anything that is not a digit are read up to there. */
  lemma {:induction false} DigitsThenOther(d: string, rest: string)
    requires AllDigits(d) && (rest == [] || !IsDigit(rest[0]))
    ensures LeadingDigits(d + rest) == d
    decreases |d|
  {
    if d == [] {
      assert d + rest == rest;
    } else {
      assert (d + rest)[1..] == d[1..] + rest;
      DigitsThenOther(d[1..], rest);
      assert [d[0]] + d[1..] == d;
    }
  }

  /** Text that starts with no white space reads as the signed value of the digits after its sign. */
  lemma ParseUnspaced(s: string, d: string)
    requires s != [] && !IsSpace(s[0])
    requires d != [] && LeadingDigits(Unsigned(s)) == d
    ensures ParseLeadingInt(s) == if s[0] == '-' then Some(-(DigitsValue(d) as int)) else Some(DigitsValue(d))
  {
    assert TrimStart(s) == s;
  }

  /** A run of digits, then anything that is not a digit, reads as the run's value. */
  lemma ParseDigitRun(d: string, rest: string)
    requires d != [] && AllDigits(d) && (rest == [] || !IsDigit(rest[0]))
    ensures ParseLeadingInt(d + rest) == Some(DigitsValue(d))
  {
    var s := d + rest;
    assert s[0] == d[0] && IsDigit(s[0]);
    assert Unsigned(s) == s;
    DigitsThenOther(d, rest);
    ParseUnspaced(s, d);
  }

  /** A minus sign, a run of digits, then anything that is not a digit, reads as the negated value. */
  lemma ParseNegativeRun(s: string, d: string, rest: string, v: int)
    requires d != [] && AllDigits(d) && (rest == [] || !IsDigit(rest[0]))
    requires s == "-" + (d + rest) && v == DigitsValue(d)
    ensures ParseLeadingInt(s) == Some(-v)
  {
    assert s[0] == '-';
    assert Unsigned(s) == d + rest by {
      assert s[1..] == d + rest;
    }
    DigitsThenOther(d, rest);
    ParseUnspaced(s, d);
  }

  /** `parseInt` reads a printed integer back as itself, even when other text follows it. */
  lemma ParsePrinted(n: int, rest: string)
    requires rest == [] || !IsDigit(rest[0])
    ensures ParseLeadingInt(IntToString(n) + rest) == Some(n)
  {
    if n < 0 {
      ParsePrintedNegative(n, rest);
    } else {
      var d := NatToString(n);
      ParseDigitRun(d, rest);
      DigitsValueOfNat(n);
    }
  }

  lemma ParsePrintedNegative(n: int, rest: string)
    requires n < 0 && (rest == [] || !IsDigit(rest[0]))
    ensures ParseLeadingInt(IntToString(n) + rest) == Some(n)
  {
    NegativeText(n, rest);
    DigitsValueOfNat(-n);
    ParseNegativeRun(IntToString(n) + rest, NatToString(-n), rest, -n);
  }

  lemma NegativeText(n: int, rest: string)
    requires n < 0
    ensures IntToString(n) + rest == "-" + (NatToString(-n) + rest)
  {
  }

  /** One more digit on the right multiplies the value by ten and adds the digit. */
  lemma DigitsSnoc(d: string, c: char)
    requires AllDigits(d) && IsDigit(c)
    ensures AllDigits(d + [c]) && DigitsValue(d + [c]) == 10 * DigitsValue(d) + DigitValue(c)
  {
    assert (d + [c])[..|d|] == d;
  }

  /** Text that does not start with a digit, a sign or white space reads as NaN. */
  lemma NotNumeric(s: string)
    requires s != [] && !IsDigit(s[0]) && !IsSpace(s[0]) && s[0] != '-' && s[0] != '+'
    ensures ParseLeadingInt(s) == None
  {
    assert TrimStart(s) == s;
  }

  // ------------------------------------------------------------ parseInt without a radix

  /** The longest prefix of hexadecimal digits. */
  function LeadingHexDigits(s: string): (r: string)
    ensures |r| <= |s| && r == s[..|r|] && AllHexDigits(r) && AllRadixDigits(r, 16)
    ensures |r| < |s| ==> !IsHexDigit(s[|r|])
    decreases |s|
  {
    if s != [] && IsHexDigit(s[0]) then [s[0]] + LeadingHexDigits(s[1..]) else []
  }

  /** The text after the sign opens with `0x` or `0X`. */
  predicate HasHexPrefix(u: string) { |u| >= 2 && u[0] == '0' && (u[1] == 'x' || u[1] == 'X') }

  /**
   * `parseInt(s)` with no radix: after white space and a sign, a `0x` or `0X` prefix
   * makes the rest a hexadecimal numeral, with NaN when no hexadecimal digit follows;
   * any other text is read in base 10, exactly as `parseInt(s, 10)` reads it.
   */
  function ParseIntAutoRadix(s: string): (r: Option<int>)
    ensures var u := Unsigned(TrimStart(s));
      && (!HasHexPrefix(u) ==> r == ParseLeadingInt(s))
      && (HasHexPrefix(u) ==> (r.None? <==> LeadingHexDigits(u[2..]) == []))
      && (HasHexPrefix(u) && r.Some? ==> (if TrimStart(s)[0] == '-' then -r.value else r.value) == RadixValue(LeadingHexDigits(u[2..]), 16))
  {
    var t := TrimStart(s);
    var u := Unsigned(t);
    if HasHexPrefix(u) then
      var digits := LeadingHexDigits(u[2..]);
      if digits == [] then None
      else if t[0] == '-' then Some(-(RadixValue(digits, 16) as int))
      else Some(RadixValue(digits, 16))
    else ParseLeadingInt(s)
  }

  /** `parseInt("0x10")` is 16 where `parseInt("0x10", 10)` is 0, and a bare `"0x"` is NaN. */
  lemma HexPrefixCases()
    ensures ParseIntAutoRadix("0x10") == Some(16)
    ensures ParseLeadingInt("0x10") == Some(0)
    ensures ParseIntAutoRadix("0x") == None
  {
    var s: string := "0x10";
    assert TrimStart(s) == s && Unsigned(s) == s;
    assert s[2..] == "10";
    assert LeadingHexDigits("10") == "10" by {
      assert LeadingHexDigits("0") == "0" by {
        assert LeadingHexDigits([]) == [];
      }
    }
    assert RadixValue("10", 16) == 16 by {
      assert "10"[..1] == "1" && "1"[..0] == [];
    }
    assert LeadingDigits(s) == "0" by {
      assert s[1..] == "x10";
    }
    assert DigitsValue("0") == 0 by {
      assert "0"[..0] == [];
    }
    var b: string := "0x";
    assert TrimStart(b) == b && Unsigned(b) == b && b[2..] == [];
  }

  /** Text whose sign is followed by a decimal digit other than a leading `0x` reads as in base 10. */
  lemma AutoRadixDecimal(s: string)
    requires s != [] && IsDigit(s[0]) && (|s| < 2 || s[0] != '0' || IsDigit(s[1]) || (s[1] != 'x' && s[1] != 'X'))
    ensures ParseIntAutoRadix(s) == ParseLeadingInt(s)
  {
    assert TrimStart(s) == s && Unsigned(s) == s;
  }

  // ------------------------------------------------------------ GET /api/partners/paginated

  /** `searchParams.get(name) || fallback`. */
  function ParamOr(value: Option<string>, fallback: string): (r: string)
    ensures value.Some? && value.value != [] ==> r == value.value
    ensures value.None? ==> r == fallback
  {
    if value.Some? && value.value != [] then value.value else fallback
  }

  /** `x < bound` where `x` may be NaN, for which every comparison is false. */
  predicate Below(x: Option<int>, bound: int) { x.Some? && x.value < bound }

  /** `x > bound` where `x` may be NaN. */
  predicate Above(x: Option<int>, bound: int) { x.Some? && x.value > bound }

  /** The arguments handed to `getPartnersPaginated`. */
  datatype PageQuery = PageQuery(page: Option<int>, limit: Option<int>, search: string)

  /** The route's answer: one of its two 400 responses, or the query it runs. */
  datatype PageRequest = NegativePage | LimitOutOfRange | RunQuery(query: PageQuery)

  function PaginatedRequest(page: Option<string>, limit: Option<string>, search: Option<string>): (r: PageRequest)
    ensures var p := ParseLeadingInt(ParamOr(page, "0"));
      var l := ParseLeadingInt(ParamOr(limit, "50"));
      && (r == NegativePage <==> Below(p, 0))
      && (r == LimitOutOfRange <==> !Below(p, 0) && (Below(l, 1) || Above(l, 100)))
      && (r.RunQuery? ==> r.query == PageQuery(p, l, ParamOr(search, "")))
  {
    var p := ParseLeadingInt(ParamOr(page, "0"));
    var l := ParseLeadingInt(ParamOr(limit, "50"));
    if Below(p, 0) then NegativePage
    else if Below(l, 1) || Above(l, 100) then LimitOutOfRange
    else RunQuery(PageQuery(p, l, ParamOr(search, "")))
  }

  /** Without parameters the route asks for page 0 of 50 partners, unfiltered. */
  lemma PaginatedDefaults()
    ensures PaginatedRequest(None, None, None) == RunQuery(PageQuery(Some(0), Some(50), ""))
  {
    ParseDigitRun("0", []);
    ParseDigitRun("50", []);
    assert "0" + [] == "0" && "50" + [] == "50";
    assert DigitsValue("50") == 10 * DigitsValue("5") + 0;
  }

  /** A page or limit that reads as NaN is not rejected: the query runs with NaN. */
  lemma NaNPassesChecks(page: string, limit: string)
    requires page != [] && limit != []
    requires ParseLeadingInt(page) == None && ParseLeadingInt(limit) == None
    ensures PaginatedRequest(Some(page), Some(limit), None) == RunQuery(PageQuery(None, None, ""))
  {
  }

  /** An accepted numeric request asks for a non-negative row range of 1 to 100 rows. */
  lemma AcceptedRange(page: Option<string>, limit: Option<string>, search: Option<string>)
    requires PaginatedRequest(page, limit, search).RunQuery?
    ensures var q := PaginatedRequest(page, limit, search).query;
      q.page.Some? && q.limit.Some? ==>
        var range := Supabase.PageRange(q.page.value, q.limit.value);
        && 0 <= range.0 <= range.1
        && 1 <= range.1 - range.0 + 1 <= 100
  {
    var q := PaginatedRequest(page, limit, search).query;
    if q.page.Some? && q.limit.Some? {
      RangeOfValidPage(q.page.value, q.limit.value);
    }
  }

  lemma RangeOfValidPage(page: int, limit: int)
    requires page >= 0 && 1 <= limit <= 100
    ensures var range := Supabase.PageRange(page, limit);
      0 <= range.0 <= range.1 && 1 <= range.1 - range.0 + 1 <= 100
  {
    assert page * limit >= 0;
  }

  // ------------------------------------------------------------ GET /api/partners

  /** What the route answers: every normalised partner, and the listed ones. */
  datatype PartnerList = PartnerList(data: seq<PartnerRecord>, partners: seq<PartnerRecord>)

  predicate IsActive(p: PartnerRecord) { p.status == "active" }

  /** `partners.map(normalizePartnerRecord)`. */
  function Normalized(rows: seq<Json>, parse: Parser, matcher: VideoIdMatcher, fmt: DateLabel): (r: seq<PartnerRecord>)
    ensures |r| == |rows|
    ensures forall i :: 0 <= i < |rows| ==> r[i] == NormalizePartner(rows[i], parse, matcher, fmt)
  {
    seq(|rows|, i requires 0 <= i < |rows| => NormalizePartner(rows[i], parse, matcher, fmt))
  }

  /**
   * The end index `slice(0, end)` uses on a list of `len` elements: NaN counts as 0, a
   * negative end counts from the back, and an end past the list stops at its length.
   */
  function SliceEnd(len: nat, end: Option<int>): (r: nat)
    ensures r <= len
    ensures end.None? ==> r == 0
    ensures end.Some? && 0 <= end.value ==> r == if end.value < len then end.value else len
    ensures end.Some? && end.value < 0 ==> r == if len + end.value > 0 then len + end.value else 0
  {
    if end.None? then 0
    else if end.value < 0 then (if len + end.value > 0 then len + end.value else 0)
    else if end.value < len then end.value
    else len
  }

  function ListPartners(rows: seq<Json>, limit: Option<string>, parse: Parser, matcher: VideoIdMatcher, fmt: DateLabel): (r: PartnerList)
    ensures r.data == Normalized(rows, parse, matcher, fmt)
    ensures forall i :: 0 <= i < |r.partners| ==> r.partners[i].status == "active"
    ensures var active := Keep(r.data, IsActive); |r.partners| <= |active| && r.partners == active[..|r.partners|]
  {
    var normalized := Normalized(rows, parse, matcher, fmt);
    var active := Keep(normalized, IsActive);
    var listed :=
      if limit.Some? && limit.value != [] then active[..SliceEnd(|active|, ParseIntAutoRadix(limit.value))]
      else active;
    assert forall i :: 0 <= i < |listed| ==> listed[i] == active[i];
    PartnerList(normalized, listed)
  }

  /** What the route answers: the two lists, or status 500 "Failed to load partners" when the handler throws. */
  datatype RouteOutcome = Listed(list: PartnerList) | LoadFailed

  /**
   * `GET /api/partners` over whatever `getPartners()` resolved to: `.map` exists only
   * on an array, so any other value throws into the catch.
   */
  function PartnersRoute(fetched: Json, limit: Option<string>, parse: Parser, matcher: VideoIdMatcher, fmt: DateLabel): (r: RouteOutcome)
    ensures fetched.Arr? ==> r == Listed(ListPartners(fetched.items, limit, parse, matcher, fmt))
    ensures !fetched.Arr? ==> r == LoadFailed
  {
    if fetched.Arr? then Listed(ListPartners(fetched.items, limit, parse, matcher, fmt)) else LoadFailed
  }

  /**
   * As written, the route always fails: `getPartners()` resolves to the object
   * `{ partners, total }`, which has no `map`, whatever rows and limit there are.
   */
  lemma PartnersRouteAlwaysFails(rows: seq<Json>, total: nat, limit: Option<string>, parse: Parser, matcher: VideoIdMatcher, fmt: DateLabel)
    ensures PartnersRoute(Supabase.ListObject("partners", rows, total), limit, parse, matcher, fmt) == LoadFailed
  {
  }

  /** Without a limit every active partner is listed, in the order of the rows. */
  lemma NoLimitListsAllActive(rows: seq<Json>, limit: Option<string>, parse: Parser, matcher: VideoIdMatcher, fmt: DateLabel)
    requires limit.None? || limit.value == []
    ensures ListPartners(rows, limit, parse, matcher, fmt).partners == Keep(Normalized(rows, parse, matcher, fmt), IsActive)
  {
  }

  /**
   * A limit that `parseInt` reads as `n >= 0` (in base 16 after a `0x` prefix) lists
   * the first `n` active partners (all of them when fewer).
   */
  lemma LimitListsFirst(rows: seq<Json>, s: string, n: int, parse: Parser, matcher: VideoIdMatcher, fmt: DateLabel)
    requires s != [] && ParseIntAutoRadix(s) == Some(n) && n >= 0
    ensures var active := Keep(Normalized(rows, parse, matcher, fmt), IsActive);
      ListPartners(rows, Some(s), parse, matcher, fmt).partners == if n < |active| then active[..n] else active
  {
    var active := Keep(Normalized(rows, parse, matcher, fmt), IsActive);
    assert active[..|active|] == active;
  }

  /** A limit that is not a number lists no partner at all, since `slice(0, NaN)` is empty. */
  lemma NaNLimitListsNone(rows: seq<Json>, s: string, parse: Parser, matcher: VideoIdMatcher, fmt: DateLabel)
    requires s != [] && ParseIntAutoRadix(s) == None
    ensures ListPartners(rows, Some(s), parse, matcher, fmt).partners == []
  {
  }

  /** `limit=0x10` lists the first sixteen active partners, not none as a base-10 reading would. */
  lemma HexLimitListsSixteen(rows: seq<Json>, parse: Parser, matcher: VideoIdMatcher, fmt: DateLabel)
    ensures var active := Keep(Normalized(rows, parse, matcher, fmt), IsActive);
      ListPartners(rows, Some("0x10"), parse, matcher, fmt).partners == if 16 < |active| then active[..16] else active
  {
    HexPrefixCases();
    LimitListsFirst(rows, "0x10", 16, parse, matcher, fmt);
  }

  /** The enrollment dialog's `limit=1000` lists every active partner when there are at most 1000. */
  lemma DialogListsAllActive(rows: seq<Json>, parse: Parser, matcher: VideoIdMatcher, fmt: DateLabel)
    requires |Keep(Normalized(rows, parse, matcher, fmt), IsActive)| <= 1000
    ensures ListPartners(rows, Some("1000"), parse, matcher, fmt).partners == Keep(Normalized(rows, parse, matcher, fmt), IsActive)
  {
    var d1: string := "1";
    assert DigitsValue(d1) == 1;
    DigitsSnoc(d1, '0');
    var d2 := d1 + ['0'];
    DigitsSnoc(d2, '0');
    var d3 := d2 + ['0'];
    DigitsSnoc(d3, '0');
    var d4 := d3 + ['0'];
    assert DigitsValue(d4) == 1000;
    assert d4 == "1000";
    ParseDigitRun(d4, []);
    assert d4 + [] == d4;
    AutoRadixDecimal(d4);
    LimitListsFirst(rows, "1000", 1000, parse, matcher, fmt);
  }
}
