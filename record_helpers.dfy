/**
 * Helpers that lib/customers.js and lib/partners.js each define with the same
 * code: `formatDate`, `extractAggregateCount`, and the quote stripping both
 * sports parsers apply to every delimited part.
 */
module RecordHelpers {
  import opened Wrappers
  import opened Strings
  import opened Json

  /** The `Intl` rendering of a truthy date value; it gives "-" for an invalid date itself. */
  type DateLabel = Json -> string

  /** `formatDate`: a falsy value is "-". */
  function FormatDate(fmt: DateLabel, v: Json): (r: string)
    ensures !Truthy(v) ==> r == "-"
  {
    if !Truthy(v) then "-" else fmt(v)
  }

  // ------------------------------------------------------------ aggregate counts

  /** A JavaScript number as a sum can produce it: `None` is NaN. */
  type Number = Option<int>

  function Plus(a: Number, b: Number): Number
  {
    if a.Some? && b.Some? then Some(a.value + b.value) else None
  }

  /** The count of one aggregate entry: a number as it is (NaN included), anything else `Number(x) || 0`. */
  function EntryCount(entry: Json): (r: Number)
    ensures r.None? <==> Get(entry, "count").NaN?
    ensures Get(entry, "count").Num? ==> r == Some(Get(entry, "count").n)
  {
    var c := Get(entry, "count");
    if c.Num? then Some(c.n) else if c.NaN? then None else Some(NumberOrZero(c))
  }

  function SumCounts(entries: seq<Json>): Number
    decreases |entries|
  {
    if entries == [] then Some(0)
    else Plus(SumCounts(entries[..|entries| - 1]), EntryCount(entries[|entries| - 1]))
  }

  /** `extractAggregateCount`: 0 for a non-array or an empty array, otherwise the sum of the `count` fields. */
  function ExtractAggregateCount(source: Json): (r: Number)
    ensures !source.Arr? || source.items == [] ==> r == Some(0)
  {
    if !source.Arr? || |source.items| == 0 then Some(0) else SumCounts(source.items)
  }

  predicate NoNaNCount(entries: seq<Json>)
  {
    forall i :: 0 <= i < |entries| ==> !Get(entries[i], "count").NaN?
  }

  /** The sum of the entries' counts, with non-numeric counts as 0. */
  function CountTotal(entries: seq<Json>): int
    decreases |entries|
  {
    if entries == [] then 0
    else CountTotal(entries[..|entries| - 1]) + EntryCount(entries[|entries| - 1]).GetOr(0)
  }

  /** Without a NaN count the aggregate is the plain sum; a single NaN count makes it NaN. */
  lemma {:induction false} SumCountsIsTotal(entries: seq<Json>)
    ensures NoNaNCount(entries) ==> SumCounts(entries) == Some(CountTotal(entries))
    ensures !NoNaNCount(entries) ==> SumCounts(entries).None?
    decreases |entries|
  {
    if entries != [] {
      var front, last := entries[..|entries| - 1], entries[|entries| - 1];
      SumCountsIsTotal(front);
      assert SumCounts(entries) == Plus(SumCounts(front), EntryCount(last));
      assert CountTotal(entries) == CountTotal(front) + EntryCount(last).GetOr(0);
      if NoNaNCount(entries) {
        assert NoNaNCount(front);
        assert !Get(last, "count").NaN?;
        var c := EntryCount(last);
        assert c.Some? && SumCounts(entries) == Some(CountTotal(front) + c.value);
      } else if NoNaNCount(front) {
        assert Get(last, "count").NaN?;
      } else {
        var i :| 0 <= i < |front| && Get(front[i], "count").NaN?;
        assert front[i] == entries[i];
      }
    }
  }

  /** Counts add up across a split of the entries. */
  lemma {:induction false} CountTotalAppend(a: seq<Json>, b: seq<Json>)
    ensures CountTotal(a + b) == CountTotal(a) + CountTotal(b)
    decreases |b|
  {
    if b == [] {
      assert a + b == a;
    } else {
      CountTotalAppend(a, b[..|b| - 1]);
      assert (a + b)[..|a + b| - 1] == a + b[..|b| - 1];
    }
  }

  // ------------------------------------------------------------ delimited parts

  /** `replace(/^q|q$/g, "")`: one leading and one trailing `q` removed. */
  function StripQuote(s: string, q: char): (r: string)
    ensures |r| <= |s|
  {
    var a := if s != [] && s[0] == q then s[1..] else s;
    if a != [] && a[|a| - 1] == q then a[..|a| - 1] else a
  }

  /** `.replace(/^"|"$/g, "").replace(/^'|'$/g, "").trim()` on one delimited part. */
  function CleanSport(part: string): string
  {
    Trim(StripQuote(StripQuote(part, '"'), '\''))
  }

  function CleanSports(parts: seq<string>): (r: seq<string>)
    ensures |r| == |parts|
    ensures forall i :: 0 <= i < |r| ==> IsTrimmed(r[i])
  {
    seq(|parts|, i requires 0 <= i < |parts| => CleanSport(parts[i]))
  }

  predicate IsQuote(c: char) { c == '"' || c == '\'' }

  /** A trimmed, non-empty name that neither starts nor ends with a quote. */
  predicate Unquoted(w: string)
  {
    w != [] && IsTrimmed(w) && !IsQuote(w[0]) && !IsQuote(w[|w| - 1])
  }

  function Quoted(w: string): string { "\"" + w + "\"" }

  /** An unquoted part is left as it is. */
  lemma CleanPlain(w: string)
    requires Unquoted(w)
    ensures CleanSport(w) == w
  {
  }

  /** A part after `", "` loses the space. */
  lemma CleanPadded(w: string)
    requires Unquoted(w)
    ensures CleanSport(" " + w) == w
  {
    var s := " " + w;
    assert s[1..] == w;
    assert s[|s| - 1] == w[|w| - 1];
    assert StripQuote(s, '"') == s;
    assert StripQuote(s, '\'') == s;
    assert TrimStart(s) == w by {
      assert IsSpace(s[0]);
      assert TrimStart(s) == TrimStart(w);
    }
    assert TrimEnd(w) == w;
  }

  /** A double-quoted part loses its quotes. */
  lemma CleanQuoted(w: string)
    requires Unquoted(w)
    ensures CleanSport(Quoted(w)) == w
  {
    var q := Quoted(w);
    assert q[1..] == w + "\"";
    assert (w + "\"")[..|w|] == w;
    assert StripQuote(q, '"') == w;
    CleanPlain(w);
  }
}
