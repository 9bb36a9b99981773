/**
 * `convertToCSV`, shared word for word by the user and partner export routes
 * (app/api/export/users/route.js, app/api/export/partners/route.js): a header line of
 * the column labels, then one line per item, each cell quoted as section 2 of RFC 4180
 * asks (rules 6 and 7) when it holds a comma, a line feed or a double quote. Beside it,
 * a reader for that format, and the proof that reading an export gives back the labels
 * and every cell's text.
 */
module CsvExport {
  import opened Wrappers
  import opened Strings
  import opened Json
  import Seqs

  /** One entry of `columns`: the key read from each item unless a getter is given, and the header label. */
  datatype Column = Column(key: string, title: string, getValue: Option<Json -> Json>)

  // ------------------------------------------------------------ writing

  /** `value.includes(",") || value.includes("\n") || value.includes('"')`. */
  predicate NeedsQuotes(s: string)
  {
    ',' in s || '\n' in s || '"' in s
  }

  /** `value.replace(/"/g, '""')`. */
  function Doubled(s: string): string
  {
    ReplaceChar(s, '"', "\"\"")
  }

  /** A cell as written: wrapped in quotes, inner quotes doubled, exactly when it needs quotes. */
  function Escape(s: string): (r: string)
    ensures NeedsQuotes(s) <==> r != [] && r[0] == '"'
    ensures !NeedsQuotes(s) ==> r == s
  {
    if NeedsQuotes(s) then "\"" + Doubled(s) + "\"" else s
  }

  /** `col.getValue ? col.getValue(item) : item[col.key]`. */
  function CellValue(item: Json, col: Column): Json
  {
    if col.getValue.Some? then col.getValue.value(item) else Get(item, col.key)
  }

  /** The cell before escaping: null and undefined become "", anything else `String(value)`. */
  function CellText(v: Json): (r: string)
    ensures Nullish(v) ==> r == ""
    ensures v.Str? ==> r == v.s
  {
    if Nullish(v) then "" else ToStr(v)
  }

  function CellTexts(item: Json, columns: seq<Column>): (r: seq<string>)
    ensures |r| == |columns|
  {
    seq(|columns|, i requires 0 <= i < |columns| => CellText(CellValue(item, columns[i])))
  }

  function Escaped(fields: seq<string>): (r: seq<string>)
    ensures |r| == |fields|
  {
    seq(|fields|, i requires 0 <= i < |fields| => Escape(fields[i]))
  }

  /** One line: the escaped fields joined with ",". */
  function Line(fields: seq<string>): string
  {
    Join(Escaped(fields), ",")
  }

  function Labels(columns: seq<Column>): (r: seq<string>)
    ensures |r| == |columns|
  {
    seq(|columns|, i requires 0 <= i < |columns| => columns[i].title)
  }

  /** `convertToCSV(data, columns)`: "" for no data; else the header line and one line per item, joined with "\n". */
  function ConvertToCsv(data: seq<Json>, columns: seq<Column>): (r: string)
    ensures data == [] <==> r == []
  {
    if |data| == 0 then ""
    else
      var lines := [Join(Labels(columns), ",")] + seq(|data|, i requires 0 <= i < |data| => Line(CellTexts(data[i], columns)));
      JoinManyNonEmpty(lines, "\n");
      Join(lines, "\n")
  }

  // ------------------------------------------------------------ reading

  /** What reading one field leaves: its text and the input after it. */
  datatype Cursor = Cursor(field: string, rest: string)

  /** The inside of a quoted field, up to its closing quote; `""` stands for one quote. `None` when it is never closed. */
  function ReadQuoted(u: string): (r: Option<Cursor>)
    ensures r.Some? ==> |r.value.rest| < |u|
    decreases |u|
  {
    if u == [] then None
    else if u[0] == '"' then
      if |u| > 1 && u[1] == '"' then
        match ReadQuoted(u[2..])
        case None => None
        case Some(c) => Some(Cursor("\"" + c.field, c.rest))
      else Some(Cursor([], u[1..]))
    else
      match ReadQuoted(u[1..])
      case None => None
      case Some(c) => Some(Cursor([u[0]] + c.field, c.rest))
  }

  /** An unquoted field: everything up to the next comma, line feed or the end. */
  function ReadPlain(u: string): (r: Cursor)
    ensures |r.rest| <= |u|
    decreases |u|
  {
    if u == [] || u[0] == ',' || u[0] == '\n' then Cursor([], u)
    else
      var c := ReadPlain(u[1..]);
      Cursor([u[0]] + c.field, c.rest)
  }

  function ReadField(t: string): (r: Option<Cursor>)
    ensures r.Some? ==> |r.value.rest| <= |t|
  {
    if t != [] && t[0] == '"' then ReadQuoted(t[1..]) else Some(ReadPlain(t))
  }

  /** One record: fields separated by commas, up to a line feed (consumed) or the end; `None` when malformed. */
  function ReadRecord(t: string): (r: Option<(seq<string>, string)>)
    ensures r.Some? ==> |r.value.1| <= |t| && (t != [] ==> |r.value.1| < |t|)
    decreases |t|
  {
    match ReadField(t)
    case None => None
    case Some(c) =>
      if c.rest == [] then Some(([c.field], []))
      else if c.rest[0] == '\n' then Some(([c.field], c.rest[1..]))
      else if c.rest[0] == ',' then
        match ReadRecord(c.rest[1..])
        case None => None
        case Some(more) => Some(([c.field] + more.0, more.1))
      else None
  }

  /** Every record of a text, in order. */
  function ReadRecords(t: string): (r: Option<seq<seq<string>>>)
    decreases |t|
  {
    if t == [] then Some([])
    else
      match ReadRecord(t)
      case None => None
      case Some(first) =>
        match ReadRecords(first.1)
        case None => None
        case Some(rest) => Some([first.0] + rest)
  }

  // ------------------------------------------------------------ the round trip

  predicate EndsField(t: string)
  {
    t == [] || t[0] == ',' || t[0] == '\n'
  }

  lemma {:induction false} QuotedRoundTrip(s: string, t: string)
    requires t == [] || t[0] != '"'
    ensures ReadQuoted(Doubled(s) + ("\"" + t)) == Some(Cursor(s, t))
    decreases |s|
  {
    if s == [] {
      assert Doubled(s) == [];
      assert Doubled(s) + ("\"" + t) == "\"" + t;
      QuotedClose(t);
    } else {
      QuotedRoundTrip(s[1..], t);
      DoubledCons(s, "\"" + t);
      if s[0] == '"' {
        QuotedQuote(Doubled(s[1..]) + ("\"" + t), Cursor(s[1..], t));
      } else {
        QuotedChar(s[0], Doubled(s[1..]) + ("\"" + t), Cursor(s[1..], t));
      }
      assert [s[0]] + s[1..] == s;
    }
  }

  /** Doubling works character by character. */
  lemma DoubledCons(s: string, t: string)
    requires s != []
    ensures Doubled(s) + t == (if s[0] == '"' then "\"\"" else [s[0]]) + (Doubled(s[1..]) + t)
  {
  }

  /** A lone quote closes the field. */
  lemma QuotedClose(t: string)
    requires t == [] || t[0] != '"'
    ensures ReadQuoted("\"" + t) == Some(Cursor([], t))
  {
    assert ("\"" + t)[1..] == t;
  }

  /** A doubled quote reads as one quote of the field. */
  lemma QuotedQuote(v: string, c: Cursor)
    requires ReadQuoted(v) == Some(c)
    ensures ReadQuoted("\"\"" + v) == Some(Cursor("\"" + c.field, c.rest))
  {
    assert ("\"\"" + v)[2..] == v;
  }

  /** Any other character is part of the field. */
  lemma QuotedChar(x: char, v: string, c: Cursor)
    requires x != '"' && ReadQuoted(v) == Some(c)
    ensures ReadQuoted([x] + v) == Some(Cursor([x] + c.field, c.rest))
  {
    assert ([x] + v)[1..] == v;
  }

  lemma {:induction false} PlainRoundTrip(s: string, t: string)
    requires ',' !in s && '\n' !in s && EndsField(t)
    ensures ReadPlain(s + t) == Cursor(s, t)
    decreases |s|
  {
    if s == [] {
      assert s + t == t;
    } else {
      assert s[1..] + t == (s + t)[1..];
      assert s[0] in s;
      PlainRoundTrip(s[1..], t);
      assert [s[0]] + s[1..] == s;
    }
  }

  /** Reading a written cell followed by a separator or the end gives back the cell's text. */
  lemma FieldRoundTrip(s: string, t: string)
    requires EndsField(t)
    ensures ReadField(Escape(s) + t) == Some(Cursor(s, t))
  {
    if NeedsQuotes(s) {
      QuotedRoundTrip(s, t);
      assert Escape(s) + t == "\"" + (Doubled(s) + ("\"" + t));
    } else {
      PlainRoundTrip(s, t);
      if s != [] {
        assert s[0] in s;
      }
    }
  }

  /** Reading a written line followed by a line feed or the end gives back its fields. */
  lemma {:induction false} LineRoundTrip(fields: seq<string>, t: string)
    requires fields != [] && (t == [] || t[0] == '\n')
    ensures ReadRecord(Line(fields) + t) == Some((fields, if t == [] then [] else t[1..]))
    decreases |fields|
  {
    if |fields| == 1 {
      LineOne(fields);
      FieldLast(fields[0], t);
      assert [fields[0]] == fields;
    } else {
      var tail := fields[1..];
      LineCons(fields);
      LineRoundTrip(tail, t);
      Seqs.Regroup(Escape(fields[0]), ",", Line(tail), t);
      FieldThenRecord(fields[0], Line(tail) + t, (tail, if t == [] then [] else t[1..]));
      assert [fields[0]] + tail == fields;
    }
  }

  /** A line of one field is that field, escaped. */
  lemma LineOne(fields: seq<string>)
    requires |fields| == 1
    ensures Line(fields) == Escape(fields[0])
  {
    assert Escaped(fields) == [Escape(fields[0])];
  }

  /** A written cell followed by a line feed or the end is a record of that one field. */
  lemma FieldLast(s: string, t: string)
    requires t == [] || t[0] == '\n'
    ensures ReadRecord(Escape(s) + t) == Some(([s], if t == [] then [] else t[1..]))
  {
    FieldRoundTrip(s, t);
    RecordEnd(Escape(s) + t, Cursor(s, t));
  }

  /** A written cell and a comma in front of a record add that cell at the record's head. */
  lemma FieldThenRecord(s: string, u: string, more: (seq<string>, string))
    requires ReadRecord(u) == Some(more)
    ensures ReadRecord(Escape(s) + ("," + u)) == Some(([s] + more.0, more.1))
  {
    FieldRoundTrip(s, "," + u);
    assert ("," + u)[1..] == u;
    RecordMore(Escape(s) + ("," + u), Cursor(s, "," + u), more);
  }

  /** A field followed by a line feed or the end is the record's last. */
  lemma RecordEnd(t: string, c: Cursor)
    requires ReadField(t) == Some(c) && (c.rest == [] || c.rest[0] == '\n')
    ensures ReadRecord(t) == Some(([c.field], if c.rest == [] then [] else c.rest[1..]))
  {
  }

  /** A field followed by a comma is followed by the rest of its record. */
  lemma RecordMore(t: string, c: Cursor, more: (seq<string>, string))
    requires ReadField(t) == Some(c) && c.rest != [] && c.rest[0] == ','
    requires ReadRecord(c.rest[1..]) == Some(more)
    ensures ReadRecord(t) == Some(([c.field] + more.0, more.1))
  {
  }

  /** A line of several fields is the first field, a comma, and the line of the others. */
  lemma LineCons(fields: seq<string>)
    requires |fields| >= 2
    ensures Line(fields) == Escape(fields[0]) + "," + Line(fields[1..])
  {
    assert Escaped(fields[1..]) == Escaped(fields)[1..];
  }

  lemma JoinFrontNonEmpty(parts: seq<string>, sep: string)
    requires parts != [] && parts[0] != []
    ensures Join(parts, sep) != []
  {
  }

  lemma JoinManyNonEmpty(parts: seq<string>, sep: string)
    requires |parts| >= 2 && sep != []
    ensures Join(parts, sep) != []
  {
  }

  /** A line of two fields or more holds a comma, so it is never empty. */
  lemma LineNonEmpty(fields: seq<string>)
    requires |fields| >= 2
    ensures Line(fields) != []
  {
  }

  function Lines(records: seq<seq<string>>): (r: seq<string>)
    ensures |r| == |records|
  {
    seq(|records|, i requires 0 <= i < |records| => Line(records[i]))
  }

  /** Records of at least two fields each, written one per line, read back as themselves. */
  lemma {:induction false} RecordsRoundTrip(records: seq<seq<string>>)
    requires forall i :: 0 <= i < |records| ==> |records[i]| >= 2
    ensures ReadRecords(Join(Lines(records), "\n")) == Some(records)
    decreases |records|
  {
    if records != [] {
      var lines := Lines(records);
      if |records| == 1 {
        RecordsLast(records[0]);
        assert [records[0]] == records;
      } else {
        var rest := records[1..];
        assert Lines(rest) == lines[1..];
        RecordsRoundTrip(rest);
        JoinFront(lines, "\n");
        RecordsStep(records[0], Join(Lines(rest), "\n"), rest);
        assert [records[0]] + rest == records;
      }
    }
  }

  /** A join of two parts or more is the first part, the separator, and the join of the others. */
  lemma JoinFront(parts: seq<string>, sep: string)
    requires |parts| >= 2
    ensures Join(parts, sep) == parts[0] + (sep + Join(parts[1..], sep))
  {
  }

  /** The last line read back is the last record. */
  lemma RecordsLast(first: seq<string>)
    requires |first| >= 2
    ensures ReadRecords(Line(first)) == Some([first])
  {
    LineRoundTrip(first, []);
    assert Line(first) + [] == Line(first);
    LineNonEmpty(first);
    assert ReadRecord(Line(first)) == Some((first, []));
    assert ReadRecords([]) == Some([]);
    assert [first] + [] == [first];
  }

  /** A line, a line feed, then text read as records: the line's record comes first. */
  lemma RecordsStep(first: seq<string>, tail: string, rest: seq<seq<string>>)
    requires |first| >= 2 && ReadRecords(tail) == Some(rest)
    ensures ReadRecords(Line(first) + ("\n" + tail)) == Some([first] + rest)
  {
    LineRoundTrip(first, "\n" + tail);
    assert ("\n" + tail)[1..] == tail;
  }

  predicate PlainLabels(columns: seq<Column>)
  {
    forall i :: 0 <= i < |columns| ==> !NeedsQuotes(columns[i].title)
  }

  /** The records an export holds: the labels, then each item's cell texts. */
  function Table(data: seq<Json>, columns: seq<Column>): (r: seq<seq<string>>)
    ensures |r| == |data| + 1
  {
    [Labels(columns)] + seq(|data|, i requires 0 <= i < |data| => CellTexts(data[i], columns))
  }

  /**
   * Reading an export of at least one item and at least two columns with plain labels
   * gives back the header labels followed by every item's cell texts, in order: the
   * quoting loses nothing and splits nothing.
   */
  lemma CsvRoundTrip(data: seq<Json>, columns: seq<Column>)
    requires data != [] && |columns| >= 2 && PlainLabels(columns)
    ensures ReadRecords(ConvertToCsv(data, columns)) == Some(Table(data, columns))
  {
    var records := Table(data, columns);
    var labels := Labels(columns);
    assert Escaped(labels) == labels;
    assert Lines(records) == [Join(labels, ",")] + seq(|data|, i requires 0 <= i < |data| => Line(CellTexts(data[i], columns)));
    RecordsRoundTrip(records);
  }

  /** Record `k + 1` of an export read back is item `k`'s cells. */
  lemma ExportRecord(data: seq<Json>, columns: seq<Column>, k: nat)
    requires k < |data| && |columns| >= 2 && PlainLabels(columns)
    ensures ReadRecords(ConvertToCsv(data, columns)).Some?
    ensures var rows := ReadRecords(ConvertToCsv(data, columns)).value;
      && |rows| == |data| + 1
      && rows[0] == Labels(columns)
      && rows[k + 1] == CellTexts(data[k], columns)
  {
    CsvRoundTrip(data, columns);
  }

  /** The field written for column `i` is the text of the value that column reads. */
  lemma FieldOf(item: Json, columns: seq<Column>, i: nat, v: Json)
    requires i < |columns| && CellValue(item, columns[i]) == v
    ensures CellTexts(item, columns)[i] == CellText(v)
  {
  }

  /** A null or undefined cell is an empty field. */
  lemma NullCellEmpty(item: Json, col: Column)
    requires Nullish(CellValue(item, col))
    ensures Escape(CellText(CellValue(item, col))) == ""
  {
    assert !NeedsQuotes("");
  }
}
