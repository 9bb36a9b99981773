/**
 * The search-token builder: it walks a value and adds lowercase tokens to an
 * insertion-ordered set, so that a table row can later be matched by a
 * substring search over the tokens joined with " | ".
 *
 * Objects live in a heap keyed by reference, so that a value may refer back to
 * an object that contains it; the `visited` set of references plays the part of
 * the WeakSet that stops the walk from expanding an object twice.
 * Arrays are held inline and are therefore acyclic: the walk enters an array
 * before any visited check, so an array that contains itself would recurse
 * without end, and the model cannot express such an array.
 * A `Date` is modelled by its local-time fields; its `toISOString()` text is a field too.
 */
module SearchUtils {
  import opened Wrappers
  import opened Strings

  type Ref = nat

  datatype DateTime = DateTime(year: int, month: nat, day: nat, hours: nat, minutes: nat, iso: string)
  {
    predicate Valid() { 1 <= month <= 12 && 1 <= day <= 31 && hours < 24 && minutes < 60 }
  }

  /** A `Date` whose `getTime()` is not NaN. */
  type ValidDateTime = d: DateTime | d.Valid() witness DateTime(1970, 1, 1, 0, 0, "1970-01-01T00:00:00.000Z")

  datatype Value =
    | Undefined
    | Null
    | Bool(b: bool)
    | Num(n: int)
    | NaN
    | Str(s: string)
    | Date(at: Option<ValidDateTime>)   // a Date object; None is an Invalid Date
    | Arr(items: seq<Value>)
    | Ref(r: Ref)                       // a plain object, by identity

  /** `Object.values` of every object, by reference. */
  type Heap = map<Ref, seq<Value>>

  /** `new Date(value)` for a value that is not already a Date; None when it is an Invalid Date. */
  type DateParser = Value -> Option<ValidDateTime>

  /** `!value`. */
  predicate Falsy(v: Value)
  {
    v.Undefined? || v.Null? || v == Bool(false) || v == Num(0) || v.NaN? || v == Str([])
  }

  /** The em dash that tables print for an empty cell; it is never indexed. */
  const Dash: string := "\U{2014}"

  /** What every token in the set looks like: non-empty, lowercase and trimmed. */
  predicate IsToken(t: string) { t != [] && NoUpper(t) && IsTrimmed(t) }

  predicate AllTokens(ts: seq<string>) { forall i :: 0 <= i < |ts| ==> IsToken(ts[i]) }

  predicate NoDuplicates(ts: seq<string>)
  {
    forall i, j :: 0 <= i < j < |ts| ==> ts[i] != ts[j]
  }

  predicate NotSpace(c: char) { !IsSpace(c) }

  /** Text made of lowercase-or-caseless characters and no whitespace. */
  predicate Plain(s: string) { NoUpper(s) && HasNoSpace(s) }

  lemma PlainConcat(a: string, b: string)
    requires Plain(a) && Plain(b)
    ensures Plain(a + b)
  {
  }

  lemma PlainIsToken(s: string)
    requires Plain(s) && s != []
    ensures IsToken(s)
  {
  }

  lemma JoinedToken(a: string, sep: string, b: string)
    requires Plain(a) && Plain(b) && a != [] && b != [] && NoUpper(sep)
    ensures IsToken(a + sep + b)
  {
    var s := a + sep + b;
    assert s[0] == a[0] && s[|s| - 1] == b[|b| - 1];
  }

  lemma AllTokensAppend(a: seq<string>, b: seq<string>)
    requires AllTokens(a) && AllTokens(b)
    ensures AllTokens(a + b)
  {
  }

  // ------------------------------------------------------------ the set of tokens

  /** `Set.prototype.add` on an insertion-ordered set. */
  function Insert(ts: seq<string>, t: string): (r: seq<string>)
    ensures t in r && |r| <= |ts| + 1
  {
    if t in ts then ts else ts + [t]
  }

  /** Adding tokens one after the other. */
  function InsertAll(ts: seq<string>, xs: seq<string>): (r: seq<string>)
    ensures |r| <= |ts| + |xs|
    decreases |xs|
  {
    if xs == [] then ts else Insert(InsertAll(ts, xs[..|xs| - 1]), xs[|xs| - 1])
  }

  /** Adding a token keeps the set free of duplicates, and keeps it a set of tokens. */
  lemma InsertKeepsValid(ts: seq<string>, t: string)
    ensures NoDuplicates(ts) ==> NoDuplicates(Insert(ts, t))
    ensures AllTokens(ts) && IsToken(t) ==> AllTokens(Insert(ts, t))
  {
  }

  lemma {:induction false} InsertAllKeepsValid(ts: seq<string>, xs: seq<string>)
    ensures NoDuplicates(ts) ==> NoDuplicates(InsertAll(ts, xs))
    ensures AllTokens(ts) && AllTokens(xs) ==> AllTokens(InsertAll(ts, xs))
    decreases |xs|
  {
    if xs != [] {
      InsertAllKeepsValid(ts, xs[..|xs| - 1]);
      InsertKeepsValid(InsertAll(ts, xs[..|xs| - 1]), xs[|xs| - 1]);
    }
  }

  /** After the insertions the set holds exactly the old tokens and the inserted ones. */
  lemma {:induction false} InsertAllMembers(ts: seq<string>, xs: seq<string>, x: string)
    ensures x in InsertAll(ts, xs) <==> x in ts || x in xs
    decreases |xs|
  {
    if xs != [] {
      InsertAllMembers(ts, xs[..|xs| - 1], x);
      assert xs == xs[..|xs| - 1] + [xs[|xs| - 1]];
    }
  }

  lemma {:induction false} InsertAllAppend(ts: seq<string>, a: seq<string>, b: seq<string>)
    ensures InsertAll(ts, a + b) == InsertAll(InsertAll(ts, a), b)
    decreases |b|
  {
    if b == [] {
      assert a + b == a;
    } else {
      InsertAllAppend(ts, a, b[..|b| - 1]);
      assert (a + b)[..|a + b| - 1] == a + b[..|b| - 1];
    }
  }

  lemma InsertAllThreeParts(ts: seq<string>, a: seq<string>, b: seq<string>, c: seq<string>)
    ensures InsertAll(ts, a + b + c) == InsertAll(InsertAll(InsertAll(ts, a), b), c)
  {
    InsertAllAppend(ts, a + b, c);
    InsertAllAppend(ts, a, b);
  }

  lemma InsertAllOne(ts: seq<string>, t: string)
    ensures InsertAll(ts, [t]) == Insert(ts, t)
  {
    assert [t][..0] == [];
  }

  lemma InsertAllTwo(ts: seq<string>, t: string, u: string)
    ensures InsertAll(ts, [t, u]) == Insert(Insert(ts, t), u)
  {
    assert [t, u][..1] == [t];
    InsertAllOne(ts, t);
  }

  lemma InsertAllThree(ts: seq<string>, t: string, u: string, w: string)
    ensures InsertAll(ts, [t, u, w]) == Insert(Insert(Insert(ts, t), u), w)
  {
    assert [t, u, w] == [t, u] + [w];
    InsertAllAppend(ts, [t, u], [w]);
    InsertAllTwo(ts, t, u);
    InsertAllOne(InsertAll(ts, [t, u]), w);
  }

  // ------------------------------------------------------------ strings and numbers

  lemma LowerIsToken(t: string)
    requires IsTrimmed(t) && t != []
    ensures IsToken(Lower(t))
  {
    LowerKeepsTrimmed(t);
  }

  lemma CompactIsToken(lower: string)
    ensures var c := Filter(lower, IsLowerAlnum); c != [] ==> Plain(c) && IsToken(c)
  {
  }

  /** The tokens `addSearchValue` adds for a string: its trimmed lowercase form and, when it differs, its `[a-z0-9]` compaction. */
  function TextTokens(text: string): (r: seq<string>)
    ensures |r| <= 2
  {
    var t := Trim(text);
    if t == [] || t == Dash then []
    else
      var lower := Lower(t);
      var compact := Filter(lower, IsLowerAlnum);
      if compact != [] && compact != lower then [lower, compact] else [lower]
  }

  lemma TokenPair(lower: string, compact: string)
    requires IsToken(lower) && (compact != [] ==> IsToken(compact))
    ensures AllTokens(if compact != [] && compact != lower then [lower, compact] else [lower])
  {
  }

  /** Every token a string adds is a token. */
  lemma TextTokensAreTokens(text: string)
    ensures AllTokens(TextTokens(text))
  {
    var t := Trim(text);
    if t != [] && t != Dash {
      var lower := Lower(t);
      LowerIsToken(t);
      CompactIsToken(lower);
      TokenPair(lower, Filter(lower, IsLowerAlnum));
    }
  }

  /**
   * A string adds nothing when it trims to nothing or to the dash; otherwise it adds its
   * lowercase trimmed form first and at most one more token, made of `[a-z0-9]` only and
   * different from the first.
   */
  lemma TextTokensShape(text: string)
    ensures TextTokens(text) == [] <==> Trim(text) == [] || Trim(text) == Dash
    ensures TextTokens(text) != [] ==> TextTokens(text)[0] == Lower(Trim(text))
    ensures |TextTokens(text)| == 2 ==>
      (TextTokens(text)[1] != TextTokens(text)[0]
       && forall i :: 0 <= i < |TextTokens(text)[1]| ==> IsLowerAlnum(TextTokens(text)[1][i]))
  {
  }

  /** A token that is not the dash is indexed as itself. */
  lemma TextTokensOfToken(t: string)
    requires IsToken(t) && t != Dash
    ensures TextTokens(t) != [] && TextTokens(t)[0] == t
  {
  }

  lemma NumeralPlain(n: int)
    ensures Plain(IntToString(n)) && Plain(IntToString(n) + ".00")
  {
    PlainConcat(IntToString(n), ".00");
  }

  /** The tokens `addSearchValue` adds for a finite number: `toString()`, `toFixed(2)` and the digits alone. */
  function NumberTokens(n: int): (r: seq<string>)
    ensures 2 <= |r| <= 3
  {
    var raw := IntToString(n);
    var digits := Filter(raw, IsDigit);
    if digits != [] then [Lower(raw), Lower(raw + ".00"), digits] else [Lower(raw), Lower(raw + ".00")]
  }

  lemma {:induction false} DigitsOfInt(n: int)
    ensures Filter(IntToString(n), IsDigit) == NatToString(if n < 0 then -n else n)
  {
    var d := NatToString(if n < 0 then -n else n);
    if n < 0 {
      assert IntToString(n) == "-" + d;
      assert IntToString(n)[1..] == d;
    }
  }

  /** A number is indexed by its numeral, its two-decimal form and its digits without the sign. */
  lemma NumberTokensContents(n: int)
    ensures NumberTokens(n) == [IntToString(n), IntToString(n) + ".00", NatToString(if n < 0 then -n else n)]
    ensures AllTokens(NumberTokens(n))
  {
    DigitsOfInt(n);
    NumeralPlain(n);
    PlainIsToken(IntToString(n));
    PlainIsToken(IntToString(n) + ".00");
  }

  // ------------------------------------------------------------ times and dates

  /** The 12-hour clock hour of a 24-hour clock hour. */
  function Hour12(hour: nat): (h: nat)
    ensures 1 <= h <= 12
    ensures h % 12 == hour % 12
  {
    ((hour + 11) % 12) + 1
  }

  function Meridiem(hour: nat): string { if hour >= 12 then "pm" else "am" }

  /** The regex `^(\d{1,2}):(\d{2})$`: the hour's value and the minutes' two digits. */
  function MatchClock(s: string): (r: Option<(nat, string)>)
    ensures r.Some? ==> r.value.0 < 100 && |r.value.1| == 2 && AllDigits(r.value.1)
  {
    if |s| == 4 && IsDigit(s[0]) && s[1] == ':' && IsDigit(s[2]) && IsDigit(s[3]) then
      Some((DigitValue(s[0]), s[2..]))
    else if |s| == 5 && IsDigit(s[0]) && IsDigit(s[1]) && s[2] == ':' && IsDigit(s[3]) && IsDigit(s[4]) then
      Some((10 * DigitValue(s[0]) + DigitValue(s[1]), s[3..]))
    else None
  }

  function TwelveHour(hour: nat, minutes: string, spaced: bool): string
  {
    IntToString(Hour12(hour)) + ":" + minutes + (if spaced then " " else "") + Meridiem(hour)
  }

  /** The 12-hour renderings of an `H:MM` text, nothing for any other text. */
  function ClockTokens(normalized: string): (r: seq<string>)
    ensures |r| <= 4
  {
    match MatchClock(normalized)
    case None => []
    case Some((hour, minutes)) =>
      TextTokens(TwelveHour(hour, minutes, true)) + TextTokens(TwelveHour(hour, minutes, false))
  }

  /** The tokens of a text with its whitespace removed, when that differs from the text. */
  function CompactTokens(normalized: string): (r: seq<string>)
    ensures |r| <= 2
  {
    var compact := Filter(normalized, NotSpace);
    if compact != [] && compact != normalized then TextTokens(compact) else []
  }

  /** The tokens `addTimeVariants` adds: the text, its form without whitespace, and for `H:MM` its 12-hour forms. */
  function TimeTokens(value: string): (r: seq<string>)
    ensures Trim(value) == [] || Trim(value) == Dash ==> r == []
  {
    var normalized := Trim(value);
    if value == [] || normalized == [] || normalized == Dash then []
    else TextTokens(normalized) + CompactTokens(normalized) + ClockTokens(normalized)
  }

  lemma ClockTokensAreTokens(normalized: string)
    ensures AllTokens(ClockTokens(normalized))
  {
    if MatchClock(normalized).Some? {
      var (hour, minutes) := MatchClock(normalized).value;
      TextTokensAreTokens(TwelveHour(hour, minutes, true));
      TextTokensAreTokens(TwelveHour(hour, minutes, false));
      AllTokensAppend(TextTokens(TwelveHour(hour, minutes, true)), TextTokens(TwelveHour(hour, minutes, false)));
    }
  }

  /** Every token a time text adds is a token. */
  lemma TimeTokensAreTokens(value: string)
    ensures AllTokens(TimeTokens(value))
  {
    var normalized := Trim(value);
    if value != [] && normalized != [] && normalized != Dash {
      TextTokensAreTokens(normalized);
      TextTokensAreTokens(Filter(normalized, NotSpace));
      ClockTokensAreTokens(normalized);
      var a, b, c := TextTokens(normalized), CompactTokens(normalized), ClockTokens(normalized);
      AllTokensAppend(a, b);
      AllTokensAppend(a + b, c);
    }
  }

  lemma TimeTokensSplit(value: string)
    requires value != [] && Trim(value) != [] && Trim(value) != Dash
    ensures TimeTokens(value) == TextTokens(Trim(value)) + CompactTokens(Trim(value)) + ClockTokens(Trim(value))
  {
  }

  const MonthShortNames: seq<string> :=
    ["Jan", "Feb", "Mar", "Apr", "May", "Jun", "Jul", "Aug", "Sep", "Oct", "Nov", "Dec"]
  const MonthLongNames: seq<string> :=
    ["January", "February", "March", "April", "May", "June", "July", "August", "September",
     "October", "November", "December"]

  function Time24(d: ValidDateTime): string
  {
    Pad2(IntToString(d.hours)) + ":" + Pad2(IntToString(d.minutes))
  }

  function Time12(d: ValidDateTime): string
  {
    TwelveHour(d.hours, Pad2(IntToString(d.minutes)), true)
  }

  function Ymd(d: ValidDateTime): string
  {
    IntToString(d.year) + "-" + Pad2(IntToString(d.month)) + "-" + Pad2(IntToString(d.day))
  }

  function DmySlash(d: ValidDateTime): string
  {
    Pad2(IntToString(d.day)) + "/" + Pad2(IntToString(d.month)) + "/" + IntToString(d.year)
  }

  function DmyShort(d: ValidDateTime): string
  {
    IntToString(d.day) + "/" + IntToString(d.month) + "/" + IntToString(d.year)
  }

  function MdyShort(d: ValidDateTime): string
  {
    IntToString(d.month) + "/" + IntToString(d.day) + "/" + IntToString(d.year)
  }

  /** The sixteen day/month/year renderings of a date, in the order they are added. */
  function DateVariants(d: ValidDateTime): (r: seq<string>)
    ensures |r| == 16
    ensures r[6] == DmySlash(d) && r[7] == DmyShort(d) && r[8] == MdyShort(d) && r[10] == Ymd(d)
  {
    var named, numeric, timed := NamedDateVariants(d), NumericDateVariants(d), TimedDateVariants(d);
    assert (named + numeric + timed)[6..11] == numeric;
    named + numeric + timed
  }

  /** The first six renderings: month names and dashes. */
  function NamedDateVariants(d: ValidDateTime): (r: seq<string>)
    ensures |r| == 6
  {
    var day, month, year := IntToString(d.day), IntToString(d.month), IntToString(d.year);
    var dd, mm := Pad2(day), Pad2(month);
    var mon, monthName := MonthShortNames[d.month - 1], MonthLongNames[d.month - 1];
    [ dd + " " + mon + " " + year,
      dd + " " + monthName + " " + year,
      day + "-" + month + "-" + year,
      dd + "-" + month + "-" + year,
      dd + "-" + mm + "-" + year,
      dd + "-" + mm + "--" + year ]
  }

  /** The next five: the slashed and ISO-like numeric dates. */
  function NumericDateVariants(d: ValidDateTime): (r: seq<string>)
    ensures |r| == 5
  {
    var dd, mm := Pad2(IntToString(d.day)), Pad2(IntToString(d.month));
    [DmySlash(d), DmyShort(d), MdyShort(d), mm + "/" + dd + "/" + IntToString(d.year), Ymd(d)]
  }

  /** The last five: a date followed by its time of day. */
  function TimedDateVariants(d: ValidDateTime): (r: seq<string>)
    ensures |r| == 5
  {
    var year := IntToString(d.year);
    var dd, mm := Pad2(IntToString(d.day)), Pad2(IntToString(d.month));
    var mon := MonthShortNames[d.month - 1];
    var t24, t12 := Time24(d), Time12(d);
    [ dd + " " + mon + " " + year + " " + t24,
      dd + "-" + mm + "-" + year + " " + t24,
      dd + "/" + mm + "/" + year + " " + t24,
      dd + " " + mon + " " + year + ", " + t24,
      dd + " " + mon + " " + year + " " + t12 ]
  }

  predicate AllPartsTokens(parts: seq<seq<string>>)
  {
    forall i :: 0 <= i < |parts| ==> AllTokens(parts[i])
  }

  /** The concatenation of a list of token lists, built from the right as the loops that add them do. */
  function Flatten(parts: seq<seq<string>>): (r: seq<string>)
    decreases |parts|
  {
    if parts == [] then [] else Flatten(parts[..|parts| - 1]) + parts[|parts| - 1]
  }

  lemma {:induction false} FlattenTokens(parts: seq<seq<string>>)
    requires AllPartsTokens(parts)
    ensures AllTokens(Flatten(parts))
    decreases |parts|
  {
    if parts != [] {
      var front := parts[..|parts| - 1];
      assert AllPartsTokens(front);
      FlattenTokens(front);
      AllTokensAppend(Flatten(front), parts[|parts| - 1]);
    }
  }

  lemma {:induction false} FlattenHas(parts: seq<seq<string>>, i: nat, t: string)
    requires i < |parts| && t in parts[i]
    ensures t in Flatten(parts)
    decreases |parts|
  {
    if i < |parts| - 1 {
      FlattenHas(parts[..|parts| - 1], i, t);
    }
  }

  function VariantTokens(variants: seq<string>): (r: seq<seq<string>>)
    ensures |r| == |variants|
  {
    seq(|variants|, i requires 0 <= i < |variants| => TextTokens(variants[i]))
  }

  lemma FlattenVariantsStep(variants: seq<string>, i: nat)
    requires i < |variants|
    ensures Flatten(VariantTokens(variants[..i + 1])) == Flatten(VariantTokens(variants[..i])) + TextTokens(variants[i])
  {
    assert VariantTokens(variants[..i + 1])[..i] == VariantTokens(variants[..i]);
  }

  /** The tokens `addDateValue` adds for a valid date. */
  function DateTokens(d: ValidDateTime): seq<string>
  {
    Flatten(VariantTokens(DateVariants(d))) + TextTokens(d.iso) + TimeTokens(Time24(d)) + TimeTokens(Time12(d))
  }

  lemma VariantTokensAreTokens(variants: seq<string>)
    ensures AllPartsTokens(VariantTokens(variants))
  {
    forall i | 0 <= i < |variants| ensures AllTokens(VariantTokens(variants)[i]) {
      TextTokensAreTokens(variants[i]);
    }
  }

  /** Every token a date adds is a token. */
  lemma DateTokensAreTokens(d: ValidDateTime)
    ensures AllTokens(DateTokens(d))
  {
    var a, b := Flatten(VariantTokens(DateVariants(d))), TextTokens(d.iso);
    var c, e := TimeTokens(Time24(d)), TimeTokens(Time12(d));
    VariantTokensAreTokens(DateVariants(d));
    FlattenTokens(VariantTokens(DateVariants(d)));
    TextTokensAreTokens(d.iso);
    TimeTokensAreTokens(Time24(d));
    TimeTokensAreTokens(Time12(d));
    AllTokensAppend(a, b);
    AllTokensAppend(a + b, c);
    AllTokensAppend(a + b + c, e);
  }

  /** The tokens `addDateValue` adds for any value: nothing for a falsy one, a valid date's renderings, or an unparseable string as it is. */
  function DateValueTokens(v: Value, parse: DateParser): (r: seq<string>)
    ensures Falsy(v) ==> r == []
  {
    if Falsy(v) then []
    else
      var parsed := if v.Date? then v.at else parse(v);
      match parsed
      case Some(d) => DateTokens(d)
      case None => if v.Str? then TextTokens(v.s) else []
  }

  // ------------------------------------------------------------ walking a value

  lemma {:induction false} CardMono(a: set<Ref>, b: set<Ref>)
    requires a <= b
    ensures |a| <= |b|
    decreases a
  {
    if a != {} {
      var x :| x in a;
      CardMono(a - {x}, b - {x});
      assert a == (a - {x}) + {x};
      assert b == (b - {x}) + {x};
    }
  }

  lemma UnvisitedMono(keys: set<Ref>, a: set<Ref>, b: set<Ref>)
    requires a <= b
    ensures |keys - b| <= |keys - a|
  {
    CardMono(keys - b, keys - a);
  }

  lemma UnvisitedShrinks(keys: set<Ref>, visited: set<Ref>, r: Ref)
    requires r in keys && r !in visited
    ensures |keys - (visited + {r})| < |keys - visited|
  {
    var rest := keys - (visited + {r});
    CardMono(rest, keys - visited);
    assert keys - visited == rest + {r};
  }

  datatype Emission = Emission(tokens: seq<string>, visited: set<Ref>)

  /**
   * The tokens `addSearchValue` adds for `v`, in order, and the visited set it leaves.
   * The walk terminates on cycles through objects: expanding an object moves its reference
   * into `visited`, and only unvisited references of the heap are expanded.
   */
  function Emit(heap: Heap, v: Value, visited: set<Ref>): (e: Emission)
    ensures visited <= e.visited
    decreases |heap.Keys - visited|, v
  {
    if Falsy(v) && v != Num(0) then Emission([], visited)
    else match v
    case Arr(items) => EmitSeq(heap, items, visited)
    case Date(at) => Emission(if at.Some? then DateTokens(at.value) else [], visited)
    case Ref(r) =>
      if r in visited then Emission([], visited)
      else if r !in heap then Emission([], visited + {r})
      else
        UnvisitedShrinks(heap.Keys, visited, r);
        EmitSeq(heap, heap[r], visited + {r})
    case Num(n) => Emission(NumberTokens(n), visited)
    case Str(s) => Emission(TextTokens(s), visited)
    case Bool(_) => Emission(TextTokens("true"), visited)
    case _ => Emission([], visited)
  }

  /** The tokens of the entries of an array (or of an object's values), one after the other. */
  function EmitSeq(heap: Heap, items: seq<Value>, visited: set<Ref>): (e: Emission)
    ensures visited <= e.visited
    decreases |heap.Keys - visited|, items
  {
    if items == [] then Emission([], visited)
    else
      var front := EmitSeq(heap, items[..|items| - 1], visited);
      UnvisitedMono(heap.Keys, visited, front.visited);
      var last := Emit(heap, items[|items| - 1], front.visited);
      Emission(front.tokens + last.tokens, last.visited)
  }

  /** Every token the walk adds is a non-empty, lowercase, trimmed token. */
  lemma {:induction false} EmitTokensAreTokens(heap: Heap, v: Value, visited: set<Ref>)
    ensures AllTokens(Emit(heap, v, visited).tokens)
    decreases |heap.Keys - visited|, v, 1
  {
    if !(Falsy(v) && v != Num(0)) {
      match v
      case Arr(items) => EmitSeqTokensAreTokens(heap, items, visited);
      case Date(at) => if at.Some? { DateTokensAreTokens(at.value); }
      case Ref(r) =>
        if r !in visited && r in heap {
          UnvisitedShrinks(heap.Keys, visited, r);
          EmitSeqTokensAreTokens(heap, heap[r], visited + {r});
        }
      case Num(n) => NumberTokensContents(n);
      case Str(s) => TextTokensAreTokens(s);
      case Bool(_) => TextTokensAreTokens("true");
      case _ =>
    }
  }

  lemma {:induction false} EmitSeqTokensAreTokens(heap: Heap, items: seq<Value>, visited: set<Ref>)
    ensures AllTokens(EmitSeq(heap, items, visited).tokens)
    decreases |heap.Keys - visited|, items, 0
  {
    if items != [] {
      var front := EmitSeq(heap, items[..|items| - 1], visited);
      EmitSeqTokensAreTokens(heap, items[..|items| - 1], visited);
      UnvisitedMono(heap.Keys, visited, front.visited);
      EmitTokensAreTokens(heap, items[|items| - 1], front.visited);
      AllTokensAppend(front.tokens, Emit(heap, items[|items| - 1], front.visited).tokens);
    }
  }

  /** Every token a date value adds is a token. */
  lemma DateValueTokensAreTokens(v: Value, parse: DateParser)
    ensures AllTokens(DateValueTokens(v, parse))
  {
    if !Falsy(v) {
      var parsed := if v.Date? then v.at else parse(v);
      if parsed.Some? {
        DateTokensAreTokens(parsed.value);
      } else if v.Str? {
        TextTokensAreTokens(v.s);
      }
    }
  }

  lemma EmitSeqStep(heap: Heap, items: seq<Value>, i: nat, visited: set<Ref>)
    requires i < |items|
    ensures var front := EmitSeq(heap, items[..i], visited);
      var last := Emit(heap, items[i], front.visited);
      EmitSeq(heap, items[..i + 1], visited) == Emission(front.tokens + last.tokens, last.visited)
  {
    assert items[..i + 1][..i] == items[..i];
  }

  /** A reference already visited contributes nothing and leaves the visited set as it is. */
  lemma VisitedRefIsSkipped(heap: Heap, r: Ref, visited: set<Ref>)
    requires r in visited
    ensures Emit(heap, Ref(r), visited) == Emission([], visited)
  {
  }

  /** Values that are falsy and not 0 contribute nothing. */
  lemma SkippedValues(heap: Heap, v: Value, visited: set<Ref>)
    requires Falsy(v) && v != Num(0)
    ensures Emit(heap, v, visited) == Emission([], visited)
  {
  }

  /** Two objects that refer to each other are each expanded once, and the walk stops. */
  lemma MutualReferenceExpandedOnce()
    ensures Emit(map[0 := [Ref(1)], 1 := [Ref(0)]], Ref(0), {}) == Emission([], {0, 1})
  {
    var heap := map[0 := [Ref(1)], 1 := [Ref(0)]];
    assert {} + {0} == {0} && {0} + {1} == {0, 1};
    assert Emit(heap, Ref(0), {0, 1}) == Emission([], {0, 1});
    assert [Ref(0)][..0] == [] && [Ref(1)][..0] == [];
    assert EmitSeq(heap, [Ref(0)], {0, 1}) == Emission([], {0, 1});
    assert Emit(heap, Ref(1), {0}) == Emission([], {0, 1});
    assert EmitSeq(heap, [Ref(1)], {0}) == Emission([], {0, 1});
  }

  predicate RefFree(v: Value)
  {
    match v
    case Ref(_) => false
    case Arr(items) => forall i :: 0 <= i < |items| ==> RefFree(items[i])
    case _ => true
  }

  /** A value without references neither reads nor grows the visited set. */
  lemma {:induction false} RefFreeIgnoresVisited(heap: Heap, v: Value, visited: set<Ref>)
    requires RefFree(v)
    ensures Emit(heap, v, visited) == Emission(Emit(heap, v, {}).tokens, visited)
    decreases v, 1
  {
    if v.Arr? {
      RefFreeSeqIgnoresVisited(heap, v.items, visited);
      RefFreeSeqIgnoresVisited(heap, v.items, {});
    }
  }

  lemma {:induction false} RefFreeSeqIgnoresVisited(heap: Heap, items: seq<Value>, visited: set<Ref>)
    requires forall i :: 0 <= i < |items| ==> RefFree(items[i])
    ensures EmitSeq(heap, items, visited) == Emission(EmitSeq(heap, items, {}).tokens, visited)
    decreases items, 0
  {
    if items != [] {
      var front, last := items[..|items| - 1], items[|items| - 1];
      RefFreeSeqIgnoresVisited(heap, front, visited);
      RefFreeSeqIgnoresVisited(heap, front, {});
      RefFreeIgnoresVisited(heap, last, visited);
      RefFreeIgnoresVisited(heap, last, {});
    }
  }

  function ItemTokens(heap: Heap, items: seq<Value>): seq<seq<string>>
  {
    seq(|items|, i requires 0 <= i < |items| => Emit(heap, items[i], {}).tokens)
  }

  lemma {:induction false} SeqTokensAreEntryTokens(heap: Heap, items: seq<Value>)
    requires forall i :: 0 <= i < |items| ==> RefFree(items[i])
    ensures EmitSeq(heap, items, {}).tokens == Flatten(ItemTokens(heap, items))
    decreases |items|
  {
    if items != [] {
      var front, last := items[..|items| - 1], items[|items| - 1];
      var done := EmitSeq(heap, front, {});
      SeqTokensAreEntryTokens(heap, front);
      RefFreeIgnoresVisited(heap, last, done.visited);
      var parts := ItemTokens(heap, items);
      ItemTokensSnoc(heap, items);
      calc {
        EmitSeq(heap, items, {}).tokens;
        done.tokens + Emit(heap, last, done.visited).tokens;
        Flatten(ItemTokens(heap, front)) + Emit(heap, last, {}).tokens;
        Flatten(parts);
      }
    }
  }

  /** The entries' token lists of a non-empty array: those of all but the last entry, then the last's. */
  lemma ItemTokensSnoc(heap: Heap, items: seq<Value>)
    requires items != []
    ensures var parts := ItemTokens(heap, items);
      && parts[..|parts| - 1] == ItemTokens(heap, items[..|items| - 1])
      && parts[|parts| - 1] == Emit(heap, items[|items| - 1], {}).tokens
  {
  }

  /** An array without references contributes exactly its entries' tokens, entry by entry. */
  lemma ArrayTokensAreEntryTokens(heap: Heap, items: seq<Value>, visited: set<Ref>)
    requires forall i :: 0 <= i < |items| ==> RefFree(items[i])
    ensures Emit(heap, Arr(items), visited).tokens == Flatten(ItemTokens(heap, items))
  {
    RefFreeSeqIgnoresVisited(heap, items, visited);
    SeqTokensAreEntryTokens(heap, items);
  }

  // ------------------------------------------------------------ properties of the renderings

  /** For `H:MM` the 12-hour variant is indexed; its hour is in 1..12 and it reads "pm" exactly from 12 o'clock on. */
  lemma ClockVariant(s: string)
    requires IsTrimmed(s) && MatchClock(s).Some?
    ensures var (hour, minutes) := MatchClock(s).value;
      TwelveHour(hour, minutes, true) in TimeTokens(s)
      && 1 <= Hour12(hour) <= 12
      && (Meridiem(hour) == "pm" <==> hour >= 12)
  {
    var (hour, minutes) := MatchClock(s).value;
    var h := IntToString(Hour12(hour));
    assert Plain(h) && Plain(minutes) && Plain(Meridiem(hour));
    PlainConcat(h, ":");
    PlainConcat(h + ":", minutes);
    JoinedToken(h + ":" + minutes, " ", Meridiem(hour));
    var v := TwelveHour(hour, minutes, true);
    assert v == h + ":" + minutes + " " + Meridiem(hour);
    TextTokensOfToken(v);
    assert v in ClockTokens(s);
    assert Trim(s) == s && s != [] && s != Dash;
  }

  lemma PadPlain(s: string)
    requires Plain(s) && s != []
    ensures Plain(Pad2(s)) && Pad2(s) != []
  {
    if |s| < 2 {
      PlainConcat(seq(2 - |s|, _ => '0'), s);
    }
  }

  lemma NumeralsToken(a: string, sep1: string, b: string, sep2: string, c: string)
    requires Plain(a) && Plain(b) && Plain(c) && Plain(sep1) && Plain(sep2) && a != [] && c != []
    ensures IsToken(a + sep1 + b + sep2 + c) && a + sep1 + b + sep2 + c != Dash
  {
    PlainConcat(a, sep1);
    PlainConcat(a + sep1, b);
    PlainConcat(a + sep1 + b, sep2);
    JoinedToken(a + sep1 + b + sep2, "", c);
    assert a + sep1 + b + sep2 + c + "" == a + sep1 + b + sep2 + c;
    assert Dash[0] == '\U{2014}';
  }

  lemma DateVariantIndexed(d: ValidDateTime, i: nat)
    requires i < 16 && IsToken(DateVariants(d)[i]) && DateVariants(d)[i] != Dash
    ensures DateVariants(d)[i] in DateTokens(d)
  {
    var vs := DateVariants(d);
    TextTokensOfToken(vs[i]);
    FlattenHas(VariantTokens(vs), i, vs[i]);
  }

  lemma YmdIsToken(d: ValidDateTime)
    ensures IsToken(Ymd(d)) && Ymd(d) != Dash
  {
    var day, month := IntToString(d.day), IntToString(d.month);
    PadPlain(day);
    PadPlain(month);
    var dd, mm := Pad2(day), Pad2(month);
    assert Ymd(d) == IntToString(d.year) + "-" + mm + "-" + dd;
    NumeralsToken(IntToString(d.year), "-", mm, "-", dd);
  }

  lemma DmySlashIsToken(d: ValidDateTime)
    ensures IsToken(DmySlash(d)) && DmySlash(d) != Dash
  {
    var day, month := IntToString(d.day), IntToString(d.month);
    PadPlain(day);
    PadPlain(month);
    var dd, mm := Pad2(day), Pad2(month);
    assert DmySlash(d) == dd + "/" + mm + "/" + IntToString(d.year);
    NumeralsToken(dd, "/", mm, "/", IntToString(d.year));
  }

  lemma ShortDatesAreTokens(d: ValidDateTime)
    ensures IsToken(DmyShort(d)) && DmyShort(d) != Dash && IsToken(MdyShort(d)) && MdyShort(d) != Dash
  {
    var day, month, year := IntToString(d.day), IntToString(d.month), IntToString(d.year);
    NumeralsToken(day, "/", month, "/", year);
    NumeralsToken(month, "/", day, "/", year);
  }

  /** A valid date is indexed under its yyyy-mm-dd, dd/mm/yyyy, d/m/yyyy and m/d/yyyy renderings. */
  lemma DateTokensInclude(d: ValidDateTime)
    ensures Ymd(d) in DateTokens(d) && DmySlash(d) in DateTokens(d)
    ensures DmyShort(d) in DateTokens(d) && MdyShort(d) in DateTokens(d)
  {
    YmdIsToken(d);
    DmySlashIsToken(d);
    ShortDatesAreTokens(d);
    DateVariantIndexed(d, 10);
    DateVariantIndexed(d, 6);
    DateVariantIndexed(d, 7);
    DateVariantIndexed(d, 8);
  }

  /** `tokensToSearchString`: the tokens joined with " | ", each of them a substring of the result. */
  function SearchString(tokens: seq<string>): (r: string)
    ensures forall i :: 0 <= i < |tokens| ==> Contains(r, tokens[i])
  {
    var r := Join(tokens, " | ");
    forall i | 0 <= i < |tokens| ensures Contains(r, tokens[i]) {
      JoinContainsParts(tokens, " | ", i);
    }
    r
  }

  // ------------------------------------------------------------ the builder

  class TokenSet {
    var tokens: seq<string>

    ghost predicate Valid()
      reads this
    {
      NoDuplicates(tokens) && AllTokens(tokens)
    }

    constructor ()
      ensures Valid() && tokens == []
    {
      tokens := [];
    }

    method Add(t: string)
      requires Valid() && IsToken(t)
      modifies this
      ensures Valid() && tokens == Insert(old(tokens), t)
    {
      if t !in tokens {
        tokens := tokens + [t];
      }
    }

    /** `addSearchValue` for a string. */
    method AddText(text: string)
      requires Valid()
      modifies this
      ensures Valid() && tokens == InsertAll(old(tokens), TextTokens(text))
    {
      var normalized := Trim(text);
      if normalized == [] || normalized == Dash {
        return;
      }
      var lower := Lower(normalized);
      LowerIsToken(normalized);
      Add(lower);
      var compact := Filter(lower, IsLowerAlnum);
      CompactIsToken(lower);
      if compact != [] && compact != lower {
        Add(compact);
        InsertAllTwo(old(tokens), lower, compact);
      } else {
        InsertAllOne(old(tokens), lower);
      }
    }

    /** `addSearchValue` for a finite number. */
    method AddNumber(n: int)
      requires Valid()
      modifies this
      ensures Valid() && tokens == InsertAll(old(tokens), NumberTokens(n))
    {
      var raw := IntToString(n);
      NumeralPlain(n);
      PlainIsToken(raw);
      PlainIsToken(raw + ".00");
      Add(Lower(raw));
      Add(Lower(raw + ".00"));
      var digits := Filter(raw, IsDigit);
      DigitsOfInt(n);
      if digits != [] {
        Add(digits);
      }
      InsertAllThree(old(tokens), Lower(raw), Lower(raw + ".00"), digits);
    }

    /** `addSearchValue(target, value, visited)`, returning the visited set it leaves. */
    method AddSearchValue(heap: Heap, v: Value, visited: set<Ref>) returns (visitedOut: set<Ref>)
      requires Valid()
      modifies this
      ensures Valid()
      ensures tokens == InsertAll(old(tokens), Emit(heap, v, visited).tokens)
      ensures visitedOut == Emit(heap, v, visited).visited
      decreases |heap.Keys - visited|, v, 1
    {
      visitedOut := visited;
      if Falsy(v) && v != Num(0) {
        return;
      }
      match v
      case Arr(items) =>
        visitedOut := AddEach(heap, items, visited);
      case Date(at) =>
        if at.Some? {
          AddDate(at.value);
        }
      case Ref(r) =>
        visitedOut := AddObject(heap, r, visited);
      case Num(n) =>
        AddNumber(n);
      case Str(s) =>
        AddText(s);
      case Bool(_) =>
        AddText("true");
      case _ =>
    }

    /** The object branch: an unvisited object is marked visited and its values are added. */
    method AddObject(heap: Heap, r: Ref, visited: set<Ref>) returns (visitedOut: set<Ref>)
      requires Valid()
      modifies this
      ensures Valid()
      ensures tokens == InsertAll(old(tokens), Emit(heap, Ref(r), visited).tokens)
      ensures visitedOut == Emit(heap, Ref(r), visited).visited
      decreases |heap.Keys - visited|, Ref(r), 0
    {
      if r in visited {
        return visited;
      }
      visitedOut := visited + {r};
      if r in heap {
        UnvisitedShrinks(heap.Keys, visited, r);
        visitedOut := AddEach(heap, heap[r], visitedOut);
      }
    }

    /** `forEach` over entries, threading the visited set. */
    method AddEach(heap: Heap, items: seq<Value>, visited: set<Ref>) returns (visitedOut: set<Ref>)
      requires Valid()
      modifies this
      ensures Valid()
      ensures tokens == InsertAll(old(tokens), EmitSeq(heap, items, visited).tokens)
      ensures visitedOut == EmitSeq(heap, items, visited).visited
      decreases |heap.Keys - visited|, items, 0
    {
      visitedOut := visited;
      ghost var done := Emission([], visited);
      assert items[..0] == [];
      var i := 0;
      while i < |items|
        invariant 0 <= i <= |items|
        invariant Valid()
        invariant done == EmitSeq(heap, items[..i], visited)
        invariant visitedOut == done.visited && visited <= visitedOut
        invariant tokens == InsertAll(old(tokens), done.tokens)
      {
        UnvisitedMono(heap.Keys, visited, visitedOut);
        ghost var next := Emit(heap, items[i], visitedOut);
        visitedOut := AddSearchValue(heap, items[i], visitedOut);
        EmitSeqStep(heap, items, i, visited);
        InsertAllAppend(old(tokens), done.tokens, next.tokens);
        done := Emission(done.tokens + next.tokens, next.visited);
        i := i + 1;
      }
      assert items[..i] == items;
    }

    /** `addTimeVariants`. */
    method AddTimeVariants(value: string)
      requires Valid()
      modifies this
      ensures Valid() && tokens == InsertAll(old(tokens), TimeTokens(value))
    {
      if value == [] {
        return;
      }
      var normalized := Trim(value);
      if normalized == [] || normalized == Dash {
        return;
      }
      AddText(normalized);
      AddCompact(normalized);
      AddClock(normalized);
      TimeTokensSplit(value);
      InsertAllThreeParts(old(tokens), TextTokens(normalized), CompactTokens(normalized), ClockTokens(normalized));
    }

    /** The text with its whitespace removed, when that differs from the text. */
    method AddCompact(normalized: string)
      requires Valid()
      modifies this
      ensures Valid() && tokens == InsertAll(old(tokens), CompactTokens(normalized))
    {
      var compact := Filter(normalized, NotSpace);
      if compact != [] && compact != normalized {
        AddText(compact);
      }
    }

    /** The 12-hour forms of an `H:MM` text. */
    method AddClock(normalized: string)
      requires Valid()
      modifies this
      ensures Valid() && tokens == InsertAll(old(tokens), ClockTokens(normalized))
    {
      var clock := MatchClock(normalized);
      if clock.Some? {
        var (hour, minutes) := clock.value;
        AddText(TwelveHour(hour, minutes, true));
        AddText(TwelveHour(hour, minutes, false));
        InsertAllAppend(old(tokens), TextTokens(TwelveHour(hour, minutes, true)), TextTokens(TwelveHour(hour, minutes, false)));
      }
    }

    /** `addDateValue` for a valid date. */
    method AddDate(d: ValidDateTime)
      requires Valid()
      modifies this
      ensures Valid() && tokens == InsertAll(old(tokens), DateTokens(d))
    {
      var variants := DateVariants(d);
      var i := 0;
      while i < |variants|
        invariant 0 <= i <= |variants|
        invariant Valid()
        invariant tokens == InsertAll(old(tokens), Flatten(VariantTokens(variants[..i])))
      {
        AddText(variants[i]);
        FlattenVariantsStep(variants, i);
        InsertAllAppend(old(tokens), Flatten(VariantTokens(variants[..i])), TextTokens(variants[i]));
        i := i + 1;
      }
      assert variants[..i] == variants;
      ghost var a := Flatten(VariantTokens(variants));
      AddText(d.iso);
      InsertAllAppend(old(tokens), a, TextTokens(d.iso));
      AddTimeVariants(Time24(d));
      InsertAllAppend(old(tokens), a + TextTokens(d.iso), TimeTokens(Time24(d)));
      AddTimeVariants(Time12(d));
      InsertAllAppend(old(tokens), a + TextTokens(d.iso) + TimeTokens(Time24(d)), TimeTokens(Time12(d)));
    }

    /** `addDateValue(target, value)`: `parse` stands for `new Date(value)`. */
    method AddDateValue(v: Value, parse: DateParser)
      requires Valid()
      modifies this
      ensures Valid() && tokens == InsertAll(old(tokens), DateValueTokens(v, parse))
    {
      if Falsy(v) {
        return;
      }
      var parsed := if v.Date? then v.at else parse(v);
      if parsed.Some? {
        assert DateValueTokens(v, parse) == DateTokens(parsed.value);
        AddDate(parsed.value);
      } else if v.Str? {
        assert DateValueTokens(v, parse) == TextTokens(v.s);
        AddText(v.s);
      } else {
        assert DateValueTokens(v, parse) == [];
      }
    }

    /** `tokensToSearchString(target)`. */
    function SearchText(): (r: string)
      reads this
      ensures forall i :: 0 <= i < |tokens| ==> Contains(r, tokens[i])
    {
      SearchString(tokens)
    }
  }
}
