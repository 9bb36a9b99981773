/**
 * Customer rows as the customers page shows them (`normalizeCustomerRecord` and
 * its helpers). Date labels come from `Intl.DateTimeFormat`, which is a parameter.
 */
module Customers {
  import opened Wrappers
  import opened Strings
  import opened Json
  import opened RecordHelpers

  // ------------------------------------------------------------ liked sports

  /** `replace(/^[\[\{]|[\]\}]$/g, "")`: one leading `[` or `{` and one trailing `]` or `}` removed. */
  function StripBrackets(s: string): (r: string)
    ensures |r| <= |s|
  {
    var a := if s != [] && (s[0] == '[' || s[0] == '{') then s[1..] else s;
    if a != [] && (a[|a| - 1] == ']' || a[|a| - 1] == '}') then a[..|a| - 1] else a
  }

  /** The delimiter fallback: brackets stripped, split on `,` or `|`, quotes stripped, trimmed, empties dropped. */
  function DelimitedSports(trimmed: string): (r: seq<string>)
    ensures forall i :: 0 <= i < |r| ==> r[i] != [] && IsTrimmed(r[i])
  {
    var cleaned := CleanSports(Split(StripBrackets(trimmed), {',', '|'}));
    NonEmptyMembers(cleaned);
    NonEmpty(cleaned)
  }

  /** `parseLikedSports`. */
  function ParseLikedSports(value: Json, parse: Parser): (r: seq<string>)
    ensures forall i :: 0 <= i < |r| ==> r[i] != [] && IsTrimmed(r[i])
    ensures !Truthy(value) ==> r == []
    ensures value.Str? && IsBlank(value.s) ==> r == []
  {
    if !Truthy(value) then []
    else match value
      case Arr(items) => TrimmedTexts(items)
      case Str(s) =>
        var trimmed := Trim(s);
        if trimmed == [] then []
        else
          var parsed := if StartsWith(trimmed, "[") && EndsWith(trimmed, "]") then parse(trimmed) else None;
          if parsed.Some? && parsed.value.Arr? then TrimmedTexts(parsed.value.items)
          else DelimitedSports(trimmed)
      case _ => []
  }

  /** Characters with a meaning to the delimiter fallback. */
  const Reserved: set<char> := {',', '|', '"', '\'', '[', ']', '{', '}'}

  /** A sport name that survives every parsing path unchanged. */
  predicate PlainSport(w: string)
  {
    Unquoted(w) && forall i :: 0 <= i < |w| ==> w[i] !in Reserved
  }

  lemma NoSeparators(w: string, extra: string)
    requires forall i :: 0 <= i < |w| ==> w[i] !in Reserved
    requires forall i :: 0 <= i < |extra| ==> extra[i] == '"' || extra[i] == ' '
    ensures forall i :: 0 <= i < |extra + w| ==> (extra + w)[i] !in {',', '|'}
    ensures forall i :: 0 <= i < |w + extra| ==> (w + extra)[i] !in {',', '|'}
  {
    forall i | 0 <= i < |extra + w| ensures (extra + w)[i] !in {',', '|'} {
      if i >= |extra| { assert (extra + w)[i] == w[i - |extra|]; }
    }
    forall i | 0 <= i < |w + extra| ensures (w + extra)[i] !in {',', '|'} {
      if i < |w| { assert (w + extra)[i] == w[i]; }
    }
  }

  /** Two parts that clean to two sports are the fallback's whole answer. */
  lemma CleanedPair(text: string, x: string, y: string, a: string, b: string)
    requires Split(StripBrackets(text), {',', '|'}) == [x, y]
    requires CleanSport(x) == a && CleanSport(y) == b && a != [] && b != []
    ensures DelimitedSports(text) == [a, b]
  {
    var c := CleanSports([x, y]);
    assert c[0] == a && c[1] == b;
    assert c == [a, b];
    NonEmptyOfNonEmpty([a, b]);
  }

  /** `"a, b"` reads as the two sports. */
  lemma DelimitedPair(a: string, b: string)
    requires PlainSport(a) && PlainSport(b)
    ensures DelimitedSports(a + ", " + b) == [a, b]
  {
    PlainPairParts(a, b);
    CleanPlain(a);
    CleanPadded(b);
    CleanedPair(a + ", " + b, a, " " + b, a, b);
  }

  /** `a, b` has no brackets to strip and splits at its one comma. */
  lemma PlainPairParts(a: string, b: string)
    requires PlainSport(a) && PlainSport(b)
    ensures Split(StripBrackets(a + ", " + b), {',', '|'}) == [a, " " + b]
  {
    var seps := {',', '|'};
    var plain := a + ", " + b;
    assert StripBrackets(plain) == plain by {
      assert plain[0] == a[0] && plain[|plain| - 1] == b[|b| - 1];
      assert a[0] !in Reserved && b[|b| - 1] !in Reserved;
    }
    assert plain == a + [','] + (" " + b);
    NoSeparators(a, "");
    assert a + "" == a;
    NoSeparators(b, " ");
    SplitAtSeparator(a, ',', " " + b, seps);
    SplitNoSeparator(" " + b, seps);
  }

  lemma QuotedNoSeparator(w: string)
    requires PlainSport(w)
    ensures forall i :: 0 <= i < |Quoted(w)| ==> Quoted(w)[i] !in {',', '|'}
  {
    forall i | 0 <= i < |Quoted(w)| ensures Quoted(w)[i] !in {',', '|'} {
      if 0 < i < |Quoted(w)| - 1 {
        assert Quoted(w)[i] == w[i - 1];
        assert w[i - 1] !in Reserved;
      }
    }
  }

  /** `["a","b"]` as text, read by the fallback, gives the two sports unquoted. */
  lemma DelimitedQuotedPair(a: string, b: string)
    requires PlainSport(a) && PlainSport(b)
    ensures DelimitedSports("[" + Quoted(a) + "," + Quoted(b) + "]") == [a, b]
  {
    var seps := {',', '|'};
    var inner := Quoted(a) + [','] + Quoted(b);
    var text := "[" + Quoted(a) + "," + Quoted(b) + "]";
    assert StripBrackets(text) == inner by {
      assert text == "[" + inner + "]";
      assert text[1..] == inner + "]";
      assert (inner + "]")[..|inner|] == inner;
    }
    QuotedNoSeparator(a);
    QuotedNoSeparator(b);
    SplitAtSeparator(Quoted(a), ',', Quoted(b), seps);
    SplitNoSeparator(Quoted(b), seps);
    CleanQuoted(a);
    CleanQuoted(b);
    CleanedPair(text, Quoted(a), Quoted(b), a, b);
  }

  /** An array of sports reads as its entries. */
  lemma ArraySports(sports: seq<string>, parse: Parser)
    requires forall i :: 0 <= i < |sports| ==> sports[i] != [] && IsTrimmed(sports[i])
    ensures ParseLikedSports(Arr(seq(|sports|, i requires 0 <= i < |sports| => Str(sports[i]))), parse) == sports
  {
    var items := seq(|sports|, i requires 0 <= i < |sports| => Str(sports[i]));
    TrimmedTextsOfStrings(items);
    assert seq(|items|, i requires 0 <= i < |items| => items[i].s) == sports;
  }

  /** Bracketed text is parsed as JSON when it parses to an array, and read by the fallback otherwise. */
  lemma BracketedText(t: string, parse: Parser)
    requires |t| >= 2 && t[0] == '[' && t[|t| - 1] == ']'
    ensures ParseLikedSports(Str(t), parse) ==
      if parse(t).Some? && parse(t).value.Arr? then TrimmedTexts(parse(t).value.items) else DelimitedSports(t)
  {
    assert IsTrimmed(t);
    assert StartsWith(t, "[") && EndsWith(t, "]");
  }

  /** Two sports written as JSON text read as the two sports, whether or not the text parses. */
  lemma JsonTextPair(a: string, b: string, parse: Parser)
    requires PlainSport(a) && PlainSport(b)
    requires var t := "[" + Quoted(a) + "," + Quoted(b) + "]";
      parse(t) == Some(Arr([Str(a), Str(b)])) || parse(t).None?
    ensures ParseLikedSports(Str("[" + Quoted(a) + "," + Quoted(b) + "]"), parse) == [a, b]
  {
    var json := "[" + Quoted(a) + "," + Quoted(b) + "]";
    assert json[0] == '[' && json[|json| - 1] == ']';
    BracketedText(json, parse);
    if parse(json).Some? {
      TrimmedTextsPair(a, b);
    } else {
      DelimitedQuotedPair(a, b);
    }
  }

  /** Two sports written as "a, b" read as the two sports. */
  lemma PlainTextPair(a: string, b: string, parse: Parser)
    requires PlainSport(a) && PlainSport(b)
    ensures ParseLikedSports(Str(a + ", " + b), parse) == [a, b]
  {
    var plain := a + ", " + b;
    assert plain[0] == a[0] && plain[|plain| - 1] == b[|b| - 1];
    assert a[0] !in Reserved;
    assert Trim(plain) == plain;
    assert !StartsWith(plain, "[");
    DelimitedPair(a, b);
  }

  // ------------------------------------------------------------ initials

  /** `s.trim().split(/\s+/)` for a trimmed `s`: the words, or [""] for the empty text. */
  function Words(trimmed: string): (r: seq<string>)
  {
    if trimmed == [] then [""] else NonEmpty(Split(trimmed, SpaceChars))
  }

  function Min(a: int, b: int): int { if a < b then a else b }

  /** `resolveInitials`: two letters at most, in upper case. */
  function ResolveInitials(name: Json): (r: string)
    ensures |r| <= 2
    ensures forall i :: 0 <= i < |r| ==> !IsLowerLetter(r[i])
    ensures !name.Str? || name.s == [] ==> r == ""
  {
    if !Truthy(name) || !name.Str? then ""
    else
      var parts := Words(Trim(name.s));
      if |parts| == 0 then ""
      else if |parts| == 1 then Upper(parts[0][..Min(2, |parts[0]|)])
      else if parts[0] == [] || parts[|parts| - 1] == [] then Upper([])
      else Upper([parts[0][0], parts[|parts| - 1][0]])
  }

  predicate IsWord(w: string)
  {
    w != [] && HasNoSpace(w)
  }

  lemma NoSpaceChars(w: string)
    requires HasNoSpace(w)
    ensures forall i :: 0 <= i < |w| ==> w[i] !in SpaceChars
  {
    forall i | 0 <= i < |w| ensures w[i] !in SpaceChars {
      SpaceCharsAreSpaces(w[i]);
    }
  }

  /** A one-word name gives its first two characters, upper-cased. */
  lemma OneWordInitials(w: string)
    requires IsWord(w)
    ensures ResolveInitials(Str(w)) == Upper(w[..Min(2, |w|)])
  {
    assert IsTrimmed(w);
    NoSpaceChars(w);
    SplitNoSeparator(w, SpaceChars);
    NonEmptyOfNonEmpty([w]);
  }

  /** A two-word name gives the first letters of both words, upper-cased. */
  lemma TwoWordInitials(a: string, b: string)
    requires IsWord(a) && IsWord(b)
    ensures ResolveInitials(Str(a + " " + b)) == Upper([a[0], b[0]])
  {
    var s := a + " " + b;
    assert s[0] == a[0] && s[|s| - 1] == b[|b| - 1];
    assert IsTrimmed(s);
    NoSpaceChars(a);
    NoSpaceChars(b);
    assert s == a + [' '] + b;
    SplitAtSeparator(a, ' ', b, SpaceChars);
    SplitNoSeparator(b, SpaceChars);
    NonEmptyOfNonEmpty([a, b]);
  }

  /** Words joined with single spaces split back into those words. */
  lemma JoinedWords(words: seq<string>)
    requires |words| >= 2 && forall i :: 0 <= i < |words| ==> IsWord(words[i])
    ensures var s := Join(words, " "); IsTrimmed(s) && s != [] && Words(s) == words
  {
    var s := Join(words, " ");
    JoinEnds(words, " ");
    forall i | 0 <= i < |words| ensures forall j :: 0 <= j < |words[i]| ==> words[i][j] !in SpaceChars {
      NoSpaceChars(words[i]);
    }
    JoinSplitAny(words, ' ', SpaceChars);
    NonEmptyOfNonEmpty(words);
  }

  /** A name of two words or more gives the first letters of its first and last words, upper-cased. */
  lemma ManyWordInitials(words: seq<string>)
    requires |words| >= 2 && forall i :: 0 <= i < |words| ==> IsWord(words[i])
    ensures words[0] != [] && words[|words| - 1] != []
    ensures ResolveInitials(Str(Join(words, " "))) == Upper([words[0][0], words[|words| - 1][0]])
  {
    assert IsWord(words[0]) && IsWord(words[|words| - 1]);
    JoinedWords(words);
    InitialsOfWords(Join(words, " "), words);
  }

  lemma InitialsOfWords(s: string, words: seq<string>)
    requires IsTrimmed(s) && s != [] && Words(s) == words
    requires |words| >= 2 && words[0] != [] && words[|words| - 1] != []
    ensures ResolveInitials(Str(s)) == Upper([words[0][0], words[|words| - 1][0]])
  {
    assert Trim(s) == s;
  }

  // ------------------------------------------------------------ the record

  datatype CustomerRecord = CustomerRecord(
    id: Json,
    name: Json,
    email: Json,
    phone: Json,
    gender: Json,
    profileImage: Json,
    initials: string,
    likedSports: seq<string>,
    likedSportsRaw: Json,
    pincode: string,
    enrollments: Number,
    turfBookings: Number,
    joinedAt: string,
    updatedAt: string,
    createdAt: Json,
    lastUpdatedAt: Json,
    deletedAt: Json)

  /** The record shown for a row that is not an object; it has no `deletedAt`. */
  const DefaultCustomer := CustomerRecord(
    Str(""), Str("Unknown customer"), Str(""), Str(""), Str(""), Str(""), "", [], Str(""), "",
    Some(0), Some(0), "-", "-", Null, Null, Undefined)

  /** `normalizeCustomerRecord`. */
  function NormalizeCustomer(customer: Json, parse: Parser, fmt: DateLabel): (r: CustomerRecord)
    ensures !IsObject(customer) ==> r == DefaultCustomer
    ensures IsObject(customer) ==>
      && (Nullish(Get(customer, "name")) ==> r.name == Str("Unnamed customer"))
      && (Nullish(Get(customer, "pincode")) ==> r.pincode == "")
      && (!Nullish(Get(customer, "pincode")) ==> r.pincode == ToStr(Get(customer, "pincode")))
      && (Nullish(Get(customer, "updated_at")) ==> r.lastUpdatedAt == Coalesce(Get(customer, "created_at"), Null))
      && !Nullish(r.id) && !Nullish(r.email) && !Nullish(r.phone) && !Nullish(r.gender)
      && !Nullish(r.likedSportsRaw) && !r.createdAt.Undefined? && !r.deletedAt.Undefined?
  {
    if !IsObject(customer) then DefaultCustomer
    else
      var createdAt := Coalesce(Get(customer, "created_at"), Null);
      var updatedAt := Coalesce(Get(customer, "updated_at"), createdAt);
      var pincode := Get(customer, "pincode");
      CustomerRecord(
        Coalesce(Get(customer, "id"), Str("")),
        Coalesce(Get(customer, "name"), Str("Unnamed customer")),
        Coalesce(Get(customer, "email"), Str("")),
        Coalesce(Get(customer, "phone"), Str("")),
        Coalesce(Get(customer, "gender"), Str("")),
        Coalesce(Get(customer, "profile_image"), Str("")),
        ResolveInitials(Coalesce(Get(customer, "name"), Str(""))),
        ParseLikedSports(Get(customer, "liked_sports"), parse),
        Coalesce(Get(customer, "liked_sports"), Str("")),
        if !Nullish(pincode) then ToStr(pincode) else "",
        ExtractAggregateCount(Get(customer, "enrollments")),
        ExtractAggregateCount(Get(customer, "turf_bookings")),
        FormatDate(fmt, createdAt),
        FormatDate(fmt, updatedAt),
        createdAt,
        updatedAt,
        Coalesce(Get(customer, "deleted_at"), Null))
  }
}
