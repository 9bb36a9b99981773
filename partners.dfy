/**
 * Partner list rows (`normalizePartnerRecord` in lib/partners.js) and the two
 * parsers it uses: `parseSports` and `parseGallery`. `JSON.parse`, the YouTube
 * id regex and `Intl.DateTimeFormat` are parameters.
 */
module Partners {
  import opened Wrappers
  import opened Strings
  import opened Json
  import opened RecordHelpers

  // ------------------------------------------------------------ address text

  /** `formatAddressText`: the truthy parts among street, city, state and pin, joined with ", ". */
  function AddressText(address: Json): (r: string)
    ensures !Truthy(address) || !IsObject(address) ==> r == ""
  {
    if !Truthy(address) || !IsObject(address) then ""
    else
      var fields := [Get(address, "street"), Get(address, "city"), Get(address, "state"), Get(address, "pin")];
      Join(PresentTexts(fields), ", ")
  }

  /** The `String` text of the truthy values, in order: `.filter(Boolean)` before `join`. */
  function PresentTexts(values: seq<Json>): (r: seq<string>)
    ensures |r| <= |values|
    decreases |values|
  {
    if values == [] then []
    else (if Truthy(values[0]) then [ToStr(values[0])] else []) + PresentTexts(values[1..])
  }

  /** Every truthy part appears in the text, and an address with no truthy part gives "". */
  lemma {:induction false} PresentTextsKeepTruthy(values: seq<Json>, i: nat)
    requires i < |values| && Truthy(values[i])
    ensures ToStr(values[i]) in PresentTexts(values)
    decreases |values|
  {
    if i > 0 {
      PresentTextsKeepTruthy(values[1..], i - 1);
    }
  }

  lemma {:induction false} PresentTextsOfFalsy(values: seq<Json>)
    requires forall i :: 0 <= i < |values| ==> !Truthy(values[i])
    ensures PresentTexts(values) == []
    decreases |values|
  {
    if values != [] {
      PresentTextsOfFalsy(values[1..]);
    }
  }

  /** Each truthy part of an address object occurs in its address text. */
  lemma AddressTextHasParts(address: Json, key: string)
    requires address.Obj? && key in {"street", "city", "state", "pin"} && Truthy(Get(address, key))
    ensures Contains(AddressText(address), ToStr(Get(address, key)))
  {
    var fields := [Get(address, "street"), Get(address, "city"), Get(address, "state"), Get(address, "pin")];
    var i := if key == "street" then 0 else if key == "city" then 1 else if key == "state" then 2 else 3;
    assert fields[i] == Get(address, key);
    PresentTextsKeepTruthy(fields, i);
    var parts := PresentTexts(fields);
    var j :| 0 <= j < |parts| && parts[j] == ToStr(Get(address, key));
    JoinContainsParts(parts, ", ", j);
  }

  /** An address object whose four parts are all falsy reads as "". */
  lemma AddressTextOfEmpty(address: Json)
    requires address.Obj?
    requires forall key :: key in {"street", "city", "state", "pin"} ==> !Truthy(Get(address, key))
    ensures AddressText(address) == ""
  {
    var fields := [Get(address, "street"), Get(address, "city"), Get(address, "state"), Get(address, "pin")];
    assert forall i :: 0 <= i < |fields| ==> !Truthy(fields[i]);
    PresentTextsOfFalsy(fields);
  }

  // ------------------------------------------------------------ sports

  /** `replace(/^\[|\]$/g, "")`: one leading `[` and one trailing `]` removed. */
  function StripSquare(s: string): (r: string)
    ensures |r| <= |s|
  {
    var a := if s != [] && s[0] == '[' then s[1..] else s;
    if a != [] && a[|a| - 1] == ']' then a[..|a| - 1] else a
  }

  /** The comma fallback: brackets stripped, split on `,` only, quotes stripped, trimmed, empties dropped. */
  function CommaSports(trimmed: string): (r: seq<string>)
    ensures forall i :: 0 <= i < |r| ==> r[i] != [] && IsTrimmed(r[i])
  {
    var cleaned := CleanSports(Split(StripSquare(trimmed), {','}));
    NonEmptyMembers(cleaned);
    NonEmpty(cleaned)
  }

  /** `parseSports`. */
  function ParseSports(value: Json, parse: Parser): (r: seq<string>)
    ensures forall i :: 0 <= i < |r| ==> r[i] != [] && IsTrimmed(r[i])
    ensures !Truthy(value) ==> r == []
    ensures !value.Arr? && !value.Str? ==> r == []
  {
    if !Truthy(value) then []
    else match value
      case Arr(items) => TrimmedTexts(items)
      case Str(s) =>
        var trimmed := Trim(s);
        var parsed := if StartsWith(trimmed, "[") && EndsWith(trimmed, "]") then parse(trimmed) else None;
        if parsed.Some? && parsed.value.Arr? then TrimmedTexts(parsed.value.items)
        else CommaSports(trimmed)
      case _ => []
  }

  /** A sport name with no comma, bracket or surrounding quote. */
  predicate CommaFree(w: string)
  {
    Unquoted(w) && forall i :: 0 <= i < |w| ==> w[i] != ',' && w[i] != '[' && w[i] != ']'
  }

  lemma CommaFreeSplit(w: string)
    requires CommaFree(w)
    ensures Split(w, {','}) == [w]
    ensures Split(" " + w, {','}) == [" " + w]
    ensures Split(Quoted(w), {','}) == [Quoted(w)]
    ensures forall i :: 0 <= i < |Quoted(w)| ==> Quoted(w)[i] !in {','}
  {
    SplitNoSeparator(w, {','});
    var p := " " + w;
    forall i | 0 <= i < |p| ensures p[i] !in {','} {
      if i > 0 { assert p[i] == w[i - 1]; }
    }
    SplitNoSeparator(p, {','});
    var q := Quoted(w);
    forall i | 0 <= i < |q| ensures q[i] !in {','} {
      if 0 < i < |q| - 1 { assert q[i] == w[i - 1]; }
    }
    SplitNoSeparator(q, {','});
  }

  /** Two parts that clean to two sports are the fallback's whole answer. */
  lemma CommaPair(text: string, x: string, y: string, a: string, b: string)
    requires Split(StripSquare(text), {','}) == [x, y]
    requires CleanSport(x) == a && CleanSport(y) == b && a != [] && b != []
    ensures CommaSports(text) == [a, b]
  {
    var c := CleanSports([x, y]);
    assert c[0] == a && c[1] == b;
    assert c == [a, b];
    NonEmptyOfNonEmpty([a, b]);
  }

  /** `"a, b"` reads as the two sports. */
  lemma CommaSportsPair(a: string, b: string)
    requires CommaFree(a) && CommaFree(b)
    ensures CommaSports(a + ", " + b) == [a, b]
  {
    var plain := a + ", " + b;
    assert StripSquare(plain) == plain by {
      assert plain[0] == a[0] && plain[|plain| - 1] == b[|b| - 1];
    }
    assert plain == a + [','] + (" " + b);
    CommaFreeSplit(a);
    CommaFreeSplit(b);
    SplitAtSeparator(a, ',', " " + b, {','});
    CleanPlain(a);
    CleanPadded(b);
    CommaPair(plain, a, " " + b, a, b);
  }

  /** `["a","b"]` as text that does not parse reads, through the fallback, as the two sports. */
  lemma CommaSportsQuotedPair(a: string, b: string)
    requires CommaFree(a) && CommaFree(b)
    ensures CommaSports("[" + Quoted(a) + "," + Quoted(b) + "]") == [a, b]
  {
    QuotedPairInner(a, b);
    CleanQuoted(a);
    CleanQuoted(b);
    CommaPair("[" + Quoted(a) + "," + Quoted(b) + "]", Quoted(a), Quoted(b), a, b);
  }

  /** Stripping the brackets of `["a","b"]` leaves `"a","b"`, which splits at its one comma. */
  lemma QuotedPairInner(a: string, b: string)
    requires CommaFree(a) && CommaFree(b)
    ensures Split(StripSquare("[" + Quoted(a) + "," + Quoted(b) + "]"), {','}) == [Quoted(a), Quoted(b)]
  {
    var inner := Quoted(a) + [','] + Quoted(b);
    var text := "[" + Quoted(a) + "," + Quoted(b) + "]";
    assert StripSquare(text) == inner by {
      assert text == "[" + inner + "]";
      assert text[1..] == inner + "]";
      assert (inner + "]")[..|inner|] == inner;
    }
    CommaFreeSplit(a);
    CommaFreeSplit(b);
    SplitAtSeparator(Quoted(a), ',', Quoted(b), {','});
  }

  /** Bracketed text is parsed as JSON when it parses to an array, and read by the fallback otherwise. */
  lemma BracketedSports(t: string, parse: Parser)
    requires |t| >= 2 && t[0] == '[' && t[|t| - 1] == ']'
    ensures ParseSports(Str(t), parse) ==
      if parse(t).Some? && parse(t).value.Arr? then TrimmedTexts(parse(t).value.items) else CommaSports(t)
  {
    assert IsTrimmed(t);
    assert StartsWith(t, "[") && EndsWith(t, "]");
  }

  /** Two sports written as JSON text read as the two sports whether or not the text parses. */
  lemma JsonSportsPair(a: string, b: string, parse: Parser)
    requires CommaFree(a) && CommaFree(b)
    requires var t := "[" + Quoted(a) + "," + Quoted(b) + "]";
      parse(t) == Some(Arr([Str(a), Str(b)])) || parse(t).None?
    ensures ParseSports(Str("[" + Quoted(a) + "," + Quoted(b) + "]"), parse) == [a, b]
  {
    var json := "[" + Quoted(a) + "," + Quoted(b) + "]";
    assert json[0] == '[' && json[|json| - 1] == ']';
    BracketedSports(json, parse);
    if parse(json).Some? {
      TrimmedTextsPair(a, b);
    } else {
      CommaSportsQuotedPair(a, b);
    }
  }

  /** Two sports written as "a, b" read as the two sports. */
  lemma PlainSportsPair(a: string, b: string, parse: Parser)
    requires CommaFree(a) && CommaFree(b)
    ensures ParseSports(Str(a + ", " + b), parse) == [a, b]
  {
    var plain := a + ", " + b;
    assert plain[0] == a[0] && plain[|plain| - 1] == b[|b| - 1];
    assert Trim(plain) == plain;
    assert !StartsWith(plain, "[");
    CommaSportsPair(a, b);
  }

  // ------------------------------------------------------------ gallery

  /** The YouTube id the source's regex captures from a URL, if any; the regex itself is not modelled. */
  type VideoIdMatcher = string -> Option<string>

  const EmbedPrefix := "https://www.youtube.com/embed/"

  datatype MediaKind = Video | Image

  datatype GalleryItem = GalleryItem(id: string, kind: MediaKind, title: Json, src: Json)

  /** The `src` of a video: the embed URL when an id is found in the text, the raw `data` otherwise. */
  function VideoSource(data: Json, matcher: VideoIdMatcher): (r: Json)
    ensures data.Str? && matcher(data.s).Some? && matcher(data.s).value != [] ==>
      r == Str(EmbedPrefix + matcher(data.s).value)
    ensures !data.Str? || matcher(data.s).None? ==> r == data
  {
    if data.Str? then
      var videoId := matcher(data.s);
      if videoId.Some? && videoId.value != [] then Str(EmbedPrefix + videoId.value) else data
    else data
  }

  /** One gallery entry at position `index`: a video, an image, a bare image URL, or nothing. */
  function GalleryEntry(item: Json, index: nat, matcher: VideoIdMatcher): (r: Option<GalleryItem>)
    ensures r.Some? ==> r.value.id == NatToString(index)
    ensures !Truthy(item) ==> r.None?
    ensures item.Str? && item.s != [] ==> r == Some(GalleryItem(NatToString(index), Image, Str("Gallery image"), item))
  {
    var data := Get(item, "data");
    if !Truthy(item) then None
    else if Get(item, "type") == Str("video") && Truthy(data) then
      Some(GalleryItem(NatToString(index), Video, Or(Get(item, "name"), Str("Gallery video")), VideoSource(data, matcher)))
    else if Get(item, "type") == Str("image") && Truthy(data) then
      Some(GalleryItem(NatToString(index), Image, Or(Get(item, "name"), Str("Gallery image")), data))
    else if item.Str? then
      Some(GalleryItem(NatToString(index), Image, Str("Gallery image"), item))
    else None
  }

  function GalleryEntries(items: seq<Json>, matcher: VideoIdMatcher): (r: seq<Option<GalleryItem>>)
    ensures |r| == |items|
    ensures forall i :: 0 <= i < |r| ==> r[i] == GalleryEntry(items[i], i, matcher)
  {
    seq(|items|, i requires 0 <= i < |items| => GalleryEntry(items[i], i, matcher))
  }

  /** `parseGallery`: text is parsed as JSON; anything but an array gives no entries. */
  function ParseGallery(value: Json, parse: Parser, matcher: VideoIdMatcher): (r: seq<GalleryItem>)
    ensures !Truthy(value) ==> r == []
    ensures value.Str? && parse(value.s).None? ==> r == []
    ensures !value.Str? && !value.Arr? ==> r == []
  {
    if !Truthy(value) then []
    else
      var source := if value.Str? then parse(value.s) else Some(value);
      if source.None? || !source.value.Arr? then []
      else Somes(GalleryEntries(source.value.items, matcher))
  }

  /** Every gallery entry is the entry built from some source position, and its id is that position. */
  lemma GalleryIdsAreIndices(value: Json, parse: Parser, matcher: VideoIdMatcher)
    requires value.Arr?
    ensures var r := ParseGallery(value, parse, matcher);
      forall k :: 0 <= k < |r| ==>
        exists i :: 0 <= i < |value.items| && Some(r[k]) == GalleryEntry(value.items[i], i, matcher) && r[k].id == NatToString(i)
  {
    var entries := GalleryEntries(value.items, matcher);
    SomesMembers(entries);
  }

  /** Falsy entries are dropped, so a gallery of non-empty URLs keeps them all, as images. */
  lemma GalleryOfUrls(urls: seq<string>, parse: Parser, matcher: VideoIdMatcher)
    requires forall i :: 0 <= i < |urls| ==> urls[i] != []
    ensures var items := seq(|urls|, i requires 0 <= i < |urls| => Str(urls[i]));
      |ParseGallery(Arr(items), parse, matcher)| == |urls|
  {
    var items := seq(|urls|, i requires 0 <= i < |urls| => Str(urls[i]));
    var entries := GalleryEntries(items, matcher);
    assert forall i :: 0 <= i < |entries| ==> entries[i].Some?;
    SomesMembers(entries);
  }

  /** A video whose URL yields an id is embedded; one whose URL yields none keeps its URL. */
  lemma VideoEntry(url: string, name: Json, index: nat, matcher: VideoIdMatcher)
    requires url != []
    ensures var item := Obj(map["type" := Str("video"), "data" := Str(url), "name" := name]);
      var e := GalleryEntry(item, index, matcher);
      && e.Some? && e.value.kind == Video
      && (matcher(url).Some? && matcher(url).value != [] ==> e.value.src == Str(EmbedPrefix + matcher(url).value))
      && (matcher(url).None? ==> e.value.src == Str(url))
      && (!Truthy(name) ==> e.value.title == Str("Gallery video"))
  {
    var item := Obj(map["type" := Str("video"), "data" := Str(url), "name" := name]);
    assert Get(item, "type") == Str("video") && Get(item, "data") == Str(url) && Get(item, "name") == name;
  }

  // ------------------------------------------------------------ partner record

  datatype PartnerRecord = PartnerRecord(
    id: Json,
    slug: Json,
    name: Json,
    publicId: Json,
    email: Json,
    whatsapp: Json,
    role: Json,
    status: string,
    partnerType: string,
    city: Json,
    state: Json,
    pin: Json,
    street: Json,
    verified: bool,
    whatsappVerified: bool,
    address: Json,
    addressText: string,
    about: Json,
    sportsRaw: Json,
    logo: Json,
    sports: seq<string>,
    gallery: seq<GalleryItem>,
    joinedAt: string,
    lastActive: string,
    createdAt: Json,
    updatedAt: Json)

  /** The record shown for a row that is not an object; it has no state, pin or street. */
  const DefaultPartner := PartnerRecord(
    Str(""), Str(""), Str("Unnamed partner"), Str(""), Str(""), Str(""), Str(""), "pending", "academy",
    Str(""), Undefined, Undefined, Undefined, false, false, Null, "", Str(""), Str(""), Str(""), [], [],
    "-", "-", Null, Null)

  /** The status: a string `status` lower-cased, otherwise derived from `verified`. */
  function PartnerStatus(partner: Json): string
  {
    var source := Get(partner, "status");
    if source.Str? then Lower(source.s)
    else if Truthy(Get(partner, "verified")) then "active" else "pending"
  }

  /** The type: the first of `type`, `partner_type`, `category` that is not nullish, if a string, lower-cased. */
  function PartnerType(partner: Json): string
  {
    var source := Coalesce(Coalesce(Get(partner, "type"), Get(partner, "partner_type")), Get(partner, "category"));
    if source.Str? then Lower(source.s) else "academy"
  }

  /** A part of the address: the partner's own field, else the address object's, else "". */
  function AddressPart(own: Json, address: Json, fromAddress: Json): Json
  {
    Coalesce(own, if Truthy(address) then Coalesce(fromAddress, Str("")) else Str(""))
  }

  /** `normalizePartnerRecord`. */
  function NormalizePartner(partner: Json, parse: Parser, matcher: VideoIdMatcher, fmt: DateLabel): (r: PartnerRecord)
    ensures !IsObject(partner) ==> r == DefaultPartner
    ensures IsObject(partner) ==>
      r.status == PartnerStatus(partner) && r.partnerType == PartnerType(partner) && r.verified == Truthy(Get(partner, "verified"))
  {
    if !IsObject(partner) then DefaultPartner
    else
      var rawAddress := Get(partner, "address");
      var address := if Truthy(rawAddress) && IsObject(rawAddress) then rawAddress else Null;
      var joinedAtRaw := Coalesce(Get(partner, "created_at"), Null);
      var updatedAtRaw := Coalesce(Get(partner, "updated_at"), Null);
      PartnerRecord(
        Coalesce(Get(partner, "id"), Str("")),
        Coalesce(Coalesce(Get(partner, "slug"), Get(partner, "id")), Str("")),
        Coalesce(Get(partner, "name"), Str("Unnamed partner")),
        Coalesce(Get(partner, "public_id"), Str("")),
        Coalesce(Get(partner, "email"), Str("")),
        Coalesce(Get(partner, "whatsapp"), Str("")),
        Coalesce(Get(partner, "role"), Str("")),
        PartnerStatus(partner),
        PartnerType(partner),
        AddressPart(Get(partner, "city"), address, Coalesce(Get(address, "city"), Get(address, "town"))),
        AddressPart(Get(partner, "state"), address, Get(address, "state")),
        AddressPart(Get(partner, "pin"), address, Get(address, "pin")),
        AddressPart(Get(partner, "street"), address, Get(address, "street")),
        Truthy(Get(partner, "verified")),
        Truthy(Get(partner, "whatsapp_verified")),
        address,
        AddressText(address),
        Coalesce(Get(partner, "about"), Str("")),
        Coalesce(Get(partner, "sports"), Str("")),
        Coalesce(Get(partner, "logo_image"), Str("")),
        ParseSports(Get(partner, "sports"), parse),
        ParseGallery(Get(partner, "gallery"), parse, matcher),
        FormatDate(fmt, joinedAtRaw),
        FormatDate(fmt, Coalesce(Coalesce(Get(partner, "last_active_at"), updatedAtRaw), joinedAtRaw)),
        joinedAtRaw,
        updatedAtRaw)
  }

  /** The status is lower case; without a string `status` it is "active" exactly for a verified partner. */
  lemma StatusRules(partner: Json)
    ensures NoUpper(PartnerStatus(partner))
    ensures !Get(partner, "status").Str? ==>
      (PartnerStatus(partner) == "active" <==> Truthy(Get(partner, "verified"))) &&
      (PartnerStatus(partner) == "pending" <==> !Truthy(Get(partner, "verified")))
    ensures Get(partner, "status").Str? && NoUpper(Get(partner, "status").s) ==> PartnerStatus(partner) == Get(partner, "status").s
  {
  }

  /** The type is lower case, "academy" unless one of the three type fields holds a string, and `type` comes first. */
  lemma TypeRules(partner: Json)
    ensures NoUpper(PartnerType(partner))
    ensures Nullish(Get(partner, "type")) && Nullish(Get(partner, "partner_type")) && Nullish(Get(partner, "category"))
      ==> PartnerType(partner) == "academy"
    ensures Get(partner, "type").Str? ==> PartnerType(partner) == Lower(Get(partner, "type").s)
    ensures Nullish(Get(partner, "type")) && Get(partner, "partner_type").Str? ==>
      PartnerType(partner) == Lower(Get(partner, "partner_type").s)
  {
  }

  /** The dates: `lastActive` falls back from `last_active_at` to `updated_at` to `created_at`. */
  lemma DatesOfPartner(partner: Json, parse: Parser, matcher: VideoIdMatcher, fmt: DateLabel)
    requires IsObject(partner)
    ensures var r := NormalizePartner(partner, parse, matcher, fmt);
      && !r.createdAt.Undefined? && !r.updatedAt.Undefined?
      && (Nullish(Get(partner, "created_at")) ==> r.joinedAt == "-")
      && (Nullish(Get(partner, "last_active_at")) && Nullish(Get(partner, "updated_at")) ==>
            r.lastActive == r.joinedAt)
  {
  }

  /** The city comes from the partner, else from the address's `city` or `town`, else "". */
  lemma CityOfPartner(partner: Json, parse: Parser, matcher: VideoIdMatcher, fmt: DateLabel)
    requires IsObject(partner)
    ensures var r := NormalizePartner(partner, parse, matcher, fmt);
      && (Nullish(Get(partner, "city")) && r.address.Obj? && Nullish(Get(r.address, "city")) ==>
            r.city == Coalesce(Get(r.address, "town"), Str("")))
      && (!Nullish(Get(partner, "city")) ==> r.city == Get(partner, "city"))
      && (Nullish(Get(partner, "city")) && r.address.Null? ==> r.city == Str(""))
  {
  }

  /** The slug falls back to the id, the address parts are never nullish, and no address object means no address text. */
  lemma FallbacksOfPartner(partner: Json, parse: Parser, matcher: VideoIdMatcher, fmt: DateLabel)
    requires IsObject(partner)
    ensures var r := NormalizePartner(partner, parse, matcher, fmt);
      && (Nullish(Get(partner, "slug")) && !Nullish(Get(partner, "id")) ==> r.slug == r.id)
      && !Nullish(r.state) && !Nullish(r.pin) && !Nullish(r.street)
      && (r.address.Null? ==> r.addressText == "")
  {
  }
}
