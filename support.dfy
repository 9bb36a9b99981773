/**
 * Support requests (lib/support.js): the entity a request is about, the
 * normalised request with its legacy field aliases, its search index, and the
 * two queues whose fetches fail independently.
 */
module Support {
  import opened Wrappers
  import opened Strings
  import opened Json
  import opened RecordHelpers
  import SU = SearchUtils

  // ------------------------------------------------------------ `a || b || ... || z`

  /** `vals[0] || vals[1] || ...`: the first truthy operand, or the last one when none is. */
  function OrChain(vals: seq<Json>): Json
    requires vals != []
    decreases |vals|
  {
    if |vals| == 1 || Truthy(vals[0]) then vals[0] else OrChain(vals[1..])
  }

  lemma {:induction false} OrChainSpec(vals: seq<Json>)
    requires vals != []
    ensures (exists i :: 0 <= i < |vals| && Truthy(vals[i])) ==>
      exists i :: 0 <= i < |vals| && Truthy(vals[i]) && OrChain(vals) == vals[i]
        && forall j :: 0 <= j < i ==> !Truthy(vals[j])
    ensures (forall i :: 0 <= i < |vals| ==> !Truthy(vals[i])) ==> OrChain(vals) == vals[|vals| - 1]
    decreases |vals|
  {
    if |vals| > 1 && !Truthy(vals[0]) {
      OrChainSpec(vals[1..]);
      if exists i :: 0 <= i < |vals| && Truthy(vals[i]) {
        var i :| 0 <= i < |vals| && Truthy(vals[i]);
        assert Truthy(vals[1..][i - 1]);
        var k :| 0 <= k < |vals| - 1 && Truthy(vals[1..][k]) && OrChain(vals[1..]) == vals[1..][k]
          && forall j :: 0 <= j < k ==> !Truthy(vals[1..][j]);
        assert forall j :: 0 <= j < k + 1 ==> !Truthy(vals[j]) by {
          forall j | 0 <= j < k + 1 ensures !Truthy(vals[j]) {
            if j > 0 {
              assert vals[j] == vals[1..][j - 1];
            }
          }
        }
      }
    }
  }

  /** The fields `keys` of a record, in order. */
  function Fields(record: Json, keys: seq<string>): (r: seq<Json>)
    ensures |r| == |keys|
    ensures forall i :: 0 <= i < |keys| ==> r[i] == Get(record, keys[i])
  {
    seq(|keys|, i requires 0 <= i < |keys| => Get(record, keys[i]))
  }

  // ------------------------------------------------------------ the entity

  predicate IsPartner(audience: string) { audience == "partner" }

  /** The record fields that may hold the entity, in order of precedence. */
  function EntityKeys(audience: string): seq<string>
  {
    if IsPartner(audience) then ["partner", "partners", "entity"] else ["customer", "user", "users", "entity"]
  }

  /** `pickEntity`: null for a falsy record, otherwise the first truthy entity field or null. */
  function PickEntity(record: Json, audience: string): (r: Json)
    ensures !Truthy(record) ==> r == Null
    ensures r == Null || Truthy(r)
  {
    if !Truthy(record) then Null
    else
      var candidates := Fields(record, EntityKeys(audience)) + [Null];
      OrChainSpec(candidates);
      OrChain(candidates)
  }

  /** The entity is the first truthy field in precedence order; null when there is none. */
  lemma PickEntityOrder(record: Json, audience: string)
    requires Truthy(record)
    ensures var keys := EntityKeys(audience);
      var r := PickEntity(record, audience);
      && (r == Null <==> forall i :: 0 <= i < |keys| ==> !Truthy(Get(record, keys[i])))
      && (r != Null ==>
            exists i :: 0 <= i < |keys| && r == Get(record, keys[i]) && forall j :: 0 <= j < i ==> !Truthy(Get(record, keys[j])))
  {
    var keys := EntityKeys(audience);
    var candidates := Fields(record, keys) + [Null];
    OrChainSpec(candidates);
    assert forall i :: 0 <= i < |keys| ==> candidates[i] == Get(record, keys[i]);
  }

  // ------------------------------------------------------------ the request

  datatype SupportRequest = SupportRequest(
    id: Json, audience: string, typeLabel: string, entityId: Json, entityPublicId: Json,
    entityName: Json, entityEmail: Json, entityPhone: Json, request: string, description: string,
    screenshot: string, solution: string, resolved: bool, createdAt: Json, createdAtLabel: string,
    updatedAt: Json, updatedAtLabel: string, searchIndex: Option<string>)

  function TypeLabel(audience: string): string
  {
    if IsPartner(audience) then "Partner" else "Customer"
  }

  /** The record a non-object normalises to; it carries no search index. */
  function DefaultRequest(audience: string): SupportRequest
  {
    SupportRequest(
      Str(""), audience, TypeLabel(audience), Str(""), Str(""), Str("Unknown"), Str(""), Str(""),
      "", "", "", "", false, Null, "-", Null, "-", None)
  }

  /** The fallback name's sources, in order: the audience's own name field, `entity_name`, `name`. */
  function NameKeys(audience: string): seq<string>
  {
    [if IsPartner(audience) then "partner_name" else "customer_name", "entity_name", "name"]
  }

  function UnknownName(audience: string): string
  {
    if IsPartner(audience) then "Unknown partner" else "Unknown customer"
  }

  function FallbackName(record: Json, audience: string): string
  {
    SafeText(OrChain(Fields(record, NameKeys(audience)) + [Str(UnknownName(audience))]))
  }

  /** `safeString`. */
  function SafeText(v: Json): (r: string)
    ensures v.Str? ==> r == v.s
    ensures Nullish(v) ==> r == []
  {
    if Nullish(v) then "" else ToStr(v)
  }

  /** A text field under its legacy aliases: `safeString(a || b || c)`. */
  function AliasText(record: Json, keys: seq<string>): string
    requires keys != []
  {
    SafeText(OrChain(Fields(record, keys)))
  }

  /** The request with its fields resolved, before the search index is added. */
  function Resolved(record: Json, audience: string, fmt: DateLabel): (r: SupportRequest)
    requires Truthy(record) && IsObject(record)
    ensures r.searchIndex.None? && r.audience == audience
    ensures r.resolved == Truthy(Get(record, "resolved"))
    ensures !Truthy(r.updatedAt) ==> r.updatedAtLabel == "-"
  {
    var entity := PickEntity(record, audience);
    var createdAt := Coalesce(Coalesce(Get(record, "created_at"), Get(record, "createdAt")), Null);
    var updatedAt := Coalesce(Coalesce(Get(record, "updated_at"), Get(record, "updatedAt")), Null);
    SupportRequest(
      Coalesce(Get(record, "id"), Str("")),
      audience,
      TypeLabel(audience),
      Coalesce(Coalesce(Coalesce(Coalesce(Get(entity, "id"), Get(record, "partner_id")), Get(record, "customer_id")), Get(record, "user_id")), Str("")),
      Coalesce(Coalesce(Get(entity, "public_id"), Get(entity, "publicId")), Str("")),
      Coalesce(Get(entity, "name"), Str(FallbackName(record, audience))),
      Coalesce(Get(entity, "email"), Str(SafeText(OrChain([Get(record, "entity_email"), Get(record, "email"), Str("")])))),
      Coalesce(Get(entity, "phone"), Str(SafeText(OrChain([Get(record, "entity_phone"), Get(record, "phone"), Str("")])))),
      AliasText(record, ["request", "subject", "title"]),
      AliasText(record, ["description", "details", "message"]),
      AliasText(record, ["screenshot", "screenshot_url", "screenshotLink"]),
      AliasText(record, ["solution", "resolution"]),
      Truthy(Get(record, "resolved")),
      createdAt,
      FormatDate(fmt, createdAt),
      updatedAt,
      if Truthy(updatedAt) then FormatDate(fmt, updatedAt) else "-",
      None)
  }

  /** `normalizeSupportRequest`: the default record for a non-object, otherwise the resolved record with its index. */
  function NormalizeSupportRequest(record: Json, audience: string, fmt: DateLabel, parse: SU.DateParser): (r: SupportRequest)
    ensures !Truthy(record) || !IsObject(record) ==> r == DefaultRequest(audience)
    ensures Truthy(record) && IsObject(record) ==>
      r == Resolved(record, audience, fmt).(searchIndex := Some(SupportIndex(Some(Resolved(record, audience, fmt)), parse)))
  {
    if !Truthy(record) || !IsObject(record) then DefaultRequest(audience)
    else
      var normalized := Resolved(record, audience, fmt);
      normalized.(searchIndex := Some(SupportIndex(Some(normalized), parse)))
  }

  /**
   * The entity's own name wins; without one the name is the first truthy name
   * field, and "Unknown partner" or "Unknown customer" when there is none.
   */
  lemma EntityNameOrder(record: Json, audience: string, fmt: DateLabel)
    requires Truthy(record) && IsObject(record)
    ensures var name := Resolved(record, audience, fmt).entityName;
      var entity := PickEntity(record, audience);
      var keys := NameKeys(audience);
      && (!Nullish(Get(entity, "name")) ==> name == Get(entity, "name"))
      && (Nullish(Get(entity, "name")) && (forall i :: 0 <= i < 3 ==> !Truthy(Get(record, keys[i]))) ==>
            name == Str(UnknownName(audience)))
      && (Nullish(Get(entity, "name")) && Get(record, keys[0]).Str? && Truthy(Get(record, keys[0])) ==>
            name == Get(record, keys[0]))
  {
    var keys := NameKeys(audience);
    var candidates := Fields(record, keys) + [Str(UnknownName(audience))];
    OrChainSpec(candidates);
    assert forall i :: 0 <= i < 3 ==> candidates[i] == Get(record, keys[i]);
  }

  /** Each text alias takes the first truthy source; with none the field is "" (or the last source's text). */
  lemma AliasOrder(record: Json, keys: seq<string>)
    requires keys != []
    ensures forall i :: 0 <= i < |keys| && Get(record, keys[i]).Str? && Truthy(Get(record, keys[i]))
                        && (forall j :: 0 <= j < i ==> !Truthy(Get(record, keys[j]))) ==>
      AliasText(record, keys) == Get(record, keys[i]).s
    ensures (forall i :: 0 <= i < |keys| ==> Nullish(Get(record, keys[i]))) ==> AliasText(record, keys) == ""
  {
    var vals := Fields(record, keys);
    OrChainSpec(vals);
    forall i | 0 <= i < |keys| && Get(record, keys[i]).Str? && Truthy(Get(record, keys[i]))
               && (forall j :: 0 <= j < i ==> !Truthy(Get(record, keys[j])))
      ensures AliasText(record, keys) == Get(record, keys[i]).s
    {
      var k :| 0 <= k < |vals| && Truthy(vals[k]) && OrChain(vals) == vals[k]
        && forall j :: 0 <= j < k ==> !Truthy(vals[j]);
    }
  }

  // ------------------------------------------------------------ the search index

  /** A backend value as the token walk sees it; an object-valued field is indexed as nothing. */
  function ToValue(v: Json): (r: SU.Value)
    ensures SU.RefFree(r)
  {
    match v
    case Undefined => SU.Undefined
    case Null => SU.Null
    case Bool(b) => SU.Bool(b)
    case Num(n) => SU.Num(n)
    case NaN => SU.NaN
    case Str(s) => SU.Str(s)
    case Arr(items) =>
      var values := seq(|items|, i requires 0 <= i < |items| => ToValue(items[i]));
      SU.Arr(values)
    case Obj(_) => SU.Null
  }

  function StatusWord(resolved: bool): string
  {
    if resolved then "resolved" else "open"
  }

  /** The values `buildSupportSearchIndex` indexes, the status word last. */
  function IndexedValues(r: SupportRequest): (vs: seq<SU.Value>)
    ensures |vs| == 12 && vs[11] == SU.Str(StatusWord(r.resolved))
    ensures forall i :: 0 <= i < 12 ==> SU.RefFree(vs[i])
  {
    [ToValue(r.id), SU.Str(r.audience), SU.Str(r.typeLabel), SU.Str(r.request), SU.Str(r.description),
     SU.Str(r.solution), SU.Str(r.screenshot), ToValue(r.entityName), ToValue(r.entityEmail),
     ToValue(r.entityPhone), ToValue(r.entityPublicId), SU.Str(StatusWord(r.resolved))]
  }

  /** The tokens of the record's values, then of its creation and update dates. */
  function IndexTokens(r: SupportRequest, parse: SU.DateParser): seq<string>
  {
    var values := SU.Emit(map[], SU.Arr(IndexedValues(r)), {}).tokens;
    SU.InsertAll(SU.InsertAll(SU.InsertAll([], values), SU.DateValueTokens(ToValue(r.createdAt), parse)),
                 SU.DateValueTokens(ToValue(r.updatedAt), parse))
  }

  /** What `buildSupportSearchIndex` returns: "" without a record. */
  function SupportIndex(record: Option<SupportRequest>, parse: SU.DateParser): (index: string)
    ensures record.None? ==> index == ""
  {
    if record.None? then "" else SU.SearchString(IndexTokens(record.value, parse))
  }

  /** `buildSupportSearchIndex`, filling a token set. */
  method BuildSupportSearchIndex(record: Option<SupportRequest>, parse: SU.DateParser) returns (index: string)
    ensures index == SupportIndex(record, parse)
  {
    if record.None? {
      return "";
    }
    var r := record.value;
    var tokens := new SU.TokenSet();
    var _ := tokens.AddSearchValue(map[], SU.Arr(IndexedValues(r)), {});
    tokens.AddDateValue(ToValue(r.createdAt), parse);
    tokens.AddDateValue(ToValue(r.updatedAt), parse);
    index := tokens.SearchText();
  }

  /** A token listed among reference-free values is among the values' tokens. */
  lemma ListedToken(items: seq<SU.Value>, i: nat, word: string)
    requires i < |items| && items[i] == SU.Str(word) && SU.IsToken(word) && word != SU.Dash
    requires forall k :: 0 <= k < |items| ==> SU.RefFree(items[k])
    ensures word in SU.Emit(map[], SU.Arr(items), {}).tokens
  {
    SU.ArrayTokensAreEntryTokens(map[], items, {});
    var parts := SU.ItemTokens(map[], items);
    assert parts[i] == SU.TextTokens(word);
    SU.TextTokensOfToken(word);
    SU.FlattenHas(parts, i, word);
  }

  /** The status word is among the tokens of the record's values. */
  lemma ValuesHaveStatus(r: SupportRequest)
    ensures StatusWord(r.resolved) in SU.Emit(map[], SU.Arr(IndexedValues(r)), {}).tokens
  {
    var word := StatusWord(r.resolved);
    assert SU.IsToken(word) && word != SU.Dash;
    ListedToken(IndexedValues(r), 11, word);
  }

  /** Every index holds the request's status word. */
  lemma IndexHasStatus(r: SupportRequest, parse: SU.DateParser)
    ensures Contains(SupportIndex(Some(r), parse), StatusWord(r.resolved))
  {
    var word := StatusWord(r.resolved);
    ValuesHaveStatus(r);
    var values := SU.Emit(map[], SU.Arr(IndexedValues(r)), {}).tokens;
    var created := SU.DateValueTokens(ToValue(r.createdAt), parse);
    var updated := SU.DateValueTokens(ToValue(r.updatedAt), parse);
    SU.InsertAllMembers([], values, word);
    SU.InsertAllMembers(SU.InsertAll([], values), created, word);
    SU.InsertAllMembers(SU.InsertAll(SU.InsertAll([], values), created), updated, word);
    var tokens := IndexTokens(r, parse);
    var k :| 0 <= k < |tokens| && tokens[k] == word;
  }

  // ------------------------------------------------------------ the queues

  /** One queue: the normalised requests of an array, [] for anything else. */
  function Queue(raw: Json, audience: string, fmt: DateLabel, parse: SU.DateParser): (q: seq<SupportRequest>)
    ensures raw.Arr? ==> |q| == |raw.items|
    ensures !raw.Arr? ==> q == []
  {
    if raw.Arr? then seq(|raw.items|, i requires 0 <= i < |raw.items| => NormalizeSupportRequest(raw.items[i], audience, fmt, parse))
    else []
  }

  datatype Queues = Queues(partnerRequests: seq<SupportRequest>, customerRequests: seq<SupportRequest>)

  /**
   * `fetchSupportQueues`: each fetch's result, `None` when it failed (its `catch`
   * gives []). Each queue depends on its own fetch only.
   */
  function FetchSupportQueues(partnerRaw: Option<Json>, customerRaw: Option<Json>, fmt: DateLabel, parse: SU.DateParser): (r: Queues)
    ensures r.partnerRequests == Queue(partnerRaw.GetOr(Arr([])), "partner", fmt, parse)
    ensures r.customerRequests == Queue(customerRaw.GetOr(Arr([])), "customer", fmt, parse)
    ensures partnerRaw.None? ==> r.partnerRequests == []
    ensures customerRaw.None? ==> r.customerRequests == []
  {
    Queues(Queue(partnerRaw.GetOr(Arr([])), "partner", fmt, parse), Queue(customerRaw.GetOr(Arr([])), "customer", fmt, parse))
  }

  /** Every partner request is typed "partner" and every customer request "customer". */
  lemma QueuesAreTyped(partnerRaw: Option<Json>, customerRaw: Option<Json>, fmt: DateLabel, parse: SU.DateParser)
    ensures var r := FetchSupportQueues(partnerRaw, customerRaw, fmt, parse);
      && (forall i :: 0 <= i < |r.partnerRequests| ==> r.partnerRequests[i].audience == "partner")
      && (forall i :: 0 <= i < |r.customerRequests| ==> r.customerRequests[i].audience == "customer")
  {
  }
}
