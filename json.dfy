/**
 * Loosely shaped backend rows as JavaScript sees them, and the coercions the
 * admin panel applies to them: truthiness, `??`, `||`, property access,
 * `String(v)` and `Number(v)`.
 * Numbers are integers; `NaN` is its own case; objects are maps from key to value.
 */
module Json {
  import opened Wrappers
  import opened Strings

  datatype Json =
    | Undefined
    | Null
    | Bool(b: bool)
    | Num(n: int)
    | NaN
    | Str(s: string)
    | Arr(items: seq<Json>)
    | Obj(fields: map<string, Json>)

  /** `JSON.parse`, supplied by the caller: `None` when the text does not parse. */
  type Parser = string -> Option<Json>

  /** JavaScript truthiness (`Boolean(v)`, `!v`). */
  predicate Truthy(v: Json)
  {
    match v
    case Undefined => false
    case Null => false
    case Bool(b) => b
    case Num(n) => n != 0
    case NaN => false
    case Str(s) => s != []
    case Arr(_) => true
    case Obj(_) => true
  }

  predicate Nullish(v: Json) { v.Undefined? || v.Null? }

  /** `typeof v === "object" && v !== null`: arrays are objects too. */
  predicate IsObject(v: Json) { v.Arr? || v.Obj? }

  /** `a ?? b`. */
  function Coalesce(a: Json, b: Json): Json
  {
    if Nullish(a) then b else a
  }

  /** `a || b`. */
  function Or(a: Json, b: Json): Json
  {
    if Truthy(a) then a else b
  }

  /** `v?.[key]`: a missing key, or a value that is not a keyed object, reads as undefined. */
  function Get(v: Json, key: string): Json
  {
    if v.Obj? && key in v.fields then v.fields[key] else Undefined
  }

  /** `{ ...v, [key]: value }`: an object keeps its other fields; any other value spreads to none. */
  function With(v: Json, key: string, value: Json): (r: Json)
    ensures r.Obj? && Get(r, key) == value
    ensures forall k :: k != key ==> Get(r, k) == Get(v, k) || (!v.Obj? && Get(r, k) == Undefined)
  {
    Obj((if v.Obj? then v.fields else map[])[key := value])
  }

  function BoolText(b: bool): string { if b then "true" else "false" }

  /** `String(v)`. An array prints as its elements joined by commas, null and undefined elements as empty. */
  function ToStr(v: Json): (r: string)
    ensures v.Str? ==> r == v.s
    ensures v.Num? ==> r == IntToString(v.n)
  {
    match v
    case Undefined => "undefined"
    case Null => "null"
    case Bool(b) => BoolText(b)
    case Num(n) => IntToString(n)
    case NaN => "NaN"
    case Str(s) => s
    case Arr(items) =>
      Join(seq(|items|, i requires 0 <= i < |items| =>
        if Nullish(items[i]) then "" else ToStr(items[i])), ",")
    case Obj(_) => "[object Object]"
  }

  /**
   * `Number(s)` for text: blank text is 0, and otherwise the trimmed text is read as a
   * numeric literal (`NumericLiteral`). `None` stands for NaN, and also for a fraction
   * or an infinity, which a whole number cannot hold.
   */
  function TextToNumber(s: string): (r: Option<int>)
    ensures IsBlank(s) ==> r == Some(0)
    ensures !IsBlank(s) ==> r == NumericLiteral(Trim(s))
  {
    var t := Trim(s);
    if t == [] then Some(0) else NumericLiteral(t)
  }

  /** `Number(v)`; `None` stands for NaN, or for a fraction or an infinity read from text. */
  function ToNumber(v: Json): (r: Option<int>)
    ensures v.Num? ==> r == Some(v.n)
    ensures Nullish(v) ==> (r == Some(0) <==> v.Null?)
  {
    match v
    case Undefined => None
    case Null => Some(0)
    case Bool(b) => Some(if b then 1 else 0)
    case Num(n) => Some(n)
    case NaN => None
    case Str(s) => TextToNumber(s)
    case _ => TextToNumber(ToStr(v))
  }

  /** `Number(v) || 0`. */
  function NumberOrZero(v: Json): int
  {
    ToNumber(v).GetOr(0)
  }

  /** `String(x).trim()` of every entry, keeping the non-empty ones: `.map(...).filter(Boolean)`. */
  function TrimmedTexts(items: seq<Json>): (r: seq<string>)
    ensures forall i :: 0 <= i < |r| ==> r[i] != [] && IsTrimmed(r[i])
    ensures |r| <= |items|
  {
    var mapped := seq(|items|, i requires 0 <= i < |items| => Trim(ToStr(items[i])));
    NonEmptyMembers(mapped);
    NonEmpty(mapped)
  }

  lemma TrimmedTextsOfStrings(items: seq<Json>)
    requires forall i :: 0 <= i < |items| ==> items[i].Str? && items[i].s != [] && IsTrimmed(items[i].s)
    ensures TrimmedTexts(items) == seq(|items|, i requires 0 <= i < |items| => items[i].s)
  {
    var mapped := seq(|items|, i requires 0 <= i < |items| => Trim(ToStr(items[i])));
    assert mapped == seq(|items|, i requires 0 <= i < |items| => items[i].s);
    NonEmptyOfNonEmpty(mapped);
  }

  lemma TrimmedTextsPair(a: string, b: string)
    requires a != [] && IsTrimmed(a) && b != [] && IsTrimmed(b)
    ensures TrimmedTexts([Str(a), Str(b)]) == [a, b]
  {
    var items := [Str(a), Str(b)];
    TrimmedTextsOfStrings(items);
    assert seq(|items|, i requires 0 <= i < |items| => items[i].s) == [a, b];
  }
}
