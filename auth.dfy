/**
 * The admin session kept in the browser's key/value store, and the shape of the
 * one-time password. The clock is a parameter (`now`, in milliseconds), the
 * random digits of the password are a parameter, and `JSON.parse` is a parameter.
 */
module Auth {
  import opened Wrappers
  import opened Strings
  import opened Json

  const SessionKey: string := "dest-admin-session"
  const SessionDurationHours: nat := 6
  const SessionDurationMs: nat := SessionDurationHours * 60 * 60 * 1000

  /** `generateOtp`: `draws[i]` is `Math.floor(Math.random() * 10)` on the i-th round. */
  method GenerateOtp(draws: seq<nat>) returns (otp: string)
    requires |draws| == 6 && forall i :: 0 <= i < 6 ==> draws[i] < 10
    ensures |otp| == 6 && AllDigits(otp)
    ensures forall i :: 0 <= i < 6 ==> DigitValue(otp[i]) == draws[i]
  {
    var digits := "0123456789";
    otp := "";
    for index := 0 to 6
      invariant |otp| == index && AllDigits(otp)
      invariant forall i :: 0 <= i < index ==> DigitValue(otp[i]) == draws[i]
    {
      otp := otp + [digits[draws[index]]];
    }
  }

  /** `JSON.stringify({ issuedAt, expiresAt })` for integer times. */
  function SessionText(issuedAt: int, expiresAt: int): string
  {
    "{\"issuedAt\":" + IntToString(issuedAt) + ",\"expiresAt\":" + IntToString(expiresAt) + "}"
  }

  /** The parsed session as `JSON.parse` returns it for `SessionText`. */
  function SessionValue(issuedAt: int, expiresAt: int): Json
  {
    Obj(map["issuedAt" := Num(issuedAt), "expiresAt" := Num(expiresAt)])
  }

  /** What reading the stored entry gives back, and whether the entry is removed. */
  datatype ReadOutcome = ReadOutcome(session: Option<Json>, remove: bool)

  /** The stored text under the key; a missing key reads as `None`. */
  function Stored(items: map<string, string>): Option<string>
  {
    if SessionKey in items then Some(items[SessionKey]) else None
  }

  /**
   * `readAdminSession` as a function of the stored text: nothing stored (or the
   * empty text) gives null and leaves the store alone; text that does not parse,
   * an `expiresAt` that is missing, zero or not a number, or an expiry at or before
   * `now` gives null and removes the entry; otherwise the parsed session is returned.
   */
  function ReadSession(stored: Option<string>, now: int, parse: Parser): (r: ReadOutcome)
    ensures stored.None? || stored == Some("") ==> r == ReadOutcome(None, false)
    ensures r.session.Some? ==> !r.remove && stored.Some? && parse(stored.value) == r.session
    ensures r.session.Some? ==> Get(r.session.value, "expiresAt").Num? && Get(r.session.value, "expiresAt").n > now
    ensures r.session.None? && stored.Some? && stored.value != "" ==> r.remove
    ensures stored.Some? && stored.value != "" && parse(stored.value).Some? ==>
      var expiresAt := Get(parse(stored.value).value, "expiresAt");
      expiresAt.Num? && Truthy(expiresAt) && expiresAt.n > now ==> r == ReadOutcome(parse(stored.value), false)
  {
    if stored.None? || stored.value == "" then ReadOutcome(None, false)
    else match parse(stored.value)
      case None => ReadOutcome(None, true)
      case Some(parsed) =>
        var expiresAt := Get(parsed, "expiresAt");
        if !Truthy(expiresAt) || !expiresAt.Num? then ReadOutcome(None, true)
        else if expiresAt.n <= now then ReadOutcome(None, true)
        else ReadOutcome(Some(parsed), false)
  }

  /** A parser that reads the stored session text back as the object it was written from. */
  predicate ReadsSessionText(parse: Parser, issuedAt: int, expiresAt: int)
  {
    parse(SessionText(issuedAt, expiresAt)) == Some(SessionValue(issuedAt, expiresAt))
  }

  /**
   * A session persisted at `t` (milliseconds since the epoch) reads back unchanged at any `now` before `t` plus six
   * hours, and from then on it reads as null and is removed.
   */
  lemma PersistThenRead(t: nat, now: int, parse: Parser)
    requires ReadsSessionText(parse, t, t + SessionDurationMs)
    ensures now < t + SessionDurationMs ==>
      ReadSession(Some(SessionText(t, t + SessionDurationMs)), now, parse)
        == ReadOutcome(Some(SessionValue(t, t + SessionDurationMs)), false)
    ensures now >= t + SessionDurationMs ==>
      ReadSession(Some(SessionText(t, t + SessionDurationMs)), now, parse) == ReadOutcome(None, true)
  {
    var text := SessionText(t, t + SessionDurationMs);
    assert text != "" by { assert text[0] == '{'; }
    assert Get(SessionValue(t, t + SessionDurationMs), "expiresAt") == Num(t + SessionDurationMs);
  }

  /** The browser's `localStorage`, as a map from key to stored text. */
  class SessionStore {
    var items: map<string, string>

    constructor (initial: map<string, string>)
      ensures items == initial
    {
      items := initial;
    }

    /**
     * `persistAdminSession`: stores a session that expires six hours after `now`.
     * The clock is read once here; the source reads it twice, for `expiresAt` and
     * then for `issuedAt`.
     */
    method Persist(now: int)
      modifies this
      ensures items == old(items)[SessionKey := SessionText(now, now + SessionDurationMs)]
    {
      var expiresAt := now + SessionDurationMs;
      items := items[SessionKey := SessionText(now, expiresAt)];
    }

    /** `readAdminSession`. */
    method Read(now: int, parse: Parser) returns (session: Option<Json>)
      modifies this
      ensures session == ReadSession(Stored(old(items)), now, parse).session
      ensures items == if ReadSession(Stored(old(items)), now, parse).remove then old(items) - {SessionKey} else old(items)
    {
      if SessionKey !in items || items[SessionKey] == "" {
        return None;
      }
      var parsed := parse(items[SessionKey]);
      if parsed.None? {
        items := items - {SessionKey};
        return None;
      }
      var expiresAt := Get(parsed.value, "expiresAt");
      if !Truthy(expiresAt) || !expiresAt.Num? {
        items := items - {SessionKey};
        return None;
      }
      if expiresAt.n <= now {
        items := items - {SessionKey};
        return None;
      }
      return parsed;
    }

    /** `clearAdminSession`: removes the session entry and nothing else. */
    method Clear()
      modifies this
      ensures items == old(items) - {SessionKey}
    {
      items := items - {SessionKey};
    }
  }
}
