/**
 * The session hook: one local-storage slot under the key `chat_session`
 * holding a JSON-encoded `{username, roomId, expiresAt}`, plus the hook's two
 * pieces of React state, `sessionData` and `isLoading`. The clock is a
 * parameter of every operation that reads it (`now`, in milliseconds), and
 * the slot is seen only through what `JSON.parse` makes of its text.
 */
module Session {
  import opened Wrappers

  /** The lifetime a save stamps on a record: one hour, in milliseconds. */
  const TTL: int := 60 * 60 * 1000

  datatype SessionRecord = SessionRecord(username: string, roomId: string, expiresAt: int)

  /** What `JSON.parse` yields: a record, or a thrown error. */
  datatype Parsed = Ok(record: SessionRecord) | Fail

  /**
   * The text under `chat_session`, as far as the hook can tell it apart:
   * the empty string (falsy, so read as "nothing stored"), or a non-empty
   * text together with the outcome of parsing it.
   */
  datatype StoredText = EmptyString | Json(parsed: Parsed)

  /** The text `saveSession` writes: the serialised record, taken to parse back to itself. */
  function Encode(record: SessionRecord): StoredText {
    Json(Ok(record))
  }

  /**
   * The record a read of `slot` at time `now` accepts: present only when the
   * slot parses to a record whose expiry lies strictly after `now`.
   */
  function Live(slot: Option<StoredText>, now: int): (r: Option<SessionRecord>)
    ensures r.Some? <==> exists rec :: slot == Some(Json(Ok(rec))) && rec.expiresAt > now
    ensures r.Some? ==> slot == Some(Encode(r.value)) && r.value.expiresAt > now
  {
    match slot
    case Some(Json(Ok(rec))) => if rec.expiresAt > now then Some(rec) else None
    case _ => None
  }

  /** Whether a read of `slot` at time `now` removes it: it is non-empty text and not live. */
  predicate Purges(slot: Option<StoredText>, now: int)
    ensures Purges(slot, now) <==>
              slot.Some? && slot.value.Json? &&
              (slot.value.parsed.Fail? || slot.value.parsed.record.expiresAt <= now)
  {
    slot.Some? && slot.value.Json? && Live(slot, now).None?
  }

  /** The slot after a read at time `now`. */
  function SlotAfterRead(slot: Option<StoredText>, now: int): (r: Option<StoredText>)
    ensures r == None || r == slot
    ensures Live(slot, now).Some? ==> r == slot
    ensures slot == Some(EmptyString) ==> r == slot
    ensures r.Some? && r.value.Json? ==> Live(r, now).Some?
  {
    if Purges(slot, now) then None else slot
  }

  class SessionHook {
    /** `localStorage['chat_session']`; `None` when the key is absent. */
    var storage: Option<StoredText>
    var sessionData: Option<SessionRecord>
    var isLoading: bool

    /** The hook on first render: nothing loaded yet, loading in progress. */
    constructor (storage: Option<StoredText>)
      ensures this.storage == storage && sessionData == None && isLoading
    {
      this.storage := storage;
      sessionData := None;
      isLoading := true;
    }

    /** `saveSession(username, roomId)` at time `now`: overwrites the slot and the state. */
    method SaveSession(username: string, roomId: string, now: int)
      modifies this`storage, this`sessionData
      ensures storage == Some(Encode(SessionRecord(username, roomId, now + TTL)))
      ensures sessionData == Some(SessionRecord(username, roomId, now + TTL))
    {
      var session := SessionRecord(username, roomId, now + TTL);
      storage := Some(Encode(session));
      sessionData := Some(session);
    }

    /** `clearSession()`: the slot is removed and the state reset, whatever they held. */
    method ClearSession()
      modifies this`storage, this`sessionData
      ensures storage == None && sessionData == None
    {
      storage := None;
      sessionData := None;
    }

    /**
     * `loadSession()` at time `now`: returns the stored record while it has
     * not expired (and adopts it as `sessionData`); an expired or unparsable
     * record is purged; an absent or empty slot changes nothing.
     */
    method LoadSession(now: int) returns (r: Option<SessionRecord>)
      modifies this`storage, this`sessionData
      ensures r == Live(old(storage), now)
      ensures storage == SlotAfterRead(old(storage), now)
      ensures sessionData == if r.Some? then r
                             else if Purges(old(storage), now) then None
                             else old(sessionData)
    {
      var session := storage;
      if session.Some? && session.value.Json? {
        match session.value.parsed
        case Ok(parsed) =>
          if parsed.expiresAt > now {
            sessionData := Some(parsed);
            return Some(parsed);
          } else {
            ClearSession();
            return None;
          }
        case Fail =>
          ClearSession();
          return None;
      }
      return None;
    }

    /**
     * `checkSession()` at time `now`, run once on mount: the same keep-or-purge
     * rule as `LoadSession`, after which loading is over.
     */
    method CheckSession(now: int)
      modifies this
      ensures storage == SlotAfterRead(old(storage), now)
      ensures sessionData == if Live(old(storage), now).Some? then Live(old(storage), now)
                             else if Purges(old(storage), now) then None
                             else old(sessionData)
      ensures !isLoading
    {
      var saved := storage;
      if saved.Some? && saved.value.Json? {
        match saved.value.parsed
        case Ok(session) =>
          if session.expiresAt > now {
            sessionData := Some(session);
          } else {
            ClearSession();
          }
        case Fail =>
          ClearSession();
      }
      isLoading := false;
    }
  }

  /**
   * Round trip: a hook that saves `(username, roomId)` at `saved` and loads at
   * `loaded` gets the pair back exactly when less than an hour has passed.
   */
  method SaveThenLoad(initial: Option<StoredText>, username: string, roomId: string, saved: int, loaded: int)
    returns (r: Option<SessionRecord>)
    ensures r.Some? <==> loaded < saved + TTL
    ensures r.Some? ==> r.value.username == username && r.value.roomId == roomId
  {
    var hook := new SessionHook(initial);
    hook.SaveSession(username, roomId, saved);
    r := hook.LoadSession(loaded);
  }

  /** Clearing twice leaves the same state as clearing once, whatever was stored. */
  method ClearTwice(initial: Option<StoredText>)
    returns (once: (Option<StoredText>, Option<SessionRecord>), twice: (Option<StoredText>, Option<SessionRecord>))
    ensures once == twice == (None, None)
  {
    var a := new SessionHook(initial);
    a.ClearSession();
    once := (a.storage, a.sessionData);
    var b := new SessionHook(initial);
    b.ClearSession();
    b.ClearSession();
    twice := (b.storage, b.sessionData);
  }

  /** A record read at its own expiry instant is already expired: the bound is strict. */
  lemma ExpiryIsStrict(record: SessionRecord)
    ensures Live(Some(Encode(record)), record.expiresAt) == None
    ensures Purges(Some(Encode(record)), record.expiresAt)
  {
  }
}
