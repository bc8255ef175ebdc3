/**
 * The browser's key-value store and the shell's use of it: the two keys,
 * reading the session at startup and writing it back after a change.
 */
module Storage {
  import opened Wrappers
  import opened Profile
  import Codec

  /** The key holding the logged-in flag as the text "true" or "false". */
  const LoggedInKey: string := "agro_isLoggedIn"
  /** The key holding the stored text of the user's profile. */
  const UserKey: string := "agro_user"

  /** The part of the shell's state that is persisted. */
  datatype Session = Session(isLoggedIn: bool, user: Option<UserProfile>)

  /** Why the shell fails to start: the stored profile text cannot be parsed. */
  datatype StartupError = MalformedUser(saved: string)

  /** `getItem`: the text stored under a key, or None (JavaScript's `null`). */
  function GetItem(store: map<string, string>, key: string): Option<string>
  {
    if key in store then Some(store[key]) else None
  }

  /** JavaScript's `String(b)` for a boolean. */
  function BoolText(b: bool): string
  {
    if b then "true" else "false"
  }

  /**
   * The session read from the store at startup. The flag is set exactly when
   * the stored flag is the text "true". A missing or empty profile entry
   * gives no user; any other entry is parsed, and a text that does not parse
   * aborts startup.
   */
  function LoadSession(store: map<string, string>): Result<Session, StartupError>
  {
    var isLoggedIn := GetItem(store, LoggedInKey) == Some("true");
    var saved := GetItem(store, UserKey);
    if saved.Some? && saved.value != "" then
      match Codec.Decode(saved.value)
      case None => Err(MalformedUser(saved.value))
      case Some(u) => Ok(Session(isLoggedIn, Some(u)))
    else
      Ok(Session(isLoggedIn, None))
  }

  /** What LoadSession means, in terms of the store's entries and the profile encoding. */
  lemma LoadSessionMeaning(store: map<string, string>)
    ensures LoadSession(store).Err? <==>
      UserKey in store && store[UserKey] != "" && forall u :: Codec.Encode(u) != store[UserKey]
    ensures LoadSession(store).Ok? ==>
      (LoadSession(store).value.isLoggedIn <==> LoggedInKey in store && store[LoggedInKey] == "true")
    ensures LoadSession(store).Ok? ==>
      (LoadSession(store).value.user.None? <==> UserKey !in store || store[UserKey] == "")
    ensures LoadSession(store).Ok? && LoadSession(store).value.user.Some? ==>
      Codec.Encode(LoadSession(store).value.user.value) == store[UserKey]
  {
    if UserKey in store && store[UserKey] != "" {
      var saved := store[UserKey];
      if Codec.Decode(saved).Some? {
        Codec.EncodeDecode(saved);
      } else {
        forall u ensures Codec.Encode(u) != saved {
          Codec.DecodeEncode(u);
        }
      }
    }
  }

  /**
   * The store after the persistence step: the flag is written as text, the
   * profile entry is written when there is a user and removed when there is
   * none, and every other entry is left as it was.
   */
  function Persist(store: map<string, string>, session: Session): (r: map<string, string>)
    ensures LoggedInKey in r && r[LoggedInKey] == BoolText(session.isLoggedIn)
    ensures UserKey in r <==> session.user.Some?
    ensures session.user.Some? ==> r[UserKey] == Codec.Encode(session.user.value)
    ensures forall k :: k != LoggedInKey && k != UserKey ==> (k in r <==> k in store)
    ensures forall k :: k != LoggedInKey && k != UserKey && k in store ==> r[k] == store[k]
  {
    var flagged := store[LoggedInKey := BoolText(session.isLoggedIn)];
    if session.user.Some? then flagged[UserKey := Codec.Encode(session.user.value)]
    else flagged - {UserKey}
  }

  /** Reloading after the persistence step gives back the session that was persisted. */
  lemma ReloadRestoresSession(store: map<string, string>, session: Session)
    ensures LoadSession(Persist(store, session)) == Ok(session)
  {
    var r := Persist(store, session);
    assert (GetItem(r, LoggedInKey) == Some("true")) == session.isLoggedIn;
    if session.user.Some? {
      Codec.EncodeNonEmpty(session.user.value);
      Codec.DecodeEncode(session.user.value);
    }
  }

  /** Running the persistence step again changes nothing. */
  lemma PersistIdempotent(store: map<string, string>, session: Session)
    ensures Persist(Persist(store, session), session) == Persist(store, session)
  {
  }

  /** Clearing the store and then persisting the signed-out session leaves only the flag "false". */
  lemma SignedOutStore()
    ensures Persist(map[], Session(false, None)) == map[LoggedInKey := "false"]
  {
  }

  /** An empty store reads as the signed-out session. */
  lemma EmptyStoreIsSignedOut()
    ensures LoadSession(map[]) == Ok(Session(false, None))
  {
  }

  /** The store reached through `localStorage`, changed in place. */
  class LocalStorage {
    var entries: map<string, string>

    constructor (initial: map<string, string>)
      ensures entries == initial
    {
      entries := initial;
    }

    method Get(key: string) returns (r: Option<string>)
      ensures r == GetItem(entries, key)
    {
      r := if key in entries then Some(entries[key]) else None;
    }

    method SetItem(key: string, value: string)
      modifies this
      ensures entries == old(entries)[key := value]
    {
      entries := entries[key := value];
    }

    method RemoveItem(key: string)
      modifies this
      ensures entries == old(entries) - {key}
    {
      entries := entries - {key};
    }

    method Clear()
      modifies this
      ensures entries == map[]
    {
      entries := map[];
    }
  }
}
