/**
 * The chat service's session registry: the WebSocket sessions held by this server, by
 * user id, and the key-value store shared by all servers that says which server holds
 * each user (`user_session:<userId>` -> server id).
 */
module Sessions {
  import opened Common

  /** A WebSocket session, by identity. */
  datatype Session = Session(id: nat)

  const SessionPrefix := "user_session:"

  /** `SESSION_PREFIX + userId`; a null id prints as "null". */
  function SessionKey(userId: Option<string>): (k: string)
    ensures |k| == |SessionPrefix| + |JavaStr(userId)|
    ensures k[..|SessionPrefix|] == SessionPrefix && k[|SessionPrefix|..] == JavaStr(userId)
  {
    SessionPrefix + JavaStr(userId)
  }

  /** Distinct non-null user ids have distinct keys. */
  lemma SessionKeyInjective(a: string, b: string)
    requires SessionKey(Some(a)) == SessionKey(Some(b))
    ensures a == b
  {
    assert a == SessionKey(Some(a))[|SessionPrefix|..];
    assert b == SessionKey(Some(b))[|SessionPrefix|..];
  }

  /** A null receiver id looks up the same key as the user whose id is the text "null". */
  lemma NullIdSharesKeyWithUserNull()
    ensures SessionKey(None) == SessionKey(Some("null"))
  {
  }

  /** The shared key-value store (Redis), one object for every server. */
  class KeyValueStore {
    var entries: map<string, string>

    constructor ()
      ensures entries == map[]
    {
      entries := map[];
    }
  }

  class SessionManager {
    const serverId: string
    const store: KeyValueStore
    /** `localSessions`. */
    var localSessions: map<string, Session>

    constructor (serverId: string, store: KeyValueStore)
      ensures this.serverId == serverId && this.store == store && localSessions == map[]
    {
      this.serverId := serverId;
      this.store := store;
      localSessions := map[];
    }

    /** `getSession(userId)`. */
    function GetSession(userId: string): (s: Option<Session>)
      reads this
      ensures s.Some? <==> userId in localSessions
      ensures s.Some? ==> s.value == localSessions[userId]
    {
      if userId in localSessions then Some(localSessions[userId]) else None
    }

    /** `getSessionServerId(userId)`: the server the shared store names, null when the key is missing. */
    function GetSessionServerId(userId: Option<string>): (id: Option<string>)
      reads store
      ensures id.Some? <==> SessionKey(userId) in store.entries
      ensures id.Some? ==> id.value == store.entries[SessionKey(userId)]
    {
      var key := SessionKey(userId);
      if key in store.entries then Some(store.entries[key]) else None
    }

    /** `isUserOnThisServer(userId)`: `serverId.equals(...)`, so a missing mapping is false. */
    predicate IsUserOnThisServer(userId: Option<string>): (on: bool)
      reads this, store
      ensures on <==> SessionKey(userId) in store.entries && store.entries[SessionKey(userId)] == serverId
    {
      GetSessionServerId(userId) == Some(serverId)
    }

    /** `addSession`: the session is stored locally and the shared store names this server. */
    method AddSession(userId: string, session: Session)
      modifies this`localSessions, store`entries
      ensures localSessions == old(localSessions)[userId := session]
      ensures store.entries == old(store.entries)[SessionKey(Some(userId)) := serverId]
      ensures GetSession(userId) == Some(session) && IsUserOnThisServer(Some(userId))
      ensures forall v :: v != userId ==> GetSession(v) == old(GetSession(v))
      ensures forall v :: v != userId ==> GetSessionServerId(Some(v)) == old(GetSessionServerId(Some(v)))
    {
      localSessions := localSessions[userId := session];
      store.entries := store.entries[SessionKey(Some(userId)) := serverId];
      forall v | v != userId
        ensures SessionKey(Some(v)) != SessionKey(Some(userId))
      {
        if SessionKey(Some(v)) == SessionKey(Some(userId)) {
          SessionKeyInjective(v, userId);
        }
      }
    }

    /**
     * `removeSession` as written: the user's local session and shared-store key are
     * deleted whichever session and whichever server they belong to now.
     */
    method RemoveSession(userId: string)
      modifies this`localSessions, store`entries
      ensures localSessions == old(localSessions) - {userId}
      ensures store.entries == old(store.entries) - {SessionKey(Some(userId))}
      ensures GetSession(userId).None? && !IsUserOnThisServer(Some(userId))
      ensures forall v :: v != userId ==> GetSession(v) == old(GetSession(v))
      ensures forall v :: v != userId ==> GetSessionServerId(Some(v)) == old(GetSessionServerId(Some(v)))
    {
      localSessions := localSessions - {userId};
      store.entries := store.entries - {SessionKey(Some(userId))};
      forall v | v != userId
        ensures SessionKey(Some(v)) != SessionKey(Some(userId))
      {
        if SessionKey(Some(v)) == SessionKey(Some(userId)) {
          SessionKeyInjective(v, userId);
        }
      }
    }

    /**
     * Removal as evidently intended: only when `session` is still the one registered for
     * the user, and the shared key only while it still names this server.
     */
    method RemoveSessionOf(userId: string, session: Session)
      modifies this`localSessions, store`entries
      ensures old(GetSession(userId)) == Some(session) ==>
        localSessions == old(localSessions) - {userId} &&
        store.entries == (if old(IsUserOnThisServer(Some(userId))) then old(store.entries) - {SessionKey(Some(userId))}
                          else old(store.entries))
      ensures old(GetSession(userId)) != Some(session) ==>
        localSessions == old(localSessions) && store.entries == old(store.entries)
      ensures old(GetSession(userId)) == Some(session) ==> GetSession(userId).None? && !IsUserOnThisServer(Some(userId))
      ensures forall v :: v != userId ==> GetSession(v) == old(GetSession(v))
      ensures forall v :: v != userId ==> GetSessionServerId(Some(v)) == old(GetSessionServerId(Some(v)))
    {
      if userId in localSessions && localSessions[userId] == session {
        var key := SessionKey(Some(userId));
        if key in store.entries && store.entries[key] == serverId {
          store.entries := store.entries - {key};
        }
        localSessions := localSessions - {userId};
      }
      forall v | v != userId
        ensures SessionKey(Some(v)) != SessionKey(Some(userId))
      {
        if SessionKey(Some(v)) == SessionKey(Some(userId)) {
          SessionKeyInjective(v, userId);
        }
      }
    }
  }
}
