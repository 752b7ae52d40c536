/**
 * The chat service's WebSocket handler: it registers and removes sessions under the user
 * id the handshake stored, and turns each text frame from the client into a chat message
 * published to the broker.
 */
module ChatHandler {
  import opened Common
  import opened Sessions
  import ChatSocketClient

  /** A JSON value as far as the handler cares: a string, `null`, or anything else. */
  datatype JsonValue = JString(s: string) | JNull | JOther

  /** The broker exchange and routing key of chat messages. */
  const ChatExchange := "chat.exchange"
  const ChatRoutingKey := "chat.message"

  /** `ChatMessageDTO`: every field may be null; there is no id. */
  datatype ChatMessageDTO = ChatMessageDTO(
    content: Option<string>, senderId: Option<string>, senderName: Option<string>,
    receiverId: Option<string>, timestamp: Option<string>, kind: Option<string>)

  /** One `convertAndSend` to the broker. */
  datatype Publication = Publication(exchange: string, routingKey: string, message: ChatMessageDTO)

  /** `(String) value`: null stays null, a string is itself, anything else throws (`None`). */
  function CastString(v: Option<JsonValue>): (r: Option<Option<string>>)
    ensures r.None? <==> v.Some? && v.value.JOther?
    ensures r == Some(None) <==> v.None? || v == Some(JNull)
  {
    if v.None? then Some(None)
    else match v.value
      case JString(s) => Some(Some(s))
      case JNull => Some(None)
      case JOther => None
  }

  /** `(String) messageData.get(key)`. */
  function StringField(data: map<string, JsonValue>, key: string): Option<Option<string>> {
    CastString(if key in data then Some(data[key]) else None)
  }

  /** The value a present string key carries, null for a missing key or a JSON null. */
  function Text(data: map<string, JsonValue>, key: string): Option<string> {
    if key in data && data[key].JString? then Some(data[key].s) else None
  }

  /** A key the handler reads whose value is neither a string nor null: the cast throws. */
  predicate Uncastable(data: map<string, JsonValue>, key: string) {
    key in data && data[key].JOther?
  }

  /**
   * The DTO mapping of `handleTextMessage`; `None` where a cast throws. `type` falls back to
   * "text" only when the key is missing, so an explicit null stays null.
   */
  function ToDto(data: map<string, JsonValue>): (r: Option<ChatMessageDTO>)
    ensures r.None? <==>
      Uncastable(data, "content") || Uncastable(data, "senderId") || Uncastable(data, "senderName") ||
      Uncastable(data, "targetUserId") || Uncastable(data, "timestamp") || Uncastable(data, "type")
    ensures r.Some? ==>
      r.value.content == Text(data, "content") && r.value.senderId == Text(data, "senderId") &&
      r.value.senderName == Text(data, "senderName") && r.value.receiverId == Text(data, "targetUserId") &&
      r.value.timestamp == Text(data, "timestamp")
    ensures r.Some? ==> r.value.kind == (if "type" in data then Text(data, "type") else Some("text"))
  {
    var content := StringField(data, "content");
    var senderId := StringField(data, "senderId");
    var senderName := StringField(data, "senderName");
    var receiverId := StringField(data, "targetUserId");
    var timestamp := StringField(data, "timestamp");
    var kind := if "type" in data then CastString(Some(data["type"])) else Some(Some("text"));
    if content.None? || senderId.None? || senderName.None? || receiverId.None? || timestamp.None? || kind.None? then None
    else Some(ChatMessageDTO(content.value, senderId.value, senderName.value, receiverId.value, timestamp.value, kind.value))
  }

  /** The object `JSON.stringify` writes for a client frame; an undefined target is left out. */
  function Serialize(f: ChatSocketClient.OutboundFrame): (data: map<string, JsonValue>)
    ensures data.Keys == {"content", "senderId", "senderName", "type", "id", "timestamp"} +
      (if f.message.targetUserId.Some? then {"targetUserId"} else {})
    ensures forall k :: k in data ==> data[k].JString?
    ensures data["content"] == JString(f.message.content) && data["type"] == JString(f.message.kind)
    ensures data["id"] == JString(f.id) && data["timestamp"] == JString(f.timestamp)
    ensures f.message.targetUserId.Some? ==> data["targetUserId"] == JString(f.message.targetUserId.value)
  {
    var base := map[
      "content" := JString(f.message.content), "senderId" := JString(f.message.senderId),
      "senderName" := JString(f.message.senderName), "type" := JString(f.message.kind),
      "id" := JString(f.id), "timestamp" := JString(f.timestamp)];
    if f.message.targetUserId.Some? then base["targetUserId" := JString(f.message.targetUserId.value)] else base
  }

  /** What the client sends arrives as a DTO with the same fields, its target as the receiver and no id. */
  lemma ClientFrameMapsToDto(f: ChatSocketClient.OutboundFrame)
    ensures ToDto(Serialize(f)) == Some(ChatMessageDTO(
      Some(f.message.content), Some(f.message.senderId), Some(f.message.senderName),
      f.message.targetUserId, Some(f.timestamp), Some(f.message.kind)))
  {
    var data := Serialize(f);
    assert f.message.targetUserId.None? ==> "targetUserId" !in data;
  }

  class ChatWebSocketHandler {
    const sessions: SessionManager
    /** Messages handed to the broker, oldest first. */
    var published: seq<Publication>
    /** The latest session established for each user, and the sessions that closed. */
    ghost var latest: map<string, Session>
    ghost var closed: set<Session>
    ghost var seen: set<Session>

    constructor (sessions: SessionManager)
      ensures this.sessions == sessions && published == [] && latest == map[] && closed == {} && seen == {}
    {
      this.sessions := sessions;
      published := [];
      latest := map[];
      closed := {};
      seen := {};
    }

    /** With a single server, a user's newest session, while open, is registered here. */
    ghost predicate Reachable()
      reads this, sessions, sessions.store
    {
      (forall u :: u in latest ==> latest[u] in seen) && closed <= seen &&
      forall u :: u in latest && latest[u] !in closed ==>
        sessions.GetSession(u) == Some(latest[u]) && sessions.IsUserOnThisServer(Some(u))
    }

    /** `afterConnectionEstablished`: registered under the handshake's user id when there is one. */
    method AfterConnectionEstablished(session: Session, userId: Option<string>)
      requires session !in seen
      modifies this`latest, this`seen, sessions`localSessions, sessions.store`entries
      ensures old(Reachable()) ==> Reachable()
      ensures seen == old(seen) + {session}
      ensures latest == (if userId.Some? then old(latest)[userId.value := session] else old(latest))
      ensures userId.Some? ==>
        sessions.localSessions == old(sessions.localSessions)[userId.value := session] &&
        sessions.store.entries == old(sessions.store.entries)[SessionKey(userId) := sessions.serverId]
      ensures userId.None? ==>
        sessions.localSessions == old(sessions.localSessions) && sessions.store.entries == old(sessions.store.entries)
    {
      seen := seen + {session};
      if userId.Some? {
        sessions.AddSession(userId.value, session);
        latest := latest[userId.value := session];
      }
    }

    /** `afterConnectionClosed` as written: the user's registration is removed, whichever session it is. */
    method AfterConnectionClosedAsWritten(session: Session, userId: Option<string>)
      modifies this`closed, sessions`localSessions, sessions.store`entries
      ensures closed == old(closed) + {session}
      ensures userId.Some? ==>
        sessions.localSessions == old(sessions.localSessions) - {userId.value} &&
        sessions.store.entries == old(sessions.store.entries) - {SessionKey(userId)}
      ensures userId.None? ==>
        sessions.localSessions == old(sessions.localSessions) && sessions.store.entries == old(sessions.store.entries)
    {
      closed := closed + {session};
      if userId.Some? {
        sessions.RemoveSession(userId.value);
      }
    }

    /** `afterConnectionClosed` as intended: only the closing session's own registration is removed. */
    method AfterConnectionClosed(session: Session, userId: Option<string>)
      requires session in seen
      modifies this`closed, sessions`localSessions, sessions.store`entries
      ensures old(Reachable()) ==> Reachable()
      ensures closed == old(closed) + {session}
      ensures userId.None? || old(sessions.GetSession(userId.value)) != Some(session) ==>
        sessions.localSessions == old(sessions.localSessions) && sessions.store.entries == old(sessions.store.entries)
      ensures userId.Some? && old(sessions.GetSession(userId.value)) == Some(session) ==>
        sessions.localSessions == old(sessions.localSessions) - {userId.value} &&
        sessions.store.entries == (if old(sessions.IsUserOnThisServer(userId))
                                   then old(sessions.store.entries) - {SessionKey(userId)}
                                   else old(sessions.store.entries))
    {
      closed := closed + {session};
      if userId.Some? {
        sessions.RemoveSessionOf(userId.value, session);
      }
    }

    /**
     * `handleTextMessage`: a frame that parses to a JSON object and whose fields cast is
     * published once; anything else is caught and publishes nothing. `data` is the
     * parsed object, `None` when the payload is not one.
     */
    method HandleTextMessage(userId: Option<string>, data: Option<map<string, JsonValue>>)
      modifies this`published
      ensures data.Some? && ToDto(data.value).Some? ==>
        published == old(published) + [Publication(ChatExchange, ChatRoutingKey, ToDto(data.value).value)]
      ensures data.None? || ToDto(data.value).None? ==> published == old(published)
    {
      if data.Some? {
        var dto := ToDto(data.value);
        if dto.Some? {
          published := published + [Publication(ChatExchange, ChatRoutingKey, dto.value)];
        }
      }
    }
  }

  /**
   * As written: a user opens a second session (a new tab, or a reconnect accepted before
   * the old socket's close is processed); when the first one closes, the user is no
   * longer registered although the second session is open.
   */
  method StaleCloseAsWritten() returns (h: ChatWebSocketHandler)
    ensures "u" in h.latest && h.latest["u"] == Session(2) && Session(2) !in h.closed
    ensures h.sessions.GetSession("u").None? && !h.sessions.IsUserOnThisServer(Some("u"))
  {
    var store := new KeyValueStore();
    var sm := new SessionManager("server-a", store);
    h := new ChatWebSocketHandler(sm);
    h.AfterConnectionEstablished(Session(1), Some("u"));
    h.AfterConnectionEstablished(Session(2), Some("u"));
    h.AfterConnectionClosedAsWritten(Session(1), Some("u"));
  }

  /** As intended: the same events leave the second session registered. */
  method StaleClose() returns (h: ChatWebSocketHandler)
    ensures h.sessions.GetSession("u") == Some(Session(2)) && h.sessions.IsUserOnThisServer(Some("u"))
  {
    var store := new KeyValueStore();
    var sm := new SessionManager("server-a", store);
    h := new ChatWebSocketHandler(sm);
    h.AfterConnectionEstablished(Session(1), Some("u"));
    h.AfterConnectionEstablished(Session(2), Some("u"));
    h.AfterConnectionClosed(Session(1), Some("u"));
  }

  /**
   * As written, across two servers: the user moves from server A to server B; A's close
   * of the old session deletes the shared key B wrote, so B no longer owns the user.
   */
  method MovedUserAsWritten() returns (a: ChatWebSocketHandler, b: ChatWebSocketHandler)
    ensures b.sessions.GetSession("u") == Some(Session(2)) && !b.sessions.IsUserOnThisServer(Some("u"))
  {
    var store := new KeyValueStore();
    var smA := new SessionManager("server-a", store);
    var smB := new SessionManager("server-b", store);
    a := new ChatWebSocketHandler(smA);
    b := new ChatWebSocketHandler(smB);
    a.AfterConnectionEstablished(Session(1), Some("u"));
    b.AfterConnectionEstablished(Session(2), Some("u"));
    a.AfterConnectionClosedAsWritten(Session(1), Some("u"));
  }

  /** As intended: A's close leaves B's key alone. */
  method MovedUser() returns (a: ChatWebSocketHandler, b: ChatWebSocketHandler)
    ensures b.sessions.GetSession("u") == Some(Session(2)) && b.sessions.IsUserOnThisServer(Some("u"))
    ensures a.sessions.GetSession("u").None? && !a.sessions.IsUserOnThisServer(Some("u"))
  {
    var store := new KeyValueStore();
    var smA := new SessionManager("server-a", store);
    var smB := new SessionManager("server-b", store);
    a := new ChatWebSocketHandler(smA);
    b := new ChatWebSocketHandler(smB);
    a.AfterConnectionEstablished(Session(1), Some("u"));
    b.AfterConnectionEstablished(Session(2), Some("u"));
    assert smA.GetSession("u") == Some(Session(1));
    assert store.entries[SessionKey(Some("u"))] == "server-b";
    a.AfterConnectionClosed(Session(1), Some("u"));
  }
}
