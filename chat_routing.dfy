/**
 * The broker consumer of the chat service: each chat message is delivered to the
 * receiver's session when the receiver is connected to this server, dropped when the
 * receiver is registered here but the session is gone or closed, and forwarded to the
 * other servers over the `chat_channel` pub/sub channel otherwise.
 */
module ChatRouting {
  import opened Common
  import opened Sessions
  import opened ChatHandler
  import ChatSocketClient

  /** The pub/sub channel to the other servers. */
  const ChatChannel := "chat_channel"

  /** What became of one message. */
  datatype Route =
    | Delivered(session: Session) // written to the receiver's open session
    | Dropped                     // registered here, but no open session
    | Forwarded                   // published on `chat_channel`
    | Failed                      // `getSession(null)` throws

  /** A frame written to a session. */
  datatype SentFrame = SentFrame(session: Session, message: ChatMessageDTO)

  /**
   * The local half shared by the listener and the subscriber, for a receiver the store
   * says is on this server: the open session it is written to, a drop, or a failure for
   * a null receiver (the map lookup of `null` throws).
   */
  function LocalRoute(sm: SessionManager, receiverId: Option<string>, open: set<Session>): (r: Route)
    reads sm
    ensures r != Forwarded
    ensures r == Failed <==> receiverId.None?
    ensures r.Delivered? <==>
      receiverId.Some? && sm.GetSession(receiverId.value).Some? && sm.GetSession(receiverId.value).value in open
    ensures r.Delivered? ==> sm.GetSession(receiverId.value) == Some(r.session) && r.session in open
  {
    if receiverId.None? then Failed
    else
      var session := sm.GetSession(receiverId.value);
      if session.Some? && session.value in open then Delivered(session.value) else Dropped
  }

  /** The JSON the server writes for a DTO, read back by the client: there is no `targetUserId`, `to` or `id`. */
  function AsReceived(m: ChatMessageDTO): (d: ChatSocketClient.InboundData)
    ensures d.id.None? && d.targetUserId.None? && d.to.None?
    ensures d.message.None? && d.from.None? && d.fromName.None?
    ensures d.content == m.content && d.senderId == m.senderId && d.senderName == m.senderName
    ensures d.timestamp == m.timestamp && d.kind == m.kind
  {
    ChatSocketClient.InboundData(None, m.content, None, m.senderId, None, m.senderName, None, None, None, m.timestamp, m.kind)
  }

  /**
   * A message routed through the server reaches the client with no target user and an
   * id made up on arrival, whatever the sender put in `targetUserId` and `id`.
   */
  lemma RelayedMessageLosesTargetAndId(f: ChatSocketClient.OutboundFrame, nowId: string, nowIso: string)
    ensures ToDto(Serialize(f)).Some?
    ensures ChatSocketClient.Normalize(AsReceived(ToDto(Serialize(f)).value), nowId, nowIso).targetUserId == None
    ensures ChatSocketClient.Normalize(AsReceived(ToDto(Serialize(f)).value), nowId, nowIso).id == nowId
    ensures f.message.content != "" ==>
      ChatSocketClient.Normalize(AsReceived(ToDto(Serialize(f)).value), nowId, nowIso).content == f.message.content
  {
    ClientFrameMapsToDto(f);
  }

  class ChatMessageListener {
    const sessions: SessionManager
    /** Frames written to sessions, oldest first. */
    var sentFrames: seq<SentFrame>
    /** Messages published on `chat_channel`, oldest first. */
    var forwarded: seq<ChatMessageDTO>

    constructor (sessions: SessionManager)
      ensures this.sessions == sessions && sentFrames == [] && forwarded == []
    {
      this.sessions := sessions;
      sentFrames := [];
      forwarded := [];
    }

    /**
     * `handleMessage`: exactly one of deliver, drop, forward (or the null lookup failing).
     * `open` is the set of sessions still open.
     */
    method HandleMessage(m: ChatMessageDTO, open: set<Session>) returns (route: Route)
      modifies this`sentFrames, this`forwarded
      ensures route == Forwarded <==> !sessions.IsUserOnThisServer(m.receiverId)
      ensures route != Forwarded ==> route == LocalRoute(sessions, m.receiverId, open)
      ensures route.Delivered? ==> sentFrames == old(sentFrames) + [SentFrame(route.session, m)] && forwarded == old(forwarded)
      ensures route == Forwarded ==> forwarded == old(forwarded) + [m] && sentFrames == old(sentFrames)
      ensures route == Dropped || route == Failed ==> sentFrames == old(sentFrames) && forwarded == old(forwarded)
    {
      if sessions.IsUserOnThisServer(m.receiverId) {
        route := LocalRoute(sessions, m.receiverId, open);
        if route.Delivered? {
          sentFrames := sentFrames + [SentFrame(route.session, m)];
        }
      } else {
        forwarded := forwarded + [m];
        route := Forwarded;
      }
    }
  }

  /** A message whose receiver is connected here, with its session open, goes to that session and nowhere else. */
  lemma ConnectedReceiverGetsIt(sm: SessionManager, m: ChatMessageDTO, open: set<Session>)
    requires m.receiverId.Some? && sm.IsUserOnThisServer(m.receiverId)
    requires sm.GetSession(m.receiverId.value).Some? && sm.GetSession(m.receiverId.value).value in open
    ensures LocalRoute(sm, m.receiverId, open) == Delivered(sm.GetSession(m.receiverId.value).value)
  {
  }
}
