/**
 * The `chat_channel` subscriber of the chat service: a message another server forwarded
 * is delivered when its receiver is connected to this server, and dropped otherwise. It
 * never publishes anything.
 */
module RedisRelay {
  import opened Common
  import opened Sessions
  import opened ChatHandler
  import opened ChatRouting

  class RedisChatSubscriber {
    const sessions: SessionManager
    /** Frames written to sessions, oldest first. */
    var sentFrames: seq<SentFrame>

    constructor (sessions: SessionManager)
      ensures this.sessions == sessions && sentFrames == []
    {
      this.sessions := sessions;
      sentFrames := [];
    }

    /**
     * `onMessage`: `body` is the decoded payload, `None` when it does not parse (caught,
     * nothing delivered). A receiver not registered here means a drop, never a forward.
     */
    method OnMessage(body: Option<ChatMessageDTO>, open: set<Session>) returns (route: Route)
      modifies this`sentFrames
      ensures route != Forwarded
      ensures body.None? ==> route == Dropped
      ensures body.Some? && !sessions.IsUserOnThisServer(body.value.receiverId) ==> route == Dropped
      ensures body.Some? && sessions.IsUserOnThisServer(body.value.receiverId) ==>
        route == LocalRoute(sessions, body.value.receiverId, open)
      ensures route.Delivered? ==> body.Some? && sentFrames == old(sentFrames) + [SentFrame(route.session, body.value)]
      ensures !route.Delivered? ==> sentFrames == old(sentFrames)
    {
      if body.None? {
        return Dropped;
      }
      var m := body.value;
      if sessions.IsUserOnThisServer(m.receiverId) {
        route := LocalRoute(sessions, m.receiverId, open);
        if route.Delivered? {
          sentFrames := sentFrames + [SentFrame(route.session, m)];
        }
      } else {
        route := Dropped;
      }
    }
  }

  /**
   * A message one server forwards is delivered by the subscriber of the server the
   * shared store names for the receiver, when the receiver's session there is open; the
   * forwarding server's own subscriber drops it.
   */
  method ForwardedReachesOwner(here: SessionManager, owner: SessionManager, m: ChatMessageDTO, open: set<Session>)
      returns (hereRoute: Route, ownerRoute: Route, echoRoute: Route)
    requires here.store == owner.store && m.receiverId.Some?
    requires owner.IsUserOnThisServer(m.receiverId) && here.serverId != owner.serverId
    requires owner.GetSession(m.receiverId.value).Some? && owner.GetSession(m.receiverId.value).value in open
    ensures hereRoute == Forwarded && ownerRoute == Delivered(owner.GetSession(m.receiverId.value).value)
    ensures echoRoute == Dropped
  {
    var listener := new ChatMessageListener(here);
    hereRoute := listener.HandleMessage(m, open);
    var subscriber := new RedisChatSubscriber(owner);
    ownerRoute := subscriber.OnMessage(Some(m), open);
    var echo := new RedisChatSubscriber(here);
    echoRoute := echo.OnMessage(Some(m), open);
  }
}
