/**
 * The client's chat socket service: one WebSocket to the chat service, opened with the
 * two user ids and the access token in the query string, reconnected after abnormal
 * closes, with message and connection-state handlers. Socket events (open, message,
 * close, error) and timers firing are methods the environment calls.
 */
module ChatSocketClient {
  import opened Common

  // ---------------------------------------------------------------------------
  // `encodeURIComponent`
  // ---------------------------------------------------------------------------

  /** The characters `encodeURIComponent` leaves as they are. */
  predicate IsUnreserved(c: char) {
    ('A' <= c <= 'Z') || ('a' <= c <= 'z') || ('0' <= c <= '9') ||
    c == '-' || c == '_' || c == '.' || c == '!' || c == '~' || c == '*' || c == '\'' || c == '(' || c == ')'
  }

  /** An upper-case hexadecimal digit. */
  function HexDigit(n: int): (c: char)
    requires 0 <= n < 16
    ensures IsUnreserved(c)
  {
    if n < 10 then ('0' as int + n) as char else ('A' as int + n - 10) as char
  }

  /** The UTF-8 bytes of a code point. */
  function Utf8(n: int): (bytes: seq<int>)
    requires 0 <= n < 0x110000
    ensures 1 <= |bytes| <= 4
    ensures forall i :: 0 <= i < |bytes| ==> 0 <= bytes[i] < 256
    ensures n < 0x80 <==> bytes == [n]
  {
    if n < 0x80 then [n]
    else if n < 0x800 then [0xC0 + n / 64, 0x80 + n % 64]
    else if n < 0x10000 then [0xE0 + n / 4096, 0x80 + (n / 64) % 64, 0x80 + n % 64]
    else [0xF0 + n / 262144, 0x80 + (n / 4096) % 64, 0x80 + (n / 64) % 64, 0x80 + n % 64]
  }

  /** `%XY` for each byte. */
  function PercentBytes(bytes: seq<int>): (r: string)
    requires forall i :: 0 <= i < |bytes| ==> 0 <= bytes[i] < 256
    ensures |r| == 3 * |bytes|
    ensures forall i :: 0 <= i < |r| ==> IsUnreserved(r[i]) || r[i] == '%'
  {
    if bytes == [] then ""
    else ['%', HexDigit(bytes[0] / 16), HexDigit(bytes[0] % 16)] + PercentBytes(bytes[1..])
  }

  /** `encodeURIComponent(s)`: unreserved characters kept, every other one percent-encoded as UTF-8. */
  function EncodeURIComponent(s: string): (r: string)
    ensures forall i :: 0 <= i < |r| ==> IsUnreserved(r[i]) || r[i] == '%'
    ensures (forall i :: 0 <= i < |s| ==> IsUnreserved(s[i])) ==> r == s
    ensures |r| >= |s|
  {
    if s == [] then ""
    else
      var head := if IsUnreserved(s[0]) then [s[0]] else PercentBytes(Utf8(s[0] as int));
      head + EncodeURIComponent(s[1..])
  }

  // ---------------------------------------------------------------------------
  // Configuration and the connect URL
  // ---------------------------------------------------------------------------

  /** The service's options; `None` is a key the caller did not give. */
  datatype Config = Config(baseUrl: Option<string>, reconnectInterval: Option<int>, maxReconnectAttempts: Option<int>)

  /** `{ baseUrl: 'ws://localhost:8081', reconnectInterval: 3000, maxReconnectAttempts: 5, ...config }`. */
  function WithDefaults(given: Config): (c: Config)
    ensures c.baseUrl.Some? && c.reconnectInterval.Some? && c.maxReconnectAttempts.Some?
    ensures given.baseUrl.Some? ==> c.baseUrl == given.baseUrl
    ensures given.baseUrl.None? ==> c.baseUrl == Some("ws://localhost:8081")
    ensures given.reconnectInterval.Some? ==> c.reconnectInterval == given.reconnectInterval
    ensures given.reconnectInterval.None? ==> c.reconnectInterval == Some(3000)
    ensures given.maxReconnectAttempts.Some? ==> c.maxReconnectAttempts == given.maxReconnectAttempts
    ensures given.maxReconnectAttempts.None? ==> c.maxReconnectAttempts == Some(5)
    ensures given == Config(None, None, None) ==> c == Config(Some("ws://localhost:8081"), Some(3000), Some(5))
  {
    Config(
      if given.baseUrl.Some? then given.baseUrl else Some("ws://localhost:8081"),
      if given.reconnectInterval.Some? then given.reconnectInterval else Some(3000),
      if given.maxReconnectAttempts.Some? then given.maxReconnectAttempts else Some(5))
  }

  /** `maxReconnectAttempts || 5`: a zero (or absent) cap means five. */
  function ReconnectCap(c: Config): (cap: int)
    ensures cap != 0
    ensures c.maxReconnectAttempts.Some? && c.maxReconnectAttempts.value != 0 ==> cap == c.maxReconnectAttempts.value
    ensures c.maxReconnectAttempts.None? || c.maxReconnectAttempts == Some(0) ==> cap == 5
  {
    if c.maxReconnectAttempts.Some? && c.maxReconnectAttempts.value != 0 then c.maxReconnectAttempts.value else 5
  }

  /** What a `connect` call was given; its socket's handlers keep these. */
  datatype Target = Target(currentUserId: string, targetUserId: string, token: Option<string>)

  /** The `name=value` pieces of the connect query: the two ids, then the encoded token when it is truthy. */
  function ConnectParams(t: Target): (ps: seq<string>)
    ensures |ps| == (if Truthy(t.token) then 3 else 2)
    ensures ps[0] == "userId=" + t.currentUserId && ps[1] == "targetUserId=" + t.targetUserId
    ensures Truthy(t.token) ==> ps[2] == "token=" + EncodeURIComponent(t.token.value)
  {
    ["userId=" + t.currentUserId, "targetUserId=" + t.targetUserId] +
    (if Truthy(t.token) then ["token=" + EncodeURIComponent(t.token.value)] else [])
  }

  /** The query string of the connect URL: the pieces joined with `&`. */
  function ConnectQuery(t: Target): string {
    Join(ConnectParams(t), '&')
  }

  /** `${baseUrl}/ws/chat?userId=...&targetUserId=...[&token=...]`. */
  function ConnectUrl(baseUrl: string, t: Target): string {
    baseUrl + "/ws/chat?" + ConnectQuery(t)
  }

  // ---------------------------------------------------------------------------
  // Messages
  // ---------------------------------------------------------------------------

  /** A received frame after `JSON.parse`: the keys the service reads, each possibly absent. */
  datatype InboundData = InboundData(
    id: Option<string>, content: Option<string>, message: Option<string>,
    senderId: Option<string>, from: Option<string>, senderName: Option<string>, fromName: Option<string>,
    targetUserId: Option<string>, to: Option<string>, timestamp: Option<string>, kind: Option<string>)

  /** `ChatMessage` as handlers receive it. */
  datatype ChatMessage = ChatMessage(
    id: string, content: string, senderId: string, senderName: string,
    targetUserId: Option<string>, timestamp: string, kind: string)

  /**
   * The `onmessage` mapping: each field takes the first truthy of its two spellings, then
   * a fallback. `nowId` and `nowIso` are `Date.now().toString()` and the ISO time.
   */
  function Normalize(d: InboundData, nowId: string, nowIso: string): (m: ChatMessage)
    ensures m.id == (if Truthy(d.id) then d.id.value else nowId)
    ensures m.content == "" <==> !Truthy(d.content) && !Truthy(d.message)
    ensures Truthy(d.content) ==> m.content == d.content.value
    ensures !Truthy(d.content) && Truthy(d.message) ==> m.content == d.message.value
    ensures Truthy(d.senderId) ==> m.senderId == d.senderId.value
    ensures !Truthy(d.senderId) && Truthy(d.from) ==> m.senderId == d.from.value
    ensures !Truthy(d.senderId) && !Truthy(d.from) ==> m.senderId == ""
    ensures m.senderName != ""
    ensures Truthy(d.senderName) ==> m.senderName == d.senderName.value
    ensures !Truthy(d.senderName) && Truthy(d.fromName) ==> m.senderName == d.fromName.value
    ensures !Truthy(d.senderName) && !Truthy(d.fromName) ==> m.senderName == "Unknown"
    ensures m.timestamp == (if Truthy(d.timestamp) then d.timestamp.value else nowIso)
    ensures m.targetUserId.Some? ==> Truthy(d.targetUserId) || d.to == m.targetUserId
    ensures Truthy(d.targetUserId) ==> m.targetUserId == d.targetUserId
    ensures !Truthy(d.targetUserId) ==> m.targetUserId == d.to
    ensures m.kind == "text" <==> !Truthy(d.kind) || d.kind == Some("text")
    ensures Truthy(d.kind) ==> m.kind == d.kind.value
  {
    ChatMessage(
      OrElse(d.id, nowId),
      OrElse(Or(d.content, d.message), ""),
      OrElse(Or(d.senderId, d.from), ""),
      OrElse(Or(d.senderName, d.fromName), "Unknown"),
      Or(d.targetUserId, d.to),
      OrElse(d.timestamp, nowIso),
      OrElse(d.kind, "text"))
  }

  /** What `sendMessage` is given. */
  datatype OutgoingMessage = OutgoingMessage(
    content: string, senderId: string, senderName: string, targetUserId: Option<string>, kind: string)

  /** `{ ...message, id, timestamp }`, the object serialised onto the socket. */
  datatype OutboundFrame = OutboundFrame(message: OutgoingMessage, id: string, timestamp: string)

  /** The keys a serialised outbound frame carries, read back by `JSON.parse`. */
  function Echo(f: OutboundFrame): InboundData {
    InboundData(Some(f.id), Some(f.message.content), None, Some(f.message.senderId), None,
      Some(f.message.senderName), None, f.message.targetUserId, None, Some(f.timestamp), Some(f.message.kind))
  }

  /** A frame this client sends, when echoed back, is received as the same message. */
  lemma EchoRoundTrip(f: OutboundFrame, nowId: string, nowIso: string)
    requires f.id != "" && f.timestamp != "" && f.message.content != "" && f.message.senderId != ""
    requires f.message.senderName != "" && f.message.kind != "" && f.message.targetUserId != Some("")
    ensures Normalize(Echo(f), nowId, nowIso) ==
      ChatMessage(f.id, f.message.content, f.message.senderId, f.message.senderName,
                  f.message.targetUserId, f.timestamp, f.message.kind)
  {
  }

  // ---------------------------------------------------------------------------
  // The service
  // ---------------------------------------------------------------------------

  datatype ReadyState = CONNECTING | OPEN | CLOSING | CLOSED

  /** The socket the service holds: the URL it was opened with and its state. */
  datatype Socket = Socket(url: string, readyState: ReadyState)

  /** The reconnect timer slot: empty, a reconnect waiting with its arguments, or one that already ran. */
  datatype ReconnectTimer = NoTimer | Pending(target: Target) | Fired

  /** Why a connect promise was rejected. */
  datatype RejectReason = ErrorEvent | ConnectionTimeout | ConstructorThrew

  /** The state of the promise of the latest `connect` that opened a socket. */
  datatype Settlement = Unsettled | Resolved | Rejected(reason: RejectReason)

  /** The message of the timeout rejection. */
  const ConnectionTimeoutMessage := "WebSocket connection timeout"

  /** The close code of a normal closure. */
  const NormalClosure := 1000

  /** The close code a socket reports when it closes before the connection was established. */
  const AbnormalClosure := 1006

  class ChatSocketService {
    const config: Config
    var ws: Option<Socket>
    var reconnectAttempts: int
    var reconnectTimer: ReconnectTimer
    var messageHandlers: seq<ListenerId>
    var connectionHandlers: seq<ListenerId>
    var isConnecting: bool
    /** The `connect` arguments the current socket's handlers captured. */
    var target: Option<Target>
    var settlement: Settlement
    var messageDeliveries: seq<Delivery<ChatMessage>>
    var connectionDeliveries: seq<Delivery<bool>>
    /** URLs of the sockets this service closed with a normal closure, oldest first. */
    var closedUrls: seq<string>
    /** Frames written to the socket, oldest first. */
    var sent: seq<OutboundFrame>

    /** The defaults are merged in, the current socket is the one its captured arguments name. */
    predicate Valid()
      reads this
    {
      config.baseUrl.Some? &&
      (ws.Some? ==> target.Some? && ws.value.url == ConnectUrl(config.baseUrl.value, target.value))
    }

    /** A reconnect is only ever waiting while the attempt count is under the cap. */
    predicate RetryBounded()
      reads this
    {
      reconnectTimer.Pending? ==> reconnectAttempts < ReconnectCap(config)
    }

    constructor (given: Config)
      ensures config == WithDefaults(given)
      ensures ws == None && reconnectAttempts == 0 && reconnectTimer == NoTimer && !isConnecting
      ensures messageHandlers == [] && connectionHandlers == [] && target == None && settlement == Unsettled
      ensures messageDeliveries == [] && connectionDeliveries == [] && closedUrls == [] && sent == []
      ensures Valid() && RetryBounded()
    {
      config := WithDefaults(given);
      ws := None;
      reconnectAttempts := 0;
      reconnectTimer := NoTimer;
      messageHandlers := [];
      connectionHandlers := [];
      isConnecting := false;
      target := None;
      settlement := Unsettled;
      messageDeliveries := [];
      connectionDeliveries := [];
      closedUrls := [];
      sent := [];
    }

    /** `isConnected()`. */
    predicate IsConnected()
      reads this
    {
      ws.Some? && ws.value.readyState == OPEN
    }

    /** The early exit of `connect`: already connecting, or an open socket. */
    predicate ConnectGuard()
      reads this
    {
      isConnecting || IsConnected()
    }

    /** Clears the reconnect timer and closes the current socket with a normal closure. */
    method CloseCurrent()
      modifies this
      ensures reconnectTimer == NoTimer && ws == None
      ensures closedUrls == old(closedUrls) + (if old(ws).Some? then [old(ws).value.url] else [])
      ensures isConnecting == old(isConnecting) && reconnectAttempts == old(reconnectAttempts)
      ensures target == old(target) && settlement == old(settlement) && sent == old(sent)
      ensures messageHandlers == old(messageHandlers) && connectionHandlers == old(connectionHandlers)
      ensures messageDeliveries == old(messageDeliveries) && connectionDeliveries == old(connectionDeliveries)
    {
      reconnectTimer := NoTimer;
      if ws.Some? {
        closedUrls := closedUrls + [ws.value.url];
        ws := None;
      }
    }

    /** `disconnect()`: close, stop connecting, reset the attempt count, tell the handlers. */
    method Disconnect()
      requires Valid()
      modifies this
      ensures Valid() && RetryBounded()
      ensures reconnectTimer == NoTimer && ws == None && !isConnecting && reconnectAttempts == 0
      ensures closedUrls == old(closedUrls) + (if old(ws).Some? then [old(ws).value.url] else [])
      ensures connectionDeliveries == old(connectionDeliveries) + Deliveries(connectionHandlers, false)
      ensures target == old(target) && settlement == old(settlement) && sent == old(sent)
      ensures messageHandlers == old(messageHandlers) && connectionHandlers == old(connectionHandlers)
      ensures messageDeliveries == old(messageDeliveries)
    {
      CloseCurrent();
      isConnecting := false;
      reconnectAttempts := 0;
      NotifyConnectionHandlers(false);
    }

    /** The `try` block of `connect` after the clean-up: a new socket, or the constructor throws. */
    method OpenSocket(t: Target, created: bool)
      requires Valid() && ws == None
      modifies this
      ensures Valid()
      ensures created ==> ws == Some(Socket(ConnectUrl(config.baseUrl.value, t), CONNECTING)) &&
                          target == Some(t) && settlement == Unsettled && isConnecting == old(isConnecting)
      ensures !created ==> ws == None && target == old(target) && settlement == Rejected(ConstructorThrew) && !isConnecting
      ensures reconnectAttempts == old(reconnectAttempts) && reconnectTimer == old(reconnectTimer)
      ensures closedUrls == old(closedUrls) && sent == old(sent)
      ensures messageHandlers == old(messageHandlers) && connectionHandlers == old(connectionHandlers)
      ensures messageDeliveries == old(messageDeliveries) && connectionDeliveries == old(connectionDeliveries)
    {
      if created {
        ws := Some(Socket(ConnectUrl(config.baseUrl.value, t), CONNECTING));
        target := Some(t);
        settlement := Unsettled;
      } else {
        isConnecting := false;
        settlement := Rejected(ConstructorThrew);
      }
    }

    /**
     * `connect(currentUserId, targetUserId, token)` as written. `created` says whether
     * the WebSocket constructor accepted the URL. `resolvedAtOnce` is true when the
     * early exit resolved the promise. The `disconnect()` it calls to clean up also
     * resets `isConnecting` and the attempt count, so both are cleared on every connect.
     */
    method ConnectAsWritten(t: Target, created: bool) returns (resolvedAtOnce: bool)
      requires Valid()
      modifies this
      ensures Valid()
      ensures resolvedAtOnce <==> old(ConnectGuard())
      ensures old(ConnectGuard()) ==>
        ws == old(ws) && isConnecting == old(isConnecting) && reconnectAttempts == old(reconnectAttempts) &&
        reconnectTimer == old(reconnectTimer) && connectionDeliveries == old(connectionDeliveries) &&
        closedUrls == old(closedUrls) && settlement == old(settlement)
      ensures !old(ConnectGuard()) ==>
        !isConnecting && reconnectAttempts == 0 && reconnectTimer == NoTimer &&
        closedUrls == old(closedUrls) + (if old(ws).Some? then [old(ws).value.url] else []) &&
        connectionDeliveries == old(connectionDeliveries) + Deliveries(connectionHandlers, false)
      ensures !old(ConnectGuard()) && created ==>
        ws == Some(Socket(ConnectUrl(config.baseUrl.value, t), CONNECTING)) && target == Some(t) && settlement == Unsettled
      ensures !old(ConnectGuard()) && !created ==> ws == None && settlement == Rejected(ConstructorThrew)
      ensures messageHandlers == old(messageHandlers) && connectionHandlers == old(connectionHandlers)
      ensures messageDeliveries == old(messageDeliveries) && sent == old(sent)
    {
      if isConnecting || (ws.Some? && ws.value.readyState == OPEN) {
        return true;
      }
      isConnecting := true;
      Disconnect();
      OpenSocket(t, created);
      return false;
    }

    /**
     * `connect` as evidently intended: the clean-up closes the old socket and tells the
     * handlers, but leaves `isConnecting` set and the attempt count alone. Keeping
     * `reconnectAttempts` across a connect the user starts is deliberate: only `onopen`
     * and an explicit `disconnect` reset it, so a connect issued after the retries ran
     * out gets a new retry budget once it opens, not before.
     */
    method Connect(t: Target, created: bool) returns (resolvedAtOnce: bool)
      requires Valid()
      modifies this
      ensures Valid()
      ensures resolvedAtOnce <==> old(ConnectGuard())
      ensures old(ConnectGuard()) ==>
        ws == old(ws) && isConnecting == old(isConnecting) && reconnectAttempts == old(reconnectAttempts) &&
        reconnectTimer == old(reconnectTimer) && connectionDeliveries == old(connectionDeliveries) &&
        closedUrls == old(closedUrls) && settlement == old(settlement)
      ensures !old(ConnectGuard()) ==>
        isConnecting == created && reconnectAttempts == old(reconnectAttempts) && reconnectTimer == NoTimer &&
        closedUrls == old(closedUrls) + (if old(ws).Some? then [old(ws).value.url] else []) &&
        connectionDeliveries == old(connectionDeliveries) + Deliveries(connectionHandlers, false)
      ensures !old(ConnectGuard()) && created ==>
        ws == Some(Socket(ConnectUrl(config.baseUrl.value, t), CONNECTING)) && target == Some(t) && settlement == Unsettled
      ensures !old(ConnectGuard()) && !created ==> ws == None && settlement == Rejected(ConstructorThrew)
      ensures messageHandlers == old(messageHandlers) && connectionHandlers == old(connectionHandlers)
      ensures messageDeliveries == old(messageDeliveries) && sent == old(sent)
    {
      if isConnecting || (ws.Some? && ws.value.readyState == OPEN) {
        return true;
      }
      isConnecting := true;
      CloseCurrent();
      NotifyConnectionHandlers(false);
      OpenSocket(t, created);
      return false;
    }

    /** `onopen` of the current socket: open, not connecting, attempts reset, handlers told, promise resolved. */
    method SocketOpened()
      requires Valid() && ws.Some? && ws.value.readyState == CONNECTING
      modifies this
      ensures Valid() && IsConnected() && !isConnecting && reconnectAttempts == 0
      ensures ws == Some(old(ws).value.(readyState := OPEN)) && reconnectTimer == old(reconnectTimer)
      ensures connectionDeliveries == old(connectionDeliveries) + Deliveries(connectionHandlers, true)
      ensures settlement == (if old(settlement) == Unsettled then Resolved else old(settlement))
      ensures messageHandlers == old(messageHandlers) && connectionHandlers == old(connectionHandlers)
      ensures messageDeliveries == old(messageDeliveries) && sent == old(sent) && target == old(target)
    {
      ws := Some(ws.value.(readyState := OPEN));
      isConnecting := false;
      reconnectAttempts := 0;
      NotifyConnectionHandlers(true);
      if settlement == Unsettled {
        settlement := Resolved;
      }
    }

    /** `onmessage`: a parsed frame is normalised and handed to every handler; an unparsable one is dropped. */
    method SocketMessage(data: Option<InboundData>, nowId: string, nowIso: string)
      modifies this`messageDeliveries
      ensures data.Some? ==> messageDeliveries == old(messageDeliveries) + Deliveries(messageHandlers, Normalize(data.value, nowId, nowIso))
      ensures data.None? ==> messageDeliveries == old(messageDeliveries)
    {
      if data.Some? {
        NotifyMessageHandlers(Normalize(data.value, nowId, nowIso));
      }
    }

    /**
     * `onclose` of the current socket: handlers are told, and unless the closure was
     * normal a reconnect is scheduled while the attempt count is under the cap.
     */
    method SocketClosed(code: int)
      requires Valid() && ws.Some?
      modifies this
      ensures Valid() && !isConnecting && ws == Some(old(ws).value.(readyState := CLOSED))
      ensures connectionDeliveries == old(connectionDeliveries) + Deliveries(connectionHandlers, false)
      ensures code != NormalClosure && reconnectAttempts < ReconnectCap(config) ==> reconnectTimer == Pending(target.value)
      ensures !(code != NormalClosure && reconnectAttempts < ReconnectCap(config)) ==> reconnectTimer == old(reconnectTimer)
      ensures old(RetryBounded()) ==> RetryBounded()
      ensures reconnectAttempts == old(reconnectAttempts) && settlement == old(settlement) && target == old(target)
      ensures messageHandlers == old(messageHandlers) && connectionHandlers == old(connectionHandlers)
      ensures messageDeliveries == old(messageDeliveries) && sent == old(sent) && closedUrls == old(closedUrls)
    {
      ws := Some(ws.value.(readyState := CLOSED));
      isConnecting := false;
      NotifyConnectionHandlers(false);
      if code != NormalClosure && reconnectAttempts < ReconnectCap(config) {
        ScheduleReconnect(target.value);
      }
    }

    /**
     * `onclose` of a socket this service already replaced. Its handlers still hold the
     * arguments of the `connect` that opened it (`captured`). A socket closed while open
     * reports the normal closure it was closed with; one closed while still connecting
     * reports `AbnormalClosure`, and then a reconnect to the old arguments is scheduled
     * whenever the attempt count is under the cap.
     */
    method ReplacedSocketClosed(code: int, captured: Target)
      modifies this`isConnecting, this`connectionDeliveries, this`reconnectTimer
      ensures !isConnecting
      ensures connectionDeliveries == old(connectionDeliveries) + Deliveries(connectionHandlers, false)
      ensures code != NormalClosure && reconnectAttempts < ReconnectCap(config) ==> reconnectTimer == Pending(captured)
      ensures !(code != NormalClosure && reconnectAttempts < ReconnectCap(config)) ==> reconnectTimer == old(reconnectTimer)
      ensures old(RetryBounded()) ==> RetryBounded()
    {
      isConnecting := false;
      NotifyConnectionHandlers(false);
      if code != NormalClosure && reconnectAttempts < ReconnectCap(config) {
        ScheduleReconnect(captured);
      }
    }

    /**
     * `onerror` of a socket this service already replaced (one closed while still
     * connecting fails with an error first): the flag and the handlers. It rejects the
     * promise of the `connect` that opened that socket, not the one `settlement` follows.
     */
    method ReplacedSocketError()
      modifies this`isConnecting, this`connectionDeliveries
      ensures !isConnecting
      ensures connectionDeliveries == old(connectionDeliveries) + Deliveries(connectionHandlers, false)
    {
      isConnecting := false;
      NotifyConnectionHandlers(false);
    }

    /**
     * `disconnect()` while the socket is still connecting, then that socket's error and
     * close events: the attempt count was just reset, so the old socket's abnormal close
     * schedules a reconnect to the arguments it was opened with.
     */
    method DisconnectWhileConnecting()
      requires Valid() && ws.Some? && ws.value.readyState == CONNECTING && ReconnectCap(config) > 0
      modifies this
      ensures ws == None && reconnectAttempts == 0 && !isConnecting
      ensures reconnectTimer == Pending(old(target).value)
      ensures closedUrls == old(closedUrls) + [old(ws).value.url]
    {
      var captured := target.value;
      Disconnect();
      ReplacedSocketError();
      ReplacedSocketClosed(AbnormalClosure, captured);
    }

    /** `onerror` of the current socket: not connecting, handlers told, the promise rejected if still pending. */
    method SocketError()
      modifies this`isConnecting, this`connectionDeliveries, this`settlement
      ensures !isConnecting
      ensures connectionDeliveries == old(connectionDeliveries) + Deliveries(connectionHandlers, false)
      ensures settlement == (if old(settlement) == Unsettled then Rejected(ErrorEvent) else old(settlement))
    {
      isConnecting := false;
      NotifyConnectionHandlers(false);
      if settlement == Unsettled {
        settlement := Rejected(ErrorEvent);
      }
    }

    /** The 10-second timer of `connect`: still connecting means the promise is rejected with a timeout. */
    method ConnectTimeout()
      modifies this`isConnecting, this`settlement
      ensures !isConnecting
      ensures old(isConnecting) && old(settlement) == Unsettled ==> settlement == Rejected(ConnectionTimeout)
      ensures !(old(isConnecting) && old(settlement) == Unsettled) ==> settlement == old(settlement)
    {
      if isConnecting {
        isConnecting := false;
        if settlement == Unsettled {
          settlement := Rejected(ConnectionTimeout);
        }
      }
    }

    /** `scheduleReconnect`: any waiting reconnect is replaced by one with these arguments. */
    method ScheduleReconnect(t: Target)
      modifies this`reconnectTimer
      ensures reconnectTimer == Pending(t)
    {
      reconnectTimer := Pending(t);
    }

    /** The reconnect timer fires (as written): count the attempt, then `connect` again. */
    method ReconnectTimerFiresAsWritten(created: bool)
      requires Valid() && reconnectTimer.Pending?
      modifies this
      ensures Valid()
      ensures !old(ConnectGuard()) ==> reconnectAttempts == 0 && !isConnecting
      ensures !old(ConnectGuard()) && created ==>
        ws == Some(Socket(ConnectUrl(config.baseUrl.value, old(reconnectTimer).target), CONNECTING))
      ensures old(ConnectGuard()) ==> reconnectAttempts == old(reconnectAttempts) + 1 && reconnectTimer == Fired
    {
      var t := reconnectTimer.target;
      reconnectTimer := Fired;
      reconnectAttempts := reconnectAttempts + 1;
      var _ := ConnectAsWritten(t, created);
    }

    /** The reconnect timer fires (as intended): the attempt is counted and survives the new `connect`. */
    method ReconnectTimerFires(created: bool)
      requires Valid() && reconnectTimer.Pending?
      modifies this
      ensures Valid()
      ensures reconnectAttempts == old(reconnectAttempts) + 1
      ensures old(RetryBounded()) ==> reconnectAttempts <= ReconnectCap(config)
      ensures !old(ConnectGuard()) ==> reconnectTimer == NoTimer && isConnecting == created
      ensures !old(ConnectGuard()) && created ==>
        ws == Some(Socket(ConnectUrl(config.baseUrl.value, old(reconnectTimer).target), CONNECTING))
      ensures old(ConnectGuard()) ==> reconnectTimer == Fired
    {
      var t := reconnectTimer.target;
      reconnectTimer := Fired;
      reconnectAttempts := reconnectAttempts + 1;
      var _ := Connect(t, created);
    }

    /** `sendMessage`: written to the socket exactly when it is open and `send` does not throw (`sendThrows`). */
    method SendMessage(message: OutgoingMessage, id: string, timestamp: string, sendThrows: bool) returns (ok: bool)
      modifies this`sent
      ensures ok <==> IsConnected() && !sendThrows
      ensures ok ==> sent == old(sent) + [OutboundFrame(message, id, timestamp)]
      ensures !ok ==> sent == old(sent)
    {
      if ws.None? || ws.value.readyState != OPEN {
        return false;
      }
      if sendThrows {
        return false;
      }
      sent := sent + [OutboundFrame(message, id, timestamp)];
      return true;
    }

    /** `onMessage(handler)`. */
    method OnMessage(handler: ListenerId)
      modifies this`messageHandlers
      ensures messageHandlers == old(messageHandlers) + [handler]
    {
      messageHandlers := messageHandlers + [handler];
    }

    /** The function `onMessage` returns: the first registration of the handler is removed. */
    method UnsubscribeMessage(handler: ListenerId)
      modifies this`messageHandlers
      ensures messageHandlers == RemoveFirst(old(messageHandlers), handler)
    {
      messageHandlers := RemoveFirst(messageHandlers, handler);
    }

    /** `onConnectionChange(handler)`. */
    method OnConnectionChange(handler: ListenerId)
      modifies this`connectionHandlers
      ensures connectionHandlers == old(connectionHandlers) + [handler]
    {
      connectionHandlers := connectionHandlers + [handler];
    }

    /** The function `onConnectionChange` returns. */
    method UnsubscribeConnection(handler: ListenerId)
      modifies this`connectionHandlers
      ensures connectionHandlers == RemoveFirst(old(connectionHandlers), handler)
    {
      connectionHandlers := RemoveFirst(connectionHandlers, handler);
    }

    /** `notifyMessageHandlers`: every handler once, in registration order. */
    method NotifyMessageHandlers(message: ChatMessage)
      modifies this`messageDeliveries
      ensures messageDeliveries == old(messageDeliveries) + Deliveries(messageHandlers, message)
    {
      var i := 0;
      while i < |messageHandlers|
        invariant 0 <= i <= |messageHandlers|
        invariant messageDeliveries == old(messageDeliveries) + Deliveries(messageHandlers[..i], message)
      {
        messageDeliveries := messageDeliveries + [Delivery(messageHandlers[i], message)];
        i := i + 1;
      }
      assert messageHandlers[..i] == messageHandlers;
    }

    /** `notifyConnectionHandlers`. */
    method NotifyConnectionHandlers(connected: bool)
      modifies this`connectionDeliveries
      ensures connectionDeliveries == old(connectionDeliveries) + Deliveries(connectionHandlers, connected)
    {
      var i := 0;
      while i < |connectionHandlers|
        invariant 0 <= i <= |connectionHandlers|
        invariant connectionDeliveries == old(connectionDeliveries) + Deliveries(connectionHandlers[..i], connected)
      {
        connectionDeliveries := connectionDeliveries + [Delivery(connectionHandlers[i], connected)];
        i := i + 1;
      }
      assert connectionHandlers[..i] == connectionHandlers;
    }
  }

  // ---------------------------------------------------------------------------
  // A server that refuses every connection
  // ---------------------------------------------------------------------------

  /**
   * As written: against a server whose every connection closes abnormally, a reconnect
   * is still waiting after any number of failed reconnects, whatever the cap (here 1).
   */
  method RetriesForeverAsWritten(t: Target, failures: nat) returns (s: ChatSocketService)
    ensures s.reconnectTimer.Pending? && s.reconnectAttempts == 0
    ensures ReconnectCap(s.config) == 1
  {
    s := new ChatSocketService(Config(None, None, Some(1)));
    var _ := s.ConnectAsWritten(t, true);
    s.SocketClosed(1006);
    for i := 0 to failures
      invariant s.Valid() && s.ws.Some? && !s.isConnecting && s.ws.value.readyState == CLOSED
      invariant s.reconnectTimer.Pending? && s.reconnectAttempts == 0 && ReconnectCap(s.config) == 1
    {
      s.ReconnectTimerFiresAsWritten(true);
      s.SocketClosed(1006);
    }
  }

  /**
   * As intended: against the same server, after `cap` failed reconnects no further
   * reconnect is scheduled.
   */
  method RetriesStop(t: Target, cap: nat) returns (s: ChatSocketService)
    requires cap >= 1
    ensures !s.reconnectTimer.Pending? && s.reconnectAttempts == cap && ReconnectCap(s.config) == cap
  {
    s := new ChatSocketService(Config(None, None, Some(cap)));
    var _ := s.Connect(t, true);
    s.SocketClosed(1006);
    for i := 0 to cap
      invariant s.Valid() && s.ws.Some? && !s.isConnecting && s.ws.value.readyState == CLOSED
      invariant ReconnectCap(s.config) == cap && s.reconnectAttempts == i
      invariant i < cap ==> s.reconnectTimer.Pending?
      invariant i == cap ==> !s.reconnectTimer.Pending?
    {
      s.ReconnectTimerFires(true);
      s.SocketClosed(1006);
    }
  }
}
