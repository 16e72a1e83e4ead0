/**
 * The shared connection wrapper (src/services/websocket.ts).
 *
 * The `OpenIMWebSocket` library object is abstracted: each socket the service
 * creates is a value with a serial number, and every call the service makes on
 * a socket (`connect`, `send`, `subscribe`, `unsubscribe`, `disconnect`) is
 * appended to the log `calls`. Registered handlers are abstract identifiers;
 * running a handler is recorded as an `Invocation` in the log `delivered`.
 */
module WebSocket {
  import opened Wrappers
  import opened DeepClone

  /** The options `connect` passes to the library and nothing else reads. */
  const ReconnectInterval: nat := 3000
  const MaxReconnectAttempts: nat := 5

  /** A registered callback, identified by its registration. */
  type HandlerId = nat

  /** The wire envelope `WebSocketMessage`, with the `service` and `client_time` that `sendService` adds. */
  datatype Message = Message(
    kind: string,
    topic: Option<string>,
    service: Option<string>,
    message: Option<string>,
    data: Option<map<string, Json>>,
    clientTime: Option<int>)

  /** One `OpenIMWebSocket` created by `connect`, with the options it was given. */
  datatype Socket = Socket(serial: nat, url: string, headers: map<string, string>,
                           reconnectInterval: nat, maxReconnectAttempts: nat)

  /** A call made on the socket with the given serial. */
  datatype LibraryCall =
    | Handshake(socket: nat)
    | Sent(socket: nat, msg: Message)
    | Subscribed(socket: nat, topic: string)
    | Unsubscribed(socket: nat, topic: string)
    | Closed(socket: nat)

  /** The events the library emits to the callbacks that `connect` registers. */
  datatype SocketEvent =
    | OpenEvent
    | MessageEvent(data: Message)
    | ServiceResponseEvent(data: Message)
    | ConnectedEvent(data: Message)
    | ConnectErrorEvent
    | ForceOfflineEvent
    | ErrorEvent
    | CloseEvent

  /** One run of a handler on an event payload. */
  datatype Invocation = Invocation(handler: HandlerId, data: Message)

  /** The `forEach` over a handler list: one invocation per registration, in registration order. */
  function FanOut(handlers: seq<HandlerId>, data: Message): seq<Invocation>
    decreases |handlers|
  {
    if handlers == [] then []
    else FanOut(handlers[..|handlers| - 1], data) + [Invocation(handlers[|handlers| - 1], data)]
  }

  /** Every registered handler is invoked once, in registration order, on the same payload. */
  lemma {:induction false} FanOutInOrder(handlers: seq<HandlerId>, data: Message)
    ensures |FanOut(handlers, data)| == |handlers|
    ensures forall i :: 0 <= i < |handlers| ==> FanOut(handlers, data)[i] == Invocation(handlers[i], data)
    decreases |handlers|
  {
    if handlers != [] {
      FanOutInOrder(handlers[..|handlers| - 1], data);
    }
  }

  /** The envelope `sendService(api, data)` transmits. */
  function ServiceEnvelope(api: string, data: map<string, Json>, clientTime: int): Message {
    Message("service", None, Some(api), None, Some(data), Some(clientTime))
  }

  class WebSocketService {
    /** The current socket, or null. */
    var ws: Option<Socket>
    var messageHandlers: seq<HandlerId>
    var openHandlers: seq<HandlerId>
    /** How many sockets `connect` has created; the next serial. */
    var created: nat
    /** Every `connect`, `send`, `subscribe`, `unsubscribe` and `disconnect` call made on a socket, oldest first. */
    var calls: seq<LibraryCall>
    /** Every handler run, oldest first. */
    var delivered: seq<Invocation>

    /**
     * The current socket is the newest one and has not been disconnected;
     * every call went to a socket that exists, and no call follows a
     * socket's `disconnect`.
     */
    ghost predicate Valid()
      reads this
    {
      && (ws.Some? ==> ws.value.serial + 1 == created && Closed(ws.value.serial) !in calls)
      && (forall i :: 0 <= i < |calls| ==> calls[i].socket < created)
      && (forall i, j :: 0 <= i < j < |calls| && calls[i].Closed? ==> calls[j].socket != calls[i].socket)
    }

    /** The private constructor: no socket, no handlers. */
    constructor ()
      ensures Valid()
      ensures ws == None && messageHandlers == [] && openHandlers == []
      ensures created == 0 && calls == [] && delivered == []
    {
      ws := None;
      messageHandlers := [];
      openHandlers := [];
      created := 0;
      calls := [];
      delivered := [];
    }

    /**
     * `connect(url, headers)`: a new socket is stored in `ws` before the
     * handshake is awaited; `handshakeSucceeds` is the handshake's outcome.
     * On failure the error is rethrown (`ok` is false) and `ws` is kept.
     */
    method Connect(url: string, headers: map<string, string>, handshakeSucceeds: bool) returns (ok: bool)
      requires Valid()
      modifies this`ws, this`created, this`calls
      ensures Valid()
      ensures ws == Some(Socket(old(created), url, headers, ReconnectInterval, MaxReconnectAttempts))
      ensures created == old(created) + 1
      ensures calls == old(calls) + [Handshake(old(created))]
      ensures ok == handshakeSucceeds
      ensures messageHandlers == old(messageHandlers) && openHandlers == old(openHandlers)
    {
      ws := Some(Socket(created, url, headers, ReconnectInterval, MaxReconnectAttempts));
      created := created + 1;
      calls := calls + [Handshake(ws.value.serial)];
      ok := handshakeSucceeds;
    }

    /** `subscribe(topic)`: passed to the socket when there is one, otherwise nothing happens. */
    method Subscribe(topic: string)
      requires Valid()
      modifies this`calls
      ensures Valid()
      ensures ws.Some? ==> calls == old(calls) + [Subscribed(ws.value.serial, topic)]
      ensures ws.None? ==> calls == old(calls)
      ensures ws == old(ws) && messageHandlers == old(messageHandlers) && openHandlers == old(openHandlers)
    {
      if ws.Some? {
        calls := calls + [Subscribed(ws.value.serial, topic)];
      }
    }

    /** `unsubscribe(topic)`: passed to the socket when there is one, otherwise nothing happens. */
    method Unsubscribe(topic: string)
      requires Valid()
      modifies this`calls
      ensures Valid()
      ensures ws.Some? ==> calls == old(calls) + [Unsubscribed(ws.value.serial, topic)]
      ensures ws.None? ==> calls == old(calls)
      ensures ws == old(ws) && messageHandlers == old(messageHandlers) && openHandlers == old(openHandlers)
    {
      if ws.Some? {
        calls := calls + [Unsubscribed(ws.value.serial, topic)];
      }
    }

    /** `send(data)`: transmitted as given when there is a socket; otherwise only an error is logged. */
    method Send(data: Message)
      requires Valid()
      modifies this`calls
      ensures Valid()
      ensures ws.Some? ==> calls == old(calls) + [Sent(ws.value.serial, data)]
      ensures ws.None? ==> calls == old(calls)
      ensures ws == old(ws) && messageHandlers == old(messageHandlers) && openHandlers == old(openHandlers)
    {
      if ws.Some? {
        calls := calls + [Sent(ws.value.serial, data)];
      }
    }

    /**
     * `sendService(api, data)`: exactly one service envelope stamped with
     * `now` (the clock reading `dayjs().valueOf()`) when there is a socket.
     */
    method SendService(api: string, data: map<string, Json>, now: int)
      requires Valid()
      modifies this`calls
      ensures Valid()
      ensures ws.Some? ==> calls == old(calls) + [Sent(ws.value.serial, ServiceEnvelope(api, data, now))]
      ensures ws.None? ==> calls == old(calls)
      ensures ws == old(ws) && messageHandlers == old(messageHandlers) && openHandlers == old(openHandlers)
    {
      if ws.Some? {
        calls := calls + [Sent(ws.value.serial, ServiceEnvelope(api, data, now))];
      }
    }

    /** `open(handler)`: appended to the open handlers; nothing else changes. */
    method Open(handler: HandlerId)
      requires Valid()
      modifies this`openHandlers
      ensures Valid()
      ensures openHandlers == old(openHandlers) + [handler]
      ensures messageHandlers == old(messageHandlers) && ws == old(ws) && calls == old(calls)
    {
      openHandlers := openHandlers + [handler];
    }

    /** `onMessage(handler)`: appended to the message handlers; nothing else changes. */
    method OnMessage(handler: HandlerId)
      requires Valid()
      modifies this`messageHandlers
      ensures Valid()
      ensures messageHandlers == old(messageHandlers) + [handler]
      ensures openHandlers == old(openHandlers) && ws == old(ws) && calls == old(calls)
    {
      messageHandlers := messageHandlers + [handler];
    }

    /** `disconnect()`: closes and forgets the socket; without one it does nothing. */
    method Disconnect()
      requires Valid()
      modifies this`ws, this`calls
      ensures Valid()
      ensures ws.None?
      ensures old(ws).Some? ==> calls == old(calls) + [Closed(old(ws).value.serial)]
      ensures old(ws).None? ==> calls == old(calls)
      ensures messageHandlers == old(messageHandlers) && openHandlers == old(openHandlers)
    {
      if ws.Some? {
        calls := calls + [Closed(ws.value.serial)];
        ws := None;
      }
    }

    /** The `forEach` over a handler list. */
    method Notify(handlers: seq<HandlerId>, data: Message)
      requires Valid()
      modifies this`delivered
      ensures Valid()
      ensures delivered == old(delivered) + FanOut(handlers, data)
    {
      var i := 0;
      while i < |handlers|
        invariant 0 <= i <= |handlers|
        invariant delivered == old(delivered) + FanOut(handlers[..i], data)
      {
        assert handlers[..i + 1][..i] == handlers[..i];
        delivered := delivered + [Invocation(handlers[i], data)];
        i := i + 1;
      }
      assert handlers[..i] == handlers;
    }

    /**
     * The callbacks `connect` registers on the socket: `message` and
     * `service_response` go to every message handler, `connected` to every
     * open handler, in registration order; the other events only log or
     * show a status popup. They exist only once `connect` has created a
     * socket.
     */
    method HandleEvent(e: SocketEvent)
      requires Valid()
      requires created >= 1
      modifies this`delivered
      ensures Valid()
      ensures e.MessageEvent? || e.ServiceResponseEvent? ==> delivered == old(delivered) + FanOut(messageHandlers, e.data)
      ensures e.ConnectedEvent? ==> delivered == old(delivered) + FanOut(openHandlers, e.data)
      ensures !(e.MessageEvent? || e.ServiceResponseEvent? || e.ConnectedEvent?) ==> delivered == old(delivered)
      ensures ws == old(ws) && calls == old(calls)
      ensures messageHandlers == old(messageHandlers) && openHandlers == old(openHandlers)
    {
      match e
      case MessageEvent(data) => Notify(messageHandlers, data);
      case ServiceResponseEvent(data) => Notify(messageHandlers, data);
      case ConnectedEvent(data) => Notify(openHandlers, data);
      case _ =>
    }
  }

  /** The holder of the static `instance` field behind `getInstance`. */
  class ServiceSingleton {
    var instance: WebSocketService?

    /** The held service, once created, keeps its own invariant. */
    ghost predicate Valid()
      reads this, instance
    {
      instance != null ==> instance.Valid()
    }

    constructor ()
      ensures Valid()
      ensures instance == null
    {
      instance := null;
    }

    /** `getInstance()`: created on the first call, the same object on every later call. */
    method GetInstance() returns (s: WebSocketService)
      requires Valid()
      modifies this
      ensures Valid() && s.Valid()
      ensures old(instance) != null ==> s == old(instance)
      ensures old(instance) == null ==>
        (fresh(s) && s.Valid() && s.ws == None
         && s.messageHandlers == [] && s.openHandlers == [] && s.calls == [] && s.delivered == [])
      ensures instance == s
    {
      if instance == null {
        instance := new WebSocketService();
      }
      s := instance;
    }
  }

  /**
   * A failed handshake leaves the socket in place, so later sends, service
   * calls and subscriptions all reach it; after `disconnect` none do.
   */
  method FailedConnectStillSends(m: Message) {
    var service := new WebSocketService();
    var ok := service.Connect("ws://service", map[], false);
    assert !ok && service.ws.Some?;
    service.Send(m);
    assert service.calls == [Handshake(0), Sent(0, m)];
    service.SendService("Chats/getChatsList", map[], 1700000000000);
    service.Subscribe("chats");
    service.Unsubscribe("chats");
    assert service.calls == [Handshake(0), Sent(0, m),
      Sent(0, ServiceEnvelope("Chats/getChatsList", map[], 1700000000000)),
      Subscribed(0, "chats"), Unsubscribed(0, "chats")];
    service.Disconnect();
    service.Send(m);
    service.SendService("Chats/getChatsList", map[], 1700000000001);
    service.Subscribe("chats");
    assert service.calls == [Handshake(0), Sent(0, m),
      Sent(0, ServiceEnvelope("Chats/getChatsList", map[], 1700000000000)),
      Subscribed(0, "chats"), Unsubscribed(0, "chats"), Closed(0)];
  }

  /** Handlers registered before and after `connect` all receive an event, in registration order. */
  method DispatchOrder(m: Message) {
    var service := new WebSocketService();
    service.OnMessage(7);
    var ok := service.Connect("ws://service", map[], true);
    service.OnMessage(3);
    service.Open(5);
    service.HandleEvent(ServiceResponseEvent(m));
    FanOutInOrder([7, 3], m);
    assert service.delivered == [Invocation(7, m), Invocation(3, m)];
  }
}
