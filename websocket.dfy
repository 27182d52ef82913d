/** The real-time channel (src/services/websocketClient.js): a wrapper around one socket
    that relays the server's events to locally registered handlers under local names, and
    sends the four client requests only while connected. Handlers are identified by
    number; invoking one is recorded as a `Call`. */
module Sockets {
  import opened Wrappers
  import opened Json
  import opened Interactions

  type HandlerId = nat

  /** One invocation of a registered handler. */
  datatype Call = Call(handler: HandlerId, event: string, data: Value)

  /** One message sent to the server over the socket. */
  datatype Frame = Frame(event: string, payload: Value)

  /** A socket object; `serial` tells apart the sockets `connect` created, `id` is the
      identifier the server assigns once the socket is connected. */
  datatype Socket = Socket(serial: nat, id: Option<string>)

  /** What the socket reports. */
  datatype SocketEvent =
    | Connected(id: string)
    | Disconnected(reason: string)
    | ConnectError(message: string)
    | Message(name: string, data: Value)

  datatype ConnectionStatus = ConnectionStatus(connected: bool, socketId: Option<string>)

  /** The fourteen server events relayed with their data unchanged. */
  const RelayedEvents: seq<string> := [
    "connection:success", "training:round_started", "training:round_completed",
    "training:joined", "training:left", "training:participant_joined",
    "training:participant_left", "update:accepted", "update:rejected",
    "model:new_version", "model:ready", "notification", "system:message", "error"]

  /** The local name a relayed server event is re-emitted under. */
  function Relayed(name: string): Option<string> {
    if name == "connection:success" then Some("connection_success")
    else if name == "training:round_started" then Some("training_round_started")
    else if name == "training:round_completed" then Some("training_round_completed")
    else if name == "training:joined" then Some("training_joined")
    else if name == "training:left" then Some("training_left")
    else if name == "training:participant_joined" then Some("participant_joined")
    else if name == "training:participant_left" then Some("participant_left")
    else if name == "update:accepted" then Some("update_accepted")
    else if name == "update:rejected" then Some("update_rejected")
    else if name == "model:new_version" then Some("new_model_version")
    else if name == "model:ready" then Some("model_ready")
    else if name == "notification" then Some("notification")
    else if name == "system:message" then Some("system_message")
    else if name == "error" then Some("socket_error")
    else None
  }

  /** Exactly the listed server events are relayed. */
  lemma RelayedOnlyListed(name: string)
    ensures Relayed(name).Some? <==> name in RelayedEvents
  {
  }

  /** No relayed event takes the name of a connection event. */
  lemma RelayedAvoidsConnectionEvents(name: string)
    ensures Relayed(name) != Some("connection_status") && Relayed(name) != Some("connection_error")
  {
  }

  /** The server event a local name is relayed from. */
  function RelayedFrom(local: string): Option<string> {
    if local == "connection_success" then Some("connection:success")
    else if local == "training_round_started" then Some("training:round_started")
    else if local == "training_round_completed" then Some("training:round_completed")
    else if local == "training_joined" then Some("training:joined")
    else if local == "training_left" then Some("training:left")
    else if local == "participant_joined" then Some("training:participant_joined")
    else if local == "participant_left" then Some("training:participant_left")
    else if local == "update_accepted" then Some("update:accepted")
    else if local == "update_rejected" then Some("update:rejected")
    else if local == "new_model_version" then Some("model:new_version")
    else if local == "model_ready" then Some("model:ready")
    else if local == "notification" then Some("notification")
    else if local == "system_message" then Some("system:message")
    else if local == "socket_error" then Some("error")
    else None
  }

  /** The round trip for the first five relayed events. */
  lemma RoundTripConnectionAndTraining(name: string)
    requires name in RelayedEvents[..5]
    ensures RelayedFrom(Relayed(name).value) == Some(name)
  {
  }

  /** The round trip for the participant and update events. */
  lemma RoundTripParticipantsAndUpdates(name: string)
    requires name in RelayedEvents[5..9]
    ensures RelayedFrom(Relayed(name).value) == Some(name)
  {
  }

  /** The round trip for the model, notification and error events. */
  lemma RoundTripModelAndMessages(name: string)
    requires name in RelayedEvents[9..]
    ensures RelayedFrom(Relayed(name).value) == Some(name)
  {
  }

  /** The local name determines the server event it came from. */
  lemma RelayedRoundTrip(name: string)
    requires Relayed(name).Some?
    ensures RelayedFrom(Relayed(name).value) == Some(name)
  {
    RelayedOnlyListed(name);
    assert RelayedEvents == RelayedEvents[..5] + RelayedEvents[5..9] + RelayedEvents[9..];
    if name in RelayedEvents[..5] {
      RoundTripConnectionAndTraining(name);
    } else if name in RelayedEvents[5..9] {
      RoundTripParticipantsAndUpdates(name);
    } else {
      RoundTripModelAndMessages(name);
    }
  }

  /** No two server events share a local name. */
  lemma {:induction false} RelayedInjective(a: string, b: string)
    requires Relayed(a).Some? && Relayed(a) == Relayed(b)
    ensures a == b
  {
    RelayedRoundTrip(a);
    RelayedRoundTrip(b);
  }

  /** The local event a socket event is re-emitted under, if any. */
  function LocalEvent(e: SocketEvent): Option<string> {
    match e
    case Connected(_) => Some("connection_status")
    case Disconnected(_) => Some("connection_status")
    case ConnectError(_) => Some("connection_error")
    case Message(name, _) => Relayed(name)
  }

  /** The data handed to the local handlers. */
  function Payload(e: SocketEvent): Value {
    match e
    case Connected(_) => Obj(map["connected" := Flag(true)])
    case Disconnected(reason) => Obj(map["connected" := Flag(false), "reason" := Str(reason)])
    case ConnectError(message) => Obj(map["error" := Str(message)])
    case Message(_, data) => data
  }

  /** Each handler in `handlers` invoked once with `data`, in order. */
  function Deliveries(handlers: seq<HandlerId>, event: string, data: Value): (calls: seq<Call>)
    ensures |calls| == |handlers|
    decreases |handlers|
  {
    if handlers == [] then []
    else Deliveries(handlers[..|handlers| - 1], event, data) + [Call(handlers[|handlers| - 1], event, data)]
  }

  lemma {:induction false} DeliveriesInOrder(handlers: seq<HandlerId>, event: string, data: Value)
    ensures forall i :: 0 <= i < |handlers| ==>
      Deliveries(handlers, event, data)[i] == Call(handlers[i], event, data)
    decreases |handlers|
  {
    if handlers != [] {
      DeliveriesInOrder(handlers[..|handlers| - 1], event, data);
    }
  }

  /** `handlers.indexOf(h)`. */
  function IndexOfHandler(handlers: seq<HandlerId>, h: HandlerId): (r: Option<nat>)
    ensures r.None? <==> h !in handlers
    ensures r.Some? ==> r.value < |handlers| && handlers[r.value] == h && h !in handlers[..r.value]
  {
    if handlers == [] then None
    else if handlers[0] == h then Some(0)
    else match IndexOfHandler(handlers[1..], h)
      case None => None
      case Some(i) =>
        assert handlers[..i + 1] == [handlers[0]] + handlers[1..][..i];
        Some(i + 1)
  }

  /** `handlers.splice(handlers.indexOf(h), 1)` when `h` is registered. */
  function WithoutFirst(handlers: seq<HandlerId>, h: HandlerId): seq<HandlerId> {
    match IndexOfHandler(handlers, h)
    case None => handlers
    case Some(i) => handlers[..i] + handlers[i + 1..]
  }

  /** Unregistering removes exactly one registration of the handler, when there is one. */
  lemma WithoutFirstRemovesOne(handlers: seq<HandlerId>, h: HandlerId)
    ensures h in handlers ==> multiset(WithoutFirst(handlers, h)) == multiset(handlers) - multiset{h}
    ensures h !in handlers ==> WithoutFirst(handlers, h) == handlers
  {
    if h in handlers {
      var i := IndexOfHandler(handlers, h).value;
      assert handlers == handlers[..i] + [h] + handlers[i + 1..];
    }
  }

  /** Unregistering a handler just registered for the first time restores the list. */
  lemma {:induction false} OffUndoesOn(handlers: seq<HandlerId>, h: HandlerId)
    requires h !in handlers
    ensures WithoutFirst(handlers + [h], h) == handlers
  {
    assert (handlers + [h])[..|handlers|] == handlers;
  }

  /** The handlers a registry holds for `event`, in registration order. */
  function Registered(handlers: map<string, seq<HandlerId>>, event: string): seq<HandlerId> {
    if event in handlers then handlers[event] else []
  }

  /** The registry after `on(event, h)`: `h` appended to the event's list. */
  function Register(handlers: map<string, seq<HandlerId>>, event: string, h: HandlerId): (r: map<string, seq<HandlerId>>)
    ensures Registered(r, event) == Registered(handlers, event) + [h]
    ensures forall e :: e != event ==> Registered(r, e) == Registered(handlers, e)
  {
    handlers[event := Registered(handlers, event) + [h]]
  }

  /** The registry after registering each `(event, handler)` pair in turn. */
  function RegisterAll(handlers: map<string, seq<HandlerId>>, subs: seq<(string, HandlerId)>): map<string, seq<HandlerId>>
    decreases |subs|
  {
    if subs == [] then handlers
    else
      var n := |subs| - 1;
      Register(RegisterAll(handlers, subs[..n]), subs[n].0, subs[n].1)
  }

  lemma RegisterAllStep(handlers: map<string, seq<HandlerId>>, subs: seq<(string, HandlerId)>, k: nat)
    requires k < |subs|
    ensures RegisterAll(handlers, subs[..k + 1]) == Register(RegisterAll(handlers, subs[..k]), subs[k].0, subs[k].1)
  {
    assert subs[..k + 1][..k] == subs[..k];
  }

  predicate DistinctEvents(subs: seq<(string, HandlerId)>) {
    forall i, j :: 0 <= i < j < |subs| ==> subs[i].0 != subs[j].0
  }

  /** Registering pairs with distinct events appends each handler to its own event's list
      and leaves every other event's list as it was. */
  lemma {:induction false} RegisterAllAppendsEach(handlers: map<string, seq<HandlerId>>, subs: seq<(string, HandlerId)>)
    requires DistinctEvents(subs)
    ensures forall i :: 0 <= i < |subs| ==>
      Registered(RegisterAll(handlers, subs), subs[i].0) == Registered(handlers, subs[i].0) + [subs[i].1]
    ensures forall e :: (forall i :: 0 <= i < |subs| ==> subs[i].0 != e) ==>
      Registered(RegisterAll(handlers, subs), e) == Registered(handlers, e)
    decreases |subs|
  {
    if subs != [] {
      var n := |subs| - 1;
      var init := subs[..n];
      assert DistinctEvents(init) by {
        forall i, j | 0 <= i < j < |init| ensures init[i].0 != init[j].0 {
          assert init[i] == subs[i] && init[j] == subs[j];
        }
      }
      RegisterAllAppendsEach(handlers, init);
      forall i | 0 <= i < n ensures subs[i].0 != subs[n].0 && init[i] == subs[i] {
      }
    }
  }

  class WebSocketClient {
    var socket: Option<Socket>
    var isConnected: bool
    var eventHandlers: map<string, seq<HandlerId>>
    /** The frames sent over the sockets so far. */
    var sent: seq<Frame>
    /** How many sockets `connect` has opened. */
    var socketsOpened: nat

    ghost predicate Valid()
      reads this
    {
      isConnected ==> socket.Some?
    }

    /** The handlers registered for `event`, in registration order. */
    function HandlersFor(event: string): seq<HandlerId>
      reads this
    {
      Registered(eventHandlers, event)
    }

    constructor ()
      ensures Valid()
      ensures socket.None? && !isConnected && eventHandlers == map[] && sent == [] && socketsOpened == 0
    {
      socket := None;
      isConnected := false;
      eventHandlers := map[];
      sent := [];
      socketsOpened := 0;
    }

    /** `connect`: refuse without a token, keep a connected socket, otherwise open a new
        one (which reports `Connected` later). */
    method Connect(token: Option<string>) returns (ok: bool)
      requires Valid()
      modifies this
      ensures Valid()
      ensures ok == Present(token)
      ensures if ok && !(old(socket).Some? && old(isConnected)) then
                socket == Some(Socket(old(socketsOpened), None)) && socketsOpened == old(socketsOpened) + 1
              else socket == old(socket) && socketsOpened == old(socketsOpened)
      ensures isConnected == old(isConnected) && eventHandlers == old(eventHandlers) && sent == old(sent)
    {
      if !Present(token) {
        return false;
      }
      if socket.Some? && isConnected {
        return true;
      }
      socket := Some(Socket(socketsOpened, None));
      socketsOpened := socketsOpened + 1;
      return true;
    }

    /** `disconnect`: drop the socket; the handlers stay registered. */
    method Disconnect()
      requires Valid()
      modifies this
      ensures Valid()
      ensures socket.None?
      ensures isConnected == (old(isConnected) && old(socket).None?)
      ensures eventHandlers == old(eventHandlers) && sent == old(sent) && socketsOpened == old(socketsOpened)
    {
      if socket.Some? {
        socket := None;
        isConnected := false;
      }
    }

    /** `on`: append a handler to the event's list, creating the list if needed. */
    method On(event: string, handler: HandlerId)
      modifies this
      ensures eventHandlers == Register(old(eventHandlers), event, handler)
      ensures socket == old(socket) && isConnected == old(isConnected)
      ensures sent == old(sent) && socketsOpened == old(socketsOpened)
    {
      eventHandlers := eventHandlers[event := Registered(eventHandlers, event) + [handler]];
    }

    /** `off`: remove the first registration of the handler; nothing for an unknown event. */
    method Off(event: string, handler: HandlerId)
      modifies this
      ensures event in old(eventHandlers) ==>
        eventHandlers == old(eventHandlers)[event := WithoutFirst(old(eventHandlers)[event], handler)]
      ensures event !in old(eventHandlers) ==> eventHandlers == old(eventHandlers)
      ensures socket == old(socket) && isConnected == old(isConnected)
      ensures sent == old(sent) && socketsOpened == old(socketsOpened)
    {
      if event !in eventHandlers {
        return;
      }
      var handlers := eventHandlers[event];
      var index := IndexOfHandler(handlers, handler);
      if index.Some? {
        eventHandlers := eventHandlers[event := handlers[..index.value] + handlers[index.value + 1..]];
      } else {
        assert eventHandlers[event := handlers] == eventHandlers;
      }
    }

    /** `emit`: call every handler registered for the event, in order; a handler that
        throws does not stop the others. */
    method Emit(event: string, data: Value) returns (calls: seq<Call>)
      ensures calls == Deliveries(HandlersFor(event), event, data)
      ensures |calls| == |HandlersFor(event)|
    {
      calls := [];
      if event !in eventHandlers {
        return;
      }
      var handlers := eventHandlers[event];
      var i := 0;
      while i < |handlers|
        invariant 0 <= i <= |handlers|
        invariant calls == Deliveries(handlers[..i], event, data)
      {
        assert handlers[..i + 1][..i] == handlers[..i];
        calls := calls + [Call(handlers[i], event, data)];
        i := i + 1;
      }
      assert handlers[..i] == handlers;
    }

    /** The listeners `setupEventListeners` installs on the current socket: track the
        connection flag and re-emit each event under its local name. */
    method Deliver(e: SocketEvent) returns (calls: seq<Call>)
      requires Valid() && socket.Some?
      modifies this
      ensures Valid()
      ensures isConnected == match e
        case Connected(_) => true
        case Disconnected(_) => false
        case _ => old(isConnected)
      ensures socket == match e
        case Connected(id) => Some(old(socket).value.(id := Some(id)))
        case Disconnected(_) => Some(old(socket).value.(id := None))
        case _ => old(socket)
      ensures calls == match LocalEvent(e)
        case None => []
        case Some(local) => Deliveries(HandlersFor(local), local, Payload(e))
      ensures eventHandlers == old(eventHandlers) && sent == old(sent) && socketsOpened == old(socketsOpened)
    {
      match e {
        case Connected(id) =>
          socket := Some(socket.value.(id := Some(id)));
          isConnected := true;
        case Disconnected(_) =>
          socket := Some(socket.value.(id := None));
          isConnected := false;
        case _ =>
      }
      match LocalEvent(e) {
        case None => calls := [];
        case Some(local) => calls := Emit(local, Payload(e));
      }
    }

    /** Send one frame when connected; report whether it was sent. */
    method Send(event: string, payload: Value) returns (ok: bool)
      requires Valid()
      modifies this
      ensures ok == old(isConnected)
      ensures sent == old(sent) + (if ok then [Frame(event, payload)] else [])
      ensures socket == old(socket) && isConnected == old(isConnected)
      ensures eventHandlers == old(eventHandlers) && socketsOpened == old(socketsOpened)
    {
      if !isConnected {
        return false;
      }
      sent := sent + [Frame(event, payload)];
      return true;
    }

    /** `joinTraining`. */
    method JoinTraining(modelId: string) returns (ok: bool)
      requires Valid()
      modifies this
      ensures ok == old(isConnected)
      ensures sent == old(sent) + (if ok then [Frame("training:join", Obj(map["modelId" := Str(modelId)]))] else [])
      ensures socket == old(socket) && isConnected == old(isConnected)
      ensures eventHandlers == old(eventHandlers) && socketsOpened == old(socketsOpened)
    {
      ok := Send("training:join", Obj(map["modelId" := Str(modelId)]));
    }

    /** `leaveTraining`. */
    method LeaveTraining(modelId: string) returns (ok: bool)
      requires Valid()
      modifies this
      ensures ok == old(isConnected)
      ensures sent == old(sent) + (if ok then [Frame("training:leave", Obj(map["modelId" := Str(modelId)]))] else [])
      ensures socket == old(socket) && isConnected == old(isConnected)
      ensures eventHandlers == old(eventHandlers) && socketsOpened == old(socketsOpened)
    {
      ok := Send("training:leave", Obj(map["modelId" := Str(modelId)]));
    }

    /** `sendTrainingProgress`. */
    method SendTrainingProgress(modelId: Value, progress: Value, status: Value) returns (ok: bool)
      requires Valid()
      modifies this
      ensures ok == old(isConnected)
      ensures sent == old(sent) + (if ok then [Frame("training:progress",
        Obj(map["modelId" := modelId, "progress" := progress, "status" := status]))] else [])
      ensures socket == old(socket) && isConnected == old(isConnected)
      ensures eventHandlers == old(eventHandlers) && socketsOpened == old(socketsOpened)
    {
      ok := Send("training:progress", Obj(map["modelId" := modelId, "progress" := progress, "status" := status]));
    }

    /** `requestModel`. */
    method RequestModel(modelId: string) returns (ok: bool)
      requires Valid()
      modifies this
      ensures ok == old(isConnected)
      ensures sent == old(sent) + (if ok then [Frame("model:request", Obj(map["modelId" := Str(modelId)]))] else [])
      ensures socket == old(socket) && isConnected == old(isConnected)
      ensures eventHandlers == old(eventHandlers) && socketsOpened == old(socketsOpened)
    {
      ok := Send("model:request", Obj(map["modelId" := Str(modelId)]));
    }

    /** `getConnectionStatus`: the flag, and the socket's id when there is a non-empty one. */
    function GetConnectionStatus(): (s: ConnectionStatus)
      reads this
      ensures s.connected == isConnected
      ensures s.socketId.Some? <==> socket.Some? && Present(socket.value.id)
      ensures s.socketId.Some? ==> s.socketId == socket.value.id
    {
      ConnectionStatus(isConnected, if socket.Some? && Present(socket.value.id) then socket.value.id else None)
    }
  }

  /** A handler registered for a relayed server event receives that event's data. */
  method RegisteredHandlerHearsEvent(client: WebSocketClient, name: string, data: Value, handler: HandlerId)
    returns (calls: seq<Call>)
    requires client.Valid() && client.socket.Some? && Relayed(name).Some?
    modifies client
    ensures Call(handler, Relayed(name).value, data) in calls
  {
    client.On(Relayed(name).value, handler);
    calls := client.Deliver(Message(name, data));
    DeliveriesInOrder(client.HandlersFor(Relayed(name).value), Relayed(name).value, data);
    assert calls[|calls| - 1] == Call(handler, Relayed(name).value, data);
  }
}
