/** The session façade every page reads (src/contexts/FederatedLearningContext.jsx): capped
    newest-first notification and training-history lists, the training progress state
    machine, session ids, and the forwarding of interactions to the federated learning
    client. */
module SessionContext {
  import opened Wrappers
  import opened Json
  import opened Lists
  import opened Interactions
  import opened Features
  import opened TrainingBuffer
  import opened FederatedClient
  import opened Sockets

  const MaxNotifications := 20
  const MaxHistory := 50

  /** The own properties a spread `...v` copies: an object's fields, nothing for the other
      scalars. */
  function FieldsOf(v: Value): Fields {
    if v.Obj? then v.fields else map[]
  }

  /** `{id: now, timestamp: now, ...notification}`. */
  function Stamped(notification: Fields, now: int): (entry: Fields)
    ensures entry.Keys == {"id", "timestamp"} + notification.Keys
    ensures "id" !in notification ==> entry["id"] == Num(now as real)
  {
    Spread(map["id" := Num(now as real), "timestamp" := Num(now as real)], notification)
  }

  /** `addNotification`: the stamped entry first, then the previous entries, at most 20. */
  function AddNotification(prev: seq<Fields>, notification: Fields, now: int): (r: seq<Fields>)
    ensures |r| == Min(|prev| + 1, MaxNotifications)
    ensures r[0] == Stamped(notification, now)
    ensures r[1..] == Take(prev, MaxNotifications - 1)
  {
    Take([Stamped(notification, now)] + prev, MaxNotifications)
  }

  /** The history entry `{timestamp: now, status, ...data}`: a `status` in the payload wins
      over the tag. */
  function HistoryEntry(status: string, data: Value, now: int): (entry: Fields)
    ensures "status" in entry && "timestamp" in entry
    ensures entry["status"] == if "status" in FieldsOf(data) then FieldsOf(data)["status"] else Str(status)
    ensures forall k :: k in FieldsOf(data) ==> k in entry && entry[k] == FieldsOf(data)[k]
  {
    Spread(map["timestamp" := Num(now as real), "status" := Str(status)], FieldsOf(data))
  }

  /** The history update of the accepted and rejected handlers: newest first, at most 50. */
  function AddHistory(prev: seq<Fields>, status: string, data: Value, now: int): (r: seq<Fields>)
    ensures |r| == Min(|prev| + 1, MaxHistory)
    ensures r[0] == HistoryEntry(status, data, now)
    ensures r[1..] == Take(prev, MaxHistory - 1)
  {
    Take([HistoryEntry(status, data, now)] + prev, MaxHistory)
  }

  /** Adding entries one after another never lets the list grow past its cap, and the
      newest entry is always first. */
  lemma {:induction false} NotificationsStayCapped(prev: seq<Fields>, incoming: seq<Fields>, now: int)
    requires |prev| <= MaxNotifications
    ensures |AddAllNotifications(prev, incoming, now)| <= MaxNotifications
    ensures incoming != [] ==>
      AddAllNotifications(prev, incoming, now)[0] == Stamped(incoming[|incoming| - 1], now)
    decreases |incoming|
  {
    if incoming != [] {
      NotificationsStayCapped(prev, incoming[..|incoming| - 1], now);
    }
  }

  function AddAllNotifications(prev: seq<Fields>, incoming: seq<Fields>, now: int): seq<Fields>
    decreases |incoming|
  {
    if incoming == [] then prev
    else AddNotification(AddAllNotifications(prev, incoming[..|incoming| - 1], now), incoming[|incoming| - 1], now)
  }

  /** A notification's `id` is not `id` (`n.id !== id`). */
  predicate KeptBy(id: Value, n: Fields) {
    !("id" in n && n["id"] == id)
  }

  /** `dismissNotification`. */
  function Dismiss(notifications: seq<Fields>, id: Value): seq<Fields> {
    Filter(notifications, (n: Fields) => KeptBy(id, n))
  }

  /** Dismissing removes exactly the entries carrying that id and keeps the others in
      order. */
  lemma DismissRemovesExactly(notifications: seq<Fields>, id: Value)
    ensures forall n :: n in Dismiss(notifications, id) <==> n in notifications && KeptBy(id, n)
    ensures IsSubsequence(Dismiss(notifications, id), notifications)
    ensures |Dismiss(notifications, id)| <= |notifications|
  {
    FilterMembers(notifications, (n: Fields) => KeptBy(id, n));
    FilterIsSubsequence(notifications, (n: Fields) => KeptBy(id, n));
  }

  /** Notifications the context raises itself. */
  function Notice(kind: string, title: string, message: Value): Fields {
    map["type" := Str(kind), "title" := Str(title), "message" := message]
  }

  /** A notice about a server event, carrying its payload. */
  function EventNotice(kind: string, title: string, message: Value, data: Value): Fields {
    Notice(kind, title, message)["data" := data]
  }

  const TrainingSucceededNotice: Fields :=
    Notice("success", "Training Completed", Str("Your model update has been submitted successfully!"))
  const DataClearedNotice: Fields :=
    Notice("info", "Data Cleared", Str("Local training data has been cleared"))

  /** `result.error || 'Failed to complete training'`. */
  function FailureMessage(error: string): string {
    if error != "" then error else "Failed to complete training"
  }

  /** `data.reason || 'Your model update did not meet quality standards'`. */
  function RejectionMessage(data: Value): (m: Value)
    ensures Truthy(m)
  {
    if "reason" in FieldsOf(data) && Truthy(FieldsOf(data)["reason"]) then FieldsOf(data)["reason"]
    else Str("Your model update did not meet quality standards")
  }

  /** The warning about a rejected update: the server's reason, or the default text. */
  function RejectionNotice(data: Value): Fields {
    EventNotice("warning", "Update Rejected", RejectionMessage(data), data)
  }

  /** `{status, progress}` for the fixed progress states. */
  function ProgressState(status: string, percent: real): Fields {
    map["status" := Str(status), "progress" := Num(percent)]
  }

  /** The progress reported after an epoch: the percentage of epochs done, followed by the
      client's own progress fields. */
  function EpochProgress(epoch: int, totalEpochs: int, loss: real, accuracy: real): (p: Fields)
    requires totalEpochs != 0
    ensures "status" in p && "progress" in p && p["status"] == Str("training")
    ensures p["progress"] == Num(epoch as real / totalEpochs as real * 100.0)
    ensures 0 <= epoch <= totalEpochs ==> 0.0 <= p["progress"].n <= 100.0
  {
    Spread(ProgressState("training", epoch as real / totalEpochs as real * 100.0),
           map["epoch" := Num(epoch as real), "totalEpochs" := Num(totalEpochs as real),
               "loss" := Num(loss), "accuracy" := Num(accuracy)])
  }

  /** The `training:progress` frame for an epoch: the fraction of epochs done. */
  function ProgressFrame(modelId: Value, epoch: int, totalEpochs: int): Frame
    requires totalEpochs != 0
  {
    Frame("training:progress", Obj(map["modelId" := modelId, "progress" := Num(epoch as real / totalEpochs as real),
                                       "status" := Str("training")]))
  }

  /** The frames the progress callback sends for a sequence of epoch reports: one per
      report, in order, when a model id is known and the socket is connected; none
      otherwise. */
  function ProgressFrames(modelId: Option<Value>, connected: bool, reports: seq<EpochReport>): (frames: seq<Frame>)
    requires forall i :: 0 <= i < |reports| ==> reports[i].totalEpochs != 0
    ensures |frames| == if modelId.Some? && connected then |reports| else 0
    ensures modelId.Some? && connected ==> forall i :: 0 <= i < |reports| ==>
      frames[i] == ProgressFrame(modelId.value, reports[i].epoch, reports[i].totalEpochs)
    decreases |reports|
  {
    if !(modelId.Some? && connected) || reports == [] then []
    else
      var last := reports[|reports| - 1];
      ProgressFrames(modelId, connected, reports[..|reports| - 1]) + [ProgressFrame(modelId.value, last.epoch, last.totalEpochs)]
  }

  /** Where `modelInfo` came from: a `model:new_version` payload or a downloaded model. */
  datatype ModelInfo = Announced(data: Value) | Fetched(metadata: ModelMetadata)

  /** `modelInfo?.modelId` when truthy. */
  function ModelIdOf(info: Option<ModelInfo>): (id: Option<Value>)
    ensures id.Some? ==> Truthy(id.value)
  {
    match info
    case None => None
    case Some(Announced(data)) =>
      if "modelId" in FieldsOf(data) && Truthy(FieldsOf(data)["modelId"]) then Some(FieldsOf(data)["modelId"]) else None
    case Some(Fetched(m)) => if m.modelId != "" then Some(Str(m.modelId)) else None
  }

  /** The ids under which the context's six handlers are registered with the socket. */
  const RoundStartedHandler: HandlerId := 0
  const RoundCompletedHandler: HandlerId := 1
  const NewModelVersionHandler: HandlerId := 2
  const UpdateAcceptedHandler: HandlerId := 3
  const UpdateRejectedHandler: HandlerId := 4
  const NotificationHandler: HandlerId := 5

  /** The local events the context listens to, with their handlers. */
  const Subscriptions: seq<(string, HandlerId)> := [
    ("training_round_started", RoundStartedHandler),
    ("training_round_completed", RoundCompletedHandler),
    ("new_model_version", NewModelVersionHandler),
    ("update_accepted", UpdateAcceptedHandler),
    ("update_rejected", UpdateRejectedHandler),
    ("notification", NotificationHandler)]

  lemma WholePrefix<T>(s: seq<T>)
    ensures s[..|s|] == s
  {
  }

  /** Subscribing appends each of the six handlers to its own event's list and leaves the
      other events' lists alone. */
  lemma SubscribingAppendsEach(handlers: map<string, seq<HandlerId>>)
    ensures forall i :: 0 <= i < |Subscriptions| ==>
      Registered(RegisterAll(handlers, Subscriptions), Subscriptions[i].0) ==
      Registered(handlers, Subscriptions[i].0) + [Subscriptions[i].1]
    ensures forall e :: (forall i :: 0 <= i < |Subscriptions| ==> Subscriptions[i].0 != e) ==>
      Registered(RegisterAll(handlers, Subscriptions), e) == Registered(handlers, e)
  {
    assert DistinctEvents(Subscriptions);
    RegisterAllAppendsEach(handlers, Subscriptions);
  }

  class FederatedLearningProvider {
    var isInitialized: bool
    var isTraining: bool
    var trainingProgress: Option<Fields>
    var modelInfo: Option<ModelInfo>
    var notifications: seq<Fields>
    var trainingHistory: seq<Fields>
    var currentSession: Option<string>
    const client: FederatedLearningClient
    const socket: WebSocketClient

    ghost predicate Valid()
      reads this, socket
    {
      socket.Valid()
    }

    constructor (client: FederatedLearningClient, socket: WebSocketClient)
      requires socket.Valid()
      ensures Valid()
      ensures this.client == client && this.socket == socket
      ensures !isInitialized && !isTraining && trainingProgress.None? && modelInfo.None?
      ensures notifications == [] && trainingHistory == [] && currentSession.None?
    {
      isInitialized := false;
      isTraining := false;
      trainingProgress := None;
      modelInfo := None;
      notifications := [];
      trainingHistory := [];
      currentSession := None;
      this.client := client;
      this.socket := socket;
    }

    /** The mount effect: initialise the client. Its `initialize` reports failure by
        returning `false` rather than throwing, so the context is marked initialised either
        way. */
    method InitializeClient(metadataReadOk: bool, dataReadOk: bool)
      modifies this, client
      ensures isInitialized
      ensures client.trainingData == (if metadataReadOk && dataReadOk && old(client.storedTrainingData).Some?
                                      then old(client.storedTrainingData).value else old(client.trainingData))
      ensures client.modelMetadata == if metadataReadOk then old(client.storedMetadata) else old(client.modelMetadata)
      ensures client.localModel == old(client.localModel) && client.isTraining == old(client.isTraining)
      ensures client.storedMetadata == old(client.storedMetadata)
      ensures client.storedTrainingData == old(client.storedTrainingData)
      ensures isTraining == old(isTraining) && notifications == old(notifications)
      ensures trainingHistory == old(trainingHistory) && currentSession == old(currentSession)
      ensures trainingProgress == old(trainingProgress) && modelInfo == old(modelInfo)
    {
      var _ := client.Initialize(metadataReadOk, dataReadOk);
      isInitialized := true;
    }

    /** The connection effect: with a token and an initialised client, connect and register
        the six handlers. Returns whether it did (and so installed its teardown). */
    method ConnectRealtime(token: Option<string>) returns (subscribed: bool)
      requires Valid()
      modifies socket
      ensures Valid()
      ensures subscribed == (Present(token) && isInitialized)
      ensures !subscribed ==> unchanged(socket)
      ensures subscribed ==> socket.eventHandlers == RegisterAll(old(socket.eventHandlers), Subscriptions)
      ensures subscribed ==> (socket.socket ==
        if old(socket.socket).Some? && old(socket.isConnected) then old(socket.socket)
        else Some(Socket(old(socket.socketsOpened), None)))
      ensures socket.isConnected == old(socket.isConnected) && socket.sent == old(socket.sent)
    {
      if !(Present(token) && isInitialized) {
        return false;
      }
      var _ := socket.Connect(token);
      ghost var before := socket.eventHandlers;
      assert Subscriptions[..0] == [];
      socket.On("training_round_started", RoundStartedHandler);
      RegisterAllStep(before, Subscriptions, 0);
      socket.On("training_round_completed", RoundCompletedHandler);
      RegisterAllStep(before, Subscriptions, 1);
      socket.On("new_model_version", NewModelVersionHandler);
      RegisterAllStep(before, Subscriptions, 2);
      socket.On("update_accepted", UpdateAcceptedHandler);
      RegisterAllStep(before, Subscriptions, 3);
      socket.On("update_rejected", UpdateRejectedHandler);
      RegisterAllStep(before, Subscriptions, 4);
      socket.On("notification", NotificationHandler);
      RegisterAllStep(before, Subscriptions, 5);
      WholePrefix(Subscriptions);
      return true;
    }

    /** The teardown: disconnect; the handlers stay registered with the socket. */
    method Teardown()
      requires Valid()
      modifies socket
      ensures Valid()
      ensures socket.socket.None? && socket.eventHandlers == old(socket.eventHandlers)
    {
      socket.Disconnect();
    }

    /** `addNotification`. */
    method Notify(notification: Fields, now: int)
      modifies this
      ensures notifications == AddNotification(old(notifications), notification, now)
      ensures isInitialized == old(isInitialized) && isTraining == old(isTraining)
      ensures trainingProgress == old(trainingProgress) && modelInfo == old(modelInfo)
      ensures trainingHistory == old(trainingHistory) && currentSession == old(currentSession)
    {
      notifications := AddNotification(notifications, notification, now);
    }

    /** The history update of the accepted and rejected handlers. */
    method RecordUpdate(status: string, data: Value, now: int)
      modifies this
      ensures trainingHistory == AddHistory(old(trainingHistory), status, data, now)
      ensures notifications == old(notifications) && modelInfo == old(modelInfo)
      ensures isInitialized == old(isInitialized) && isTraining == old(isTraining)
      ensures trainingProgress == old(trainingProgress) && currentSession == old(currentSession)
    {
      trainingHistory := AddHistory(trainingHistory, status, data, now);
    }

    // The six socket handlers. `message` is the notice text rendered from the payload's
    // numbers by a template literal. The first five read a property of the payload before
    // adding their notice, so a null payload throws there (`threw`); `emit` catches the
    // error, and nothing after the read takes effect.

    /** `handleTrainingRoundStarted`: an info notice carrying the payload. */
    method HandleRoundStarted(data: Value, message: string, now: int) returns (threw: bool)
      modifies this
      ensures threw == data.Null?
      ensures notifications ==
        if threw then old(notifications)
        else AddNotification(old(notifications), EventNotice("info", "New Training Round", Str(message), data), now)
      ensures modelInfo == old(modelInfo)
      ensures trainingHistory == old(trainingHistory)
      ensures isInitialized == old(isInitialized) && isTraining == old(isTraining)
      ensures trainingProgress == old(trainingProgress) && currentSession == old(currentSession)
    {
      if data.Null? {
        return true;
      }
      Notify(EventNotice("info", "New Training Round", Str(message), data), now);
      return false;
    }

    /** `handleTrainingRoundCompleted`: a success notice carrying the payload. */
    method HandleRoundCompleted(data: Value, message: string, now: int) returns (threw: bool)
      modifies this
      ensures threw == data.Null?
      ensures notifications ==
        if threw then old(notifications)
        else AddNotification(old(notifications), EventNotice("success", "Training Complete", Str(message), data), now)
      ensures modelInfo == old(modelInfo)
      ensures trainingHistory == old(trainingHistory)
      ensures isInitialized == old(isInitialized) && isTraining == old(isTraining)
      ensures trainingProgress == old(trainingProgress) && currentSession == old(currentSession)
    {
      if data.Null? {
        return true;
      }
      Notify(EventNotice("success", "Training Complete", Str(message), data), now);
      return false;
    }

    /** `handleNewModelVersion`: the payload becomes the model information, and a notice
        follows. A null payload is stored (as no model information) before the throw. */
    method HandleNewModelVersion(data: Value, message: string, now: int) returns (threw: bool)
      modifies this
      ensures threw == data.Null?
      ensures modelInfo == if threw then None else Some(Announced(data))
      ensures notifications ==
        if threw then old(notifications)
        else AddNotification(old(notifications), EventNotice("info", "Model Updated", Str(message), data), now)
      ensures trainingHistory == old(trainingHistory)
      ensures isInitialized == old(isInitialized) && isTraining == old(isTraining)
      ensures trainingProgress == old(trainingProgress) && currentSession == old(currentSession)
    {
      if data.Null? {
        modelInfo := None;
        return true;
      }
      modelInfo := Some(Announced(data));
      Notify(EventNotice("info", "Model Updated", Str(message), data), now);
      return false;
    }

    /** `handleUpdateAccepted`: a success notice and an "accepted" history entry. */
    method HandleUpdateAccepted(data: Value, message: string, now: int) returns (threw: bool)
      modifies this
      ensures threw == data.Null?
      ensures notifications ==
        if threw then old(notifications)
        else AddNotification(old(notifications), EventNotice("success", "Update Accepted", Str(message), data), now)
      ensures trainingHistory == if threw then old(trainingHistory) else AddHistory(old(trainingHistory), "accepted", data, now)
      ensures modelInfo == old(modelInfo)
      ensures isInitialized == old(isInitialized) && isTraining == old(isTraining)
      ensures trainingProgress == old(trainingProgress) && currentSession == old(currentSession)
    {
      if data.Null? {
        return true;
      }
      Notify(EventNotice("success", "Update Accepted", Str(message), data), now);
      RecordUpdate("accepted", data, now);
      return false;
    }

    /** `handleUpdateRejected`: a warning with the server's reason (or the default text) and a
        "rejected" history entry. */
    method HandleUpdateRejected(data: Value, now: int) returns (threw: bool)
      modifies this
      ensures threw == data.Null?
      ensures notifications == if threw then old(notifications) else AddNotification(old(notifications), RejectionNotice(data), now)
      ensures trainingHistory == if threw then old(trainingHistory) else AddHistory(old(trainingHistory), "rejected", data, now)
      ensures modelInfo == old(modelInfo)
      ensures isInitialized == old(isInitialized) && isTraining == old(isTraining)
      ensures trainingProgress == old(trainingProgress) && currentSession == old(currentSession)
    {
      if data.Null? {
        return true;
      }
      Notify(RejectionNotice(data), now);
      RecordUpdate("rejected", data, now);
      return false;
    }

    /** `handleNotification`: the server's notification itself, stamped. */
    method HandleNotification(notification: Value, now: int)
      modifies this
      ensures notifications == AddNotification(old(notifications), FieldsOf(notification), now)
      ensures modelInfo == old(modelInfo) && trainingHistory == old(trainingHistory)
      ensures isInitialized == old(isInitialized) && isTraining == old(isTraining)
      ensures trainingProgress == old(trainingProgress) && currentSession == old(currentSession)
    {
      Notify(FieldsOf(notification), now);
    }

    /** `trackInteraction`: nothing before initialisation; otherwise tag the record with the
        current session (or `fallbackSession`) and the time, and hand it to the client. */
    method TrackInteraction(record: InteractionRecord, now: int, fallbackSession: string,
                            token: Option<string>, storeOk: bool)
      returns (forwarded: Option<InteractionRecord>)
      modifies client
      ensures !isInitialized ==> forwarded.None? && unchanged(client)
      ensures isInitialized ==> forwarded == Some(record.(sessionId := Or(currentSession, Some(fallbackSession)),
                                                            timestamp := Some(now)))
      ensures isInitialized ==> client.trainingData == Append(old(client.trainingData), forwarded.value)
      ensures isInitialized ==> (client.storedTrainingData ==
        if storeOk then Some(client.trainingData) else old(client.storedTrainingData))
      ensures client.isTraining == old(client.isTraining) && client.localModel == old(client.localModel)
      ensures client.modelMetadata == old(client.modelMetadata) && client.storedMetadata == old(client.storedMetadata)
    {
      if !isInitialized {
        return None;
      }
      var enriched := record.(sessionId := Or(currentSession, Some(fallbackSession)), timestamp := Some(now));
      forwarded := Some(enriched);
      var _ := client.AddTrainingData(enriched, now, token, storeOk);
    }

    /** `startSession`: `sessionId` is the generated `session_<time>_<random>` id. */
    method StartSession(sessionId: string) returns (id: string)
      modifies this
      ensures id == sessionId && currentSession == Some(sessionId)
      ensures isInitialized == old(isInitialized) && isTraining == old(isTraining)
      ensures notifications == old(notifications) && trainingHistory == old(trainingHistory)
      ensures trainingProgress == old(trainingProgress) && modelInfo == old(modelInfo)
    {
      currentSession := Some(sessionId);
      return sessionId;
    }

    /** `endSession`. */
    method EndSession()
      modifies this
      ensures currentSession.None?
      ensures isInitialized == old(isInitialized) && isTraining == old(isTraining)
      ensures notifications == old(notifications) && trainingHistory == old(trainingHistory)
      ensures trainingProgress == old(trainingProgress) && modelInfo == old(modelInfo)
    {
      currentSession := None;
    }

    /** The progress callback handed to the client: record the epoch's progress and, when
        a model id is known, report the fraction done to the server. */
    method OnProgress(epoch: int, totalEpochs: int, loss: real, accuracy: real)
      returns (reported: bool)
      requires Valid() && totalEpochs != 0
      modifies this, socket
      ensures Valid()
      ensures trainingProgress == Some(EpochProgress(epoch, totalEpochs, loss, accuracy))
      ensures reported == (ModelIdOf(modelInfo).Some? && socket.isConnected)
      ensures socket.sent == old(socket.sent) +
        if reported then [ProgressFrame(ModelIdOf(modelInfo).value, epoch, totalEpochs)] else []
      ensures isTraining == old(isTraining) && notifications == old(notifications)
      ensures trainingHistory == old(trainingHistory) && currentSession == old(currentSession)
      ensures modelInfo == old(modelInfo) && isInitialized == old(isInitialized)
      ensures socket.socket == old(socket.socket) && socket.isConnected == old(socket.isConnected)
      ensures socket.eventHandlers == old(socket.eventHandlers)
    {
      trainingProgress := Some(EpochProgress(epoch, totalEpochs, loss, accuracy));
      reported := false;
      match ModelIdOf(modelInfo) {
        case None =>
        case Some(id) =>
          reported := socket.SendTrainingProgress(id, Num(epoch as real / totalEpochs as real), Str("training"));
      }
    }

    /** The progress callback called once per epoch report, in order. */
    method ReportProgress(reports: seq<EpochReport>)
      requires Valid()
      requires forall i :: 0 <= i < |reports| ==> reports[i].totalEpochs != 0
      modifies this, socket
      ensures Valid()
      ensures socket.sent == old(socket.sent) + ProgressFrames(ModelIdOf(modelInfo), socket.isConnected, reports)
      ensures reports != [] ==> trainingProgress == Some(EpochProgress(reports[|reports| - 1].epoch,
        reports[|reports| - 1].totalEpochs, reports[|reports| - 1].loss, reports[|reports| - 1].accuracy))
      ensures reports == [] ==> trainingProgress == old(trainingProgress)
      ensures isTraining == old(isTraining) && notifications == old(notifications)
      ensures trainingHistory == old(trainingHistory) && currentSession == old(currentSession)
      ensures modelInfo == old(modelInfo) && isInitialized == old(isInitialized)
      ensures socket.socket == old(socket.socket) && socket.isConnected == old(socket.isConnected)
      ensures socket.eventHandlers == old(socket.eventHandlers)
    {
      var i := 0;
      while i < |reports|
        invariant 0 <= i <= |reports|
        invariant Valid() && modelInfo == old(modelInfo) && isTraining == old(isTraining)
        invariant notifications == old(notifications) && trainingHistory == old(trainingHistory)
        invariant currentSession == old(currentSession) && isInitialized == old(isInitialized)
        invariant socket.socket == old(socket.socket) && socket.isConnected == old(socket.isConnected)
        invariant socket.eventHandlers == old(socket.eventHandlers)
        invariant socket.sent == old(socket.sent) + ProgressFrames(ModelIdOf(modelInfo), socket.isConnected, reports[..i])
        invariant i == 0 ==> trainingProgress == old(trainingProgress)
        invariant i > 0 ==> trainingProgress == Some(EpochProgress(reports[i - 1].epoch, reports[i - 1].totalEpochs,
                                                                   reports[i - 1].loss, reports[i - 1].accuracy))
      {
        assert reports[..i + 1][..i] == reports[..i];
        var _ := OnProgress(reports[i].epoch, reports[i].totalEpochs, reports[i].loss, reports[i].accuracy);
        i := i + 1;
      }
      assert reports[..i] == reports;
    }

    /** What `participateInTraining` does with the client's result: the epoch reports go to
        the progress callback, then the outcome becomes the progress state and a notice, and
        the flag is released. */
    method FinishTraining(result: Participation, progress: seq<EpochReport>, now: int)
      requires Valid()
      requires forall i :: 0 <= i < |progress| ==> progress[i].totalEpochs != 0
      modifies this, socket
      ensures Valid() && !isTraining
      ensures socket.sent == old(socket.sent) + ProgressFrames(ModelIdOf(modelInfo), old(socket.isConnected), progress)
      ensures result.Participated? ==>
        && trainingProgress == Some(ProgressState("completed", 100.0))
        && notifications == AddNotification(old(notifications), TrainingSucceededNotice, now)
      ensures result.NotParticipated? ==>
        && trainingProgress == Some(ProgressState("failed", 0.0)["error" := Str(result.error)])
        && notifications == AddNotification(old(notifications),
             Notice("error", "Training Failed", Str(FailureMessage(result.error))), now)
      ensures trainingHistory == old(trainingHistory) && currentSession == old(currentSession)
      ensures modelInfo == old(modelInfo) && isInitialized == old(isInitialized)
      ensures socket.socket == old(socket.socket) && socket.isConnected == old(socket.isConnected)
      ensures socket.eventHandlers == old(socket.eventHandlers)
    {
      ReportProgress(progress);
      match result {
        case Participated(_, _) =>
          trainingProgress := Some(ProgressState("completed", 100.0));
          Notify(TrainingSucceededNotice, now);
        case NotParticipated(error) =>
          trainingProgress := Some(ProgressState("failed", 0.0)["error" := Str(error)]);
          Notify(Notice("error", "Training Failed", Str(FailureMessage(error))), now);
      }
      isTraining := false;
    }

    /** `participateInTraining`: `null` while a run is in flight; otherwise run the client's
        workflow, pass each epoch's report to the progress callback, and report the outcome
        as progress and a notice. The flag is released on every path that set it. The
        reports the client made are handed to `OnProgress` once the client returns: the
        callback touches only the context and the socket, which the client's workflow does
        not, so the frames sent and the final state are those of the interleaved run. */
    method ParticipateInTraining(options: TrainOptions, token: Option<string>, script: DownloadScript,
                                 fit: FitOutcome, answer: SubmitOutcome, hourOf: Option<int> -> Hour, now: int)
      returns (r: Option<Participation>)
      requires Valid()
      modifies this, client, socket
      ensures Valid()
      ensures old(isTraining) ==> r.None? && unchanged(this) && unchanged(client) && unchanged(socket)
      ensures !old(isTraining) ==> r.Some? && !isTraining
      ensures !old(isTraining) ==> (socket.sent == old(socket.sent) +
        ProgressFrames(ModelIdOf(modelInfo), old(socket.isConnected),
          RunProgress(options, fit,
            && PastDownload(old(client.localModel), options, token, script)
            && !old(client.isTraining)
            && |old(client.trainingData)| >= MinTrainingSamples)))
      ensures r.Some? && r.value.Participated? ==>
        && trainingProgress == Some(ProgressState("completed", 100.0))
        && notifications == AddNotification(old(notifications), TrainingSucceededNotice, now)
        && answer.Acknowledged? && r.value.submitResult == answer.ack
      ensures r.Some? && r.value.NotParticipated? ==>
        && trainingProgress == Some(ProgressState("failed", 0.0)["error" := Str(r.value.error)])
        && notifications == AddNotification(old(notifications),
             Notice("error", "Training Failed", Str(FailureMessage(r.value.error))), now)
      ensures !old(isTraining) ==> (r.value.Participated? <==>
        ParticipationSucceeds(old(client.isTraining), old(client.localModel), old(client.modelMetadata),
                              |old(client.trainingData)|, options, token, script, fit, answer))
      ensures r.Some? && r.value.Participated? ==>
        r.value.trainingMetrics == TrainingMetrics(EpochsOf(options), |client.trainingData|, fit.loss, fit.accuracy,
                                                   fit.validationLoss, fit.validationAccuracy)
      ensures !old(isTraining) && DownloadsFirst(old(client.localModel), options) ==>
        && client.localModel == ModelAfterDownload(token, script, old(client.localModel))
        && client.modelMetadata == MetadataAfterDownload(token, script, old(client.localModel), old(client.modelMetadata))
        && client.storedMetadata == StoredAfterDownload(token, script, old(client.storedMetadata))
      ensures !DownloadsFirst(old(client.localModel), options) ==>
        && client.localModel == old(client.localModel) && client.modelMetadata == old(client.modelMetadata)
        && client.storedMetadata == old(client.storedMetadata)
      ensures client.trainingData == old(client.trainingData) && client.isTraining == old(client.isTraining)
      ensures client.storedTrainingData == old(client.storedTrainingData)
      ensures trainingHistory == old(trainingHistory) && currentSession == old(currentSession)
      ensures modelInfo == old(modelInfo) && isInitialized == old(isInitialized)
      ensures socket.socket == old(socket.socket) && socket.isConnected == old(socket.isConnected)
      ensures socket.eventHandlers == old(socket.eventHandlers)
    {
      if isTraining {
        return None;
      }
      isTraining := true;
      trainingProgress := Some(ProgressState("starting", 0.0));
      var result, progress := client.ParticipateInTraining(options, token, script, fit, answer, hourOf);
      FinishTraining(result, progress, now);
      return Some(result);
    }

    /** `downloadLatestModel`: record the downloaded metadata, or rethrow. */
    method DownloadLatestModel(token: Option<string>, script: DownloadScript)
      returns (r: Result<ModelMetadata, string>)
      modifies this, client
      ensures r.Ok? <==> HasToken(token) && script.Downloaded?
      ensures r.Ok? ==> modelInfo == Some(Fetched(r.value)) && r.value == script.metadata
      ensures r.Err? ==> modelInfo == old(modelInfo) && r.error == DownloadError(token, script)
      ensures client.localModel == ModelAfterDownload(token, script, old(client.localModel))
      ensures client.modelMetadata == MetadataAfterDownload(token, script, old(client.localModel), old(client.modelMetadata))
      ensures client.storedMetadata == StoredAfterDownload(token, script, old(client.storedMetadata))
      ensures client.trainingData == old(client.trainingData) && client.isTraining == old(client.isTraining)
      ensures client.storedTrainingData == old(client.storedTrainingData)
      ensures notifications == old(notifications) && isTraining == old(isTraining)
      ensures trainingProgress == old(trainingProgress) && trainingHistory == old(trainingHistory)
      ensures currentSession == old(currentSession) && isInitialized == old(isInitialized)
    {
      r := client.DownloadGlobalModel(token, script);
      if r.Ok? {
        modelInfo := Some(Fetched(r.value));
      }
    }

    /** `clearLocalData`: clear the client's buffer; the notice follows only when the
        client's storage removal succeeded (a rejection propagates). */
    method ClearLocalData(removeOk: bool, now: int) returns (r: Outcome<string>)
      modifies this, client
      ensures client.trainingData == []
      ensures r.Pass? == removeOk
      ensures notifications == if removeOk then AddNotification(old(notifications), DataClearedNotice, now)
                               else old(notifications)
      ensures client.storedTrainingData == if removeOk then None else old(client.storedTrainingData)
      ensures client.localModel == old(client.localModel) && client.modelMetadata == old(client.modelMetadata)
      ensures client.isTraining == old(client.isTraining) && client.storedMetadata == old(client.storedMetadata)
      ensures isTraining == old(isTraining) && trainingHistory == old(trainingHistory)
      ensures modelInfo == old(modelInfo) && trainingProgress == old(trainingProgress)
      ensures currentSession == old(currentSession) && isInitialized == old(isInitialized)
    {
      r := client.ClearLocalData(removeOk);
      if r.Pass? {
        Notify(DataClearedNotice, now);
      }
    }

    /** `joinTrainingSession`. */
    method JoinTrainingSession(modelId: string)
      requires Valid()
      modifies socket
      ensures Valid()
      ensures socket.sent == old(socket.sent) +
        if old(socket.isConnected) then [Frame("training:join", Obj(map["modelId" := Str(modelId)]))] else []
    {
      var _ := socket.JoinTraining(modelId);
    }

    /** `leaveTrainingSession`. */
    method LeaveTrainingSession(modelId: string)
      requires Valid()
      modifies socket
      ensures Valid()
      ensures socket.sent == old(socket.sent) +
        if old(socket.isConnected) then [Frame("training:leave", Obj(map["modelId" := Str(modelId)]))] else []
    {
      var _ := socket.LeaveTraining(modelId);
    }

    /** `dismissNotification`. */
    method DismissNotification(id: Value)
      modifies this
      ensures notifications == Dismiss(old(notifications), id)
      ensures trainingHistory == old(trainingHistory) && isTraining == old(isTraining)
      ensures modelInfo == old(modelInfo) && trainingProgress == old(trainingProgress)
      ensures currentSession == old(currentSession) && isInitialized == old(isInitialized)
    {
      notifications := Dismiss(notifications, id);
    }

    /** `clearNotifications`. */
    method ClearNotifications()
      modifies this
      ensures notifications == []
      ensures trainingHistory == old(trainingHistory) && isTraining == old(isTraining)
      ensures modelInfo == old(modelInfo) && trainingProgress == old(trainingProgress)
      ensures currentSession == old(currentSession) && isInitialized == old(isInitialized)
    {
      notifications := [];
    }
  }
}
