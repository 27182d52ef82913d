# A verified model of the learning platform's federated-learning client and pages

This project models, in Dafny, the browser side of a learning platform that keeps a local
buffer of the learner's interactions and trains a small neural network on it. The model covers:

- the federated-learning client: loading and saving its state, the 500-record training
  buffer, turning records into feature and label rows, local training, submitting an update
  and the whole participation workflow;
- the real-time socket client: connection state, the relay of server events to local
  events, the handler registry, emitting, and sending frames;
- the React context that ties the two together: the notification list capped at 20, the
  training history capped at 50, sessions, the progress callback and the six server-event
  handlers;
- the interaction-tracker hooks: page view and exit, `track`, and the chatbot, checklist
  and quiz trackers;
- the recommendation service: topic weighting with recency, the category table and the
  top-four selection;
- the video recommendation component: choosing up to six distinct videos, with a fallback,
  and the video links;
- the checklist, placement-preparation and course-detail pages;
- the authentication helpers over the browser's key/value store.

Everything outside the program is a parameter of the operation that touches it:

- the network and storage outcomes;
- the clock;
- the token decoder;
- the hour-of-day function;
- the result of a model fit.

Each operation is stated either as a function or as a method that is proved against one.
A class with a `modifies` frame is used wherever the source updates an object in place:

- `FederatedLearningClient`;
- `WebSocketClient`;
- the context provider;
- the tracker hook;
- the browser store.

## Model

| member | source | states |
|---|---|---|
| Auth.Get | src/utils/auth.js:3 | A stored key is returned exactly when it is present; a missing key reads as null. |
| Auth.WithoutAuth | src/utils/auth.js:37-40 | Both sign-in keys are gone and every other key and value is kept. |
| Auth.StoreAfterCheck | src/utils/auth.js:2-25 | The store is unchanged when the token is accepted or absent; both keys are removed exactly when a present token is rejected. |
| Auth.ExpiryRule | src/utils/auth.js:10-20 | An undecodable token is rejected. A token without `exp` is accepted. A token with `exp` is accepted if and only if now <= exp. |
| Auth.AcceptedEarlier | src/utils/auth.js:10-20 | Acceptance is monotone in time: a token accepted now was accepted at every earlier instant. |
| Auth.CheckIsIdempotent | src/utils/auth.js:2-25 | Checking a second time at the same instant gives the same verdict and changes nothing further. |
| Auth.AuthHeaders | src/utils/auth.js:27-35 | The JSON content type is always present; `Authorization` is present if and only if a non-empty token is stored, and it is then "Bearer " + token; no other header appears. |
| Auth.HeadersAfterRejection | src/utils/auth.js:2-35 | After a rejected check, the headers carry no bearer token. |
| Auth.Store.IsAuthenticated | src/utils/auth.js:2-25 | The answer is the verdict at nowMs/1000 seconds, and the store afterwards is the cleared or unchanged store that the verdict implies. |
| Auth.Store.GetAuthHeaders | src/utils/auth.js:27-35 | The headers are those that AuthHeaders describes for the current store. |
| Auth.Store.ClearAuthData | src/utils/auth.js:37-40 | Exactly the two sign-in keys are removed. |
| Auth.Store.GetUserId | src/utils/auth.js:42-44 | The stored user id, or none. |
| Auth.SignOut | src/utils/auth.js:37-44 | After signing out there is no user id, and the headers are the content type alone. |
| Features.Indicator | src/services/federatedLearningClient.js:250-263 | The 0/1 encoding is 1 exactly when the condition holds, and 0 exactly when it does not. |
| Features.ExtractFeatures | src/services/federatedLearningClient.js:247-273 | A record always maps to a vector of exactly 10 features. |
| Features.OneHotSlots | src/services/federatedLearningClient.js:249-263 | Slots 0-2 one-hot the interaction type (chatbot, roadmap, checklist), with at most one set and none for another type. Slots 3-5 one-hot the difficulty in the same way. Slot 7 is 1 exactly when the record is completed. |
| Features.TimeAndScoreSlots | src/services/federatedLearningClient.js:259-266 | Slot 6 is the time spent over 3600 seconds, capped at 1, with an absent time read as 0. Slot 8 is the score over 100, unclamped, with an absent score read as 0. |
| Features.FeaturesInUnitInterval | src/services/federatedLearningClient.js:247-273 | With non-negative time and a score in 0-100, every feature lies in [0, 1]. |
| Features.Label | src/services/federatedLearningClient.js:229-234 | The label has 8 slots; slot 0 is 1 exactly when the record is completed, and every other slot is 0. |
| TrainingBuffer.Append | src/services/federatedLearningClient.js:184-189 | The buffer keeps the last 500 of the old buffer plus the record, and the record is last. |
| TrainingBuffer.AppendAllIsWindow | src/services/federatedLearningClient.js:184-189 | Appending any number of records one at a time keeps exactly the last 500 of the whole history. |
| TrainingBuffer.WindowOfWindow | src/services/federatedLearningClient.js:188-189 | Trimming to 500 and then appending trims the same way as appending to the untrimmed history. |
| TrainingBuffer.FiveHundredAndOne | src/services/federatedLearningClient.js:188-189 | The 501st record evicts exactly the first one. |
| TrainingBuffer.FeatureRows | src/services/federatedLearningClient.js:224-227 | There is one feature row per record, row i being the features of record i at its own hour. |
| TrainingBuffer.LabelRows | src/services/federatedLearningClient.js:229-234 | There is one label row per record, row i being record i's label. |
| TrainingBuffer.DatasetShape | src/services/federatedLearningClient.js:216-242 | Fewer than 10 records is an error with the insufficient-data message. Otherwise the dataset is N x 10 features and N x 8 labels built from the buffer. |
| TrainingBuffer.PositiveLabelsCountCompleted | src/services/federatedLearningClient.js:229-234 | The number of positive labels equals the number of completed records. |
| TrainingBuffer.Bump | src/services/federatedLearningClient.js:439-445 | Counting a key adds that key to the map and keeps the others. |
| TrainingBuffer.TotalRemove | src/services/federatedLearningClient.js:429-449 | A map's total is the removed entry plus the total of the rest. |
| TrainingBuffer.TotalBump | src/services/federatedLearningClient.js:436-446 | Counting one more occurrence raises the total by exactly one. |
| TrainingBuffer.TypeCountsTotal | src/services/federatedLearningClient.js:443-445 | The interaction-type counts sum to the number of records. |
| TrainingBuffer.TopicCountsTotal | src/services/federatedLearningClient.js:437-441 | The topic counts sum to the number of records that have a topic, which is at most the number of records. |
| TrainingBuffer.TypeCountsAt | src/services/federatedLearningClient.js:443-445 | A type has a count exactly when some record has that type, and the count is the number of such records. |
| FederatedClient.DefaultNetworkFitsEncoding | src/services/federatedLearningClient.js:147-174 | The default network takes the 10 features and ends in 8 outputs, matching the label width; its metadata records the same shapes. |
| FederatedClient.EpochsOf | src/services/federatedLearningClient.js:296 | The epoch count is never 0: a falsy option means 5, and any other value is used as given. |
| FederatedClient.Reports | src/services/federatedLearningClient.js:307-318 | One report per completed epoch, in order: the i-th carries epoch i+1, the total epoch count and that epoch's loss and accuracy. |
| FederatedClient.RunProgress | src/services/federatedLearningClient.js:284-318 | When `fit` is reached, one report per completed epoch, numbered from 1 with the configured total; otherwise no reports. |
| FederatedClient.ModelAfterDownload | src/services/federatedLearningClient.js:46-90 | After a download there is always a network. A complete download leaves the server network under its model id. A failure before the network is rebuilt keeps an existing network. |
| FederatedClient.MetadataAfterDownload | src/services/federatedLearningClient.js:46-90 | A complete download leaves the server metadata. A failure before the metadata arrived keeps the old metadata when a network existed. Metadata is present afterwards exactly when there was no network, the server metadata arrived, or metadata was already present. |
| FederatedClient.StoredAfterDownload | src/services/federatedLearningClient.js:46-90 | The cached metadata changes only through a complete download, which caches the server metadata. |
| FederatedClient.FederatedLearningClient.constructor | src/services/federatedLearningClient.js:8-19 | A new client has no model, no metadata, an empty buffer and is not training. |
| FederatedClient.FederatedLearningClient.Initialize | src/services/federatedLearningClient.js:24-41 | Metadata is restored when its read succeeds and the buffer when both reads succeed; the result reports success; nothing else changes. |
| FederatedClient.FederatedLearningClient.CreateDefaultModel | src/services/federatedLearningClient.js:147-174 | The default network and its metadata are installed, and nothing else changes. |
| FederatedClient.FederatedLearningClient.DownloadGlobalModel | src/services/federatedLearningClient.js:46-90 | Succeeds exactly with a token and a complete download; a failure reports its error. The network, metadata and cached metadata afterwards are those ModelAfterDownload, MetadataAfterDownload and StoredAfterDownload give for the old state. |
| FederatedClient.FederatedLearningClient.AddTrainingData | src/services/federatedLearningClient.js:179-211 | The time-stamped record goes into the 500-record window. The window is persisted when storage accepts it. The record is posted only after a successful save and with a token. |
| FederatedClient.FederatedLearningClient.PrepareTrainingDataset | src/services/federatedLearningClient.js:216-242 | The dataset is the specification function of the buffer, whose shape DatasetShape states. |
| FederatedClient.FederatedLearningClient.GetDataDistribution | src/services/federatedLearningClient.js:429-449 | The type and topic counts and the total of the buffer. |
| FederatedClient.FederatedLearningClient.TrainLocalModel | src/services/federatedLearningClient.js:278-345 | Returns null, reports no progress and changes nothing while a run is in progress. An existing network and its metadata are kept. Without one, the run's own download sets them as DownloadGlobalModel does, and its failure is the run's error. Trains exactly when `fit` is reached (a network, at least 10 records) and the fit succeeds. With a network but fewer than 10 records, the error is the insufficient-data one. The metrics carry the epochs, the buffer size and the fit's figures. A failing fit's error is passed on. Progress is one report per completed epoch exactly when `fit` is reached. The flag is cleared on every path. |
| FederatedClient.FederatedLearningClient.SubmitModelUpdate | src/services/federatedLearningClient.js:350-405 | Fails with its own message and nothing sent when there is no token, no model or no metadata. Otherwise it posts the metrics and the buffer's distribution under the model id and passes on the server's answer. |
| FederatedClient.FederatedLearningClient.ParticipateInTraining | src/services/federatedLearningClient.js:454-483 | Succeeds if and only if every step succeeds (ParticipationSucceeds), returning the server's acknowledgement and the metrics. Otherwise the error is the first failing step's: the download's error, "Local training failed" for a run in progress, insufficient data, the fit's error, "Authentication required", the null-metadata error, or the submission's error. Network and metadata afterwards are those of the download when one was needed, otherwise unchanged. The epoch reports are those of the training step. |
| FederatedClient.FederatedLearningClient.ClearLocalData | src/services/federatedLearningClient.js:512-516 | The buffer is emptied; the stored copy is removed when storage allows it; the model is kept. |
| FederatedClient.FederatedLearningClient.GetTrainingDataSummary | src/services/federatedLearningClient.js:521-528 | The sample count equals the distribution's total, and the oldest and newest timestamps are those of the first and last records. |
| FederatedClient.ClearThenSummarize | src/services/federatedLearningClient.js:512-528 | After clearing, the summary is empty: 0 samples, no timestamps and empty counts. |
| InteractionTracker.PageView | src/hooks/useInteractionTracker.js:18-26 | A page view names the page as topic, defaults the difficulty to "intermediate" and records the page in its metadata. |
| InteractionTracker.PageExit | src/hooks/useInteractionTracker.js:30-43 | The time spent is the whole seconds elapsed, rounded down; the exit counts as completed exactly when something was tracked on the page. |
| InteractionTracker.TrackRecord | src/hooks/useInteractionTracker.js:52-69 | The detail's topic is used, falling back to the page. Difficulty falls back to the page option and then to "intermediate". The other details pass through, and the page is in the metadata. |
| InteractionTracker.PageTracker.constructor | src/hooks/useInteractionTracker.js:7-10 | A fresh hook has no session start and a zero count. |
| InteractionTracker.PageTracker.Mount | src/hooks/useInteractionTracker.js:12-26 | A session is started, the start time is recorded and a page view is emitted. |
| InteractionTracker.PageTracker.Unmount | src/hooks/useInteractionTracker.js:29-46 | A page exit for the elapsed time is emitted, and then the session ends. |
| InteractionTracker.PageTracker.Track | src/hooks/useInteractionTracker.js:52-69 | The count goes up by one and exactly one record is emitted. |
| InteractionTracker.Visit | src/hooks/useInteractionTracker.js:7-72 | A whole visit emits the session start, the page view, every tracked record in order, the exit (completed exactly when something was tracked) and the session end. |
| InteractionTracker.ChatbotMessage | src/hooks/useInteractionTracker.js:80-88 | A chatbot message is a "chatbot" record that defaults its topic to "chatbot" and carries no completion and no feedback. |
| InteractionTracker.ChatbotFeedback | src/hooks/useInteractionTracker.js:90-96 | Feedback is a completed "chatbot" record that carries the helpful flag and the rating. |
| InteractionTracker.ChecklistItem | src/hooks/useInteractionTracker.js:132-138 | A "checklist" record that passes on completion and time. |
| InteractionTracker.ChecklistProgress | src/hooks/useInteractionTracker.js:140-146 | The rate is the score, and the record is completed exactly when the rate is at least 100. |
| InteractionTracker.QuizAttempt | src/hooks/useInteractionTracker.js:192-201 | A completed "quiz" record with the given difficulty, score and time. |
| InteractionTracker.QuizQuestion | src/hooks/useInteractionTracker.js:203-212 | A completed "quiz" record scored 100 when correct and 0 otherwise. |
| InteractionTracker.QuizQuestionEncoding | src/hooks/useInteractionTracker.js:203-212 | A quiz answer trains as a positive example; its score slot is 1 exactly when correct, and its completion slot is 1. |
| InteractionTracker.ProgressEncoding | src/hooks/useInteractionTracker.js:80-146 | Checklist progress is a positive example exactly at a rate of at least 100; a chatbot message is never positive. |
| Sockets.RelayedOnlyListed | src/services/websocketClient.js:61-129 | Exactly the 14 listed server events are relayed. |
| Sockets.RelayedAvoidsConnectionEvents | src/services/websocketClient.js:43-134 | No server event is relayed under the names the client uses for its own connection status and errors. |
| Sockets.RoundTripConnectionAndTraining | src/services/websocketClient.js:61-85 | Each of these relayed names maps back to its server event. |
| Sockets.RoundTripParticipantsAndUpdates | src/services/websocketClient.js:87-106 | Each of these relayed names maps back to its server event. |
| Sockets.RoundTripModelAndMessages | src/services/websocketClient.js:109-129 | Each of these relayed names maps back to its server event. |
| Sockets.RelayedRoundTrip | src/services/websocketClient.js:61-129 | Every relayed name identifies its server event. |
| Sockets.RelayedInjective | src/services/websocketClient.js:61-129 | No two server events share a local name. |
| Sockets.Deliveries | src/services/websocketClient.js:227-240 | There is one call per registered handler. |
| Sockets.DeliveriesInOrder | src/services/websocketClient.js:227-240 | The i-th call goes to the i-th registered handler, with the event and its data. |
| Sockets.IndexOfHandler | src/services/websocketClient.js:215-218 | The first position of the handler, or none exactly when it is not registered. |
| Sockets.WithoutFirstRemovesOne | src/services/websocketClient.js:212-222 | Removal takes away one copy of a registered handler and leaves a list without it unchanged. |
| Sockets.OffUndoesOn | src/services/websocketClient.js:202-222 | Removing a freshly added handler restores the list. |
| Sockets.Register | src/services/websocketClient.js:202-207 | The handler is appended to its event's list, and every other event's list is unchanged. |
| Sockets.RegisterAllStep | src/services/websocketClient.js:202-207 | Registering one more subscription is one more registration. |
| Sockets.RegisterAllAppendsEach | src/services/websocketClient.js:202-207 | Registering subscriptions to distinct events appends each handler to its event and leaves the other events alone. |
| Sockets.WebSocketClient.constructor | src/services/websocketClient.js:6-10 | A new client has no socket, is not connected and has no handlers. |
| Sockets.WebSocketClient.Connect | src/services/websocketClient.js:15-38 | Proceeds exactly with a token. It keeps a socket that is already connected and otherwise opens a new one; handlers are untouched. |
| Sockets.WebSocketClient.Disconnect | src/services/websocketClient.js:139-145 | The socket is dropped, and handlers and sent frames are kept. |
| Sockets.WebSocketClient.On | src/services/websocketClient.js:202-207 | The handler is registered for its event, and nothing else changes. |
| Sockets.WebSocketClient.Off | src/services/websocketClient.js:212-222 | The first copy of the handler is removed from its event only, and an unknown event changes nothing. |
| Sockets.WebSocketClient.Emit | src/services/websocketClient.js:227-240 | The handlers registered for the event are called in order. |
| Sockets.WebSocketClient.Deliver | src/services/websocketClient.js:43-134 | A server event updates the connection state as its listener does and is relayed under its local name to the registered handlers. |
| Sockets.WebSocketClient.Send | src/services/websocketClient.js:150-200 | A frame is sent exactly when connected, and nothing else changes. |
| Sockets.WebSocketClient.JoinTraining | src/services/websocketClient.js:150-161 | "training:join" is sent with the model id exactly when connected. |
| Sockets.WebSocketClient.LeaveTraining | src/services/websocketClient.js:163-174 | "training:leave" is sent with the model id exactly when connected. |
| Sockets.WebSocketClient.SendTrainingProgress | src/services/websocketClient.js:176-187 | "training:progress" is sent with the model id, progress and status exactly when connected. |
| Sockets.WebSocketClient.RequestModel | src/services/websocketClient.js:189-200 | "model:request" is sent with the model id exactly when connected. |
| Sockets.WebSocketClient.GetConnectionStatus | src/services/websocketClient.js:245-250 | Reports the connected flag, and the socket id exactly when a socket with an id exists. |
| Sockets.RegisteredHandlerHearsEvent | src/services/websocketClient.js:202-240 | A handler registered for a relayed name is called when its server event arrives. |
| SessionContext.Stamped | src/contexts/FederatedLearningContext.jsx:122-128 | A notification gains an id and a timestamp; the id is the clock unless the notification brings its own. |
| SessionContext.AddNotification | src/contexts/FederatedLearningContext.jsx:122-128 | The stamped notification goes first, followed by the newest earlier ones, 20 at most. |
| SessionContext.HistoryEntry | src/contexts/FederatedLearningContext.jsx:88-116 | The entry carries the event's fields, plus a status (the event's own, if it has one) and a timestamp. |
| SessionContext.AddHistory | src/contexts/FederatedLearningContext.jsx:92-95 | The entry goes first, followed by the newest earlier ones, 50 at most. |
| SessionContext.NotificationsStayCapped | src/contexts/FederatedLearningContext.jsx:122-128 | However many notifications arrive, the list never exceeds 20. |
| SessionContext.DismissRemovesExactly | src/contexts/FederatedLearningContext.jsx:262-264 | Dismissal keeps exactly the notifications with another id, in order. |
| SessionContext.RejectionMessage | src/contexts/FederatedLearningContext.jsx:103-116 | The rejection message is never empty: the reason, or a default. |
| SessionContext.EpochProgress | src/contexts/FederatedLearningContext.jsx:173-178 | Progress is "training" at epoch/total x 100, which lies in 0-100 while the epoch is in range. |
| SessionContext.ModelIdOf | src/contexts/FederatedLearningContext.jsx:181 | A model id is reported only when it is truthy. |
| SessionContext.ProgressFrames | src/contexts/FederatedLearningContext.jsx:180-187 | One `training:progress` frame per epoch report, in order, carrying epoch/total, when a model id is known and the socket is connected; no frames otherwise. |
| SessionContext.SubscribingAppendsEach | src/contexts/FederatedLearningContext.jsx:46-51 | Subscribing appends each of the six handlers to its event and leaves every other event's handlers alone. |
| SessionContext.FederatedLearningProvider.constructor | src/contexts/FederatedLearningContext.jsx:13-22 | The provider starts uninitialised and idle, with empty lists and no session. |
| SessionContext.FederatedLearningProvider.InitializeClient | src/contexts/FederatedLearningContext.jsx:25-37 | The client's buffer and metadata are restored as far as the reads succeed. The client's network, flag and store are untouched. The provider is marked initialised whatever the reads did, and nothing else changes. |
| SessionContext.FederatedLearningProvider.ConnectRealtime | src/contexts/FederatedLearningContext.jsx:40-57 | Subscribes exactly with a token once initialised. It then keeps a connected socket or opens a new one, and registers the six handlers in order. Otherwise the socket is untouched. No frame is sent and the connection flag is unchanged until the server confirms. |
| SessionContext.FederatedLearningProvider.Teardown | src/contexts/FederatedLearningContext.jsx:53-55 | The socket is closed, and the registered handlers stay. |
| SessionContext.FederatedLearningProvider.Notify | src/contexts/FederatedLearningContext.jsx:122-128 | The notification is added, and nothing else changes. |
| SessionContext.FederatedLearningProvider.RecordUpdate | src/contexts/FederatedLearningContext.jsx:92-95 | A history entry is added, and nothing else changes. |
| SessionContext.FederatedLearningProvider.HandleRoundStarted | src/contexts/FederatedLearningContext.jsx:60-67 | A null payload throws when its round number is read, and nothing changes. Otherwise an info notice "New Training Round" is added, and nothing else changes. |
| SessionContext.FederatedLearningProvider.HandleRoundCompleted | src/contexts/FederatedLearningContext.jsx:69-76 | A null payload throws when its round number is read, and nothing changes. Otherwise a success notice "Training Complete" is added, and nothing else changes. |
| SessionContext.FederatedLearningProvider.HandleNewModelVersion | src/contexts/FederatedLearningContext.jsx:78-86 | The payload becomes the model info; a null payload leaves none and then throws before any notice. Otherwise a "Model Updated" notice is added. |
| SessionContext.FederatedLearningProvider.HandleUpdateAccepted | src/contexts/FederatedLearningContext.jsx:88-101 | A null payload throws before the notice, and nothing changes. Otherwise a success notice and an "accepted" history entry are added. |
| SessionContext.FederatedLearningProvider.HandleUpdateRejected | src/contexts/FederatedLearningContext.jsx:103-116 | A null payload throws when its reason is read, and nothing changes. Otherwise a warning carrying the reason and a "rejected" history entry are added. |
| SessionContext.FederatedLearningProvider.HandleNotification | src/contexts/FederatedLearningContext.jsx:118-120 | The server's notification is added as it is. |
| SessionContext.FederatedLearningProvider.TrackInteraction | src/contexts/FederatedLearningContext.jsx:131-146 | Does nothing before initialisation. Afterwards the record, stamped with the current or a fallback session and the clock, goes into the client's window. The window is persisted when storage allows. The client's network and metadata are untouched. |
| SessionContext.FederatedLearningProvider.StartSession | src/contexts/FederatedLearningContext.jsx:149-153 | The given id becomes the current session and is returned. |
| SessionContext.FederatedLearningProvider.EndSession | src/contexts/FederatedLearningContext.jsx:156-158 | There is no current session. |
| SessionContext.FederatedLearningProvider.OnProgress | src/contexts/FederatedLearningContext.jsx:173-187 | Progress is set from the epoch. It is reported over the socket exactly when a truthy model id is known and the socket is connected. The connection and the rest of the context are unchanged. |
| SessionContext.FederatedLearningProvider.ReportProgress | src/contexts/FederatedLearningContext.jsx:173-187 | The callback runs once per epoch report, in order. The socket gains exactly the ProgressFrames of the reports, and the progress is the last report's. |
| SessionContext.FederatedLearningProvider.FinishTraining | src/contexts/FederatedLearningContext.jsx:171-207 | The epoch reports become progress frames. A success sets the "completed" progress and notice. A failure sets the "failed" progress with the error and a notice with the error or the default text. The flag is cleared. |
| SessionContext.FederatedLearningProvider.ParticipateInTraining | src/contexts/FederatedLearningContext.jsx:161-222 | Returns null and changes nothing while training. Otherwise the result is a participation that succeeds exactly when every step of the client's workflow does, with the fit's metrics. Each completed epoch sends one progress frame when a model id is known and the socket is connected. The client's network and metadata follow its download, and its buffer and flag are kept. Completion or failure is reported in the progress and a notice, and the flag is cleared. |
| SessionContext.FederatedLearningProvider.DownloadLatestModel | src/contexts/FederatedLearningContext.jsx:225-234 | Succeeds exactly when the client's download does, and then stores the fetched metadata as model info. Otherwise the error is passed on and the model info kept. The client's network and metadata change as in DownloadGlobalModel, and nothing else in the context changes. |
| SessionContext.FederatedLearningProvider.ClearLocalData | src/contexts/FederatedLearningContext.jsx:242-249 | The buffer is emptied and its stored copy removed when storage allows. "Data Cleared" is announced only then. The model, progress, session and flags are unchanged. |
| SessionContext.FederatedLearningProvider.JoinTrainingSession | src/contexts/FederatedLearningContext.jsx:252-254 | A join frame is sent exactly when connected. |
| SessionContext.FederatedLearningProvider.LeaveTrainingSession | src/contexts/FederatedLearningContext.jsx:257-259 | A leave frame is sent exactly when connected. |
| SessionContext.FederatedLearningProvider.DismissNotification | src/contexts/FederatedLearningContext.jsx:262-264 | Notifications with that id are removed, and nothing else in the context changes. |
| SessionContext.FederatedLearningProvider.ClearNotifications | src/contexts/FederatedLearningContext.jsx:267-269 | No notifications remain, and nothing else in the context changes. |
| Recommendations.GetDefaultTopics | src/services/recommendationService.js:132-134 | Four defaults, starting with "Web Development". |
| Recommendations.AddTo | src/services/recommendationService.js:36 | `(w[k] \|\| 0) + x`: the key is added at the end of insertion order if new, and other weights are unchanged. |
| Recommendations.SetTo | src/services/recommendationService.js:120 | The weight is assigned, keeping the insertion order, and other weights are unchanged. |
| Recommendations.WriteKeepsBound | src/services/recommendationService.js:36-120 | Adding or assigning at least v keeps all weights at least v. |
| Recommendations.Entries | src/services/recommendationService.js:43 | `Object.entries` lists every key once, in insertion order, with its weight. |
| Recommendations.Recency | src/services/recommendationService.js:35 | The recency weight lies in [1, 2). |
| Recommendations.TopicFrequencyFacts | src/services/recommendationService.js:30-38 | Exactly the non-empty topics get a weight, and each weight is at least 1. |
| Recommendations.ComputeTopicFrequency | src/services/recommendationService.js:30-38 | The loop computes the recency-weighted topic frequencies. |
| Recommendations.Insert | src/services/recommendationService.js:44 | Insertion adds exactly one element. |
| Recommendations.InsertSorted | src/services/recommendationService.js:44 | Insertion keeps the list sorted by descending weight. |
| Recommendations.SortByWeight | src/services/recommendationService.js:43-44 | The sort is a permutation of the entries. |
| Recommendations.SortByWeightSorted | src/services/recommendationService.js:43-44 | The sort orders by descending weight. |
| Recommendations.TopKeysFacts | src/services/recommendationService.js:43-46 | min(4, n) keys are kept, all of them existing, in descending weight. |
| Recommendations.TopKeysAreBest | src/services/recommendationService.js:43-46 | No key left out weighs more than a key kept. |
| Recommendations.MatchEntries | src/services/recommendationService.js:110-115 | A topic matched any key exactly when the flag is set, and an unmatched topic changes nothing. |
| Recommendations.UnmatchedTopic | src/services/recommendationService.js:117-121 | An unmatched topic longer than 3 UTF-16 code units is assigned the score 1 under its capitalised name, replacing any earlier score; a shorter one is dropped. |
| Recommendations.MatchedCategoriesScore | src/services/recommendationService.js:110-115 | Every category whose key matches the topic gains at least one point. |
| Recommendations.CategoryScoresAtLeastOne | src/services/recommendationService.js:104-122 | Every category scored has a score of at least 1. |
| Recommendations.ScoreOneTopic | src/services/recommendationService.js:106-122 | The loop scores one topic against the whole table. |
| Recommendations.MapToVideoCategories | src/services/recommendationService.js:63-129 | The top four categories by score, and never more than four. |
| Recommendations.GetPersonalizedVideoTopics | src/services/recommendationService.js:2-60 | Returns nothing without a token. A failed or empty fetch gives the four defaults. Otherwise it gives the mapped top topics, falling back to the defaults; the result always holds 1 to 4 topics. |
| YouTube.Ids | src/components/YouTubeRecommendations.jsx:441-450 | The set of ids holds exactly the ids of the listed videos. |
| YouTube.IdsAppend | src/components/YouTubeRecommendations.jsx:446-449 | Adding a video adds its id. |
| YouTube.VideosFor | src/components/YouTubeRecommendations.jsx:443 | An unknown topic has no videos. |
| YouTube.Candidates | src/components/YouTubeRecommendations.jsx:440-452 | Every candidate is a catalogue video of one of the topics. |
| YouTube.Pick | src/components/YouTubeRecommendations.jsx:444-451 | The selection is extended, never beyond 6, and only with candidates. |
| YouTube.PickKeepsDistinct | src/components/YouTubeRecommendations.jsx:446 | No id is ever chosen twice. |
| YouTube.PickIsMaximal | src/components/YouTubeRecommendations.jsx:444-451 | Below 6 videos, every candidate's id is already chosen. |
| YouTube.PickAppend | src/components/YouTubeRecommendations.jsx:440-486 | Picking from two lists in turn is picking from their concatenation. |
| YouTube.IdsBoundLength | src/components/YouTubeRecommendations.jsx:441-450 | There are no more ids than videos. |
| YouTube.FallbackDistinct | src/components/YouTubeRecommendations.jsx:455-483 | The fallback videos have distinct ids. |
| YouTube.PickTakesAllNew | src/components/YouTubeRecommendations.jsx:444-451 | Distinct candidates that fit are all taken, in order. |
| YouTube.SelectDistinct | src/components/YouTubeRecommendations.jsx:34-489 | The videos shown have distinct ids. |
| YouTube.SelectDrawsFromCatalogue | src/components/YouTubeRecommendations.jsx:34-489 | Every video shown belongs to a chosen topic or to the fallback. |
| YouTube.SelectCount | src/components/YouTubeRecommendations.jsx:454-488 | Between 3 and 6 videos are shown. |
| YouTube.TopicVideosFirst | src/components/YouTubeRecommendations.jsx:440-486 | The topics' videos come first, before any fallback video. |
| YouTube.NoTopicsShowsFallback | src/components/YouTubeRecommendations.jsx:454-486 | With no topics, the fallback videos are shown. |
| YouTube.AddUnused | src/components/YouTubeRecommendations.jsx:444-451 | The loop adds unused videos up to 6 and keeps the id set in step with the selection. |
| YouTube.GetYouTubeVideos | src/components/YouTubeRecommendations.jsx:34-489 | The loops compute the selection. |
| YouTube.LoadRecommendedVideos | src/components/YouTubeRecommendations.jsx:11-32 | Hidden without a token. With one, it shows 3 to 6 distinct videos chosen for 1 to 4 topics. |
| YouTube.WatchUrl | src/components/YouTubeRecommendations.jsx:548 | The watch link is the watch prefix followed by the id. |
| YouTube.EmbedUrl | src/components/YouTubeRecommendations.jsx:491-493 | The embed link is the embed prefix followed by the id. |
| YouTube.ThumbnailUrl | src/components/YouTubeRecommendations.jsx:495-497 | The thumbnail link is the prefix, then the id, then the image name. |
| YouTube.ThumbnailRoundTrip | src/components/YouTubeRecommendations.jsx:495-497 | The id is recovered from its thumbnail link. |
| YouTube.ThumbnailUrlInjective | src/components/YouTubeRecommendations.jsx:495-497 | Different ids get different thumbnails. |
| ChecklistPage.FilterItems | src/pages/Checklist.jsx:44-60 | Filtering never adds items. |
| ChecklistPage.FilterItemsKeepsBoth | src/pages/Checklist.jsx:44-60 | The two filters in turn equal one filter on both conditions. |
| ChecklistPage.FilterItemsFacts | src/pages/Checklist.jsx:44-60 | Exactly the items meeting both filters are kept, in order; "all"/"all" keeps everything. |
| ChecklistPage.SubmittedContent | src/pages/Checklist.jsx:98-110 | The content sent is trimmed and non-empty. |
| ChecklistPage.AddItem | src/pages/Checklist.jsx:98-137 | A blank entry does nothing. A created item is prepended and the input cleared. Any failure keeps the list and shows an error. |
| ChecklistPage.SetCompleted | src/pages/Checklist.jsx:142-146 | Only the items with that id change, and only their completion. |
| ChecklistPage.RevertRestores | src/pages/Checklist.jsx:139-168 | Reverting an optimistic toggle restores the list. |
| ChecklistPage.ToggleItemCompletion | src/pages/Checklist.jsx:139-168 | The item is flipped optimistically. A rejection sets it back to the passed value. A throw keeps the flipped value. Other items are untouched, and an error is shown on failure. |
| ChecklistPage.RejectedToggleRestores | src/pages/Checklist.jsx:139-168 | When the passed value is the item's current state, a rejected toggle leaves the list exactly as it was. |
| ChecklistPage.RemoveItem | src/pages/Checklist.jsx:170-190 | The item is removed unless the server rejects the removal, in which case an error is shown. |
| ChecklistPage.RemoveDropsExactly | src/pages/Checklist.jsx:170-190 | Removal keeps exactly the items with other ids, in order. |
| ChecklistPage.Percentage | src/pages/Checklist.jsx:204-209 | The percentage is rounded, lies in 0-100, is 0 when nothing is done and 100 when all is done. |
| ChecklistPage.PercentageIsRounded | src/pages/Checklist.jsx:206-207 | The shown percentage is within one half of the exact one. |
| ChecklistPage.CompletionStats | src/pages/Checklist.jsx:204-209 | The total, the completed count and the rounded percentage. |
| PlacementPage.Started | src/pages/PlacementPrep.jsx:50-59 | The earlier questions, answers and results are cleared; the typed role is kept only for "custom". |
| PlacementPage.GeneratePlacementContent | src/pages/PlacementPrep.jsx:38-94 | A blank company or role shows its message and sends nothing. Otherwise the trimmed names are sent (with the bearer token if any). The reply fills the questions, or else shows an error. |
| PlacementPage.SelectAnswer | src/pages/PlacementPrep.jsx:96-101 | Only that question's answer changes. |
| PlacementPage.CountCorrect | src/pages/PlacementPrep.jsx:103-109 | The count never exceeds the number of questions. |
| PlacementPage.CalculateScore | src/pages/PlacementPrep.jsx:103-112 | The loop counts the correct answers and shows the results. |
| PlacementPage.AllCorrectScoresAll | src/pages/PlacementPrep.jsx:103-112 | All answers correct gives full marks. |
| PlacementPage.AnswerChangesOneQuestion | src/pages/PlacementPrep.jsx:96-112 | Changing one answer moves the score only by that question's verdict. |
| PlacementPage.ResetQuiz | src/pages/PlacementPrep.jsx:114-119 | The answers, results, position and score are cleared, and the questions are kept. |
| PlacementPage.ResetScoresNothing | src/pages/PlacementPrep.jsx:103-119 | After a reset, questions that have a correct answer score 0. |
| PlacementPage.NextQuestion | src/pages/PlacementPrep.jsx:121-125 | Moves forward except at the last question. |
| PlacementPage.PrevQuestion | src/pages/PlacementPrep.jsx:127-131 | Moves back except at the first question. |
| PlacementPage.NavigationStaysInRange | src/pages/PlacementPrep.jsx:121-131 | Navigation keeps the index in range, and back undoes forward. |
| PlacementPage.ScoreColor | src/pages/PlacementPrep.jsx:133-138 | Green at 80% or more; red below 60%. |
| PlacementPage.ScoreColorMonotone | src/pages/PlacementPrep.jsx:133-138 | A higher score never gets a worse colour. |
| PlacementPage.NoQuestionsIsRed | src/pages/PlacementPrep.jsx:103-138 | A score over no questions is shown red. |
| CourseDetailPage.VideoId | src/pages/CourseDetail.jsx:103-106 | A link without "v=" yields its last path segment. |
| CourseDetailPage.EmbedUrl | src/pages/CourseDetail.jsx:103-106 | The result is always an embed link. |
| CourseDetailPage.WatchLinkRoundTrip | src/pages/CourseDetail.jsx:103-106 | A watch link yields its video id. |
| CourseDetailPage.PathLinkRoundTrip | src/pages/CourseDetail.jsx:103-106 | A short or path link yields its video id. |
| CourseDetailPage.EmbedLinkIsFixed | src/pages/CourseDetail.jsx:103-106 | An embed link is left as it is. |
| CourseDetailPage.DifficultyColor | src/pages/CourseDetail.jsx:108-115 | Grey exactly for an unknown level. |
| CourseDetailPage.DifficultyColorsDiffer | src/pages/CourseDetail.jsx:108-115 | The three levels get three different colours. |
| CourseDetailPage.EnrollAsWritten | src/pages/CourseDetail.jsx:17 | As written, a signed-in user is never enrolled, and the login page is shown exactly without a token. |
| CourseDetailPage.EnrollAsWrittenNeverEnrolls | src/pages/CourseDetail.jsx:64-101 | A token and an answered request: the page as written fails where the intended one enrols. |
| CourseDetailPage.Enroll | src/pages/CourseDetail.jsx:64-101 | Login without a token; enrolled exactly when the request is answered. |
| CourseDetailPage.HandleEnroll | src/pages/CourseDetail.jsx:64-101 | The intended outcome. The enrolment is recorded through the tracker only with a token. |
| Text.IndexOf | src/pages/CourseDetail.jsx:105 | The first occurrence, or none exactly when there is none. |
| Text.Split | src/pages/CourseDetail.jsx:105 | Splitting always gives at least one piece. |
| Text.LastPieceIsSuffix | src/pages/CourseDetail.jsx:105 | `pop()` gives a suffix that contains no separator. |
| Text.BlankIffAllWhitespace | src/pages/PlacementPrep.jsx:39 | A string trims to empty exactly when every character is in the white-space and line-terminator set that `trim` strips, including the Unicode space separators. |
| Text.IdeographicSpaceIsBlank | src/pages/Checklist.jsx:99 | An ideographic space, and a mix of space, line separator and no-break space, are blank. |
| Text.Utf16Length | src/services/recommendationService.js:118 | `length` counts UTF-16 code units: between one and two per character, and exactly one per character inside the Basic Multilingual Plane. |
| Text.AstralPairLength | src/services/recommendationService.js:118 | Two characters outside the Basic Multilingual Plane have length 4. |
| Text.Capitalize | src/services/recommendationService.js:119 | The first letter is upper-cased and the rest kept. |
| Lists.FilterMembers | src/pages/Checklist.jsx:44-60 | Exactly the elements that satisfy the predicate are kept. |
| Lists.FilterIsSubsequence | src/pages/Checklist.jsx:44-60 | Filtering keeps the order. |
| Lists.LastN | src/services/federatedLearningClient.js:188-189 | `slice(-n)`: the last min(n, length) elements. |
| Json.Spread | src/hooks/useInteractionTracker.js:22-25 | Object spread: the later object's keys win, and the others are kept. |

## Findings

| source | as written | input that shows it | evidently intended | confidence | as-written member | corrected member |
|---|---|---|---|---|---|---|
| src/pages/CourseDetail.jsx:17 | `const trackInteraction = useInteractionTracker();` binds the object `{ track }`, so the call `trackInteraction(...)` in `handleEnroll` (lines 71-80) throws a TypeError before the enrolment request is sent, and the catch shows the failure alert | a signed-in user (token present) whose enrolment request would be answered | record the enrolment through the hook's `track`, send the request, and show the success alert | high, not executed | CourseDetailPage.EnrollAsWritten, CourseDetailPage.EnrollAsWrittenNeverEnrolls | CourseDetailPage.Enroll, CourseDetailPage.HandleEnroll |

## Left out

- The TensorFlow numerics are left out: layers, `fit`, tensors, `predict` and the weight serialisation. A fit is a parameter: the loss and accuracy of each epoch it completed, then either the final figures or a failure. A network is its layer shapes.
- `loadModelFromWeights` internals are left out. A download script says which step fails: the metadata fetch, the weights fetch, building the network, or caching the metadata.
- The hour-of-day feature (`new Date(timestamp).getHours()`) is an oracle `Option<int> -> Hour`, because the time zone and clock are outside the program.
- Network requests, `localStorage` reads and writes, and `Date.now()` are parameters of the operations that use them. Request bodies are modelled only by the fields the code chooses.
- socket.io's own reconnection, transport and timing are left out. Server events arrive one at a time through `Deliver`.
- A handler that changes the registry while `emit` is running is not modelled.
- React's effect scheduling, state batching and closures are left out. State updates are applied in the order the code issues them, and each handler is a method over the provider's fields.
- The random part of session ids (`Math.random`) is left out: the id is a parameter.
- The JWT decoder is an oracle that yields the payload's numeric `exp` (or none, or a throw). A non-numeric `exp` coerced by `<` is not modelled.
- Case mapping covers ASCII letters only.
- Float rounding is left out: `Math.round` and the colour thresholds are computed in exact arithmetic.
- JavaScript's ordering of integer-like object keys ahead of other keys is left out: `Object.entries` is modelled in insertion order.
- Recommendations.TopicFrequency, Recommendations.ComputeTopicFrequency, Recommendations.AddTo, TrainingBuffer.Bump, TrainingBuffer.TopicCounts, TrainingBuffer.TypeCounts and TrainingBuffer.DistributionOf count into maps with no inherited keys. Keys that collide with `Object.prototype` names are not modelled. In JavaScript, a topic or type such as "constructor" or "toString" reads the inherited function, so `|| 0` keeps it and the count becomes a string. A key "__proto__" is never stored.
- SessionContext.HistoryEntry and SessionContext.FederatedLearningProvider.HandleNotification spread only object payloads. Spreading a string payload, which JavaScript turns into one key per index, is not modelled: a string contributes no fields.
- The roadmap and resource trackers (src/hooks/useInteractionTracker.js:104-126 and 154-186) are left out, since no page in the modelled core uses them.
- `fetchChecklist`, `fetchCourseDetails` (with its `course_view` tracking) and the pages' loading flags and rendering are left out. They only fetch and display.
- YouTube.VideoDatabase: the catalogue is a parameter of GetYouTubeVideos and LoadRecommendedVideos, and no property of its contents is proved beyond what Select guarantees for any catalogue.
- The context's `getTrainingDataSummary` (src/contexts/FederatedLearningContext.jsx:237-239) is a plain pass-through to FederatedClient.FederatedLearningClient.GetTrainingDataSummary.
- SessionContext.FederatedLearningProvider.HandleRoundStarted, HandleRoundCompleted, HandleNewModelVersion and HandleUpdateAccepted take the notice text as a parameter, because it is a template literal over the payload's numbers (src/contexts/FederatedLearningContext.jsx:64, 73, 83, 92; one uses `toFixed`) and number-to-string formatting is not modelled.
- SessionContext.FederatedLearningProvider.HandleUpdateRejected takes no rendered message, because the source's notice uses the event's `reason` instead.
- SessionContext.FederatedLearningProvider.Teardown only disconnects, as the code does: the six handlers stay registered, and a later connect adds them again.
- SessionContext.FederatedLearningProvider.InitializeClient marks the provider initialised even when a storage read fails, because the client's `initialize` catches its own errors.
- The context's catch branch in `participateInTraining` (lines 209-221) is not modelled, because the client's workflow never throws.
- SessionContext.FederatedLearningProvider.ParticipateInTraining passes the epoch reports to the progress callback after the client's workflow returns, not during `fit`. The callback touches only the context and the socket, and the workflow touches neither, so the frames sent and the final state are the same. The intermediate progress states are overwritten by the final one.
- Auth.ExpiryRule: a token is accepted at the instant `exp == now`, since the code tests `exp < now`. Section 4.1.4 of RFC 7519 says a token must be rejected "on or after" its expiration time. This one-instant difference is noted, not modelled as a finding.
