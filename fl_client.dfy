/** The on-device federated learning client (src/services/federatedLearningClient.js): the
    local model slot, the record buffer, the single-flight training flag, and the
    download, train and submit workflow. The numeric engine is opaque: what the network
    and the engine do is given to each method as an outcome. */
module FederatedClient {
  import opened Wrappers
  import opened Interactions
  import opened Features
  import opened TrainingBuffer

  datatype LayerSpec = Dense(units: nat, activation: string) | Dropout(rate: real)

  datatype Architecture = Architecture(layers: seq<LayerSpec>, inputShape: seq<nat>, outputShape: seq<nat>)

  datatype ModelMetadata = ModelMetadata(modelId: string, version: int, modelType: string, architecture: Architecture)

  /** The network fallen back on when no model could be downloaded: 10 inputs, two ReLU
      layers with a 20% dropout between them, and 8 sigmoid outputs. */
  const DefaultLayers: seq<LayerSpec> :=
    [Dense(32, "relu"), Dropout(0.2), Dense(16, "relu"), Dense(8, "sigmoid")]
  const DefaultInputShape: seq<nat> := [10]
  const DefaultMetadata: ModelMetadata :=
    ModelMetadata("local_default", 0, "recommendation", Architecture([], [10], [8]))

  /** The width of the last dense layer. */
  function OutputWidth(layers: seq<LayerSpec>): Option<nat>
    decreases |layers|
  {
    if layers == [] then None
    else if layers[|layers| - 1].Dense? then Some(layers[|layers| - 1].units)
    else OutputWidth(layers[..|layers| - 1])
  }

  /** The default network reads exactly one feature vector and produces one label vector. */
  lemma DefaultNetworkFitsEncoding()
    ensures DefaultInputShape == [FeatureCount] && OutputWidth(DefaultLayers) == Some(LabelWidth)
    ensures DefaultMetadata.architecture.inputShape == [FeatureCount]
    ensures DefaultMetadata.architecture.outputShape == [LabelWidth]
  {
    assert DefaultLayers[..3][..2] == [Dense(32, "relu"), Dropout(0.2)];
  }

  /** The in-memory network: one built from a downloaded model, one whose construction
      threw after the old network was already replaced, or the default one. */
  datatype LocalModel = ServerNetwork(modelId: string) | IncompleteNetwork | DefaultNetwork

  /** What the server and the decoder do during `downloadGlobalModel`, step by step. */
  datatype DownloadScript =
    | MetadataFetchFails(error: string)
    | WeightsFetchFails(metadata: ModelMetadata, error: string)
    | WeightsUnreadable(metadata: ModelMetadata, error: string)
    | NetworkBuildFails(metadata: ModelMetadata, error: string)
    | MetadataCacheFails(metadata: ModelMetadata, error: string)
    | Downloaded(metadata: ModelMetadata)

  const AuthenticationRequired := "Authentication required"
  const NoLocalModel := "No local model available"
  const LocalTrainingFailed := "Local training failed"
  const NullMetadataError := "Cannot read properties of null (reading 'modelId')"

  /** A non-empty token is in local storage. */
  predicate HasToken(token: Option<string>) {
    Present(token)
  }

  /** The download reached the server's metadata. */
  predicate ReceivesMetadata(token: Option<string>, script: DownloadScript) {
    HasToken(token) && !script.MetadataFetchFails?
  }

  /** The download replaced the network object. */
  predicate ReplacesNetwork(token: Option<string>, script: DownloadScript) {
    HasToken(token) && (script.NetworkBuildFails? || script.MetadataCacheFails? || script.Downloaded?)
  }

  function NetworkFrom(script: DownloadScript): LocalModel
    requires !script.MetadataFetchFails?
  {
    if script.NetworkBuildFails? then IncompleteNetwork else ServerNetwork(script.metadata.modelId)
  }

  function DownloadError(token: Option<string>, script: DownloadScript): string {
    if !HasToken(token) then AuthenticationRequired
    else if script.Downloaded? then ""
    else script.error
  }

  /** The network slot after `downloadGlobalModel` ran over `prior`: the rebuilt network,
      else the default one when there was none, else the old one. There is always a
      network afterwards. */
  function ModelAfterDownload(token: Option<string>, script: DownloadScript, prior: Option<LocalModel>)
    : (m: Option<LocalModel>)
    ensures m.Some?
    ensures HasToken(token) && script.Downloaded? ==> m == Some(ServerNetwork(script.metadata.modelId))
    ensures !ReplacesNetwork(token, script) && prior.Some? ==> m == prior
  {
    if ReplacesNetwork(token, script) then Some(NetworkFrom(script))
    else if prior.None? then Some(DefaultNetwork)
    else prior
  }

  /** The metadata slot after `downloadGlobalModel`: the server's metadata once it arrived,
      unless the default model was installed over it. */
  function MetadataAfterDownload(token: Option<string>, script: DownloadScript, priorModel: Option<LocalModel>,
                                 priorMetadata: Option<ModelMetadata>): (m: Option<ModelMetadata>)
    ensures m.Some? <==> priorModel.None? || ReceivesMetadata(token, script) || priorMetadata.Some?
    ensures HasToken(token) && script.Downloaded? ==> m == Some(script.metadata)
    ensures !ReceivesMetadata(token, script) && priorModel.Some? ==> m == priorMetadata
  {
    if ReplacesNetwork(token, script) then Some(script.metadata)
    else if priorModel.None? then Some(DefaultMetadata)
    else if ReceivesMetadata(token, script) then Some(script.metadata)
    else priorMetadata
  }

  /** The persisted metadata after `downloadGlobalModel`: written only by a complete
      download. */
  function StoredAfterDownload(token: Option<string>, script: DownloadScript, prior: Option<ModelMetadata>)
    : (m: Option<ModelMetadata>)
    ensures m != prior ==> HasToken(token) && script.Downloaded? && m == Some(script.metadata)
    ensures HasToken(token) && script.Downloaded? ==> m == Some(script.metadata)
  {
    if HasToken(token) && script.Downloaded? then Some(script.metadata) else prior
  }

  /** The training options the workflow reads: `epochs` (falsy means 5) and `downloadLatest`. */
  datatype TrainOptions = TrainOptions(epochs: Option<int>, downloadLatest: bool)

  /** `options.epochs || 5`. */
  function EpochsOf(options: TrainOptions): (n: int)
    ensures n != 0
    ensures options.epochs.Some? && options.epochs.value != 0 ==> n == options.epochs.value
  {
    if options.epochs.Some? && options.epochs.value != 0 then options.epochs.value else 5
  }

  /** The figures `fit` hands to `onEpochEnd` after one epoch. */
  datatype EpochLog = EpochLog(loss: real, accuracy: real)

  /** What the numeric engine's `fit` does: the log of each epoch it completed, then the
      final epoch's figures or a throw. */
  datatype FitOutcome =
    | FitSucceeded(epochLogs: seq<EpochLog>, loss: real, accuracy: real,
                   validationLoss: Option<real>, validationAccuracy: Option<real>)
    | FitFails(epochLogs: seq<EpochLog>, error: string)

  /** The object `onEpochEnd` passes to `options.onProgress`. */
  datatype EpochReport = EpochReport(epoch: int, totalEpochs: int, loss: real, accuracy: real)

  /** The `onProgress` calls made during a fit of `totalEpochs` epochs, one per completed
      epoch, in order, numbered from 1. */
  function Reports(logs: seq<EpochLog>, totalEpochs: int): (reports: seq<EpochReport>)
    ensures |reports| == |logs|
    ensures forall i :: 0 <= i < |logs| ==>
      reports[i] == EpochReport(i + 1, totalEpochs, logs[i].loss, logs[i].accuracy)
    decreases |logs|
  {
    if logs == [] then []
    else
      var last := logs[|logs| - 1];
      Reports(logs[..|logs| - 1], totalEpochs) + [EpochReport(|logs|, totalEpochs, last.loss, last.accuracy)]
  }

  /** `trainLocalModel` reaches `fit`: no run is in flight, a network is in place (kept,
      or downloaded at the start of the run), and the buffer holds enough records. */
  predicate FitRuns(training: bool, model: Option<LocalModel>, token: Option<string>, script: DownloadScript,
                    samples: nat) {
    && !training
    && (model.Some? || (HasToken(token) && script.Downloaded?))
    && samples >= MinTrainingSamples
  }

  /** The `onProgress` calls of one `trainLocalModel` run: one per completed epoch when
      `fit` is reached, none otherwise. */
  function RunProgress(options: TrainOptions, fit: FitOutcome, runs: bool): (reports: seq<EpochReport>)
    ensures runs ==> |reports| == |fit.epochLogs|
    ensures runs ==> forall i :: 0 <= i < |reports| ==> reports[i].epoch == i + 1 && reports[i].totalEpochs == EpochsOf(options)
    ensures !runs ==> reports == []
  {
    if runs then Reports(fit.epochLogs, EpochsOf(options)) else []
  }

  /** `participateInTraining` downloads first when there is no network or the caller asks
      for the latest model. */
  predicate DownloadsFirst(model: Option<LocalModel>, options: TrainOptions) {
    model.None? || options.downloadLatest
  }

  /** The workflow gets past its own download: none was needed, or it completed. */
  predicate PastDownload(model: Option<LocalModel>, options: TrainOptions, token: Option<string>,
                         script: DownloadScript) {
    !DownloadsFirst(model, options) || (HasToken(token) && script.Downloaded?)
  }

  /** Every step of `participateInTraining` succeeds: the download (if one is needed), the
      training (not already running, enough records, a fit that completes), and the
      submission (a token, metadata to name the model, an acknowledgement). */
  predicate ParticipationSucceeds(training: bool, model: Option<LocalModel>, metadata: Option<ModelMetadata>,
                                  samples: nat, options: TrainOptions, token: Option<string>,
                                  script: DownloadScript, fit: FitOutcome, answer: SubmitOutcome) {
    && PastDownload(model, options, token, script)
    && !training
    && samples >= MinTrainingSamples
    && fit.FitSucceeded?
    && HasToken(token)
    && (DownloadsFirst(model, options) || metadata.Some?)
    && answer.Acknowledged?
  }

  datatype TrainingMetrics = TrainingMetrics(
    localEpochs: int,
    samplesUsed: nat,
    trainingLoss: real,
    trainingAccuracy: real,
    validationLoss: Option<real>,
    validationAccuracy: Option<real>)

  /** `trainLocalModel` returns `null`, returns metrics, or throws. */
  datatype TrainOutcome = AlreadyTraining | Trained(metrics: TrainingMetrics) | TrainingFailed(error: string)

  /** The body posted to the submission endpoint; weights and device diagnostics are left
      out. */
  datatype UpdatePayload = UpdatePayload(
    modelId: string,
    format: string,
    compression: string,
    updateType: string,
    metrics: TrainingMetrics,
    dataDistribution: Distribution)

  /** The server's answer to the submission: an acknowledgement or a rejected request. */
  datatype SubmitOutcome = Acknowledged(ack: string) | SubmitFails(error: string)

  /** `participateInTraining`'s result object: `{success: true, trainingMetrics,
      submitResult}` or `{success: false, error}`. */
  datatype Participation =
    | Participated(trainingMetrics: TrainingMetrics, submitResult: string)
    | NotParticipated(error: string)
  {
    predicate Success() { Participated? }
  }

  datatype Summary = Summary(
    totalSamples: nat,
    distribution: Distribution,
    oldestSample: Option<int>,
    newestSample: Option<int>)

  class FederatedLearningClient {
    var localModel: Option<LocalModel>
    var modelMetadata: Option<ModelMetadata>
    var trainingData: seq<InteractionRecord>
    var isTraining: bool
    /** The 'modelMetadata' and 'trainingData' slots of the persistent store. */
    var storedMetadata: Option<ModelMetadata>
    var storedTrainingData: Option<seq<InteractionRecord>>

    /** A fresh client over a store that may hold what earlier sessions persisted. */
    constructor (persistedMetadata: Option<ModelMetadata>, persistedData: Option<seq<InteractionRecord>>)
      ensures localModel.None? && modelMetadata.None? && trainingData == [] && !isTraining
      ensures storedMetadata == persistedMetadata && storedTrainingData == persistedData
    {
      localModel := None;
      modelMetadata := None;
      trainingData := [];
      isTraining := false;
      storedMetadata := persistedMetadata;
      storedTrainingData := persistedData;
    }

    /** `initialize`: load the cached metadata and buffer; false when a read fails. */
    method Initialize(metadataReadOk: bool, dataReadOk: bool) returns (ok: bool)
      modifies this
      ensures ok == (metadataReadOk && dataReadOk)
      ensures modelMetadata == if metadataReadOk then storedMetadata else old(modelMetadata)
      ensures trainingData == if ok && storedTrainingData.Some? then storedTrainingData.value else old(trainingData)
      ensures localModel == old(localModel) && isTraining == old(isTraining)
      ensures storedMetadata == old(storedMetadata) && storedTrainingData == old(storedTrainingData)
    {
      if !metadataReadOk {
        return false;
      }
      modelMetadata := storedMetadata;
      if !dataReadOk {
        return false;
      }
      if storedTrainingData.Some? {
        trainingData := storedTrainingData.value;
      }
      return true;
    }

    /** `createDefaultModel`: install the default network and its placeholder metadata. */
    method CreateDefaultModel()
      modifies this
      ensures localModel == Some(DefaultNetwork) && modelMetadata == Some(DefaultMetadata)
      ensures trainingData == old(trainingData) && isTraining == old(isTraining)
      ensures storedMetadata == old(storedMetadata) && storedTrainingData == old(storedTrainingData)
    {
      localModel := Some(DefaultNetwork);
      modelMetadata := Some(DefaultMetadata);
    }

    /** `downloadGlobalModel`: fetch metadata, then weights, rebuild the network and cache
        the metadata. On failure the default model is installed only when no network object
        exists at that point, and the error is rethrown. */
    method DownloadGlobalModel(token: Option<string>, script: DownloadScript)
      returns (r: Result<ModelMetadata, string>)
      modifies this
      ensures r.Ok? <==> HasToken(token) && script.Downloaded?
      ensures r.Ok? ==> r.value == script.metadata
      ensures r.Err? ==> r.error == DownloadError(token, script)
      ensures localModel == ModelAfterDownload(token, script, old(localModel))
      ensures modelMetadata == MetadataAfterDownload(token, script, old(localModel), old(modelMetadata))
      ensures storedMetadata == StoredAfterDownload(token, script, old(storedMetadata))
      ensures trainingData == old(trainingData) && isTraining == old(isTraining)
      ensures storedTrainingData == old(storedTrainingData)
    {
      if !HasToken(token) {
        r := Err(AuthenticationRequired);
      } else if script.MetadataFetchFails? {
        r := Err(script.error);
      } else {
        modelMetadata := Some(script.metadata);
        match script {
          case WeightsFetchFails(_, e) => r := Err(e);
          case WeightsUnreadable(_, e) => r := Err(e);
          case NetworkBuildFails(_, e) =>
            localModel := Some(IncompleteNetwork);
            r := Err(e);
          case MetadataCacheFails(m, e) =>
            localModel := Some(ServerNetwork(m.modelId));
            r := Err(e);
          case Downloaded(m) =>
            localModel := Some(ServerNetwork(m.modelId));
            storedMetadata := Some(m);
            r := Ok(m);
        }
      }
      if r.Err? && localModel.None? {
        CreateDefaultModel();
      }
    }

    /** `addTrainingData`: stamp the record, append it to the bounded buffer, persist the
        buffer, then post the unstamped record when a token exists. Errors are swallowed. */
    method AddTrainingData(record: InteractionRecord, now: int, token: Option<string>, storeOk: bool)
      returns (posted: Option<InteractionRecord>)
      modifies this
      ensures trainingData == Append(old(trainingData), record.(timestamp := Some(now)))
      ensures storedTrainingData == if storeOk then Some(trainingData) else old(storedTrainingData)
      ensures posted == if storeOk && HasToken(token) then Some(record) else None
      ensures localModel == old(localModel) && modelMetadata == old(modelMetadata)
      ensures isTraining == old(isTraining) && storedMetadata == old(storedMetadata)
    {
      trainingData := Append(trainingData, record.(timestamp := Some(now)));
      posted := None;
      if storeOk {
        storedTrainingData := Some(trainingData);
        if HasToken(token) {
          posted := Some(record);
        }
      }
    }

    /** `prepareTrainingDataset`: one feature row and one label row per buffered record. */
    method PrepareTrainingDataset(hourOf: Option<int> -> Hour) returns (r: Result<Dataset, string>)
      ensures r == DatasetOf(trainingData, hourOf)
    {
      if |trainingData| < MinTrainingSamples {
        return Err(InsufficientData);
      }
      var features: seq<seq<real>> := [];
      var labels: seq<seq<real>> := [];
      var i := 0;
      while i < |trainingData|
        invariant 0 <= i <= |trainingData|
        invariant features == FeatureRows(trainingData[..i], hourOf)
        invariant labels == LabelRows(trainingData[..i])
      {
        var interaction := trainingData[i];
        assert trainingData[..i + 1][..i] == trainingData[..i];
        features := features + [ExtractFeatures(interaction, hourOf(interaction.timestamp))];
        labels := labels + [Label(interaction)];
        i := i + 1;
      }
      assert trainingData[..i] == trainingData;
      return Ok(Dataset(features, labels));
    }

    /** `getDataDistribution`: records per truthy topic and per interaction type. */
    method GetDataDistribution() returns (d: Distribution)
      ensures d == DistributionOf(trainingData)
    {
      var topicCounts: map<string, nat> := map[];
      var interactionTypes: map<string, nat> := map[];
      var i := 0;
      while i < |trainingData|
        invariant 0 <= i <= |trainingData|
        invariant topicCounts == TopicCounts(trainingData[..i])
        invariant interactionTypes == TypeCounts(trainingData[..i])
      {
        var interaction := trainingData[i];
        assert trainingData[..i + 1][..i] == trainingData[..i];
        if Present(interaction.topic) {
          topicCounts := Bump(topicCounts, interaction.topic.value);
        }
        interactionTypes := Bump(interactionTypes, interaction.interactionType);
        i := i + 1;
      }
      assert trainingData[..i] == trainingData;
      d := Distribution(topicCounts, interactionTypes, |trainingData|);
    }

    /** `trainLocalModel`: rejected with `null` while a run is in flight; otherwise the
        flag is held for the run and released on success and on failure. `progress` lists
        the calls made to `options.onProgress`, one per epoch `fit` completed. */
    method TrainLocalModel(options: TrainOptions, token: Option<string>, script: DownloadScript,
                           fit: FitOutcome, hourOf: Option<int> -> Hour)
      returns (r: TrainOutcome, progress: seq<EpochReport>)
      modifies this
      ensures old(isTraining) ==> r == AlreadyTraining && progress == [] && unchanged(this)
      ensures !old(isTraining) ==> !isTraining && r != AlreadyTraining
      ensures trainingData == old(trainingData) && storedTrainingData == old(storedTrainingData)
      ensures old(localModel).Some? ==>
        localModel == old(localModel) && modelMetadata == old(modelMetadata) && storedMetadata == old(storedMetadata)
      ensures !old(isTraining) && old(localModel).None? ==>
        && localModel == ModelAfterDownload(token, script, None)
        && modelMetadata == MetadataAfterDownload(token, script, None, old(modelMetadata))
        && storedMetadata == StoredAfterDownload(token, script, old(storedMetadata))
      ensures !old(isTraining) && old(localModel).None? && !(HasToken(token) && script.Downloaded?) ==>
        r == TrainingFailed(DownloadError(token, script))
      ensures progress == RunProgress(options, fit, FitRuns(old(isTraining), old(localModel), token, script, |trainingData|))
      ensures r.Trained? <==> FitRuns(old(isTraining), old(localModel), token, script, |trainingData|) && fit.FitSucceeded?
      ensures r.Trained? ==> r.metrics == TrainingMetrics(EpochsOf(options), |trainingData|, fit.loss, fit.accuracy,
                                                          fit.validationLoss, fit.validationAccuracy)
      ensures FitRuns(old(isTraining), old(localModel), token, script, |trainingData|) && fit.FitFails? ==>
        r == TrainingFailed(fit.error)
      ensures !old(isTraining) && (old(localModel).Some? || (HasToken(token) && script.Downloaded?)) &&
              |trainingData| < MinTrainingSamples ==>
        r == TrainingFailed(InsufficientData)
    {
      progress := [];
      if isTraining {
        return AlreadyTraining, [];
      }
      if localModel.None? {
        var downloaded := DownloadGlobalModel(token, script);
        if downloaded.Err? {
          return TrainingFailed(downloaded.error), [];
        }
      }
      isTraining := true;
      var dataset := PrepareTrainingDataset(hourOf);
      if dataset.Err? {
        isTraining := false;
        return TrainingFailed(dataset.error), [];
      }
      progress := Reports(fit.epochLogs, EpochsOf(options));
      match fit {
        case FitFails(_, e) =>
          isTraining := false;
          r := TrainingFailed(e);
        case FitSucceeded(_, loss, accuracy, validationLoss, validationAccuracy) =>
          isTraining := false;
          r := Trained(TrainingMetrics(EpochsOf(options), |trainingData|, loss, accuracy,
                                       validationLoss, validationAccuracy));
      }
    }

    /** `submitModelUpdate`: needs a token and a network; posts the metrics with the current
        data distribution under the current model's id. */
    method SubmitModelUpdate(metrics: TrainingMetrics, token: Option<string>, answer: SubmitOutcome)
      returns (r: Result<string, string>, payload: Option<UpdatePayload>)
      ensures !HasToken(token) ==> r == Err(AuthenticationRequired) && payload.None?
      ensures HasToken(token) && localModel.None? ==> r == Err(NoLocalModel) && payload.None?
      ensures HasToken(token) && localModel.Some? && modelMetadata.None? ==> r == Err(NullMetadataError) && payload.None?
      ensures payload.Some? <==> HasToken(token) && localModel.Some? && modelMetadata.Some?
      ensures payload.Some? ==>
        && payload.value.modelId == modelMetadata.value.modelId
        && payload.value.metrics == metrics
        && payload.value.dataDistribution == DistributionOf(trainingData)
        && r == (match answer case Acknowledged(a) => Ok(a) case SubmitFails(e) => Err(e))
    {
      payload := None;
      if !HasToken(token) {
        return Err(AuthenticationRequired), None;
      }
      if localModel.None? {
        return Err(NoLocalModel), None;
      }
      if modelMetadata.None? {
        return Err(NullMetadataError), None;
      }
      var distribution := GetDataDistribution();
      payload := Some(UpdatePayload(modelMetadata.value.modelId, "tensorflowjs", "none", "weights",
                                    metrics, distribution));
      match answer {
        case Acknowledged(a) => r := Ok(a);
        case SubmitFails(e) => r := Err(e);
      }
    }

    /** `participateInTraining`: download when needed, train, submit; every failure becomes
        `{success: false, error}`. `progress` lists the calls made to `options.onProgress`
        during the training step. */
    method ParticipateInTraining(options: TrainOptions, token: Option<string>, script: DownloadScript,
                                 fit: FitOutcome, answer: SubmitOutcome, hourOf: Option<int> -> Hour)
      returns (r: Participation, progress: seq<EpochReport>)
      modifies this
      ensures isTraining == old(isTraining)
      ensures trainingData == old(trainingData) && storedTrainingData == old(storedTrainingData)
      ensures localModel ==
        if DownloadsFirst(old(localModel), options) then ModelAfterDownload(token, script, old(localModel)) else old(localModel)
      ensures modelMetadata ==
        if DownloadsFirst(old(localModel), options)
        then MetadataAfterDownload(token, script, old(localModel), old(modelMetadata))
        else old(modelMetadata)
      ensures storedMetadata ==
        if DownloadsFirst(old(localModel), options) then StoredAfterDownload(token, script, old(storedMetadata))
        else old(storedMetadata)
      ensures !PastDownload(old(localModel), options, token, script) ==>
        r == NotParticipated(DownloadError(token, script))
      ensures old(isTraining) && PastDownload(old(localModel), options, token, script) ==>
        r == NotParticipated(LocalTrainingFailed)
      ensures progress == RunProgress(options, fit,
        PastDownload(old(localModel), options, token, script) && !old(isTraining) && |trainingData| >= MinTrainingSamples)
      ensures r.Participated? <==>
        ParticipationSucceeds(old(isTraining), old(localModel), old(modelMetadata), |trainingData|,
                              options, token, script, fit, answer)
      ensures r.Participated? ==>
        && r.submitResult == answer.ack
        && r.trainingMetrics == TrainingMetrics(EpochsOf(options), |trainingData|, fit.loss, fit.accuracy,
                                                fit.validationLoss, fit.validationAccuracy)
      ensures PastDownload(old(localModel), options, token, script) && !old(isTraining) &&
              |trainingData| < MinTrainingSamples ==>
        r == NotParticipated(InsufficientData)
      ensures PastDownload(old(localModel), options, token, script) && !old(isTraining) &&
              |trainingData| >= MinTrainingSamples && fit.FitFails? ==>
        r == NotParticipated(fit.error)
      ensures PastDownload(old(localModel), options, token, script) && !old(isTraining) &&
              |trainingData| >= MinTrainingSamples && fit.FitSucceeded? && !HasToken(token) ==>
        r == NotParticipated(AuthenticationRequired)
      ensures PastDownload(old(localModel), options, token, script) && !old(isTraining) &&
              |trainingData| >= MinTrainingSamples && fit.FitSucceeded? && HasToken(token) &&
              !DownloadsFirst(old(localModel), options) && old(modelMetadata).None? ==>
        r == NotParticipated(NullMetadataError)
      ensures PastDownload(old(localModel), options, token, script) && !old(isTraining) &&
              |trainingData| >= MinTrainingSamples && fit.FitSucceeded? && HasToken(token) &&
              (DownloadsFirst(old(localModel), options) || old(modelMetadata).Some?) && answer.SubmitFails? ==>
        r == NotParticipated(answer.error)
    {
      progress := [];
      if localModel.None? || options.downloadLatest {
        var downloaded := DownloadGlobalModel(token, script);
        if downloaded.Err? {
          return NotParticipated(downloaded.error), [];
        }
      }
      var trained;
      trained, progress := TrainLocalModel(options, token, script, fit, hourOf);
      match trained {
        case AlreadyTraining =>
          r := NotParticipated(LocalTrainingFailed);
        case TrainingFailed(e) =>
          r := NotParticipated(e);
        case Trained(metrics) =>
          var submitted, _ := SubmitModelUpdate(metrics, token, answer);
          match submitted {
            case Ok(ack) => r := Participated(metrics, ack);
            case Err(e) => r := NotParticipated(e);
          }
      }
    }

    /** `clearLocalData`: empty the buffer, then remove its persisted copy (which may
        reject). */
    method ClearLocalData(removeOk: bool) returns (r: Outcome<string>)
      modifies this
      ensures trainingData == []
      ensures storedTrainingData == if removeOk then None else old(storedTrainingData)
      ensures r.Pass? == removeOk
      ensures localModel == old(localModel) && modelMetadata == old(modelMetadata)
      ensures isTraining == old(isTraining) && storedMetadata == old(storedMetadata)
    {
      trainingData := [];
      if removeOk {
        storedTrainingData := None;
        r := Pass;
      } else {
        r := Fail("storage error");
      }
    }

    /** `getTrainingDataSummary`: sample count, distribution, and the first and last
        timestamps, `null` for an empty buffer. */
    method GetTrainingDataSummary() returns (s: Summary)
      ensures s.totalSamples == |trainingData| == s.distribution.totalSamples
      ensures s.distribution == DistributionOf(trainingData)
      ensures trainingData == [] ==> s.oldestSample.None? && s.newestSample.None?
      ensures trainingData != [] ==>
        s.oldestSample == trainingData[0].timestamp && s.newestSample == trainingData[|trainingData| - 1].timestamp
    {
      var distribution := GetDataDistribution();
      if |trainingData| > 0 {
        s := Summary(|trainingData|, distribution, trainingData[0].timestamp,
                     trainingData[|trainingData| - 1].timestamp);
      } else {
        s := Summary(0, distribution, None, None);
      }
    }
  }

  /** Clearing the buffer and then asking for the summary reports no samples and no
      timestamps. */
  method ClearThenSummarize(client: FederatedLearningClient, removeOk: bool) returns (s: Summary)
    modifies client
    ensures s.totalSamples == 0 && s.oldestSample.None? && s.newestSample.None?
    ensures s.distribution == Distribution(map[], map[], 0)
  {
    var _ := client.ClearLocalData(removeOk);
    s := client.GetTrainingDataSummary();
  }
}
