/** The federated learning client's rolling buffer of interaction records and the values
    derived from it: the training dataset and the data distribution
    (src/services/federatedLearningClient.js). */
module TrainingBuffer {
  import opened Wrappers
  import opened Interactions
  import opened Features
  import opened Lists

  /** Only the most recent records are kept. */
  const MaxBufferedRecords: nat := 500
  /** Training needs at least this many buffered records. */
  const MinTrainingSamples: nat := 10
  const InsufficientData := "Insufficient training data"

  /** `push` then, when longer than the bound, `slice(-500)`. */
  function Append(buffer: seq<InteractionRecord>, r: InteractionRecord): (b: seq<InteractionRecord>)
    ensures |b| == Min(|buffer| + 1, MaxBufferedRecords)
    ensures b == LastN(buffer + [r], MaxBufferedRecords)
    ensures b[|b| - 1] == r
  {
    var pushed := buffer + [r];
    if |pushed| > MaxBufferedRecords then pushed[|pushed| - MaxBufferedRecords..] else pushed
  }

  /** Records appended one after the other. */
  function AppendAll(buffer: seq<InteractionRecord>, rs: seq<InteractionRecord>): seq<InteractionRecord>
    decreases |rs|
  {
    if rs == [] then buffer else AppendAll(Append(buffer, rs[0]), rs[1..])
  }

  /** Appending records one at a time leaves a sliding window: the most recent 500 of the
      old buffer followed by the new records, the oldest dropped first. */
  lemma {:induction false} AppendAllIsWindow(buffer: seq<InteractionRecord>, rs: seq<InteractionRecord>)
    requires |buffer| <= MaxBufferedRecords
    ensures AppendAll(buffer, rs) == LastN(buffer + rs, MaxBufferedRecords)
    decreases |rs|
  {
    if rs == [] {
      assert buffer + rs == buffer;
    } else {
      var b' := Append(buffer, rs[0]);
      AppendAllIsWindow(b', rs[1..]);
      assert buffer + rs == (buffer + [rs[0]]) + rs[1..];
      WindowOfWindow(buffer + [rs[0]], rs[1..]);
    }
  }

  lemma WindowOfWindow(s: seq<InteractionRecord>, t: seq<InteractionRecord>)
    requires |s| >= 1
    ensures LastN(LastN(s, MaxBufferedRecords) + t, MaxBufferedRecords) == LastN(s + t, MaxBufferedRecords)
  {
    var w := LastN(s, MaxBufferedRecords);
    if |s| > MaxBufferedRecords {
      assert w + t == (s + t)[|s| - MaxBufferedRecords..];
    }
  }

  /** Adding 501 records to an empty buffer keeps the last 500 of them. */
  lemma FiveHundredAndOne(rs: seq<InteractionRecord>)
    requires |rs| == MaxBufferedRecords + 1
    ensures AppendAll([], rs) == rs[1..]
  {
    AppendAllIsWindow([], rs);
    assert [] + rs == rs;
  }

  /** `extractFeatures` of every record, in buffer order. */
  function FeatureRows(data: seq<InteractionRecord>, hourOf: Option<int> -> Hour): (rows: seq<seq<real>>)
    ensures |rows| == |data|
    ensures forall i :: 0 <= i < |data| ==> rows[i] == ExtractFeatures(data[i], hourOf(data[i].timestamp))
  {
    if data == [] then []
    else FeatureRows(data[..|data| - 1], hourOf) + [ExtractFeatures(data[|data| - 1], hourOf(data[|data| - 1].timestamp))]
  }

  /** The label of every record, in buffer order. */
  function LabelRows(data: seq<InteractionRecord>): (rows: seq<seq<real>>)
    ensures |rows| == |data|
    ensures forall i :: 0 <= i < |data| ==> rows[i] == Label(data[i])
  {
    if data == [] then [] else LabelRows(data[..|data| - 1]) + [Label(data[|data| - 1])]
  }

  datatype Dataset = Dataset(features: seq<seq<real>>, labels: seq<seq<real>>)

  /** `prepareTrainingDataset`: fails below ten records, otherwise one feature row and one
      label row per record. */
  function DatasetOf(data: seq<InteractionRecord>, hourOf: Option<int> -> Hour): Result<Dataset, string> {
    if |data| < MinTrainingSamples then Err(InsufficientData)
    else Ok(Dataset(FeatureRows(data, hourOf), LabelRows(data)))
  }

  lemma DatasetShape(data: seq<InteractionRecord>, hourOf: Option<int> -> Hour)
    ensures DatasetOf(data, hourOf).Err? <==> |data| < MinTrainingSamples
    ensures DatasetOf(data, hourOf).Err? ==> DatasetOf(data, hourOf).error == InsufficientData
    ensures DatasetOf(data, hourOf).Ok? ==>
      var d := DatasetOf(data, hourOf).value;
      && |d.features| == |d.labels| == |data|
      && (forall i :: 0 <= i < |data| ==> |d.features[i]| == FeatureCount && |d.labels[i]| == LabelWidth)
  {
  }

  predicate Completed(r: InteractionRecord) {
    IsTrue(r.completed)
  }

  predicate PositiveLabel(l: seq<real>) {
    |l| > 0 && l[0] == 1.0
  }

  /** The label rows whose first entry is 1 are exactly as many as the completed records
      (twelve records with five completed give five positive rows). */
  lemma {:induction false} PositiveLabelsCountCompleted(data: seq<InteractionRecord>)
    ensures CountWhere(LabelRows(data), PositiveLabel) == CountWhere(data, Completed)
    decreases |data|
  {
    if data != [] {
      var init := data[..|data| - 1];
      PositiveLabelsCountCompleted(init);
      assert LabelRows(data)[..|data| - 1] == LabelRows(init);
    }
  }

  /** `(m[k] || 0) + 1`. */
  function Bump(m: map<string, nat>, k: string): (m': map<string, nat>)
    ensures m'.Keys == m.Keys + {k}
  {
    m[k := (if k in m then m[k] else 0) + 1]
  }

  /** Counts of records per truthy topic, filled in buffer order. */
  function TopicCounts(data: seq<InteractionRecord>): map<string, nat> {
    if data == [] then map[]
    else
      var r := data[|data| - 1];
      var m := TopicCounts(data[..|data| - 1]);
      if Present(r.topic) then Bump(m, r.topic.value) else m
  }

  /** Counts of records per interaction type, filled in buffer order. */
  function TypeCounts(data: seq<InteractionRecord>): map<string, nat> {
    if data == [] then map[]
    else Bump(TypeCounts(data[..|data| - 1]), data[|data| - 1].interactionType)
  }

  datatype Distribution = Distribution(
    topicCounts: map<string, nat>,
    interactionTypes: map<string, nat>,
    totalSamples: nat)

  /** `getDataDistribution` of a buffer. */
  function DistributionOf(data: seq<InteractionRecord>): Distribution {
    Distribution(TopicCounts(data), TypeCounts(data), |data|)
  }

  /** The sum of a map's values. */
  ghost function Total(m: map<string, nat>): nat
    decreases |m|
  {
    if m == map[] then 0
    else
      var k :| k in m;
      m[k] + Total(m - {k})
  }

  lemma {:induction false} TotalRemove(m: map<string, nat>, k: string)
    requires k in m
    ensures Total(m) == m[k] + Total(m - {k})
    decreases |m|
  {
    var k' :| k' in m && Total(m) == m[k'] + Total(m - {k'});
    if k' != k {
      var both := m - {k} - {k'};
      assert m - {k'} - {k} == both;
      assert |m - {k'}| < |m| && |m - {k}| < |m|;
      TotalRemove(m - {k'}, k);
      TotalRemove(m - {k}, k');
    }
  }

  lemma TotalBump(m: map<string, nat>, k: string)
    ensures Total(Bump(m, k)) == Total(m) + 1
  {
    var m' := Bump(m, k);
    TotalRemove(m', k);
    assert m' - {k} == m - {k};
    if k in m {
      TotalRemove(m, k);
    } else {
      assert m - {k} == m;
    }
  }

  /** The interaction type counts add up to the buffer length. */
  lemma {:induction false} TypeCountsTotal(data: seq<InteractionRecord>)
    ensures Total(TypeCounts(data)) == |data|
    decreases |data|
  {
    if data != [] {
      TypeCountsTotal(data[..|data| - 1]);
      TotalBump(TypeCounts(data[..|data| - 1]), data[|data| - 1].interactionType);
    }
  }

  predicate HasTopic(r: InteractionRecord) {
    Present(r.topic)
  }

  /** The topic counts add up to the number of records with a truthy topic, so never to
      more than the buffer length. */
  lemma {:induction false} TopicCountsTotal(data: seq<InteractionRecord>)
    ensures Total(TopicCounts(data)) == CountWhere(data, HasTopic) <= |data|
    decreases |data|
  {
    if data != [] {
      var init := data[..|data| - 1];
      TopicCountsTotal(init);
      if Present(data[|data| - 1].topic) {
        TotalBump(TopicCounts(init), data[|data| - 1].topic.value);
      }
    }
  }

  /** The count under a type is the number of records of that type; types that never
      occur have no entry. */
  lemma {:induction false} TypeCountsAt(data: seq<InteractionRecord>, t: string)
    ensures t in TypeCounts(data) <==> exists i :: 0 <= i < |data| && data[i].interactionType == t
    ensures t in TypeCounts(data) ==> TypeCounts(data)[t] == CountWhere(data, (r: InteractionRecord) => r.interactionType == t)
    ensures t !in TypeCounts(data) ==> CountWhere(data, (r: InteractionRecord) => r.interactionType == t) == 0
    decreases |data|
  {
    if data != [] {
      var init := data[..|data| - 1];
      TypeCountsAt(init, t);
      if t !in TypeCounts(init) && data[|data| - 1].interactionType != t {
        forall i | 0 <= i < |data| ensures data[i].interactionType != t {
          if i < |data| - 1 {
            assert data[i] == init[i];
          }
        }
      }
      if t in TypeCounts(init) {
        var i :| 0 <= i < |init| && init[i].interactionType == t;
        assert data[i] == init[i];
      }
    }
  }
}
