/** The fixed-width numeric encoding of an interaction record and the label built for it
    (src/services/federatedLearningClient.js, extractFeatures and prepareTrainingDataset). */
module Features {
  import opened Wrappers
  import opened Interactions

  const FeatureCount: nat := 10
  const LabelWidth: nat := 8
  /** Seconds of time spent that saturate slot 6. */
  const TimeCap: real := 3600.0

  /** Local hour of day of a timestamp, as the host's clock and time zone report it. */
  type Hour = h: int | 0 <= h < 24

  function Indicator(b: bool): (r: real)
    ensures r == 1.0 <==> b
    ensures r == 0.0 <==> !b
  {
    if b then 1.0 else 0.0
  }

  function MinReal(a: real, b: real): real {
    if a <= b then a else b
  }

  /** The ten slots, in order: the interaction type one-hot (chatbot, roadmap, checklist),
      the difficulty one-hot (beginner, intermediate, advanced), time spent over an hour
      capped at 1, completion, score over 100, and hour of day over 24. */
  function ExtractFeatures(r: InteractionRecord, hour: Hour): (f: seq<real>)
    ensures |f| == FeatureCount
  {
    [ Indicator(r.interactionType == "chatbot"),
      Indicator(r.interactionType == "roadmap"),
      Indicator(r.interactionType == "checklist"),
      Indicator(r.difficulty == Some("beginner")),
      Indicator(r.difficulty == Some("intermediate")),
      Indicator(r.difficulty == Some("advanced")),
      MinReal(OrZero(r.timeSpent) / TimeCap, 1.0),
      Indicator(IsTrue(r.completed)),
      OrZero(r.score) / 100.0,
      hour as real / 24.0 ]
  }

  /** Slots 0-2 hold at most one 1; each is 1 exactly for its interaction type. The same for
      slots 3-5 and the difficulty. Slot 7 is the completion flag. */
  lemma OneHotSlots(r: InteractionRecord, hour: Hour)
    ensures var f := ExtractFeatures(r, hour);
      && f[0] + f[1] + f[2] <= 1.0
      && (f[0] == 1.0 <==> r.interactionType == "chatbot")
      && (f[1] == 1.0 <==> r.interactionType == "roadmap")
      && (f[2] == 1.0 <==> r.interactionType == "checklist")
      && (r.interactionType !in {"chatbot", "roadmap", "checklist"} ==> f[0] == f[1] == f[2] == 0.0)
      && f[3] + f[4] + f[5] <= 1.0
      && (f[3] == 1.0 <==> r.difficulty == Some("beginner"))
      && (f[4] == 1.0 <==> r.difficulty == Some("intermediate"))
      && (f[5] == 1.0 <==> r.difficulty == Some("advanced"))
      && (f[7] == 1.0 <==> IsTrue(r.completed))
  {
  }

  /** Slot 6 is the time spent over an hour while it is at most an hour, and 1 beyond; an
      absent time counts as 0. Slot 8 is the score over 100 without clamping. */
  lemma TimeAndScoreSlots(r: InteractionRecord, hour: Hour)
    ensures var f := ExtractFeatures(r, hour);
      && (r.timeSpent.None? ==> f[6] == 0.0)
      && (r.timeSpent.Some? && r.timeSpent.value <= TimeCap ==> f[6] == r.timeSpent.value / TimeCap)
      && (r.timeSpent.Some? && r.timeSpent.value > TimeCap ==> f[6] == 1.0)
      && f[8] * 100.0 == OrZero(r.score)
  {
  }

  /** Every slot lies in [0, 1] when the time spent is not negative and the score is within
      [0, 100]. */
  lemma FeaturesInUnitInterval(r: InteractionRecord, hour: Hour)
    requires r.timeSpent.Some? ==> r.timeSpent.value >= 0.0
    requires r.score.Some? ==> 0.0 <= r.score.value <= 100.0
    ensures forall i :: 0 <= i < FeatureCount ==> 0.0 <= ExtractFeatures(r, hour)[i] <= 1.0
  {
  }

  /** The training target: eight entries, the first 1 exactly when the record is completed,
      the rest 0. */
  function Label(r: InteractionRecord): (l: seq<real>)
    ensures |l| == LabelWidth
    ensures l[0] == 1.0 <==> IsTrue(r.completed)
    ensures l[0] == 0.0 <==> !IsTrue(r.completed)
    ensures forall i :: 1 <= i < LabelWidth ==> l[i] == 0.0
  {
    [Indicator(IsTrue(r.completed))] + seq(LabelWidth - 1, _ => 0.0)
  }
}
