/**
 * The adaptive feedback-and-recommendation engine: a prediction-accuracy
 * aggregate that yields a confidence multiplier for new risk scores, and a
 * per-intervention effectiveness tracker that ranks interventions.
 */
module FeedbackSystem {
  import opened Interventions

  /** An ISO-formatted time supplied by the caller; the clock is not modelled. */
  type Timestamp = string

  /** A prediction as handed to the feedback store. */
  datatype PredictionRecord = PredictionRecord(
    userId: int,
    predictionProb: real,
    predictedLabel: int,
    timestamp: Timestamp,
    features: map<string, real>)

  /** A user's confirmation or denial of an earlier prediction. */
  datatype FeedbackEvent = FeedbackEvent(
    predictionData: PredictionRecord,
    actualOutcome: int,
    feedbackTimestamp: Timestamp)

  /** Accuracy recorded every fifth feedback event. */
  datatype AccuracySnapshot = AccuracySnapshot(timestamp: Timestamp, accuracy: real, totalPredictions: nat)

  /** What the feedback-statistics endpoint reports. */
  datatype FeedbackStats = FeedbackStats(
    totalPredictions: nat,
    correctPredictions: nat,
    accuracy: real,
    confidenceAdjustment: real,
    recentAccuracyHistory: seq<AccuracySnapshot>)

  /** What the intervention-statistics endpoint reports for one kind. */
  datatype InterventionReport = InterventionReport(
    total: nat,
    effective: nat,
    effectivenessRate: real,
    avgReduction: real)

  /** Builds the record of a prediction; it does not touch the store. */
  function RecordPrediction(userId: int, predictionProb: real, predictedLabel: int,
                            features: map<string, real>, now: Timestamp): (r: PredictionRecord)
    ensures r.userId == userId && r.predictionProb == predictionProb
    ensures r.predictedLabel == predictedLabel && r.features == features && r.timestamp == now
  {
    PredictionRecord(userId, predictionProb, predictedLabel, now, features)
  }

  /** The prediction was confirmed by the reported outcome. */
  predicate IsCorrect(e: FeedbackEvent)
  {
    e.predictionData.predictedLabel == e.actualOutcome
  }

  /** Number of confirmed predictions in a feedback log. */
  function CorrectCount(events: seq<FeedbackEvent>): (n: nat)
    ensures n <= |events|
  {
    if events == [] then 0
    else CorrectCount(events[..|events| - 1]) + (if IsCorrect(events[|events| - 1]) then 1 else 0)
  }

  lemma CorrectStep(events: seq<FeedbackEvent>, e: FeedbackEvent)
    ensures CorrectCount(events + [e]) == CorrectCount(events) + (if IsCorrect(e) then 1 else 0)
  {
    assert (events + [e])[..|events|] == events;
  }

  /** Share of confirmed predictions in a non-empty log. */
  function AccuracyOf(events: seq<FeedbackEvent>): (a: real)
    requires events != []
    ensures 0.0 <= a <= 1.0
  {
    CorrectCount(events) as real / |events| as real
  }

  /** Snapshot number k was taken after the (5k+5)-th event of the log. */
  ghost predicate SnapshotFits(events: seq<FeedbackEvent>, snap: AccuracySnapshot, k: nat)
  {
    && 5 * (k + 1) <= |events|
    && snap.totalPredictions == 5 * (k + 1)
    && snap.accuracy == AccuracyOf(events[..5 * (k + 1)])
  }

  /**
   * Accuracy can only rise with a confirmed prediction and only fall with a
   * refuted one.
   */
  lemma RatioStep(correct: nat, total: nat)
    requires 0 < total && correct <= total
    ensures (correct + 1) as real / (total + 1) as real >= correct as real / total as real
    ensures correct as real / (total + 1) as real <= correct as real / total as real
  {
    var c, t := correct as real, total as real;
    var before, up, down := c / t, (c + 1.0) / (t + 1.0), c / (t + 1.0);
    assert before * t == c;
    assert up * (t + 1.0) == c + 1.0;
    assert down * (t + 1.0) == c;
    Cancel(up, before, t * (t + 1.0));
    Cancel(before, down, t * (t + 1.0));
  }

  lemma ScaleMonotone(x: real, y: real, a: real)
    requires x <= y && a >= 0.0
    ensures x * a <= y * a
  {
    assert y * a - x * a == (y - x) * a;
  }

  lemma Cancel(x: real, y: real, k: real)
    requires k > 0.0 && x * k >= y * k
    ensures x >= y
  {
  }

  /**
   * The tracker's statistics are exactly the summary of what was recorded
   * for each kind, and every recorded reduction is clamped.
   */
  ghost predicate TrackerInv(stats: map<InterventionType, Stats>, obs: map<InterventionType, seq<Observation>>)
  {
    && Tracked(stats)
    && (forall t :: t in obs)
    && (forall t :: stats[t] == Summary(obs[t]))
    && (forall t :: AllClamped(obs[t]))
  }

  /** Recording one more clamped observation for a kind keeps the tracker consistent. */
  lemma TrackerStep(stats: map<InterventionType, Stats>, obs: map<InterventionType, seq<Observation>>,
                    t: InterventionType, o: Observation)
    requires TrackerInv(stats, obs) && o.reduction >= 0.0
    ensures TrackerInv(stats[t := Summary(obs[t] + [o])], obs[t := obs[t] + [o]])
  {
  }

  /** The report of a kind tried at least once. */
  function Report(s: Stats): (r: InterventionReport)
    requires s.total > 0
    ensures r.total == s.total && r.effective == s.effective && r.avgReduction == s.avgReduction
    ensures s.effective <= s.total ==> 0.0 <= r.effectivenessRate <= 100.0
    ensures r.effectivenessRate == 100.0 <==> s.effective == s.total
  {
    RatioBounds(s.effective, s.total);
    InterventionReport(s.total, s.effective, s.effective as real / s.total as real * 100.0, s.avgReduction)
  }

  class RLFeedbackSystem {
    // prediction-accuracy aggregate
    var totalPredictions: nat
    var correctPredictions: nat
    var userFeedback: seq<FeedbackEvent>
    var accuracyHistory: seq<AccuracySnapshot>
    // per-intervention tracker, kept beside the aggregate and never persisted with it
    var interventions: map<InterventionType, Stats>
    /** Everything recorded per kind: the abstract value of the tracker. */
    ghost var observations: map<InterventionType, seq<Observation>>

    ghost predicate FeedbackValid()
      reads this`totalPredictions, this`correctPredictions, this`userFeedback, this`accuracyHistory
    {
      && totalPredictions == |userFeedback|
      && correctPredictions == CorrectCount(userFeedback)
      && |accuracyHistory| == totalPredictions / 5
      && forall k :: 0 <= k < |accuracyHistory| ==> SnapshotFits(userFeedback, accuracyHistory[k], k)
    }

    ghost predicate TrackerValid()
      reads this`interventions, this`observations
    {
      TrackerInv(interventions, observations)
    }

    ghost predicate Valid()
      reads this
    {
      FeedbackValid() && TrackerValid()
    }

    /** A fresh engine: no feedback, and every kind at zero attempts. */
    constructor ()
      ensures Valid()
      ensures totalPredictions == 0 && correctPredictions == 0
      ensures userFeedback == [] && accuracyHistory == []
      ensures forall t :: interventions[t] == Stats(0, 0, 0.0) && observations[t] == []
    {
      totalPredictions := 0;
      correctPredictions := 0;
      userFeedback := [];
      accuracyHistory := [];
      interventions := map t | t in AllTypes :: Stats(0, 0, 0.0);
      observations := map t | t in AllTypes :: [];
      new;
      forall t ensures t in interventions && t in observations {
        assert AllTypes[Index(t)] == t;
      }
    }

    /**
     * Records whether a prediction was confirmed: one more prediction, one
     * more correct one iff the labels agree, one more log entry, and a
     * snapshot whenever the total reaches a multiple of five.
     */
    method RecordFeedback(predictionData: PredictionRecord, actualOutcome: int, now: Timestamp)
      requires Valid()
      requires actualOutcome == 0 || actualOutcome == 1
      modifies this`totalPredictions, this`correctPredictions, this`userFeedback, this`accuracyHistory
      ensures Valid()
      ensures totalPredictions == old(totalPredictions) + 1
      ensures correctPredictions ==
        old(correctPredictions) + (if predictionData.predictedLabel == actualOutcome then 1 else 0)
      ensures userFeedback == old(userFeedback) + [FeedbackEvent(predictionData, actualOutcome, now)]
      ensures accuracyHistory ==
        if totalPredictions % 5 == 0
        then old(accuracyHistory) + [AccuracySnapshot(now, correctPredictions as real / totalPredictions as real, totalPredictions)]
        else old(accuracyHistory)
      ensures old(totalPredictions) > 0 && predictionData.predictedLabel == actualOutcome ==>
        GetConfidenceAdjustment() >= old(GetConfidenceAdjustment())
      ensures old(totalPredictions) > 0 && predictionData.predictedLabel != actualOutcome ==>
        GetConfidenceAdjustment() <= old(GetConfidenceAdjustment())
    {
      var event := FeedbackEvent(predictionData, actualOutcome, now);
      CorrectStep(userFeedback, event);
      if totalPredictions > 0 {
        RatioStep(correctPredictions, totalPredictions);
      }
      totalPredictions := totalPredictions + 1;
      userFeedback := userFeedback + [event];
      if predictionData.predictedLabel == actualOutcome {
        correctPredictions := correctPredictions + 1;
      }
      if totalPredictions % 5 == 0 {
        var accuracy := correctPredictions as real / totalPredictions as real;
        accuracyHistory := accuracyHistory + [AccuracySnapshot(now, accuracy, totalPredictions)];
        assert userFeedback[..totalPredictions] == userFeedback;
      }
      forall k | 0 <= k < |old(accuracyHistory)|
        ensures SnapshotFits(userFeedback, accuracyHistory[k], k)
      {
        assert SnapshotFits(old(userFeedback), old(accuracyHistory)[k], k);
        assert userFeedback[..5 * (k + 1)] == old(userFeedback)[..5 * (k + 1)];
      }
    }

    /**
     * The multiplier for new risk scores: neutral without feedback,
     * otherwise 0.8 + 0.4 * accuracy.
     */
    function GetConfidenceAdjustment(): (r: real)
      reads this`totalPredictions, this`correctPredictions
      ensures totalPredictions == 0 ==> r == 1.0
      ensures totalPredictions > 0 && correctPredictions == 0 ==> r == 0.8
      ensures totalPredictions > 0 && correctPredictions == totalPredictions ==> r == 1.2
      ensures correctPredictions <= totalPredictions ==> 0.8 <= r <= 1.2
    {
      if totalPredictions == 0 then 1.0
      else 0.8 + (correctPredictions as real / totalPredictions as real) * 0.4
    }

    /** A raw risk score scaled by the multiplier and clamped to [0, 100]; no state changes. */
    function AdjustRiskScore(riskScore: real): (r: real)
      reads this`totalPredictions, this`correctPredictions
      ensures 0.0 <= r <= 100.0
      ensures 0.0 <= riskScore * GetConfidenceAdjustment() <= 100.0 ==> r == riskScore * GetConfidenceAdjustment()
      ensures totalPredictions == 0 && 0.0 <= riskScore <= 100.0 ==> r == riskScore
      ensures riskScore * GetConfidenceAdjustment() <= 0.0 ==> r == 0.0
      ensures riskScore * GetConfidenceAdjustment() >= 100.0 ==> r == 100.0
    {
      Min(100.0, Max(0.0, riskScore * GetConfidenceAdjustment()))
    }

    /** A higher raw score never yields a lower adjusted score. */
    lemma AdjustRiskScoreMonotone(x: real, y: real)
      requires correctPredictions <= totalPredictions
      requires x <= y
      ensures AdjustRiskScore(x) <= AdjustRiskScore(y)
    {
      var a := GetConfidenceAdjustment();
      ScaleMonotone(x, y, a);
      assert Max(0.0, x * a) <= Max(0.0, y * a);
    }

    /** Counters, accuracy as a percentage, multiplier and the last five snapshots. */
    function GetFeedbackStats(): (s: FeedbackStats)
      reads this
      ensures s.totalPredictions == totalPredictions && s.correctPredictions == correctPredictions
      ensures s.confidenceAdjustment == GetConfidenceAdjustment()
      ensures totalPredictions == 0 ==> s.accuracy == 0.0
      ensures correctPredictions <= totalPredictions ==> 0.0 <= s.accuracy <= 100.0
      ensures |s.recentAccuracyHistory| == if |accuracyHistory| < 5 then |accuracyHistory| else 5
      ensures s.recentAccuracyHistory == accuracyHistory[|accuracyHistory| - |s.recentAccuracyHistory|..]
    {
      var total := totalPredictions;
      var correct := correctPredictions;
      FeedbackStats(
        total,
        correct,
        if total > 0 then correct as real / total as real * 100.0 else 0.0,
        GetConfidenceAdjustment(),
        if accuracyHistory == [] then []
        else if |accuracyHistory| >= 5 then accuracyHistory[|accuracyHistory| - 5..]
        else accuracyHistory)
    }

    /**
     * correct <= total, and the snapshots are taken every fifth event,
     * strictly increasing in total, each with an accuracy in [0, 1].
     */
    lemma FeedbackInvariants()
      requires Valid()
      ensures correctPredictions <= totalPredictions
      ensures forall i, j :: 0 <= i < j < |accuracyHistory| ==>
        accuracyHistory[i].totalPredictions < accuracyHistory[j].totalPredictions
      ensures forall k :: 0 <= k < |accuracyHistory| ==>
        accuracyHistory[k].totalPredictions % 5 == 0 && accuracyHistory[k].totalPredictions <= totalPredictions
        && 0.0 <= accuracyHistory[k].accuracy <= 1.0
    {
      forall k | 0 <= k < |accuracyHistory|
        ensures accuracyHistory[k].totalPredictions == 5 * (k + 1) <= totalPredictions
      {
        assert SnapshotFits(userFeedback, accuracyHistory[k], k);
      }
    }

    /** Every kind keeps effective <= total and a non-negative mean reduction. */
    lemma TrackerInvariants()
      requires TrackerValid()
      ensures forall t :: interventions[t].effective <= interventions[t].total
      ensures forall t :: interventions[t].avgReduction >= 0.0
    {
      forall t ensures interventions[t].avgReduction >= 0.0 {
        MeanNonNegative(observations[t]);
      }
    }

    /**
     * Records one intervention outcome. An unknown kind is rejected and
     * nothing changes; otherwise the kind gains one attempt, one effective
     * attempt iff the score is at least 0.5, and its running mean absorbs
     * the clamped reduction.
     */
    method RecordIntervention(userId: int, measureType: string, baselineGlucose: real,
                              outcomeGlucose: real, effectivenessScore: real) returns (ok: bool)
      requires Valid()
      modifies this`interventions, this`observations
      ensures Valid()
      ensures ok <==> Parse(measureType).Some?
      ensures !ok ==> interventions == old(interventions) && observations == old(observations)
      ensures ok ==>
        var t := Parse(measureType).value;
        && observations == old(observations)[t := old(observations)[t] +
                                             [Observation(Reduction(baselineGlucose, outcomeGlucose), effectivenessScore)]]
        && interventions == old(interventions)[t := Absorb(old(interventions)[t],
                               Observation(Reduction(baselineGlucose, outcomeGlucose), effectivenessScore))]
    {
      var parsed := Parse(measureType);
      if parsed.None? {
        return false;
      }
      var t := parsed.value;
      var o := Observation(Reduction(baselineGlucose, outcomeGlucose), effectivenessScore);
      SummaryStep(observations[t], o);
      TrackerStep(interventions, observations, t, o);
      interventions := interventions[t := Absorb(interventions[t], o)];
      observations := observations[t := observations[t] + [o]];
      ok := true;
    }

    /**
     * The recommendation list: one entry per kind, default or live, sorted
     * by score with ties in dictionary order. The patient's glucose, BMI and
     * risk level are accepted and ignored.
     */
    method GetRecommendedInterventions(currentGlucose: real, currentBmi: real, riskLevel: string)
      returns (r: seq<Recommendation>)
      requires TrackerValid()
      ensures IsRanking(interventions, r)
    {
      var recs: seq<Recommendation> := [];
      var i := 0;
      while i < |AllTypes|
        invariant 0 <= i <= |AllTypes|
        invariant |recs| == i
        invariant forall k :: 0 <= k < i ==> recs[k] == EntryFor(AllTypes[k], interventions[AllTypes[k]])
      {
        var t := AllTypes[i];
        recs := recs + [EntryFor(t, interventions[t])];
        i := i + 1;
      }
      assert recs == Entries(interventions);
      forall k | 0 <= k < |recs| ensures Index(recs[k].kind) == k {
        assert recs[k].kind == AllTypes[k];
      }
      r := Rank(recs);
    }

    /**
     * Per-kind statistics for the kinds tried at least once, with the
     * success rate as a percentage.
     */
    method GetInterventionStats() returns (stats: map<InterventionType, InterventionReport>)
      requires TrackerValid()
      ensures forall t :: t in stats <==> interventions[t].total > 0
      ensures forall t :: t in stats ==>
        && stats[t] == Report(interventions[t])
        && 0.0 <= stats[t].effectivenessRate <= 100.0
        && stats[t].avgReduction == MeanReduction(observations[t])
    {
      stats := map[];
      var i := 0;
      while i < |AllTypes|
        invariant 0 <= i <= |AllTypes|
        invariant forall k :: 0 <= k < |AllTypes| ==>
          (AllTypes[k] in stats <==> k < i && interventions[AllTypes[k]].total > 0)
        invariant forall t :: t in stats ==> interventions[t].total > 0 && stats[t] == Report(interventions[t])
      {
        var t := AllTypes[i];
        var data := interventions[t];
        if data.total > 0 {
          stats := stats[t := Report(data)];
        }
        i := i + 1;
      }
      TrackerInvariants();
      forall t
        ensures t in stats <==> interventions[t].total > 0
        ensures t in stats ==> 0.0 <= stats[t].effectivenessRate <= 100.0
        ensures t in stats ==> stats[t].avgReduction == MeanReduction(observations[t])
      {
        assert AllTypes[Index(t)] == t;
        assert interventions[t] == Summary(observations[t]);
      }
    }
  }
}
