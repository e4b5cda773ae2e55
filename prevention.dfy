/**
 * The preventive-measure endpoints: starting a measure with baselines from
 * the latest health record, updating it with outcomes (which feeds the
 * intervention tracker), the per-user statistics and the formatted
 * recommendation list. Database look-ups become inputs: the measure found
 * by id and the latest health record are `Option`s.
 */
module Prevention {
  import opened Wrappers
  import opened Interventions
  import opened HealthMetrics
  import FeedbackSystem

  const BadRequest: int := 400

  /** A preventive measure row. */
  datatype Measure = Measure(
    userId: int,
    measureType: string,
    description: string,
    baselineGlucose: Option<real>,
    baselineBmi: Option<real>,
    baselineBpSystolic: Option<real>,
    outcomeGlucose: Option<real>,
    outcomeBmi: Option<real>,
    outcomeBpSystolic: Option<real>,
    status: string,
    userRating: Option<int>,
    effectivenessScore: Option<real>,
    endDate: Option<FeedbackSystem.Timestamp>,
    updatedAt: Option<FeedbackSystem.Timestamp>)

  /** Truthiness of request fields and stored numbers: present and non-empty, or present and non-zero. */
  predicate TruthyText(s: Option<string>)
  {
    s.Some? && s.value != ""
  }

  predicate TruthyRating(x: Option<int>)
  {
    x.Some? && x.value != 0
  }

  predicate TruthyNumber(x: Option<real>)
  {
    x.Some? && x.value != 0.0
  }

  /**
   * Starting a measure: both the kind and the description are required
   * (400 otherwise, nothing created); the new measure is active, with the
   * latest record's glucose, BMI and systolic pressure as baselines, or no
   * baselines without a record.
   */
  function StartMeasure(userId: int, measureType: Option<string>, description: Option<string>,
                        latest: Option<HealthRecord>): (r: Result<Measure>)
    ensures r.Failure? <==> !TruthyText(measureType) || !TruthyText(description)
    ensures r.Failure? ==> r.code == BadRequest
    ensures r.Success? ==>
      && r.value.userId == userId
      && r.value.measureType == measureType.value
      && r.value.description == description.value
      && r.value.status == "active"
      && r.value.outcomeGlucose.None? && r.value.userRating.None? && r.value.effectivenessScore.None?
      && r.value.endDate.None?
    ensures r.Success? && latest.Some? ==>
      && r.value.baselineGlucose == Some(latest.value.metrics.glucose)
      && r.value.baselineBmi == Some(latest.value.metrics.bmi)
      && r.value.baselineBpSystolic == Some(latest.value.metrics.bpSystolic)
    ensures r.Success? && latest.None? ==>
      r.value.baselineGlucose.None? && r.value.baselineBmi.None? && r.value.baselineBpSystolic.None?
  {
    if !TruthyText(measureType) || !TruthyText(description) then Failure(BadRequest)
    else
      Success(Measure(
        userId, measureType.value, description.value,
        if latest.Some? then Some(latest.value.metrics.glucose) else None,
        if latest.Some? then Some(latest.value.metrics.bmi) else None,
        if latest.Some? then Some(latest.value.metrics.bpSystolic) else None,
        None, None, None,
        "active", None, None, None, None))
  }

  /**
   * Effectiveness of a measure: the glucose improvement over 20 mg/dL,
   * clamped to [0, 1]. It reaches the tracker's 0.5 threshold exactly at an
   * improvement of 10 mg/dL, and 1 at 20 mg/dL.
   */
  function Effectiveness(baseline: real, outcome: real): (e: real)
    ensures 0.0 <= e <= 1.0
    ensures e >= 0.5 <==> baseline - outcome >= 10.0
    ensures e == 1.0 <==> baseline - outcome >= 20.0
    ensures e == 0.0 <==> baseline <= outcome
  {
    Min(Reduction(baseline, outcome) / 20.0, 1.0)
  }

  /**
   * An update is forwarded to the tracker only with a latest record, a
   * non-zero baseline glucose and a non-zero latest glucose.
   */
  predicate Forwards(m: Measure, latest: Option<HealthRecord>)
  {
    latest.Some? && TruthyNumber(m.baselineGlucose) && latest.value.metrics.glucose != 0.0
  }

  /**
   * The measure after an update: status and rating only when given (and
   * truthy), outcomes from the latest record when there is one, a new
   * effectiveness score only when the update is forwarded, an end date
   * exactly when the new status is "completed", and always a new update time.
   */
  function Updated(m: Measure, status: Option<string>, rating: Option<int>,
                   latest: Option<HealthRecord>, now: FeedbackSystem.Timestamp): (r: Measure)
    ensures r.userId == m.userId && r.measureType == m.measureType && r.description == m.description
    ensures r.baselineGlucose == m.baselineGlucose && r.baselineBmi == m.baselineBmi
    ensures r.baselineBpSystolic == m.baselineBpSystolic
    ensures r.status == if TruthyText(status) then status.value else m.status
    ensures r.userRating == if TruthyRating(rating) then rating else m.userRating
    ensures latest.Some? ==>
      && r.outcomeGlucose == Some(latest.value.metrics.glucose)
      && r.outcomeBmi == Some(latest.value.metrics.bmi)
      && r.outcomeBpSystolic == Some(latest.value.metrics.bpSystolic)
    ensures latest.None? ==>
      r.outcomeGlucose == m.outcomeGlucose && r.outcomeBmi == m.outcomeBmi
      && r.outcomeBpSystolic == m.outcomeBpSystolic
    ensures Forwards(m, latest) ==>
      r.effectivenessScore == Some(Effectiveness(m.baselineGlucose.value, latest.value.metrics.glucose))
    ensures !Forwards(m, latest) ==> r.effectivenessScore == m.effectivenessScore
    ensures r.endDate == if status == Some("completed") then Some(now) else m.endDate
    ensures r.updatedAt == Some(now)
  {
    var m1 := if TruthyText(status) then m.(status := status.value) else m;
    var m2 := if TruthyRating(rating) then m1.(userRating := rating) else m1;
    var m3 :=
      if latest.None? then m2
      else
        var g := latest.value.metrics.glucose;
        var withOutcome := m2.(outcomeGlucose := Some(g), outcomeBmi := Some(latest.value.metrics.bmi),
                               outcomeBpSystolic := Some(latest.value.metrics.bpSystolic));
        if TruthyNumber(m2.baselineGlucose) && g != 0.0
        then withOutcome.(effectivenessScore := Some(Effectiveness(m2.baselineGlucose.value, g)))
        else withOutcome;
    var m4 := if status == Some("completed") then m3.(endDate := Some(now)) else m3;
    m4.(updatedAt := Some(now))
  }

  /** The observation an update hands to the tracker. */
  function UpdateObservation(baseline: real, outcome: real): (o: Observation)
    ensures o.reduction >= 0.0 && 0.0 <= o.score <= 1.0
    ensures IsEffective(o) <==> baseline - outcome >= 10.0
  {
    Observation(Reduction(baseline, outcome), Effectiveness(baseline, outcome))
  }

  /**
   * Updating a measure. A missing or foreign measure is a 404 and the
   * tracker is untouched. Otherwise the measure is updated and, when the
   * update is forwarded and the kind is one of the tracked ones, the tracker
   * records the glucose change with its effectiveness.
   */
  method UpdateMeasure(sys: FeedbackSystem.RLFeedbackSystem, measure: Option<Measure>, currentUser: int,
                       status: Option<string>, rating: Option<int>, latest: Option<HealthRecord>,
                       now: FeedbackSystem.Timestamp) returns (r: Result<Measure>)
    requires sys.Valid()
    modifies sys`interventions, sys`observations
    ensures sys.Valid()
    ensures measure.None? || measure.value.userId != currentUser ==> r == Failure(NotFound)
    ensures measure.Some? && measure.value.userId == currentUser ==>
      r == Success(Updated(measure.value, status, rating, latest, now))
    ensures measure.Some? && measure.value.userId == currentUser && Forwards(measure.value, latest)
            && Parse(measure.value.measureType).Some? ==>
      var t := Parse(measure.value.measureType).value;
      var o := UpdateObservation(measure.value.baselineGlucose.value, latest.value.metrics.glucose);
      && sys.observations == old(sys.observations)[t := old(sys.observations)[t] + [o]]
      && sys.interventions == old(sys.interventions)[t := Absorb(old(sys.interventions)[t], o)]
    ensures !(measure.Some? && measure.value.userId == currentUser && Forwards(measure.value, latest)
              && Parse(measure.value.measureType).Some?) ==>
      sys.observations == old(sys.observations) && sys.interventions == old(sys.interventions)
  {
    if measure.None? || measure.value.userId != currentUser {
      return Failure(NotFound);
    }
    var m := measure.value;
    if latest.Some? && TruthyNumber(m.baselineGlucose) && latest.value.metrics.glucose != 0.0 {
      var baseline := m.baselineGlucose.value;
      var outcome := latest.value.metrics.glucose;
      var _ := sys.RecordIntervention(currentUser, m.measureType, baseline, outcome,
                                      Effectiveness(baseline, outcome));
    }
    r := Success(Updated(m, status, rating, latest, now));
  }

  /** Number of measures with the given status. */
  function CountStatus(ms: seq<Measure>, status: string): (n: nat)
    ensures n <= |ms|
  {
    if ms == [] then 0
    else CountStatus(ms[..|ms| - 1], status) + (if ms[|ms| - 1].status == status then 1 else 0)
  }

  /** A measure contributes to the average when completed and holding a non-zero score. */
  predicate Scored(m: Measure)
  {
    m.status == "completed" && TruthyNumber(m.effectivenessScore)
  }

  /** Scores of the completed measures with a non-zero score, in list order. */
  function ScoredCompleted(ms: seq<Measure>): (xs: seq<real>)
    ensures |xs| <= CountStatus(ms, "completed")
  {
    if ms == [] then []
    else
      var last := ms[|ms| - 1];
      ScoredCompleted(ms[..|ms| - 1]) + (if Scored(last) then [last.effectivenessScore.value] else [])
  }

  function Sum(xs: seq<real>): real
  {
    if xs == [] then 0.0 else Sum(xs[..|xs| - 1]) + xs[|xs| - 1]
  }

  datatype MeasureStats = MeasureStats(totalMeasures: nat, active: nat, completed: nat, avgEffectiveness: real)

  /**
   * The user's statistics: counts by status and the mean score of the
   * scored completed measures, zero when there is none.
   */
  function GetStats(ms: seq<Measure>): (r: MeasureStats)
    ensures r.totalMeasures == |ms|
    ensures r.active == CountStatus(ms, "active") && r.completed == CountStatus(ms, "completed")
    ensures ScoredCompleted(ms) == [] ==> r.avgEffectiveness == 0.0
    ensures ScoredCompleted(ms) != [] ==>
      r.avgEffectiveness * |ScoredCompleted(ms)| as real == Sum(ScoredCompleted(ms))
  {
    var scored := ScoredCompleted(ms);
    MeasureStats(|ms|, CountStatus(ms, "active"), CountStatus(ms, "completed"),
                 if scored == [] then 0.0 else Sum(scored) / |scored| as real)
  }

  /** No measure is both active and completed. */
  lemma {:induction false} StatusCountsBounded(ms: seq<Measure>)
    ensures CountStatus(ms, "active") + CountStatus(ms, "completed") <= |ms|
  {
    if ms != [] {
      StatusCountsBounded(ms[..|ms| - 1]);
    }
  }

  /** Every stored effectiveness score lies in [0, 1]. */
  predicate ScoresInRange(ms: seq<Measure>)
  {
    forall k :: 0 <= k < |ms| && ms[k].effectivenessScore.Some? ==>
      0.0 <= ms[k].effectivenessScore.value <= 1.0
  }

  lemma {:induction false} ScoredInRange(ms: seq<Measure>)
    requires ScoresInRange(ms)
    ensures forall k :: 0 <= k < |ScoredCompleted(ms)| ==> 0.0 <= ScoredCompleted(ms)[k] <= 1.0
  {
    if ms != [] {
      assert ScoresInRange(ms[..|ms| - 1]);
      ScoredInRange(ms[..|ms| - 1]);
    }
  }

  lemma {:induction false} SumBounds(xs: seq<real>)
    requires forall k :: 0 <= k < |xs| ==> 0.0 <= xs[k] <= 1.0
    ensures 0.0 <= Sum(xs) <= |xs| as real
  {
    if xs != [] {
      SumBounds(xs[..|xs| - 1]);
    }
  }

  /** With scores in [0, 1], the statistics are consistent and the average lies in [0, 1]. */
  lemma StatsBounds(ms: seq<Measure>)
    requires ScoresInRange(ms)
    ensures var r := GetStats(ms);
      r.active + r.completed <= r.totalMeasures && 0.0 <= r.avgEffectiveness <= 1.0
  {
    StatusCountsBounded(ms);
    var scored := ScoredCompleted(ms);
    ScoredInRange(ms);
    SumBounds(scored);
    if scored != [] {
      var n := |scored| as real;
      assert Sum(scored) / n <= 1.0 by {
        assert Sum(scored) <= n;
      }
    }
  }

  /** An update keeps every stored effectiveness score in [0, 1]. */
  lemma UpdatedScoreInRange(m: Measure, status: Option<string>, rating: Option<int>,
                            latest: Option<HealthRecord>, now: FeedbackSystem.Timestamp)
    requires m.effectivenessScore.Some? ==> 0.0 <= m.effectivenessScore.value <= 1.0
    ensures var u := Updated(m, status, rating, latest, now);
      u.effectivenessScore.Some? ==> 0.0 <= u.effectivenessScore.value <= 1.0
  {
  }

  /** One entry of the recommendations endpoint; the rate is shown as a percentage. */
  datatype FormattedRecommendation = FormattedRecommendation(
    kind: string,
    effectivenessPercent: real,
    avgGlucoseReduction: real,
    usersTried: nat,
    successful: nat,
    score: real)

  function Format(rec: Recommendation): (f: FormattedRecommendation)
    ensures Parse(f.kind) == Some(rec.kind)
    ensures f.effectivenessPercent == rec.effectivenessRate * 100.0
    ensures f.usersTried == rec.usersTried && f.successful == rec.successCount && f.score == rec.score
  {
    ParseName(rec.kind);
    FormattedRecommendation(Name(rec.kind), rec.effectivenessRate * 100.0, rec.avgReduction,
                            rec.usersTried, rec.successCount, rec.score)
  }

  /** The ranked list reformatted entry by entry, in the same order. */
  function FormatAll(recs: seq<Recommendation>): (r: seq<FormattedRecommendation>)
    ensures |r| == |recs|
    ensures forall k :: 0 <= k < |r| ==> r[k] == Format(recs[k])
  {
    seq(|recs|, k requires 0 <= k < |recs| => Format(recs[k]))
  }

  /**
   * The formatted ranking names every kind once, keeps the scores
   * non-increasing, and each entry's key parses back to its kind.
   */
  lemma FormattedRanking(stats: map<InterventionType, Stats>, ranked: seq<Recommendation>)
    requires Tracked(stats) && IsRanking(stats, ranked)
    ensures var r := FormatAll(ranked);
      && |r| == |AllTypes|
      && (forall i, j :: 0 <= i < j < |r| ==> r[i].kind != r[j].kind && r[i].score >= r[j].score)
      && (forall k :: 0 <= k < |r| ==> Parse(r[k].kind) == Some(ranked[k].kind))
  {
    RankingContents(stats, ranked);
    var r := FormatAll(ranked);
    forall i, j | 0 <= i < j < |r| ensures r[i].kind != r[j].kind {
      ParseName(ranked[i].kind);
      ParseName(ranked[j].kind);
    }
  }

  /**
   * The recommendations endpoint: 404 without a health record, otherwise
   * the tracker's ranking, reformatted.
   */
  method GetRecommendations(sys: FeedbackSystem.RLFeedbackSystem, latest: Option<HealthRecord>)
    returns (r: Result<seq<FormattedRecommendation>>, ghost ranked: seq<Recommendation>)
    requires sys.TrackerValid()
    ensures latest.None? ==> r == Failure(NotFound)
    ensures latest.Some? ==> Tracked(sys.interventions) && IsRanking(sys.interventions, ranked)
    ensures latest.Some? ==> r == Success(FormatAll(ranked)) && |r.value| == |AllTypes|
  {
    if latest.None? {
      return Failure(NotFound), [];
    }
    var rec := latest.value;
    var recs := sys.GetRecommendedInterventions(rec.metrics.glucose, rec.metrics.bmi, rec.riskLevel);
    RankingContents(sys.interventions, recs);
    ranked := recs;
    r := Success(FormatAll(recs));
  }
}
