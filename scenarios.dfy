/**
 * Scenario methods on the engine and the gamification record, whose
 * postconditions state the expected outcome of each sequence of calls.
 */
module Scenarios {
  import opened Wrappers
  import opened Interventions
  import opened FeedbackSystem
  import Gamification

  /**
   * Five confirmations with predicted labels 1, 0, 1, 1, 0 and outcomes
   * 1, 1, 1, 0, 0: three are correct, and one snapshot of accuracy 0.6 at
   * total 5 is taken.
   */
  method FiveFeedbackEvents() returns (history: seq<AccuracySnapshot>, total: nat, correct: nat)
    ensures total == 5 && correct == 3
    ensures |history| == 1 && history[0].accuracy == 0.6 && history[0].totalPredictions == 5
  {
    var sys := new RLFeedbackSystem();
    sys.RecordFeedback(RecordPrediction(7, 0.9, 1, map[], "t1"), 1, "t1");
    sys.RecordFeedback(RecordPrediction(7, 0.2, 0, map[], "t2"), 1, "t2");
    sys.RecordFeedback(RecordPrediction(7, 0.8, 1, map[], "t3"), 1, "t3");
    assert sys.totalPredictions == 3 && sys.correctPredictions == 2 && sys.accuracyHistory == [];
    sys.RecordFeedback(RecordPrediction(7, 0.7, 1, map[], "t4"), 0, "t4");
    sys.RecordFeedback(RecordPrediction(7, 0.1, 0, map[], "t5"), 0, "t5");
    history, total, correct := sys.accuracyHistory, sys.totalPredictions, sys.correctPredictions;
  }

  /**
   * One exercise attempt from 140 to 120 mg/dL with effectiveness 0.7:
   * one attempt, one effective, a mean reduction of 20.
   */
  method OneExerciseAttempt() returns (ok: bool, s: Stats)
    ensures ok && s == Stats(1, 1, 20.0)
  {
    var sys := new RLFeedbackSystem();
    ok := sys.RecordIntervention(7, "exercise", 140.0, 120.0, 0.7);
    s := sys.interventions[Exercise];
  }

  /** An unknown kind is rejected and the tracker stays at zero. */
  method UnknownKindRejected() returns (ok: bool, stats: map<InterventionType, Stats>)
    ensures !ok
    ensures forall t :: t in stats && stats[t] == Stats(0, 0, 0.0)
  {
    var sys := new RLFeedbackSystem();
    ok := sys.RecordIntervention(7, "acupuncture", 140.0, 120.0, 0.7);
    stats := sys.interventions;
  }

  /** Before any attempt the ranking is the default table, medication first and hydration last. */
  method ColdStartRanking() returns (r: seq<Recommendation>)
    ensures |r| == 6 && r[0].kind == Medication && r[5].kind == Hydration
    ensures r == ColdStartOrder
  {
    var sys := new RLFeedbackSystem();
    r := sys.GetRecommendedInterventions(110.0, 24.0, "Low");
    ColdStart(sys.interventions, r);
  }

  /**
   * The first prediction of a new user on day 100: a streak of 1 with the
   * longest streak still 0, 20 points, the first-prediction badge and no
   * other badge.
   */
  method FirstPrediction() returns (current: int, longest: int, points: int, first: bool, others: bool)
    ensures current == 1 && longest == 0 && points == 20 && first && !others
  {
    var g := new Gamification.Gamification();
    g.RecordPredictionActivity(100);
    current, longest, points, first := g.currentStreak, g.longestStreak, g.totalPoints, g.badgeFirstPrediction;
    others := g.badgeWeekStreak || g.badgeHealthChampion || g.badgeDietMaster || g.badgeConsistencyKing;
  }

  /**
   * Seven consecutive days of activity earn the week badge. After the
   * first day the longest streak is still 0 while the current one is 1.
   */
  method WeekOfActivity() returns (firstCurrent: int, firstLongest: int, current: int, longest: int, week: bool)
    ensures firstCurrent == 1 && firstLongest == 0
    ensures current == 7 && longest == 7 && week
  {
    var g := new Gamification.Gamification();
    g.UpdateStreak(100);
    firstCurrent, firstLongest := g.currentStreak, g.longestStreak;
    var day := 101;
    while day < 107
      invariant 101 <= day <= 107
      invariant g.StreakValid()
      invariant g.currentStreak == day - 100 && g.longestStreak == (if day == 101 then 0 else day - 100)
      invariant g.lastActivityDate == Some(day - 1)
    {
      g.UpdateStreak(day);
      day := day + 1;
    }
    current, longest, week := g.currentStreak, g.longestStreak, g.badgeWeekStreak;
  }
}
