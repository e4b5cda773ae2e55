# Diabetes predictor: feedback engine, gamification and health rules in Dafny

This project models the decision logic of a diabetes-risk web application.

**The adaptive feedback engine (`RLFeedbackSystem`).** It keeps two independent pieces of state:

- A prediction-accuracy aggregate. This is the total and correct prediction counters, the feedback log and an accuracy snapshot every fifth event. From it the engine derives a confidence multiplier of 0.8 + 0.4 · accuracy, and a risk-score adjuster that clamps its result to [0, 100].
- A per-intervention tracker over a closed set of six kinds. For each kind it keeps the attempts, the effective attempts and a running mean of the clamped glucose reduction. It also ranks the six kinds:
  - a kind without data takes its row from a fixed cold-start table;
  - a kind with data scores 0.6 · rate + 0.4 · min(avg/50, 1);
  - the list is sorted stably in descending order of score.

**The gamification record.** It holds points, a daily streak and five badges.

**The health rules of the prediction page:**

- the risk level;
- the BMI, glucose, insulin and blood-pressure categories and statuses;
- the 18–100 health score;
- the chart endpoint.

**The preventive-measure endpoints.** These are start, update (which feeds the tracker), statistics and the formatted recommendations.

Files:

- `wrappers.dfy`: `Option` and `Result`.
- `interventions.dfy`: the six kinds and their dictionary order, and per-kind statistics specified by the list of recorded observations (`Summary`). It also holds:
  - the in-place update `Absorb`;
  - the score and the default table;
  - the ranking order and the insertion sort on an array that realises it (`Rank`);
  - uniqueness of the ranking, and the cold-start order.
- `feedback_system.dfy`: the class `RLFeedbackSystem`. Its fields are the counters, the logs and the tracker map, plus a ghost map of everything recorded per kind. `Valid()` ties:
  - the counters to the log;
  - every snapshot to the prefix of the log it was taken on;
  - every kind's statistics to the mean and count of what was recorded for it.
- `gamification.dfy`: the class `Gamification` with its counters, streak fields and badge flags.
- `health_metrics.dfy`: the pure threshold rules of the prediction page and the chart endpoint.
- `prevention.dfy`: the preventive-measure record and the four endpoints.
- `scenarios.dfy`: scenario methods whose postconditions state the expected outcome:
  - five feedback events give one snapshot of 0.6;
  - one exercise attempt from 140 to 120 gives `Stats(1, 1, 20.0)`;
  - an unknown kind is rejected;
  - the cold-start order;
  - the first prediction of a new user;
  - a seven-day streak.

Observations from the code that the model reproduces:

- `update_streak` on a record with no previous activity sets the current streak to 1 but leaves the longest streak at 0. The invariant `StreakValid` therefore only says that the longest streak bounds the current one "or the current streak is 1". `Scenarios.WeekOfActivity` exhibits the state after the first day.
- The effectiveness formula divides the improvement by 20. The comment beside it speaks of 10 mg/dL. Combined with the tracker's 0.5 threshold, an update counts as effective exactly when glucose fell by at least 10 mg/dL (`Prevention.Effectiveness`, `Prevention.UpdateObservation`).
- The running mean is updated as (avg · (n − 1) + x) / n, with the first observation taken as is. The model follows the code and proves that this update gives the arithmetic mean of all recorded reductions (`Interventions.MeanStep`), and that it equals the incremental form avg + (x − avg)/n (`Interventions.IncrementalMean`).
- `record_feedback` does not validate the outcome. The model states the 0/1 outcome as a precondition rather than an error path.
- The ranking's stable sort is expressed as follows: ties are ordered by dictionary position (`Interventions.Ahead`). The list being sorted is built in dictionary order.
- The blood-pressure stage-1 test is a disjunction, so "High Stage 2" needs both readings high.

## Model

| member | source | states |
|---|---|---|
| Interventions.Index | flask/rl_feedback_system.py:48-55 | every kind has a position in the tracker dictionary's insertion order |
| Interventions.Parse | flask/rl_feedback_system.py:141-142 | a key is recognised only as the kind whose dictionary key (`Name`, lines 49-54) it is; an unrecognised key names no kind |
| Interventions.ParseName | flask/rl_feedback_system.py:49-54 | each of the six dictionary keys is recognised as its own kind |
| Interventions.Reduction | flask/rl_feedback_system.py:145 | the recorded reduction is max(0, baseline − outcome): never negative, at least the drop, and either 0 or the drop |
| Interventions.EffectiveCount | flask/rl_feedback_system.py:151-152 | effective attempts never exceed attempts |
| Interventions.Summary | flask/rl_feedback_system.py:148-161 | the statistics of a kind count exactly its observations, with effective ≤ total |
| Interventions.MeanStep | flask/rl_feedback_system.py:155-161 | the first-observation rule and the (avg·(n−1)+x)/n update both give the arithmetic mean of all recorded reductions |
| Interventions.EffectiveStep | flask/rl_feedback_system.py:151-152 | one more observation adds one effective attempt iff it is effective (`IsEffective`: score at least 0.5, line 151) |
| Interventions.IncrementalMean | flask/rl_feedback_system.py:155-161 | the code's update equals the incremental form avg + (x − avg)/n of the running mean |
| Interventions.SummaryStep | flask/rl_feedback_system.py:148-161 | the in-place update applied to the statistics of the recorded observations yields the statistics of the extended observations |
| Interventions.Absorb | flask/rl_feedback_system.py:148-161 | one update adds one attempt, one effective attempt iff score ≥ 0.5, sets the mean on the first attempt and keeps a non-negative mean non-negative |
| Interventions.TotalNonNegative | flask/rl_feedback_system.py:145 | the sum of clamped reductions is non-negative |
| Interventions.MeanNonNegative | flask/rl_feedback_system.py:155-161 | the running mean of clamped reductions is non-negative |
| Interventions.Score | flask/rl_feedback_system.py:234-238 | the live score lies in [0, 1] when effective ≤ total and the mean is non-negative; it is 1 for an always-effective kind with mean ≥ 50, and at most 0 for a never-effective kind with no reduction |
| Interventions.Default | flask/rl_feedback_system.py:172-215 | each cold-start row belongs to its kind and has a score in [0, 1] |
| Interventions.EntryFor | flask/rl_feedback_system.py:219-247 | a kind without attempts gets its default row, otherwise its live counts and a score in [0, 1] |
| Interventions.Entries | flask/rl_feedback_system.py:217-247 | the unsorted list has one entry per kind, in dictionary order |
| Interventions.ChainRanked | flask/rl_feedback_system.py:250 | neighbours in ranking order make the whole list ranked |
| Interventions.RankingUnique | flask/rl_feedback_system.py:250 | two ranked lists with the same members are equal |
| Interventions.RankingDeterministic | flask/rl_feedback_system.py:249-251 | the sorted recommendation list of given statistics is unique |
| Interventions.RankingContents | flask/rl_feedback_system.py:217-251 | a ranking has six entries, one per kind, each its kind's entry, with non-increasing scores |
| Interventions.RankingScores | flask/rl_feedback_system.py:234-250 | with consistent statistics every ranked score lies in [0, 1] |
| Interventions.ColdStartEntries | flask/rl_feedback_system.py:219-232 | without data the unsorted list is the default table in dictionary order |
| Interventions.ColdStartOrdered | flask/rl_feedback_system.py:172-215 | the default rows ordered medication, exercise, diet, sleep, stress, hydration are in ranking order |
| Interventions.ColdStart | flask/rl_feedback_system.py:217-251 | without any recorded attempt the ranking is exactly medication, exercise, diet_change, sleep_improvement, stress_management, hydration with their default rows |
| Interventions.SwapDown | flask/rl_feedback_system.py:250 | exchanging two neighbours keeps the same entries |
| Interventions.InsertAt | flask/rl_feedback_system.py:250 | inserting one entry extends the ranked prefix without moving later entries and keeps the same entries |
| Interventions.Rank | flask/rl_feedback_system.py:250 | the sort returns a permutation of its input in descending score order with ties in original order |
| FeedbackSystem.RecordPrediction | flask/rl_feedback_system.py:61-69 | the prediction record carries the user, probability, label, features and time it was built from |
| FeedbackSystem.CorrectCount | flask/rl_feedback_system.py:84-85 | confirmed predictions never exceed logged ones |
| FeedbackSystem.CorrectStep | flask/rl_feedback_system.py:84-85 | one more event adds one correct prediction iff its label matches its outcome |
| FeedbackSystem.AccuracyOf | flask/rl_feedback_system.py:89 | the accuracy of a non-empty log lies in [0, 1] |
| FeedbackSystem.RatioStep | flask/rl_feedback_system.py:84-89 | a confirmed prediction never lowers the accuracy and a refuted one never raises it |
| FeedbackSystem.TrackerStep | flask/rl_feedback_system.py:148-161 | recording one clamped observation keeps every kind's statistics equal to the summary of its observations |
| FeedbackSystem.Report | flask/rl_feedback_system.py:258-262 | the reported rate is effective/total·100, in [0, 100], and 100 iff every attempt was effective |
| FeedbackSystem.RLFeedbackSystem.constructor | flask/rl_feedback_system.py:20-55 | a new engine has zero counters, empty logs and every kind at zero attempts, satisfying the invariant |
| FeedbackSystem.RLFeedbackSystem.RecordFeedback | flask/rl_feedback_system.py:71-96 | one more prediction, one more correct iff labels agree, the event appended, a snapshot correct/total at total exactly when total is a multiple of 5; with earlier feedback, a confirmation never lowers the multiplier and a refutation never raises it; the tracker is untouched |
| FeedbackSystem.RLFeedbackSystem.GetConfidenceAdjustment | flask/rl_feedback_system.py:98-112 | 1.0 without feedback, 0.8 at accuracy 0, 1.2 at accuracy 1, and within [0.8, 1.2] |
| FeedbackSystem.RLFeedbackSystem.AdjustRiskScore | flask/rl_feedback_system.py:114-120 | the adjusted score is in [0, 100], equals score·multiplier when that is in range and the clamp bound otherwise, and equals the raw score without feedback when the raw score lies in [0, 100] |
| FeedbackSystem.RLFeedbackSystem.AdjustRiskScoreMonotone | flask/rl_feedback_system.py:114-120 | a higher raw score never gives a lower adjusted score |
| FeedbackSystem.RLFeedbackSystem.GetFeedbackStats | flask/rl_feedback_system.py:122-133 | reports the counters, accuracy in [0, 100] (0 without data), the multiplier and the last at most five snapshots |
| FeedbackSystem.RLFeedbackSystem.FeedbackInvariants | flask/rl_feedback_system.py:76-94 | correct ≤ total; snapshots are taken at multiples of 5 up to the total, strictly increasing, with accuracy in [0, 1] |
| FeedbackSystem.RLFeedbackSystem.TrackerInvariants | flask/rl_feedback_system.py:145-161 | every kind has effective ≤ total and a non-negative mean reduction |
| FeedbackSystem.RLFeedbackSystem.RecordIntervention | flask/rl_feedback_system.py:135-164 | an unknown kind returns false and changes nothing; a known kind returns true and gets exactly one more observation and the in-place update of its statistics; the feedback aggregate is untouched |
| FeedbackSystem.RLFeedbackSystem.GetRecommendedInterventions | flask/rl_feedback_system.py:166-251 | returns the ranking of the current statistics, ignoring glucose, BMI and risk level |
| FeedbackSystem.RLFeedbackSystem.GetInterventionStats | flask/rl_feedback_system.py:253-264 | exactly the kinds with attempts, each with its counts, a rate in [0, 100] and the mean of its recorded reductions |
| Gamification.Gamification.constructor | flask/app/models.py:63-77 | a new record has zero points and counters, no activity date and no badge |
| Gamification.Gamification.AddPoints | flask/app/models.py:82-83 | points grow by exactly the given amount and nothing else changes |
| Gamification.StreakAfter | flask/app/models.py:85-104 | the streak after an activity: always a last active day, a longest streak that never falls, and either no change or a current streak that restarts at 1 or grows by 1; the first activity gives (1, old longest, today) |
| Gamification.Gamification.UpdateStreak | flask/app/models.py:85-110 | first activity: streak 1, date today, longest untouched; same day: no change; next day: streak + 1 and longest raised to it if exceeded; other gaps: streak 1, date today; longest never decreases, and the three fields together equal `StreakAfter` of the old ones; week and consistency badges set at 7 and 30 and never cleared |
| Gamification.Gamification.CheckAndAwardBadges | flask/app/models.py:112-120 | first-prediction badge at 1 prediction, champion at 10, diet master at 5 diet plans; no badge is cleared and no counter changes |
| Gamification.Gamification.RecordPredictionActivity | flask/app/prediction/routes.py:65-70 | a prediction adds one to the count and 20 points; the streak fields become `StreakAfter` of the old ones; the week and consistency badges follow the new streak (7 and 30), the diet-master badge the diet-plan count (5), the champion badge the prediction count (10); the first-prediction badge is always set |
| HealthMetrics.RiskLevel | flask/app/prediction/routes.py:44-49 | "High" iff the classifier answered 1, "Low" otherwise |
| HealthMetrics.NewRecord | flask/app/prediction/routes.py:51-62 | the stored record carries the inputs and the answer, with level "High" iff the answer is 1 |
| HealthMetrics.BmiCategory | flask/app/prediction/routes.py:81 | Underweight below 18.5, Normal Weight below 25, Overweight below 30, Obese from 30, each iff |
| HealthMetrics.BmiStatus | flask/app/prediction/routes.py:82 | healthy iff BMI < 25, needs attention iff 25 ≤ BMI < 30, at risk iff ≥ 30 |
| HealthMetrics.GlucoseCategory | flask/app/prediction/routes.py:84 | Normal below 100, Prediabetes below 126, Diabetes from 126, each iff |
| HealthMetrics.GlucoseStatus | flask/app/prediction/routes.py:85 | normal, prediabetes and high statuses on the same thresholds, each iff |
| HealthMetrics.InsulinStatus | flask/app/prediction/routes.py:87 | normal below 12, elevated below 20, high from 20, each iff |
| HealthMetrics.BpCategory | flask/app/prediction/routes.py:89 | Normal iff both readings are low; Elevated iff systolic in [120, 130) with low diastolic; Stage 2 iff systolic ≥ 140 and diastolic ≥ 90; Stage 1 otherwise |
| HealthMetrics.BpStatus | flask/app/prediction/routes.py:90 | status from the systolic reading alone, at 120 and 140 |
| HealthMetrics.BmiPoints | flask/app/prediction/routes.py:93-98 | 25 points iff BMI < 25, otherwise 15 or 5 |
| HealthMetrics.GlucosePoints | flask/app/prediction/routes.py:100-105 | 25 points iff glucose < 100, otherwise 15 or 5 |
| HealthMetrics.InsulinPoints | flask/app/prediction/routes.py:107-112 | 20 points iff insulin < 12, otherwise 10 or 3 |
| HealthMetrics.SystolicPoints | flask/app/prediction/routes.py:114-119 | 30 points iff systolic < 120, otherwise 15 or 5 |
| HealthMetrics.HealthScore | flask/app/prediction/routes.py:92-119 | the score lies in [18, 100]; 100 iff all four metrics are in their best band; 18 iff all four are in their worst |
| HealthMetrics.HealthScoreMonotone | flask/app/prediction/routes.py:92-119 | raising any of BMI, glucose, insulin or systolic pressure never raises the score |
| HealthMetrics.PerfectScoreAllGreen | flask/app/prediction/routes.py:82-119 | the score is 100 iff the four statuses shown are all green |
| HealthMetrics.StatusesMatchCategories | flask/app/prediction/routes.py:81-90 | the glucose status is normal iff its category is Normal; the BMI status is healthy iff the category is Underweight or Normal Weight; a Normal pressure category has a normal status |
| HealthMetrics.ChartBmiCategory | flask/app/prediction/routes.py:176 | the chart's BMI bands at 18.5, 25 and 30, each iff |
| HealthMetrics.ChartGlucoseCategory | flask/app/prediction/routes.py:180 | the chart's glucose bands at 100 and 126, each iff |
| HealthMetrics.ChartAgreesWithResults | flask/app/prediction/routes.py:173-181 | the chart and the results page put every reading in the same band, only the middle BMI band being named differently |
| HealthMetrics.GetChartData | flask/app/prediction/routes.py:165-188 | 404 for a missing record, 403 for another user's, otherwise both readings with their chart bands and the risk value 100·prediction with the stored level |
| HealthMetrics.ChartRiskOfNewRecord | flask/app/prediction/routes.py:182-185 | for a record stored by the prediction page, the chart shows level "High" iff the risk value is 100 |
| Prevention.StartMeasure | flask/app/prevention/routes.py:49-82 | 400 iff the kind or description is missing or empty; otherwise an active measure with baselines from the latest record, or none without one |
| Prevention.Effectiveness | flask/app/prevention/routes.py:113-118 | the score lies in [0, 1], reaches 0.5 iff glucose fell by ≥ 10, is 1 iff it fell by ≥ 20, and is 0 iff it did not fall |
| Prevention.UpdateObservation | flask/app/prevention/routes.py:120-127 | what the tracker receives is clamped, scored in [0, 1] and counts as effective iff glucose fell by ≥ 10 |
| Prevention.Updated | flask/app/prevention/routes.py:93-132 | status and rating change only when given; outcomes come from the latest record; a new effectiveness score only when forwarded; end date iff status is "completed"; update time always; identity and baselines unchanged |
| Prevention.UpdateMeasure | flask/app/prevention/routes.py:84-139 | a missing or foreign measure is a 404 with the tracker unchanged; otherwise the updated measure, and the tracker records one observation exactly when the update is forwarded (`Forwards`: a latest record, a truthy baseline and a non-zero latest glucose, lines 108 and 114) and the kind is known |
| Prevention.CountStatus | flask/app/prevention/routes.py:179-181 | a status count never exceeds the number of measures |
| Prevention.ScoredCompleted | flask/app/prevention/routes.py:185 | there are never more averaged scores than completed measures |
| Prevention.GetStats | flask/app/prevention/routes.py:172-189 | total, active and completed counts, and an average that is 0 without scored completed measures and otherwise their mean |
| Prevention.StatusCountsBounded | flask/app/prevention/routes.py:178-183 | active + completed ≤ total |
| Prevention.ScoredInRange | flask/app/prevention/routes.py:185-187 | scores in [0, 1] stay in [0, 1] after filtering |
| Prevention.SumBounds | flask/app/prevention/routes.py:187 | the sum of n scores in [0, 1] lies in [0, n] |
| Prevention.StatsBounds | flask/app/prevention/routes.py:178-187 | with scores in [0, 1], active + completed ≤ total and the average lies in [0, 1] |
| Prevention.UpdatedScoreInRange | flask/app/prevention/routes.py:113-118 | an update keeps a stored effectiveness score in [0, 1] |
| Prevention.Format | flask/app/prevention/routes.py:161-168 | the formatted entry's key parses back to its kind, the rate becomes a percentage and the counts and score are carried over |
| Prevention.FormatAll | flask/app/prevention/routes.py:159-168 | one formatted entry per ranked entry, in the same order |
| Prevention.FormattedRanking | flask/app/prevention/routes.py:152-168 | the formatted ranking names every kind once, with non-increasing scores |
| Prevention.GetRecommendations | flask/app/prevention/routes.py:141-170 | 404 without a health record; otherwise the tracker's ranking formatted, six entries |
| Scenarios.FiveFeedbackEvents | flask/rl_feedback_system.py:71-94 | labels 1,0,1,1,0 against outcomes 1,1,1,0,0 give 3 correct of 5 and one snapshot of accuracy 0.6 at total 5 |
| Scenarios.OneExerciseAttempt | flask/rl_feedback_system.py:135-164 | one exercise attempt from 140 to 120 with score 0.7 gives 1 attempt, 1 effective, mean 20 |
| Scenarios.UnknownKindRejected | flask/rl_feedback_system.py:141-142 | "acupuncture" is rejected and every kind stays at zero |
| Scenarios.ColdStartRanking | flask/rl_feedback_system.py:166-251 | a fresh engine ranks medication first and hydration last, exactly the default order |
| Scenarios.FirstPrediction | flask/app/prediction/routes.py:65-70 | a new user's first prediction gives streak 1 with longest 0, 20 points, the first-prediction badge and no other badge |
| Scenarios.WeekOfActivity | flask/app/models.py:85-110 | after the first day the streak is 1 with longest 0; seven consecutive days give streak 7, longest 7 and the week badge |

## Left out

- Persistence. The engine's joblib load and save are not modelled; the state lives in memory only. Loading a saved aggregate, including the fallback to a fresh one on an unreadable file, is not modelled. The tracker is never written by `save_feedback`, and the model adds no persistence for it.
- Clocks. `datetime.now()` and `datetime.utcnow()` become caller-supplied timestamps. `date.today()` becomes an integer day number. `record_feedback` reads the clock twice, once for the event and once for the snapshot, and the model uses one time for both.
- The module-level engine instance and thread safety of the shared engine.
- The classifier, scaler and training scripts. The prediction page's classifier answer is a parameter.
- Flask routing, login, SQLAlchemy queries and sessions, and templates. Database look-ups become `Option` inputs.
- `Prevention.UpdateMeasure`: the measure row is a value and the updated row is returned rather than written in place.
- The preventive-measure table's column declarations and defaults (the start date and creation timestamps) are not part of this model.
- The prevention dashboard view, the diet-plan and check-up generators, and the chatbot and report generator.
- The unused `confidence_adjustment` field and the empty `predictions_by_risk_level` and `interventions` entries of the feedback aggregate.
- Display rounding. This covers `round(…, 1)` on the reported mean and the "%.0f" text of the recommendations endpoint. Floating-point arithmetic is modelled as exact `real` arithmetic.
- The fixed descriptive texts and recommendation sentences of the results page, the prediction text and the diet and check-up plans.
- `Gamification.Gamification.UpdateStreak`: the day difference is a difference of integer day numbers, not of calendar dates.
