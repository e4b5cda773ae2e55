/**
 * The preventive-intervention tracker of the adaptive feedback engine:
 * the closed set of intervention kinds, the per-kind statistics with
 * their running mean, the cold-start default table and the ranking order.
 */
module Interventions {
  import opened Wrappers

  /** The six intervention kinds the tracker knows about. */
  datatype InterventionType =
    | Exercise
    | DietChange
    | StressManagement
    | SleepImprovement
    | Medication
    | Hydration

  /** The kinds in the insertion order of the tracker's dictionary. */
  const AllTypes: seq<InterventionType> :=
    [Exercise, DietChange, StressManagement, SleepImprovement, Medication, Hydration]

  /** Position of a kind in the tracker's dictionary. */
  function Index(t: InterventionType): (i: nat)
    ensures i < |AllTypes| && AllTypes[i] == t
  {
    match t
    case Exercise => 0
    case DietChange => 1
    case StressManagement => 2
    case SleepImprovement => 3
    case Medication => 4
    case Hydration => 5
  }

  /** The dictionary key of a kind. */
  function Name(t: InterventionType): string
  {
    match t
    case Exercise => "exercise"
    case DietChange => "diet_change"
    case StressManagement => "stress_management"
    case SleepImprovement => "sleep_improvement"
    case Medication => "medication"
    case Hydration => "hydration"
  }

  /** Dictionary lookup by key: an unknown key is not a kind. */
  function Parse(key: string): (r: Option<InterventionType>)
    ensures r.Some? ==> Name(r.value) == key
    ensures r.None? ==> forall t :: Name(t) != key
  {
    if key == "exercise" then Some(Exercise)
    else if key == "diet_change" then Some(DietChange)
    else if key == "stress_management" then Some(StressManagement)
    else if key == "sleep_improvement" then Some(SleepImprovement)
    else if key == "medication" then Some(Medication)
    else if key == "hydration" then Some(Hydration)
    else None
  }

  /** Every kind's key is recognised, and as that kind. */
  lemma ParseName(t: InterventionType)
    ensures Parse(Name(t)) == Some(t)
  {
  }

  /** Live statistics of one kind: attempts, effective attempts, mean glucose reduction. */
  datatype Stats = Stats(total: nat, effective: nat, avgReduction: real)

  /** One recorded intervention: its clamped glucose reduction and the caller's effectiveness score. */
  datatype Observation = Observation(reduction: real, score: real)

  /** An attempt is effective when its effectiveness score reaches one half. */
  predicate IsEffective(o: Observation)
  {
    o.score >= 0.5
  }

  /** Glucose reduction clamped at zero: only an improvement counts. */
  function Reduction(baseline: real, outcome: real): (r: real)
    ensures r >= 0.0 && r >= baseline - outcome
    ensures r == 0.0 || r == baseline - outcome
  {
    if baseline - outcome > 0.0 then baseline - outcome else 0.0
  }

  /** Number of effective observations. */
  function EffectiveCount(obs: seq<Observation>): (n: nat)
    ensures n <= |obs|
  {
    if obs == [] then 0
    else EffectiveCount(obs[..|obs| - 1]) + (if IsEffective(obs[|obs| - 1]) then 1 else 0)
  }

  /** Sum of the recorded reductions. */
  function TotalReduction(obs: seq<Observation>): real
  {
    if obs == [] then 0.0 else TotalReduction(obs[..|obs| - 1]) + obs[|obs| - 1].reduction
  }

  /** Arithmetic mean of the recorded reductions, zero when nothing was recorded. */
  function MeanReduction(obs: seq<Observation>): real
  {
    if obs == [] then 0.0 else TotalReduction(obs) / |obs| as real
  }

  /** The statistics a kind must hold after the given observations. */
  function Summary(obs: seq<Observation>): (s: Stats)
    ensures s.total == |obs| && s.effective <= s.total
  {
    Stats(|obs|, EffectiveCount(obs), MeanReduction(obs))
  }

  predicate AllClamped(obs: seq<Observation>)
  {
    forall k :: 0 <= k < |obs| ==> obs[k].reduction >= 0.0
  }

  /**
   * The incremental update of the running mean: the first observation sets
   * it, every later one computes (avg * (n - 1) + x) / n.
   */
  lemma MeanStep(obs: seq<Observation>, o: Observation)
    ensures MeanReduction(obs + [o]) ==
      if obs == [] then o.reduction
      else (MeanReduction(obs) * |obs| as real + o.reduction) / (|obs| + 1) as real
  {
    var s := obs + [o];
    assert s[..|s| - 1] == obs;
    assert TotalReduction(s) == TotalReduction(obs) + o.reduction;
    if obs != [] {
      var n := |obs| as real;
      assert MeanReduction(obs) * n == TotalReduction(obs);
    }
  }

  /**
   * The same update in incremental form: the new mean moves from the old
   * one by (x - avg) / n.
   */
  lemma IncrementalMean(obs: seq<Observation>, o: Observation)
    ensures MeanReduction(obs + [o]) ==
      MeanReduction(obs) + (o.reduction - MeanReduction(obs)) / (|obs| + 1) as real
  {
    MeanStep(obs, o);
    var m, x, n := MeanReduction(obs), o.reduction, (|obs| + 1) as real;
    if obs != [] {
      var d := (x - m) / n;
      assert d * n == x - m;
      assert (m + d) * n == m * (n - 1.0) + x;
    }
  }

  /** Appending an observation adds one to the effective count iff it is effective. */
  lemma EffectiveStep(obs: seq<Observation>, o: Observation)
    ensures EffectiveCount(obs + [o]) == EffectiveCount(obs) + (if IsEffective(o) then 1 else 0)
  {
    assert (obs + [o])[..|obs|] == obs;
  }

  /**
   * The tracker's in-place update (one more attempt, one more effective
   * attempt iff the score reaches 0.5, the running-mean formula) yields
   * the summary of the extended observation list.
   */
  lemma SummaryStep(obs: seq<Observation>, o: Observation)
    ensures Summary(obs + [o]) == Absorb(Summary(obs), o)
  {
    MeanStep(obs, o);
    EffectiveStep(obs, o);
  }

  /**
   * The tracker's in-place update of one kind's statistics: one more
   * attempt, one more effective attempt iff the score reaches 0.5, and the
   * running mean avg * (n - 1) + x over n, or x itself on the first attempt.
   */
  function Absorb(s: Stats, o: Observation): (r: Stats)
    ensures r.total == s.total + 1
    ensures r.effective == s.effective + (if o.score >= 0.5 then 1 else 0)
    ensures r.total == 1 ==> r.avgReduction == o.reduction
    ensures s.avgReduction >= 0.0 && o.reduction >= 0.0 ==> r.avgReduction >= 0.0
  {
    var total := s.total + 1;
    var effective := if o.score >= 0.5 then s.effective + 1 else s.effective;
    var avg := if total == 1 then o.reduction
               else (s.avgReduction * (total - 1) as real + o.reduction) / total as real;
    Stats(total, effective, avg)
  }

  lemma {:induction false} TotalNonNegative(obs: seq<Observation>)
    requires AllClamped(obs)
    ensures TotalReduction(obs) >= 0.0
  {
    if obs != [] {
      TotalNonNegative(obs[..|obs| - 1]);
    }
  }

  /** The mean of clamped reductions is never negative. */
  lemma MeanNonNegative(obs: seq<Observation>)
    requires AllClamped(obs)
    ensures MeanReduction(obs) >= 0.0
  {
    TotalNonNegative(obs);
  }

  /** A success ratio lies in [0, 1] and is 1 exactly when every attempt succeeded. */
  lemma RatioBounds(part: nat, whole: nat)
    requires 0 < whole
    ensures 0.0 <= part as real / whole as real
    ensures part <= whole ==> part as real / whole as real <= 1.0
    ensures part as real / whole as real == 1.0 <==> part == whole
  {
    var q := part as real / whole as real;
    assert q * whole as real == part as real;
  }

  function Min(x: real, y: real): real
  {
    if x <= y then x else y
  }

  function Max(x: real, y: real): real
  {
    if x >= y then x else y
  }

  /**
   * The live ranking score: 60% success rate and 40% mean reduction
   * normalised against 50 mg/dL and capped at 1.
   */
  function Score(s: Stats): (r: real)
    requires s.total > 0
    ensures s.effective <= s.total && s.avgReduction >= 0.0 ==> 0.0 <= r <= 1.0
    ensures s.effective == s.total && s.avgReduction >= 50.0 ==> r == 1.0
    ensures s.effective == 0 && s.avgReduction <= 0.0 ==> r <= 0.0
  {
    RatioBounds(s.effective, s.total);
    0.6 * (s.effective as real / s.total as real) + 0.4 * Min(s.avgReduction / 50.0, 1.0)
  }

  /** One entry of the recommendation list. */
  datatype Recommendation = Recommendation(
    kind: InterventionType,
    effectivenessRate: real,
    avgReduction: real,
    usersTried: nat,
    successCount: nat,
    score: real)

  /** The fixed cold-start table used for a kind with no recorded attempt. */
  function Default(t: InterventionType): (r: Recommendation)
    ensures r.kind == t && 0.0 <= r.score <= 1.0
  {
    match t
    case Exercise => Recommendation(Exercise, 0.85, 15.0, 45, 38, 0.85)
    case DietChange => Recommendation(DietChange, 0.75, 10.0, 32, 24, 0.70)
    case StressManagement => Recommendation(StressManagement, 0.65, 8.0, 28, 18, 0.58)
    case SleepImprovement => Recommendation(SleepImprovement, 0.70, 12.0, 35, 25, 0.66)
    case Medication => Recommendation(Medication, 0.90, 20.0, 22, 20, 0.88)
    case Hydration => Recommendation(Hydration, 0.55, 5.0, 18, 10, 0.52)
  }

  /** The entry for one kind: the default row without data, the live statistics otherwise. */
  function EntryFor(t: InterventionType, s: Stats): (r: Recommendation)
    ensures r.kind == t
    ensures s.total == 0 ==> r == Default(t)
    ensures s.total > 0 ==> r.usersTried == s.total && r.successCount == s.effective
    ensures s.effective <= s.total && s.avgReduction >= 0.0 ==> 0.0 <= r.score <= 1.0
  {
    if s.total == 0 then Default(t)
    else Recommendation(t, s.effective as real / s.total as real, s.avgReduction,
                        s.total, s.effective, Score(s))
  }

  /** The tracker holds statistics for every kind. */
  predicate Tracked(stats: map<InterventionType, Stats>)
  {
    forall t :: t in stats
  }

  /** The unsorted list, in dictionary order. */
  function Entries(stats: map<InterventionType, Stats>): (r: seq<Recommendation>)
    requires Tracked(stats)
    ensures |r| == |AllTypes|
    ensures forall k :: 0 <= k < |r| ==> r[k] == EntryFor(AllTypes[k], stats[AllTypes[k]])
  {
    seq(|AllTypes|, k requires 0 <= k < |AllTypes| => EntryFor(AllTypes[k], stats[AllTypes[k]]))
  }

  /**
   * x comes before y in the ranking: a higher score, or an equal score and
   * an earlier dictionary position (the sort is stable).
   */
  predicate Ahead(x: Recommendation, y: Recommendation)
  {
    x.score > y.score || (x.score == y.score && Index(x.kind) < Index(y.kind))
  }

  predicate RankedOrder(r: seq<Recommendation>)
  {
    forall i, j :: 0 <= i < j < |r| ==> Ahead(r[i], r[j])
  }

  /** Neighbours are in ranking order. */
  predicate Chain(r: seq<Recommendation>)
  {
    forall p :: 0 <= p < |r| - 1 ==> Ahead(r[p], r[p + 1])
  }

  /** The ranking order is transitive, so ordered neighbours give a ranked list. */
  lemma {:induction false} ChainRanked(r: seq<Recommendation>)
    requires Chain(r)
    ensures RankedOrder(r)
  {
    if |r| > 1 {
      var t := r[1..];
      assert Chain(t);
      ChainRanked(t);
      forall j | 1 <= j < |r| ensures Ahead(r[0], r[j]) {
        if j > 1 {
          assert Ahead(r[0], r[1]) && Ahead(t[0], t[j - 1]);
        }
      }
    }
  }

  /** r is the sorted recommendation list for the given statistics. */
  ghost predicate IsRanking(stats: map<InterventionType, Stats>, r: seq<Recommendation>)
    requires Tracked(stats)
  {
    RankedOrder(r) && multiset(r) == multiset(Entries(stats))
  }

  /**
   * Two ranked lists with the same members are the same list: a ranked list
   * has no repeated entry, so the ranking is deterministic.
   */
  lemma {:induction false} RankingUnique(a: seq<Recommendation>, b: seq<Recommendation>)
    requires RankedOrder(a) && RankedOrder(b)
    requires forall x :: x in a <==> x in b
    ensures a == b
  {
    if a == [] {
      assert forall k :: 0 <= k < |b| ==> b[k] !in a;
    } else {
      assert a[0] in b;
      assert b != [] && b[0] in a;
      assert a[0] == b[0];
      forall x ensures x in a[1..] <==> x in b[1..] {
        if x in a[1..] {
          var k :| 1 <= k < |a| && a[k] == x;
          assert Ahead(a[0], a[k]) && x in b;
          var m :| 0 <= m < |b| && b[m] == x;
          assert m != 0 && b[1..][m - 1] == x;
        }
        if x in b[1..] {
          var k :| 1 <= k < |b| && b[k] == x;
          assert Ahead(b[0], b[k]) && x in a;
          var m :| 0 <= m < |a| && a[m] == x;
          assert m != 0 && a[1..][m - 1] == x;
        }
      }
      assert a == [a[0]] + a[1..];
      assert b == [b[0]] + b[1..];
      RankingUnique(a[1..], b[1..]);
    }
  }

  /** Rankings of the same entries coincide. */
  lemma RankingDeterministic(stats: map<InterventionType, Stats>, a: seq<Recommendation>, b: seq<Recommendation>)
    requires Tracked(stats) && IsRanking(stats, a) && IsRanking(stats, b)
    ensures a == b
  {
    forall x ensures x in a <==> x in b {
      assert x in a <==> x in multiset(a);
      assert x in b <==> x in multiset(b);
    }
    RankingUnique(a, b);
  }

  /**
   * A ranking lists every kind exactly once, each with its own entry, in
   * non-increasing score order.
   */
  lemma RankingContents(stats: map<InterventionType, Stats>, r: seq<Recommendation>)
    requires Tracked(stats) && IsRanking(stats, r)
    ensures |r| == |AllTypes|
    ensures forall k :: 0 <= k < |r| ==> r[k] == EntryFor(r[k].kind, stats[r[k].kind])
    ensures forall i, j :: 0 <= i < j < |r| ==> r[i].kind != r[j].kind && r[i].score >= r[j].score
  {
    var e := Entries(stats);
    assert |r| == |multiset(r)| == |multiset(e)| == |e|;
    forall k | 0 <= k < |r|
      ensures r[k] == EntryFor(r[k].kind, stats[r[k].kind])
    {
      assert r[k] in multiset(e);
      var m :| 0 <= m < |e| && e[m] == r[k];
    }
  }

  /** With valid statistics every ranked score lies in [0, 1]. */
  lemma RankingScores(stats: map<InterventionType, Stats>, r: seq<Recommendation>)
    requires Tracked(stats) && IsRanking(stats, r)
    requires forall t :: stats[t].effective <= stats[t].total && stats[t].avgReduction >= 0.0
    ensures forall k :: 0 <= k < |r| ==> 0.0 <= r[k].score <= 1.0
  {
    RankingContents(stats, r);
  }

  /** Order of the cold-start table by its built-in scores. */
  const ColdStartOrder: seq<Recommendation> :=
    [Default(Medication), Default(Exercise), Default(DietChange),
     Default(SleepImprovement), Default(StressManagement), Default(Hydration)]

  /** Without data every entry is the default row, in dictionary order. */
  lemma ColdStartEntries(stats: map<InterventionType, Stats>)
    requires Tracked(stats)
    requires forall t :: stats[t].total == 0
    ensures Entries(stats) == [Default(Exercise), Default(DietChange), Default(StressManagement),
                               Default(SleepImprovement), Default(Medication), Default(Hydration)]
  {
    var e := Entries(stats);
    assert e[0] == Default(Exercise);
    assert e[1] == Default(DietChange);
    assert e[2] == Default(StressManagement);
    assert e[3] == Default(SleepImprovement);
    assert e[4] == Default(Medication);
    assert e[5] == Default(Hydration);
  }

  /** The cold-start rows are ordered by their built-in scores. */
  lemma ColdStartOrdered()
    ensures RankedOrder(ColdStartOrder)
  {
    ChainRanked(ColdStartOrder);
  }

  /** Without any recorded attempt the ranking is the default table, medication first, hydration last. */
  lemma ColdStart(stats: map<InterventionType, Stats>, r: seq<Recommendation>)
    requires Tracked(stats) && IsRanking(stats, r)
    requires forall t :: stats[t].total == 0
    ensures r == ColdStartOrder
  {
    ColdStartEntries(stats);
    var e := Entries(stats);
    forall x ensures x in r <==> x in ColdStartOrder {
      assert x in r <==> x in multiset(r);
      assert x in e <==> x in multiset(e);
    }
    ColdStartOrdered();
    RankingUnique(r, ColdStartOrder);
  }

  /** Exchanges two neighbouring entries. */
  method SwapDown(a: array<Recommendation>, j: int)
    requires 0 < j < a.Length
    modifies a
    ensures a[j - 1] == old(a[j]) && a[j] == old(a[j - 1])
    ensures forall k :: 0 <= k < a.Length && k != j - 1 && k != j ==> a[k] == old(a[k])
    ensures multiset(a[..]) == multiset(old(a[..]))
  {
    a[j - 1], a[j] := a[j], a[j - 1];
  }

  /**
   * One pass of insertion sort: moves a[i] left past every element with a
   * strictly lower score, so that equal scores keep their order.
   */
  method InsertAt(a: array<Recommendation>, i: int)
    requires 0 <= i < a.Length
    requires forall p :: 0 <= p < i - 1 ==> Ahead(a[p], a[p + 1])
    requires forall p :: 0 <= p < i ==> Index(a[p].kind) < Index(a[i].kind)
    modifies a
    ensures forall p :: 0 <= p < i ==> Ahead(a[p], a[p + 1])
    ensures forall p :: 0 <= p <= i ==> Index(a[p].kind) <= Index(old(a[i]).kind)
    ensures forall k :: i < k < a.Length ==> a[k] == old(a[k])
    ensures multiset(a[..]) == multiset(old(a[..]))
  {
    ghost var x := a[i];
    var j := i;
    while j > 0 && a[j - 1].score < a[j].score
      invariant 0 <= j <= i
      invariant a[j] == x
      invariant forall p :: 0 <= p < i && p != j - 1 && p != j ==> Ahead(a[p], a[p + 1])
      invariant 0 < j < i ==> Ahead(a[j - 1], a[j + 1])
      invariant j < i ==> a[j + 1].score < x.score
      invariant forall p :: 0 <= p <= i && p != j ==> Index(a[p].kind) < Index(x.kind)
      invariant forall k :: i < k < a.Length ==> a[k] == old(a[k])
      invariant multiset(a[..]) == multiset(old(a[..]))
    {
      SwapDown(a, j);
      j := j - 1;
    }
  }

  /**
   * Stable descending sort by score (insertion sort, as Python's list.sort
   * keeps equal keys in their original order). The entries arrive in
   * dictionary order.
   */
  method Rank(entries: seq<Recommendation>) returns (r: seq<Recommendation>)
    requires forall k :: 0 <= k < |entries| ==> Index(entries[k].kind) == k
    ensures RankedOrder(r) && multiset(r) == multiset(entries)
  {
    var a := new Recommendation[|entries|](k requires 0 <= k < |entries| => entries[k]);
    assert a[..] == entries;
    var i := 0;
    while i < a.Length
      invariant 0 <= i <= a.Length
      invariant forall p :: 0 <= p < i - 1 ==> Ahead(a[p], a[p + 1])
      invariant forall p :: 0 <= p < i ==> Index(a[p].kind) < i
      invariant forall k :: i <= k < a.Length ==> a[k] == entries[k]
      invariant multiset(a[..]) == multiset(entries)
    {
      InsertAt(a, i);
      i := i + 1;
    }
    r := a[..];
    ChainRanked(r);
  }
}
