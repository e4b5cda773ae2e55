/**
 * The rules the prediction page applies to a patient's measurements: the
 * risk level chosen from the classifier's answer, the threshold categories
 * and traffic-light statuses of each metric, the four-part health score,
 * and the categories of the chart endpoint. The classifier itself is a
 * parameter (its 0/1 answer).
 */
module HealthMetrics {
  import opened Wrappers

  /** The measurements a patient enters. */
  datatype Measurements = Measurements(
    glucose: real,
    insulin: real,
    bmi: real,
    age: real,
    bpSystolic: real,
    bpDiastolic: real,
    familyHistory: bool)

  /** A stored health record. */
  datatype HealthRecord = HealthRecord(
    userId: int,
    metrics: Measurements,
    predictionResult: int,
    riskLevel: string)

  const Healthy: string := "\U{2705} Healthy"
  const NeedsAttention: string := "\U{26A0}\U{FE0F} Needs Attention"
  const AtRisk: string := "\U{1F534} At Risk"
  const NormalStatus: string := "\U{2705} Normal"
  const PrediabetesStatus: string := "\U{26A0}\U{FE0F} Prediabetes"
  const ElevatedStatus: string := "\U{26A0}\U{FE0F} Elevated"
  const HighStatus: string := "\U{1F534} High"

  /** The risk level stored with a prediction: "High" exactly for a positive answer. */
  function RiskLevel(predValue: int): (r: string)
    ensures r == "High" <==> predValue == 1
    ensures r == "Low" <==> predValue != 1
  {
    if predValue == 1 then "High" else "Low"
  }

  /** The record the prediction page stores for a user. */
  function NewRecord(userId: int, m: Measurements, predValue: int): (r: HealthRecord)
    ensures r.userId == userId && r.metrics == m && r.predictionResult == predValue
    ensures r.riskLevel == "High" <==> r.predictionResult == 1
  {
    HealthRecord(userId, m, predValue, RiskLevel(predValue))
  }

  /** BMI bands of the results page. */
  function BmiCategory(bmi: real): (r: string)
    ensures r == "Underweight" <==> bmi < 18.5
    ensures r == "Normal Weight" <==> 18.5 <= bmi < 25.0
    ensures r == "Overweight" <==> 25.0 <= bmi < 30.0
    ensures r == "Obese" <==> 30.0 <= bmi
  {
    if bmi < 18.5 then "Underweight"
    else if bmi < 25.0 then "Normal Weight"
    else if bmi < 30.0 then "Overweight"
    else "Obese"
  }

  /** BMI status: healthy below 25 (underweight included), at risk from 30. */
  function BmiStatus(bmi: real): (r: string)
    ensures r == Healthy <==> bmi < 25.0
    ensures r == NeedsAttention <==> 25.0 <= bmi < 30.0
    ensures r == AtRisk <==> 30.0 <= bmi
  {
    if bmi < 25.0 then Healthy
    else if bmi < 30.0 then NeedsAttention
    else AtRisk
  }

  /** Glucose bands in mg/dL. */
  function GlucoseCategory(glucose: real): (r: string)
    ensures r == "Normal" <==> glucose < 100.0
    ensures r == "Prediabetes" <==> 100.0 <= glucose < 126.0
    ensures r == "Diabetes" <==> 126.0 <= glucose
  {
    if glucose < 100.0 then "Normal"
    else if glucose < 126.0 then "Prediabetes"
    else "Diabetes"
  }

  function GlucoseStatus(glucose: real): (r: string)
    ensures r == NormalStatus <==> glucose < 100.0
    ensures r == PrediabetesStatus <==> 100.0 <= glucose < 126.0
    ensures r == HighStatus <==> 126.0 <= glucose
  {
    if glucose < 100.0 then NormalStatus
    else if glucose < 126.0 then PrediabetesStatus
    else HighStatus
  }

  function InsulinStatus(insulin: real): (r: string)
    ensures r == NormalStatus <==> insulin < 12.0
    ensures r == ElevatedStatus <==> 12.0 <= insulin < 20.0
    ensures r == HighStatus <==> 20.0 <= insulin
  {
    if insulin < 12.0 then NormalStatus
    else if insulin < 20.0 then ElevatedStatus
    else HighStatus
  }

  /**
   * Blood-pressure category. The stage-1 test is a disjunction, so stage 2
   * needs both readings high, and a diastolic reading of 80 or more with a
   * low systolic one is stage 1.
   */
  function BpCategory(systolic: real, diastolic: real): (r: string)
    ensures r == "Normal" <==> systolic < 120.0 && diastolic < 80.0
    ensures r == "Elevated" <==> 120.0 <= systolic < 130.0 && diastolic < 80.0
    ensures r == "High Stage 2" <==> systolic >= 140.0 && diastolic >= 90.0
    ensures r == "High Stage 1" <==>
      !(systolic < 130.0 && diastolic < 80.0) && (systolic < 140.0 || diastolic < 90.0)
  {
    if systolic < 120.0 && diastolic < 80.0 then "Normal"
    else if systolic < 130.0 && diastolic < 80.0 then "Elevated"
    else if systolic < 140.0 || diastolic < 90.0 then "High Stage 1"
    else "High Stage 2"
  }

  /** Blood-pressure status from the systolic reading alone. */
  function BpStatus(systolic: real): (r: string)
    ensures r == NormalStatus <==> systolic < 120.0
    ensures r == ElevatedStatus <==> 120.0 <= systolic < 140.0
    ensures r == HighStatus <==> 140.0 <= systolic
  {
    if systolic < 120.0 then NormalStatus
    else if systolic < 140.0 then ElevatedStatus
    else HighStatus
  }

  function BmiPoints(bmi: real): (p: int)
    ensures p == 25 <==> bmi < 25.0
    ensures p == 5 || p == 15 || p == 25
  {
    if bmi < 25.0 then 25 else if bmi < 30.0 then 15 else 5
  }

  function GlucosePoints(glucose: real): (p: int)
    ensures p == 25 <==> glucose < 100.0
    ensures p == 5 || p == 15 || p == 25
  {
    if glucose < 100.0 then 25 else if glucose < 126.0 then 15 else 5
  }

  function InsulinPoints(insulin: real): (p: int)
    ensures p == 20 <==> insulin < 12.0
    ensures p == 3 || p == 10 || p == 20
  {
    if insulin < 12.0 then 20 else if insulin < 20.0 then 10 else 3
  }

  function SystolicPoints(systolic: real): (p: int)
    ensures p == 30 <==> systolic < 120.0
    ensures p == 5 || p == 15 || p == 30
  {
    if systolic < 120.0 then 30 else if systolic < 140.0 then 15 else 5
  }

  /** A metric in its healthiest band on every one of the four scored measurements. */
  predicate AllHealthy(m: Measurements)
  {
    m.bmi < 25.0 && m.glucose < 100.0 && m.insulin < 12.0 && m.bpSystolic < 120.0
  }

  /**
   * The health score: the sum of the four components, between 18 (every
   * metric in its worst band) and 100 (every metric in its best band).
   */
  function HealthScore(m: Measurements): (score: int)
    ensures 18 <= score <= 100
    ensures score == 100 <==> AllHealthy(m)
    ensures score == 18 <==> m.bmi >= 30.0 && m.glucose >= 126.0 && m.insulin >= 20.0 && m.bpSystolic >= 140.0
  {
    BmiPoints(m.bmi) + GlucosePoints(m.glucose) + InsulinPoints(m.insulin) + SystolicPoints(m.bpSystolic)
  }

  /** b is at least as high as a on every scored measurement. */
  predicate NoLower(a: Measurements, b: Measurements)
  {
    a.bmi <= b.bmi && a.glucose <= b.glucose && a.insulin <= b.insulin && a.bpSystolic <= b.bpSystolic
  }

  /** Higher readings never raise the health score. */
  lemma HealthScoreMonotone(a: Measurements, b: Measurements)
    requires NoLower(a, b)
    ensures HealthScore(b) <= HealthScore(a)
  {
  }

  /** A perfect score is shown exactly when all four statuses are green. */
  lemma PerfectScoreAllGreen(m: Measurements)
    ensures HealthScore(m) == 100 <==>
      BmiStatus(m.bmi) == Healthy && GlucoseStatus(m.glucose) == NormalStatus
      && InsulinStatus(m.insulin) == NormalStatus && BpStatus(m.bpSystolic) == NormalStatus
  {
  }

  /** The statuses agree with the categories they sit beside. */
  lemma StatusesMatchCategories(m: Measurements)
    ensures GlucoseStatus(m.glucose) == NormalStatus <==> GlucoseCategory(m.glucose) == "Normal"
    ensures BmiStatus(m.bmi) == Healthy <==>
      BmiCategory(m.bmi) == "Underweight" || BmiCategory(m.bmi) == "Normal Weight"
    ensures BpCategory(m.bpSystolic, m.bpDiastolic) == "Normal" ==> BpStatus(m.bpSystolic) == NormalStatus
  {
  }

  /** BMI bands of the chart endpoint: the same thresholds, "Normal" for the middle band. */
  function ChartBmiCategory(bmi: real): (r: string)
    ensures r == "Underweight" <==> bmi < 18.5
    ensures r == "Normal" <==> 18.5 <= bmi < 25.0
    ensures r == "Overweight" <==> 25.0 <= bmi < 30.0
    ensures r == "Obese" <==> 30.0 <= bmi
  {
    if bmi < 18.5 then "Underweight"
    else if bmi < 25.0 then "Normal"
    else if bmi < 30.0 then "Overweight"
    else "Obese"
  }

  /** The chart and the results page put every reading in the same band. */
  lemma ChartAgreesWithResults(bmi: real, glucose: real)
    ensures ChartBmiCategory(bmi) ==
      if BmiCategory(bmi) == "Normal Weight" then "Normal" else BmiCategory(bmi)
    ensures ChartGlucoseCategory(glucose) == GlucoseCategory(glucose)
  {
  }

  /** Glucose bands of the chart endpoint. */
  function ChartGlucoseCategory(glucose: real): (r: string)
    ensures r == "Normal" <==> glucose < 100.0
    ensures r == "Prediabetes" <==> 100.0 <= glucose < 126.0
    ensures r == "Diabetes" <==> 126.0 <= glucose
  {
    if glucose < 100.0 then "Normal"
    else if glucose < 126.0 then "Prediabetes"
    else "Diabetes"
  }

  datatype ChartData = ChartData(
    bmi: real,
    bmiCategory: string,
    glucose: real,
    glucoseCategory: string,
    riskValue: int,
    riskLevel: string)

  const NotFound: int := 404
  const Forbidden: int := 403

  /**
   * The chart endpoint: 404 for a missing record, 403 for another user's
   * record, otherwise the two categorised readings and the risk value
   * (prediction result times 100) with the stored level.
   */
  function GetChartData(record: Option<HealthRecord>, currentUser: int): (r: Result<ChartData>)
    ensures record.None? ==> r == Failure(NotFound)
    ensures record.Some? && record.value.userId != currentUser ==> r == Failure(Forbidden)
    ensures r.Success? <==> record.Some? && record.value.userId == currentUser
    ensures r.Success? ==>
      && r.value.bmi == record.value.metrics.bmi
      && r.value.glucose == record.value.metrics.glucose
      && r.value.bmiCategory == ChartBmiCategory(record.value.metrics.bmi)
      && r.value.glucoseCategory == ChartGlucoseCategory(record.value.metrics.glucose)
      && r.value.riskValue == record.value.predictionResult * 100
      && r.value.riskLevel == record.value.riskLevel
  {
    match record
    case None => Failure(NotFound)
    case Some(rec) =>
      if rec.userId != currentUser then Failure(Forbidden)
      else
        Success(ChartData(rec.metrics.bmi, ChartBmiCategory(rec.metrics.bmi),
                          rec.metrics.glucose, ChartGlucoseCategory(rec.metrics.glucose),
                          rec.predictionResult * 100, rec.riskLevel))
  }

  /**
   * For a record stored by the prediction page, the chart shows risk 100
   * with level "High" for a positive prediction, and level "Low" otherwise.
   */
  lemma ChartRiskOfNewRecord(userId: int, m: Measurements, predValue: int)
    ensures var r := GetChartData(Some(NewRecord(userId, m, predValue)), userId);
      && r.Success?
      && (r.value.riskLevel == "High" <==> r.value.riskValue == 100)
      && (r.value.riskLevel == "Low" <==> predValue != 1)
  {
  }
}
