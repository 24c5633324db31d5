/** The JSON shapes that the Google Fit aggregate call returns, the flat daily
    record the server answers with, and the data source identifiers that the
    normaliser recognises. A key that may be missing from a JSON object is an
    `Option` whose `None` is JavaScript's `undefined`. */
module FitData {
  import opened Wrappers

  /** One element of a data point's `value` list. */
  datatype ValueEntry = ValueEntry(intVal: Option<int>, fpVal: Option<real>)

  /** A data point; only its `value` list is read. */
  datatype DataPoint = DataPoint(value: Option<seq<ValueEntry>>)

  /** The points one data source contributed to a bucket. */
  datatype Dataset = Dataset(dataSourceId: string, point: Option<seq<DataPoint>>)

  /** A daily bucket; `startTimeMillis` is taken already parsed to an integer. */
  datatype Bucket = Bucket(startTimeMillis: int, dataset: Option<seq<Dataset>>)

  /** The `data` part of the aggregate reply. */
  datatype AggregateData = AggregateData(bucket: Option<seq<Bucket>>)

  // JavaScript truthiness of an optional number: `undefined` and 0 are falsy.
  predicate IntTruthy(v: Option<int>) { v.Some? && v.value != 0 }

  predicate FpTruthy(v: Option<real>) { v.Some? && v.value != 0.0 }

  /** `sleep_hours`: the number 0, or the whole `value` list that the sleep
      case assigns to it. */
  datatype SleepValue = SleepZero | SleepList(values: seq<ValueEntry>)

  /** `menstrual_cycle_start`: the default empty string, or the number the
      menstruation case assigns. */
  datatype CycleStart = CycleUnset | CycleDay(day: int)

  /** One element of the response: the day and one slot per metric.
      `bodyFatInPercent` is `None` when the case assigned `undefined`. */
  datatype DailyRecord = DailyRecord(
    date: string,
    stepCount: int,
    glucoseLevel: real,
    bloodPressure: seq<real>,
    heartRate: real,
    weight: real,
    heightInCms: real,
    sleepHours: SleepValue,
    bodyFatInPercent: Option<real>,
    menstrualCycleStart: CycleStart)

  /** The record every bucket starts from: each slot holds the empty value
      of its type (0, `[]`, or the empty string for menstruation). */
  function DefaultRecord(date: string): (r: DailyRecord)
    ensures r.date == date
    ensures forall f :: Get(r, f) in {Count(0), Amount(0.0), Readings([]), Sleep(SleepZero),
                                      MaybeAmount(Some(0.0)), Cycle(CycleUnset)}
  {
    DailyRecord(date, 0, 0.0, [], 0.0, 0.0, 0.0, SleepZero, Some(0.0), CycleUnset)
  }

  /** The metric slots of a record; each switch case writes exactly one. */
  datatype Field =
    | StepCount | GlucoseLevel | BloodPressure | HeartRate | Weight
    | HeightInCms | SleepHours | BodyFatInPercent | MenstrualCycleStart

  /** The contents of one slot, whatever its type. */
  datatype FieldValue =
    | Count(n: int)
    | Amount(x: real)
    | Readings(xs: seq<real>)
    | Sleep(s: SleepValue)
    | MaybeAmount(m: Option<real>)
    | Cycle(c: CycleStart)

  function Get(r: DailyRecord, f: Field): FieldValue {
    match f
    case StepCount => Count(r.stepCount)
    case GlucoseLevel => Amount(r.glucoseLevel)
    case BloodPressure => Readings(r.bloodPressure)
    case HeartRate => Amount(r.heartRate)
    case Weight => Amount(r.weight)
    case HeightInCms => Amount(r.heightInCms)
    case SleepHours => Sleep(r.sleepHours)
    case BodyFatInPercent => MaybeAmount(r.bodyFatInPercent)
    case MenstrualCycleStart => Cycle(r.menstrualCycleStart)
  }

  /** `a` and `b` have the same date and differ at most in slot `f`. */
  predicate AgreeExcept(a: DailyRecord, b: DailyRecord, f: Field) {
    a.date == b.date && forall g: Field :: g != f ==> Get(a, g) == Get(b, g)
  }

  // The case labels of the switch on `dataSourceId`.
  const StepSource := "derived:com.google.step_count.delta:com.google.android.gms:aggregated"
  const GlucoseSource := "derived:com.google.blood_glucose.summary:com.google.android.gms:aggregated"
  const BloodPressureSource := "derived:com.google.blood_pressure.summary:com.google.android.gms:aggregated"
  const HeartRateSource := "derived:com.google.heart_rate.summary:com.google.android.gms:aggregated"
  const WeightSource := "derived:com.google.weight.summary:com.google.android.gms:aggregated"
  const HeightSource := "derived:com.google.height.summary:com.google.android.gms:aggregated"
  const SleepSource := "derived:com.google.sleep.segment:com.google.android.gms:merged"
  const BodyFatSource := "derived:com.google.body.fat.percentage.summary:com.google.android.gms:aggregated"
  const MenstruationSource := "derived:com.google.menstruation:com.google.android.gms:aggregated"

  /** The `dataSourceId` whose case writes slot `f`. */
  function SourceId(f: Field): string {
    match f
    case StepCount => StepSource
    case GlucoseLevel => GlucoseSource
    case BloodPressure => BloodPressureSource
    case HeartRate => HeartRateSource
    case Weight => WeightSource
    case HeightInCms => HeightSource
    case SleepHours => SleepSource
    case BodyFatInPercent => BodyFatSource
    case MenstrualCycleStart => MenstruationSource
  }

  /** The switch on `dataSourceId`: the slot a recognised identifier writes,
      `None` for the default case. */
  function SourceField(id: string): (r: Option<Field>)
    ensures r.Some? ==> SourceId(r.value) == id
  {
    if id == StepSource then Some(StepCount)
    else if id == GlucoseSource then Some(GlucoseLevel)
    else if id == BloodPressureSource then Some(BloodPressure)
    else if id == HeartRateSource then Some(HeartRate)
    else if id == WeightSource then Some(Weight)
    else if id == HeightSource then Some(HeightInCms)
    else if id == SleepSource then Some(SleepHours)
    else if id == BodyFatSource then Some(BodyFatInPercent)
    else if id == MenstruationSource then Some(MenstrualCycleStart)
    else None
  }

  /** The nine case labels are distinct, so each selects its own slot. */
  lemma SourceFieldInverse(f: Field)
    ensures SourceField(SourceId(f)) == Some(f)
  {
  }
}
