/** What the switch cases compute from the `value` list of a dataset's first
    point: the cases that read only `value[0]`, and the three that walk the
    whole list keeping the last reading that passes their test. */
module ValueScan {
  import opened Wrappers
  import opened FitData

  /** The test a walking case applies to each reading: glucose and heart rate
      keep any truthy `fpVal`; blood pressure keeps a truthy `fpVal` above 100
      in slot 0 and one below 100 in slot 1. */
  datatype Band = AnyReading | Above100 | Below100

  predicate Selects(band: Band, e: ValueEntry) {
    FpTruthy(e.fpVal) &&
    match band
    case AnyReading => true
    case Above100 => e.fpVal.value > 100.0
    case Below100 => e.fpVal.value < 100.0
  }

  /** The `fpVal` of the last reading `band` keeps, if there is one. */
  function LastSelected(vs: seq<ValueEntry>, band: Band): (r: Option<real>)
    ensures r.None? <==> forall j :: 0 <= j < |vs| ==> !Selects(band, vs[j])
    ensures r.Some? ==>
      exists j :: 0 <= j < |vs| && Selects(band, vs[j]) && vs[j].fpVal.value == r.value
        && forall k :: j < k < |vs| ==> !Selects(band, vs[k])
    decreases |vs|
  {
    if vs == [] then None
    else if Selects(band, vs[|vs| - 1]) then Some(vs[|vs| - 1].fpVal.value)
    else LastSelected(vs[..|vs| - 1], band)
  }

  function OrZero(v: Option<real>): real {
    if v.Some? then v.value else 0.0
  }

  /** `glucose_level` from a non-missing `value` list. */
  function GlucoseOf(vs: seq<ValueEntry>): (level: real)
    ensures level == 0.0 <==> forall k :: 0 <= k < |vs| ==> !FpTruthy(vs[k].fpVal)
  {
    assert forall k :: 0 <= k < |vs| ==> (Selects(AnyReading, vs[k]) <==> FpTruthy(vs[k].fpVal));
    match LastSelected(vs, AnyReading)
    case Some(x) => x * 10.0
    case None => 0.0
  }

  /** `heart_rate` from a non-missing `value` list. */
  function HeartRateOf(vs: seq<ValueEntry>): (rate: real)
    ensures rate == 0.0 <==> forall k :: 0 <= k < |vs| ==> !FpTruthy(vs[k].fpVal)
  {
    assert forall k :: 0 <= k < |vs| ==> (Selects(AnyReading, vs[k]) <==> FpTruthy(vs[k].fpVal));
    OrZero(LastSelected(vs, AnyReading))
  }

  /** `blood_pressure` from a non-missing `value` list. */
  function BloodPressureOf(vs: seq<ValueEntry>): (slots: seq<real>)
    ensures |slots| == 2
    ensures slots[0] == 0.0 || slots[0] > 100.0
    ensures slots[1] == 0.0 || slots[1] < 100.0
  {
    [OrZero(LastSelected(vs, Above100)), OrZero(LastSelected(vs, Below100))]
  }

  /** The last reading `band` keeps is the one `LastSelected` reports. */
  lemma LastSelectedIsLastMatch(vs: seq<ValueEntry>, band: Band, j: int)
    requires 0 <= j < |vs| && Selects(band, vs[j])
    requires forall k :: j < k < |vs| ==> !Selects(band, vs[k])
    ensures LastSelected(vs, band) == Some(vs[j].fpVal.value)
  {
    var r := LastSelected(vs, band);
    var i :| 0 <= i < |vs| && Selects(band, vs[i]) && vs[i].fpVal.value == r.value
      && forall k :: i < k < |vs| ==> !Selects(band, vs[k]);
    assert i == j;
  }

  /** Glucose level is ten times the last truthy `fpVal`, and heart rate is
      that `fpVal` itself. */
  lemma GlucoseIsTenTimesLastReading(vs: seq<ValueEntry>, j: int)
    requires 0 <= j < |vs| && FpTruthy(vs[j].fpVal)
    requires forall k :: j < k < |vs| ==> !FpTruthy(vs[k].fpVal)
    ensures GlucoseOf(vs) == 10.0 * vs[j].fpVal.value
    ensures HeartRateOf(vs) == vs[j].fpVal.value
  {
    LastSelectedIsLastMatch(vs, AnyReading, j);
  }

  /** The glucose loop: every truthy reading overwrites the running level. */
  method ScanGlucose(vs: seq<ValueEntry>) returns (level: real)
    ensures level == GlucoseOf(vs)
    ensures level == 0.0 <==> forall k :: 0 <= k < |vs| ==> !FpTruthy(vs[k].fpVal)
  {
    level := 0.0;
    for i := 0 to |vs|
      invariant level == GlucoseOf(vs[..i])
    {
      assert vs[..i + 1][..i] == vs[..i];
      if FpTruthy(vs[i].fpVal) {
        level := vs[i].fpVal.value * 10.0;
      }
    }
    assert vs[..|vs|] == vs;
    assert forall k :: 0 <= k < |vs| ==> (Selects(AnyReading, vs[k]) <==> FpTruthy(vs[k].fpVal));
  }

  /** The heart-rate loop: every truthy reading overwrites the running rate. */
  method ScanHeartRate(vs: seq<ValueEntry>) returns (rate: real)
    ensures rate == HeartRateOf(vs)
    ensures rate == 0.0 <==> forall k :: 0 <= k < |vs| ==> !FpTruthy(vs[k].fpVal)
  {
    rate := 0.0;
    for i := 0 to |vs|
      invariant rate == HeartRateOf(vs[..i])
    {
      assert vs[..i + 1][..i] == vs[..i];
      if FpTruthy(vs[i].fpVal) {
        rate := vs[i].fpVal.value;
      }
    }
    assert vs[..|vs|] == vs;
    assert forall k :: 0 <= k < |vs| ==> (Selects(AnyReading, vs[k]) <==> FpTruthy(vs[k].fpVal));
  }

  /** The blood-pressure loop over the two-slot array `finalData`: a truthy
      reading above 100 overwrites slot 0, one below 100 slot 1, and a reading
      of exactly 100 is dropped. */
  method ScanBloodPressure(vs: seq<ValueEntry>) returns (slots: seq<real>)
    ensures slots == BloodPressureOf(vs)
  {
    var finalData := new real[2];
    finalData[0], finalData[1] := 0.0, 0.0;
    for i := 0 to |vs|
      invariant finalData[..] == BloodPressureOf(vs[..i])
    {
      assert vs[..i + 1][..i] == vs[..i];
      var e := vs[i];
      if FpTruthy(e.fpVal) {
        if e.fpVal.value > 100.0 {
          finalData[0] := e.fpVal.value;
        } else if e.fpVal.value < 100.0 {
          finalData[1] := e.fpVal.value;
        }
      }
    }
    assert vs[..|vs|] == vs;
    slots := finalData[..];
  }

  /** Slot 0 holds the last truthy reading above 100 and slot 1 the last one
      below 100; a reading of exactly 100 or a falsy one never lands. */
  lemma BloodPressureSlots(vs: seq<ValueEntry>)
    ensures |BloodPressureOf(vs)| == 2
    ensures forall j ::
              (0 <= j < |vs| && Selects(Above100, vs[j]) && forall k :: j < k < |vs| ==> !Selects(Above100, vs[k]))
              ==> BloodPressureOf(vs)[0] == vs[j].fpVal.value
    ensures forall j ::
              (0 <= j < |vs| && Selects(Below100, vs[j]) && forall k :: j < k < |vs| ==> !Selects(Below100, vs[k]))
              ==> BloodPressureOf(vs)[1] == vs[j].fpVal.value
    ensures BloodPressureOf(vs)[0] != 0.0 ==>
      exists j :: 0 <= j < |vs| && FpTruthy(vs[j].fpVal) && vs[j].fpVal.value > 100.0
        && BloodPressureOf(vs)[0] == vs[j].fpVal.value
        && forall k :: j < k < |vs| && FpTruthy(vs[k].fpVal) ==> vs[k].fpVal.value <= 100.0
    ensures BloodPressureOf(vs)[1] != 0.0 ==>
      exists j :: 0 <= j < |vs| && FpTruthy(vs[j].fpVal) && vs[j].fpVal.value < 100.0
        && BloodPressureOf(vs)[1] == vs[j].fpVal.value
        && forall k :: j < k < |vs| && FpTruthy(vs[k].fpVal) ==> vs[k].fpVal.value >= 100.0
    ensures (forall k :: 0 <= k < |vs| ==> !FpTruthy(vs[k].fpVal) || vs[k].fpVal.value <= 100.0)
      ==> BloodPressureOf(vs)[0] == 0.0
    ensures (forall k :: 0 <= k < |vs| ==> !FpTruthy(vs[k].fpVal) || vs[k].fpVal.value >= 100.0)
      ==> BloodPressureOf(vs)[1] == 0.0
  {
    forall j | 0 <= j < |vs| && Selects(Above100, vs[j]) && (forall k :: j < k < |vs| ==> !Selects(Above100, vs[k]))
      ensures BloodPressureOf(vs)[0] == vs[j].fpVal.value
    {
      LastSelectedIsLastMatch(vs, Above100, j);
    }
    forall j | 0 <= j < |vs| && Selects(Below100, vs[j]) && (forall k :: j < k < |vs| ==> !Selects(Below100, vs[k]))
      ensures BloodPressureOf(vs)[1] == vs[j].fpVal.value
    {
      LastSelectedIsLastMatch(vs, Below100, j);
    }
    var hi, lo := LastSelected(vs, Above100), LastSelected(vs, Below100);
    if hi.Some? {
      var j :| 0 <= j < |vs| && Selects(Above100, vs[j]) && vs[j].fpVal.value == hi.value
        && forall k :: j < k < |vs| ==> !Selects(Above100, vs[k]);
      assert forall k :: j < k < |vs| && FpTruthy(vs[k].fpVal) ==> vs[k].fpVal.value <= 100.0 by {
        forall k | j < k < |vs| && FpTruthy(vs[k].fpVal) ensures vs[k].fpVal.value <= 100.0 {
          assert !Selects(Above100, vs[k]);
        }
      }
    }
    if lo.Some? {
      var j :| 0 <= j < |vs| && Selects(Below100, vs[j]) && vs[j].fpVal.value == lo.value
        && forall k :: j < k < |vs| ==> !Selects(Below100, vs[k]);
      assert forall k :: j < k < |vs| && FpTruthy(vs[k].fpVal) ==> vs[k].fpVal.value >= 100.0 by {
        forall k | j < k < |vs| && FpTruthy(vs[k].fpVal) ensures vs[k].fpVal.value >= 100.0 {
          assert !Selects(Below100, vs[k]);
        }
      }
    }
  }

  /** `step_count` (and `menstrual_cycle_start`): `value[0]?.intVal || 0`. */
  function FirstIntOrZero(vs: seq<ValueEntry>): (n: int)
    ensures n != 0 <==> |vs| > 0 && IntTruthy(vs[0].intVal)
    ensures n != 0 ==> n == vs[0].intVal.value
  {
    if |vs| > 0 && IntTruthy(vs[0].intVal) then vs[0].intVal.value else 0
  }

  /** `weight`: `value[0]?.fpVal || 0`. */
  function FirstFpOrZero(vs: seq<ValueEntry>): (x: real)
    ensures x != 0.0 <==> |vs| > 0 && FpTruthy(vs[0].fpVal)
    ensures x != 0.0 ==> x == vs[0].fpVal.value
  {
    if |vs| > 0 && FpTruthy(vs[0].fpVal) then vs[0].fpVal.value else 0.0
  }

  /** `height_in_cms`: `value[0]?.fpVal * 100 || 0`. A missing reading makes
      the product NaN and a zero one makes it 0; both are falsy. */
  function HeightOf(vs: seq<ValueEntry>): (h: real)
    ensures h == 100.0 * FirstFpOrZero(vs)
  {
    if |vs| == 0 || vs[0].fpVal.None? then 0.0
    else if vs[0].fpVal.value * 100.0 == 0.0 then 0.0
    else vs[0].fpVal.value * 100.0
  }

  /** `body_fat_in_percent`: `value[0].fpVal` with no fallback, so a missing
      `fpVal` yields `undefined`; a missing or empty list leaves 0. */
  function BodyFatOf(value: Option<seq<ValueEntry>>): (f: Option<real>)
    ensures value.Some? && |value.value| > 0 ==> f == value.value[0].fpVal
    ensures value.None? || |value.value| == 0 ==> f == Some(0.0)
  {
    if value.Some? && |value.value| > 0 then value.value[0].fpVal else Some(0.0)
  }
}
