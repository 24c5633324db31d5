/** The reshaping of the aggregate reply into one flat record per daily
    bucket: a per-dataset switch on `dataSourceId`, a loop over a bucket's
    datasets, and a loop over the buckets that pushes each finished record. */
module Normaliser {
  import opened Wrappers
  import opened FitData
  import opened ValueScan

  /** What makes the transform throw (and the handler answer 500). */
  datatype NormaliseError =
    | ValueUndefined(field: Field)  // a case indexed `value[0]` of an undefined `value`
    | DatasetListUndefined          // `data.dataset.map` on an undefined list
    | BucketListUndefined           // `response.data.bucket.map` on an undefined list

  /** `point && point.length > 0`: only then is the switch entered. */
  predicate HasPoint(ds: Dataset) {
    ds.point.Some? && |ds.point.value| > 0
  }

  /** `point[0].value`, the only list any case reads. */
  function FirstValue(ds: Dataset): Option<seq<ValueEntry>>
    requires HasPoint(ds)
  {
    ds.point.value[0].value
  }

  /** Dataset `ds` enters the switch and its case writes slot `f`. */
  predicate Fires(ds: Dataset, f: Field) {
    HasPoint(ds) && SourceField(ds.dataSourceId) == Some(f)
  }

  /** The cases that index `value[0]` without checking `value` first. */
  predicate IndexesValue(f: Field) {
    f == StepCount || f == Weight || f == HeightInCms || f == MenstrualCycleStart
  }

  /** `ds` fires one of those cases with `value` undefined. */
  predicate Throws(ds: Dataset) {
    HasPoint(ds) && FirstValue(ds).None?
      && SourceField(ds.dataSourceId).Some? && IndexesValue(SourceField(ds.dataSourceId).value)
  }

  /** One iteration of the dataset loop: the switch on `dataSourceId`. */
  function ApplyDataset(entry: DailyRecord, ds: Dataset): (r: Result<DailyRecord, NormaliseError>)
    ensures r.Failure? <==> Throws(ds)
    ensures r.Failure? ==> r.error == ValueUndefined(SourceField(ds.dataSourceId).value)
    ensures !HasPoint(ds) || SourceField(ds.dataSourceId).None? ==> r == Success(entry)
    ensures r.Success? && HasPoint(ds) && SourceField(ds.dataSourceId).Some? ==>
      AgreeExcept(entry, r.value, SourceField(ds.dataSourceId).value)
  {
    if !HasPoint(ds) then Success(entry)
    else
      var value := FirstValue(ds);
      match SourceField(ds.dataSourceId)
      case None => Success(entry)
      case Some(StepCount) =>
        if value.None? then Failure(ValueUndefined(StepCount))
        else Success(entry.(stepCount := FirstIntOrZero(value.value)))
      case Some(GlucoseLevel) =>
        Success(entry.(glucoseLevel := if value.Some? then GlucoseOf(value.value) else 0.0))
      case Some(BloodPressure) =>
        Success(entry.(bloodPressure := if value.Some? then BloodPressureOf(value.value) else [0.0, 0.0]))
      case Some(HeartRate) =>
        Success(entry.(heartRate := if value.Some? then HeartRateOf(value.value) else 0.0))
      case Some(Weight) =>
        if value.None? then Failure(ValueUndefined(Weight))
        else Success(entry.(weight := FirstFpOrZero(value.value)))
      case Some(HeightInCms) =>
        if value.None? then Failure(ValueUndefined(HeightInCms))
        else Success(entry.(heightInCms := HeightOf(value.value)))
      case Some(SleepHours) =>
        Success(entry.(sleepHours := if value.Some? then SleepList(value.value) else SleepZero))
      case Some(BodyFatInPercent) =>
        Success(entry.(bodyFatInPercent := BodyFatOf(value)))
      case Some(MenstrualCycleStart) =>
        if value.None? then Failure(ValueUndefined(MenstrualCycleStart))
        else Success(entry.(menstrualCycleStart := CycleDay(FirstIntOrZero(value.value))))
  }

  /** The dataset loop of one bucket, from a given starting record. */
  function ApplyDatasets(entry: DailyRecord, dss: seq<Dataset>): (r: Result<DailyRecord, NormaliseError>)
    ensures r.Success? <==> forall k :: 0 <= k < |dss| ==> !Throws(dss[k])
    ensures r.Success? ==> r.value.date == entry.date
    decreases |dss|
  {
    if dss == [] then Success(entry)
    else
      var init := dss[..|dss| - 1];
      assert forall k :: 0 <= k < |init| ==> init[k] == dss[k];
      match ApplyDatasets(entry, init)
      case Failure(e) => Failure(e)
      case Success(e) => ApplyDataset(e, dss[|dss| - 1])
  }

  /** The record of one bucket: the defaults dated by the bucket's start,
      updated by each dataset in turn. */
  function BucketRecord(b: Bucket, dateString: int -> string): (r: Result<DailyRecord, NormaliseError>)
    ensures r.Success? <==> b.dataset.Some? && forall k :: 0 <= k < |b.dataset.value| ==> !Throws(b.dataset.value[k])
    ensures r.Success? ==> r.value.date == dateString(b.startTimeMillis)
  {
    match b.dataset
    case None => Failure(DatasetListUndefined)
    case Some(dss) => ApplyDatasets(DefaultRecord(dateString(b.startTimeMillis)), dss)
  }

  /** The bucket loop: records in bucket order, or the first bucket's error. */
  function Normalised(buckets: seq<Bucket>, dateString: int -> string): (r: Result<seq<DailyRecord>, NormaliseError>)
    ensures r.Success? <==> forall i :: 0 <= i < |buckets| ==> BucketRecord(buckets[i], dateString).Success?
    ensures r.Success? ==> |r.value| == |buckets|
    ensures r.Success? ==>
      forall i :: 0 <= i < |buckets| ==> BucketRecord(buckets[i], dateString) == Success(r.value[i])
    decreases |buckets|
  {
    if buckets == [] then Success([])
    else
      var init := buckets[..|buckets| - 1];
      assert forall k :: 0 <= k < |init| ==> init[k] == buckets[k];
      match Normalised(init, dateString)
      case Failure(e) => Failure(e)
      case Success(rs) =>
        match BucketRecord(buckets[|buckets| - 1], dateString)
        case Failure(e) => Failure(e)
        case Success(rec) => Success(rs + [rec])
  }

  // Properties of one switch step.

  /** A dataset that does not fire any case (no points, or an unknown
      `dataSourceId`) leaves the record as it was. */
  lemma SilentDatasetChangesNothing(entry: DailyRecord, ds: Dataset)
    requires forall f :: !Fires(ds, f)
    ensures ApplyDataset(entry, ds) == Success(entry)
  {
    if HasPoint(ds) && SourceField(ds.dataSourceId).Some? {
      assert Fires(ds, SourceField(ds.dataSourceId).value);
    }
  }

  /** The value a case writes depends on the dataset only, never on what
      the record held before. */
  lemma AssignmentIgnoresEntry(e1: DailyRecord, e2: DailyRecord, ds: Dataset, f: Field)
    requires Fires(ds, f) && !Throws(ds)
    ensures Get(ApplyDataset(e1, ds).value, f) == Get(ApplyDataset(e2, ds).value, f)
  {
  }

  /** Only `point[0]` is consulted: datasets that agree on the source and on
      their first point have the same effect, whatever points follow. */
  lemma OnlyFirstPointMatters(entry: DailyRecord, d1: Dataset, d2: Dataset)
    requires d1.dataSourceId == d2.dataSourceId
    requires HasPoint(d1) && HasPoint(d2) && d1.point.value[0] == d2.point.value[0]
    ensures ApplyDataset(entry, d1) == ApplyDataset(entry, d2)
  {
  }

  /** Two datasets with the same source: the later one alone decides the
      slot, and the earlier one leaves no trace. */
  lemma LaterSameSourceWins(entry: DailyRecord, d1: Dataset, d2: Dataset)
    requires d1.dataSourceId == d2.dataSourceId && HasPoint(d2)
    requires !Throws(d1) && !Throws(d2)
    ensures ApplyDataset(ApplyDataset(entry, d1).value, d2) == ApplyDataset(entry, d2)
  {
  }

  // Properties of the dataset loop.

  /** A bucket's dataset loop stops at the first dataset that throws, and
      reports that dataset's error. */
  lemma {:induction false} DatasetLoopFailsAtFirstThrow(entry: DailyRecord, dss: seq<Dataset>, k: int)
    requires 0 <= k < |dss| && Throws(dss[k])
    requires forall i :: 0 <= i < k ==> !Throws(dss[i])
    ensures ApplyDatasets(entry, dss) == Failure(ValueUndefined(SourceField(dss[k].dataSourceId).value))
    decreases |dss|
  {
    var n := |dss|;
    var init := dss[..n - 1];
    assert forall i :: 0 <= i < |init| ==> init[i] == dss[i];
    if k < n - 1 {
      DatasetLoopFailsAtFirstThrow(entry, init, k);
    }
  }

  /** Once the loop has thrown on a prefix, the rest of the datasets do not
      matter. */
  lemma {:induction false} DatasetFailureStays(entry: DailyRecord, dss: seq<Dataset>, i: nat)
    requires i <= |dss| && ApplyDatasets(entry, dss[..i]).Failure?
    ensures ApplyDatasets(entry, dss) == ApplyDatasets(entry, dss[..i])
    decreases |dss|
  {
    if i < |dss| {
      var init := dss[..|dss| - 1];
      assert init[..i] == dss[..i];
      DatasetFailureStays(entry, init, i);
    } else {
      assert dss[..i] == dss;
    }
  }

  /** A slot that no dataset fires keeps the value it started with. */
  lemma {:induction false} UnfiredSlotKeepsValue(entry: DailyRecord, dss: seq<Dataset>, f: Field)
    requires forall k :: 0 <= k < |dss| ==> !Throws(dss[k])
    requires forall k :: 0 <= k < |dss| ==> !Fires(dss[k], f)
    ensures ApplyDatasets(entry, dss).Success?
    ensures Get(ApplyDatasets(entry, dss).value, f) == Get(entry, f)
    decreases |dss|
  {
    if dss != [] {
      var n := |dss|;
      var init := dss[..n - 1];
      assert forall k :: 0 <= k < |init| ==> init[k] == dss[k];
      UnfiredSlotKeepsValue(entry, init, f);
      assert !Fires(dss[n - 1], f);
    }
  }

  /** The last dataset that fires slot `f` decides it: the slot holds what
      that dataset's case writes, whatever came before or after. */
  lemma {:induction false} LastFiringDatasetWins(entry: DailyRecord, dss: seq<Dataset>, f: Field, j: int)
    requires forall k :: 0 <= k < |dss| ==> !Throws(dss[k])
    requires 0 <= j < |dss| && Fires(dss[j], f)
    requires forall k :: j < k < |dss| ==> !Fires(dss[k], f)
    ensures ApplyDatasets(entry, dss).Success?
    ensures Get(ApplyDatasets(entry, dss).value, f) == Get(ApplyDataset(entry, dss[j]).value, f)
    decreases |dss|
  {
    var n := |dss|;
    var init := dss[..n - 1];
    assert forall k :: 0 <= k < |init| ==> init[k] == dss[k];
    var before := ApplyDatasets(entry, init).value;
    if j == n - 1 {
      AssignmentIgnoresEntry(before, entry, dss[j], f);
    } else {
      LastFiringDatasetWins(entry, init, f, j);
      assert !Fires(dss[n - 1], f);
    }
  }

  // Properties of a bucket and of the bucket loop.

  /** A bucket whose datasets fire no case yields the default record, dated
      by the bucket's start. */
  lemma QuietBucketGivesDefaults(b: Bucket, dateString: int -> string)
    requires b.dataset.Some?
    requires forall k, f :: 0 <= k < |b.dataset.value| ==> !Fires(b.dataset.value[k], f)
    ensures BucketRecord(b, dateString) == Success(DailyRecord(
      dateString(b.startTimeMillis), 0, 0.0, [], 0.0, 0.0, 0.0, SleepZero, Some(0.0), CycleUnset))
  {
    var dss := b.dataset.value;
    var start := DefaultRecord(dateString(b.startTimeMillis));
    forall k | 0 <= k < |dss| ensures !Throws(dss[k]) {
      if Throws(dss[k]) {
        assert Fires(dss[k], SourceField(dss[k].dataSourceId).value);
      }
    }
    var r := ApplyDatasets(start, dss).value;
    forall f ensures Get(r, f) == Get(start, f) {
      UnfiredSlotKeepsValue(start, dss, f);
    }
    assert Get(r, StepCount) == Get(start, StepCount);
    assert Get(r, GlucoseLevel) == Get(start, GlucoseLevel);
    assert Get(r, BloodPressure) == Get(start, BloodPressure);
    assert Get(r, HeartRate) == Get(start, HeartRate);
    assert Get(r, Weight) == Get(start, Weight);
    assert Get(r, HeightInCms) == Get(start, HeightInCms);
    assert Get(r, SleepHours) == Get(start, SleepHours);
    assert Get(r, BodyFatInPercent) == Get(start, BodyFatInPercent);
    assert Get(r, MenstrualCycleStart) == Get(start, MenstrualCycleStart);
  }

  /** The bucket loop stops at the first bucket that throws and reports its
      error. */
  lemma {:induction false} BucketLoopFailsAtFirstBadBucket(buckets: seq<Bucket>, dateString: int -> string, i: int)
    requires 0 <= i < |buckets| && BucketRecord(buckets[i], dateString).Failure?
    requires forall k :: 0 <= k < i ==> BucketRecord(buckets[k], dateString).Success?
    ensures Normalised(buckets, dateString) == Failure(BucketRecord(buckets[i], dateString).error)
    decreases |buckets|
  {
    var n := |buckets|;
    var init := buckets[..n - 1];
    assert forall k :: 0 <= k < |init| ==> init[k] == buckets[k];
    if i < n - 1 {
      BucketLoopFailsAtFirstBadBucket(init, dateString, i);
    }
  }

  lemma {:induction false} BucketFailureStays(buckets: seq<Bucket>, dateString: int -> string, i: nat)
    requires i <= |buckets| && Normalised(buckets[..i], dateString).Failure?
    ensures Normalised(buckets, dateString) == Normalised(buckets[..i], dateString)
    decreases |buckets|
  {
    if i < |buckets| {
      var init := buckets[..|buckets| - 1];
      assert init[..i] == buckets[..i];
      BucketFailureStays(init, dateString, i);
    } else {
      assert buckets[..i] == buckets;
    }
  }

  /** Each record's date is the formatted start of its own bucket, so it
      depends on nothing but that bucket's `startTimeMillis`. */
  lemma RecordDates(buckets: seq<Bucket>, dateString: int -> string, i: int)
    requires Normalised(buckets, dateString).Success? && 0 <= i < |buckets|
    ensures Normalised(buckets, dateString).value[i].date == dateString(buckets[i].startTimeMillis)
  {
  }

  // The loops as the handler runs them.

  /** The body of the bucket loop: start from the defaults, walk the
      datasets, and let each firing case overwrite its own slot. */
  method FormatBucket(b: Bucket, dateString: int -> string) returns (r: Result<DailyRecord, NormaliseError>)
    ensures r == BucketRecord(b, dateString)
  {
    var formattedEntry := DefaultRecord(dateString(b.startTimeMillis));
    if b.dataset.None? {
      return Failure(DatasetListUndefined);
    }
    var datasetMap := b.dataset.value;
    ghost var start := formattedEntry;
    for i := 0 to |datasetMap|
      invariant ApplyDatasets(start, datasetMap[..i]) == Success(formattedEntry)
    {
      var mydataset := datasetMap[i];
      assert datasetMap[..i + 1][..i] == datasetMap[..i];
      ghost var before := formattedEntry;
      var point := mydataset.point;
      if point.Some? && |point.value| > 0 {
        var value := point.value[0].value;
        match SourceField(mydataset.dataSourceId) {
          case None =>
          case Some(StepCount) =>
            if value.None? {
              DatasetFailureStays(start, datasetMap, i + 1);
              return Failure(ValueUndefined(StepCount));
            }
            formattedEntry := formattedEntry.(stepCount := FirstIntOrZero(value.value));
          case Some(GlucoseLevel) =>
            var glucoseLevel := 0.0;
            if value.Some? && |value.value| > 0 {
              glucoseLevel := ScanGlucose(value.value);
            }
            formattedEntry := formattedEntry.(glucoseLevel := glucoseLevel);
          case Some(BloodPressure) =>
            var finalData := [0.0, 0.0];
            if value.Some? && |value.value| > 0 {
              finalData := ScanBloodPressure(value.value);
            }
            formattedEntry := formattedEntry.(bloodPressure := finalData);
          case Some(HeartRate) =>
            var heartData := 0.0;
            if value.Some? && |value.value| > 0 {
              heartData := ScanHeartRate(value.value);
            }
            formattedEntry := formattedEntry.(heartRate := heartData);
          case Some(Weight) =>
            if value.None? {
              DatasetFailureStays(start, datasetMap, i + 1);
              return Failure(ValueUndefined(Weight));
            }
            formattedEntry := formattedEntry.(weight := FirstFpOrZero(value.value));
          case Some(HeightInCms) =>
            if value.None? {
              DatasetFailureStays(start, datasetMap, i + 1);
              return Failure(ValueUndefined(HeightInCms));
            }
            formattedEntry := formattedEntry.(heightInCms := HeightOf(value.value));
          case Some(SleepHours) =>
            formattedEntry := formattedEntry.(sleepHours := if value.Some? then SleepList(value.value) else SleepZero);
          case Some(BodyFatInPercent) =>
            var bodyFat := Some(0.0);
            if value.Some? && |value.value| > 0 {
              bodyFat := value.value[0].fpVal;
            }
            formattedEntry := formattedEntry.(bodyFatInPercent := bodyFat);
          case Some(MenstrualCycleStart) =>
            if value.None? {
              DatasetFailureStays(start, datasetMap, i + 1);
              return Failure(ValueUndefined(MenstrualCycleStart));
            }
            formattedEntry := formattedEntry.(menstrualCycleStart := CycleDay(FirstIntOrZero(value.value)));
        }
      }
      assert ApplyDataset(before, mydataset) == Success(formattedEntry);
    }
    assert datasetMap[..|datasetMap|] == datasetMap;
    r := Success(formattedEntry);
  }

  /** The bucket loop: `formattedData` grows by one record per bucket; the
      first bucket that throws abandons it. */
  method FormatBuckets(fitnessData: seq<Bucket>, dateString: int -> string)
    returns (r: Result<seq<DailyRecord>, NormaliseError>)
    ensures r == Normalised(fitnessData, dateString)
  {
    var formattedData: seq<DailyRecord> := [];
    for i := 0 to |fitnessData|
      invariant Normalised(fitnessData[..i], dateString) == Success(formattedData)
    {
      assert fitnessData[..i + 1][..i] == fitnessData[..i];
      var formattedEntry := FormatBucket(fitnessData[i], dateString);
      if formattedEntry.Failure? {
        BucketFailureStays(fitnessData, dateString, i + 1);
        return Failure(formattedEntry.error);
      }
      formattedData := formattedData + [formattedEntry.value];
    }
    assert fitnessData[..|fitnessData|] == fitnessData;
    r := Success(formattedData);
  }
}
