/**
 * The Google Fit client of the backend (`FitClient` in services/fit.py):
 * flattening an aggregate response into metric records (`parse_data`) and
 * building the body of an aggregate request (`get_data`).
 *
 * A response is JSON; it is modelled as nested datatypes in which every list
 * key the parser reads with `.get(key, [])` and every scalar key it reads with
 * `[key]` is an `Option`, `None` standing for a key that is absent.
 */
module Fit {
  import opened Wrappers

  // ---------------------------------------------------------------------------
  // Response data model
  // ---------------------------------------------------------------------------

  /** The value type the caller asks `parse_data` to read; any other member of the enum is unsupported. */
  datatype DType = Int | Float | Unsupported(name: string)

  /** One entry of a point's `value` list. */
  datatype Value = Value(intVal: Option<int>)

  /** A data point: its time window in nanoseconds since the epoch and its values. */
  datatype Point = Point(startTimeNanos: Option<int>, endTimeNanos: Option<int>, value: Option<seq<Value>>)

  datatype Dataset = Dataset(point: Option<seq<Point>>)

  datatype Bucket = Bucket(dataset: Option<seq<Dataset>>)

  /** The top-level response dictionary of an aggregate call. */
  datatype Response = Response(bucket: Option<seq<Bucket>>)

  /**
   * A parsed record. Start and end are whole seconds since the epoch; turning
   * them into local datetimes is left to the platform.
   */
  datatype MetricRes = MetricRes(startSeconds: int, endSeconds: int, value: int)

  /** The `KeyError`s `parse_data` can raise. */
  datatype FitError = UnsupportedDType(dtype: DType) | MissingKey(key: string)

  const NanosPerSecond: int := 1_000_000_000

  /** A list-valued key read with `.get(key, [])`. */
  function OrEmpty<T>(o: Option<seq<T>>): seq<T>
  {
    o.GetOr([])
  }

  // ---------------------------------------------------------------------------
  // Specification of parse_data
  // ---------------------------------------------------------------------------

  /** A value entry together with the point it belongs to: one iteration of the innermost loop. */
  datatype Item = Item(point: Point, value: Value)

  /** Concatenation of `f(x)` over `xs`, in order. */
  function FlatMap<T, U>(xs: seq<T>, f: T -> seq<U>): seq<U>
  {
    if xs == [] then [] else f(xs[0]) + FlatMap(xs[1..], f)
  }

  /** The sum of `f(x)` over `xs`. */
  function Sum<T>(xs: seq<T>, f: T -> nat): nat
  {
    if xs == [] then 0 else f(xs[0]) + Sum(xs[1..], f)
  }

  /** The items of a point's values, in order. */
  function ValueItems(p: Point, vs: seq<Value>): (items: seq<Item>)
    ensures |items| == |vs|
    ensures forall k :: 0 <= k < |vs| ==> items[k] == Item(p, vs[k])
  {
    if vs == [] then [] else [Item(p, vs[0])] + ValueItems(p, vs[1..])
  }

  function PointItems(p: Point): seq<Item>
  {
    ValueItems(p, OrEmpty(p.value))
  }

  function DatasetItems(d: Dataset): seq<Item>
  {
    FlatMap(OrEmpty(d.point), PointItems)
  }

  function BucketItems(b: Bucket): seq<Item>
  {
    FlatMap(OrEmpty(b.dataset), DatasetItems)
  }

  /** Every value entry of the response, in bucket, dataset, point, value order. */
  function ResponseItems(data: Response): seq<Item>
  {
    FlatMap(OrEmpty(data.bucket), BucketItems)
  }

  /** The number of value entries, counted level by level. */
  function ValueCount(data: Response): nat
  {
    Sum(OrEmpty(data.bucket), BucketValueCount)
  }

  function BucketValueCount(b: Bucket): nat
  {
    Sum(OrEmpty(b.dataset), DatasetValueCount)
  }

  function DatasetValueCount(d: Dataset): nat
  {
    Sum(OrEmpty(d.point), (p: Point) => |OrEmpty(p.value)|)
  }

  /**
   * The body of the innermost loop: the dtype dispatch, then `value['intVal']`,
   * then `point['startTimeNanos']` and `point['endTimeNanos']`, each of which
   * raises when its key is absent. INT and FLOAT both read `intVal`.
   */
  function ToRecord(item: Item, dtype: DType): Result<MetricRes, FitError>
  {
    if dtype.Unsupported? then Failure(UnsupportedDType(dtype))
    else if item.value.intVal.None? then Failure(MissingKey("intVal"))
    else if item.point.startTimeNanos.None? then Failure(MissingKey("startTimeNanos"))
    else if item.point.endTimeNanos.None? then Failure(MissingKey("endTimeNanos"))
    else Success(MetricRes(item.point.startTimeNanos.value / NanosPerSecond,
                           item.point.endTimeNanos.value / NanosPerSecond,
                           item.value.intVal.value))
  }

  /** Converts the items in order; the first item that raises decides the error. */
  function Collect(items: seq<Item>, dtype: DType): Result<seq<MetricRes>, FitError>
  {
    if items == [] then Success([])
    else match ToRecord(items[0], dtype)
      case Failure(e) => Failure(e)
      case Success(m) =>
        match Collect(items[1..], dtype)
        case Failure(e) => Failure(e)
        case Success(rs) => Success([m] + rs)
  }

  /** What `parse_data` returns or raises. */
  function Parse(data: Response, dtype: DType): Result<seq<MetricRes>, FitError>
  {
    Collect(ResponseItems(data), dtype)
  }

  /** Records already produced, followed by the outcome of the rest. */
  function Then(done: seq<MetricRes>, rest: Result<seq<MetricRes>, FitError>): Result<seq<MetricRes>, FitError>
  {
    match rest
    case Success(rs) => Success(done + rs)
    case Failure(e) => Failure(e)
  }

  // ---------------------------------------------------------------------------
  // parse_data
  // ---------------------------------------------------------------------------

  lemma FlatMapFrom<T, U>(xs: seq<T>, f: T -> seq<U>, k: nat)
    requires k < |xs|
    ensures FlatMap(xs[k..], f) == f(xs[k]) + FlatMap(xs[k + 1..], f)
  {
  }

  lemma ValueItemsFrom(p: Point, vs: seq<Value>, l: nat)
    requires l < |vs|
    ensures ValueItems(p, vs[l..]) == [Item(p, vs[l])] + ValueItems(p, vs[l + 1..])
  {
  }

  /** Emitting the record of the next item moves it from the rest to the records already produced. */
  lemma ThenStep(done: seq<MetricRes>, item: Item, rest: seq<Item>, dtype: DType, m: MetricRes)
    requires ToRecord(item, dtype) == Success(m)
    ensures Then(done, Collect([item] + rest, dtype)) == Then(done + [m], Collect(rest, dtype))
  {
    assert ([item] + rest)[0] == item;
    assert ([item] + rest)[1..] == rest;
    match Collect(rest, dtype)
    case Failure(e) =>
    case Success(rs) =>
      assert done + ([m] + rs) == (done + [m]) + rs;
  }

  /** The first item that raises ends the loop with its error, whatever was produced before. */
  lemma ThenFails(done: seq<MetricRes>, item: Item, rest: seq<Item>, dtype: DType)
    requires ToRecord(item, dtype).Failure?
    ensures Then(done, Collect([item] + rest, dtype)) == Failure(ToRecord(item, dtype).error)
  {
  }

  /**
   * The body of the innermost loop of `parse_data`: the dtype dispatch and the
   * reads of `intVal`, `startTimeNanos` and `endTimeNanos`, in that order.
   */
  method ReadValue(point: Point, value: Value, dtype: DType) returns (r: Result<MetricRes, FitError>)
    ensures r == ToRecord(Item(point, value), dtype)
  {
    var metricValue: int;
    if dtype == Int {
      if value.intVal.None? {
        return Failure(MissingKey("intVal"));
      }
      metricValue := value.intVal.value;
    } else if dtype == Float {
      if value.intVal.None? {
        return Failure(MissingKey("intVal"));
      }
      metricValue := value.intVal.value;
    } else {
      return Failure(UnsupportedDType(dtype));
    }
    if point.startTimeNanos.None? {
      return Failure(MissingKey("startTimeNanos"));
    }
    var startDt := point.startTimeNanos.value / NanosPerSecond;
    if point.endTimeNanos.None? {
      return Failure(MissingKey("endTimeNanos"));
    }
    var endDt := point.endTimeNanos.value / NanosPerSecond;
    return Success(MetricRes(startDt, endDt, metricValue));
  }

  /** Running through `a + b` is running through `a`, then through `b` from where `a` left off. */
  lemma {:induction false} ThenAppend(done: seq<MetricRes>, a: seq<Item>, b: seq<Item>, dtype: DType)
    ensures Then(done, Collect(a + b, dtype)) ==
      match Then(done, Collect(a, dtype))
      case Failure(e) => Failure(e)
      case Success(mid) => Then(mid, Collect(b, dtype))
    decreases |a|
  {
    if a == [] {
      assert a + b == b;
      assert done + [] == done;
    } else {
      assert a + b == [a[0]] + (a[1..] + b);
      assert a == [a[0]] + a[1..];
      match ToRecord(a[0], dtype)
      case Failure(e) =>
        ThenFails(done, a[0], a[1..] + b, dtype);
        ThenFails(done, a[0], a[1..], dtype);
      case Success(m) =>
        ThenStep(done, a[0], a[1..] + b, dtype, m);
        ThenStep(done, a[0], a[1..], dtype, m);
        ThenAppend(done + [m], a[1..], b, dtype);
    }
  }

  /**
   * `parse_data`: four nested loops over buckets, datasets, points and values,
   * appending one record per value entry; the first failing read raises.
   * `dtype` defaults to INT as in the source. The inner loops are
   * `ParseBucket` and `ParseDataset`, each continuing from the records
   * produced so far.
   */
  method ParseData(data: Response, dtype: DType := Int) returns (r: Result<seq<MetricRes>, FitError>)
    ensures r == Parse(data, dtype)
  {
    var res: seq<MetricRes> := [];
    // the items not yet visited; the loop consumes it from the front
    ghost var todo := ResponseItems(data);
    ghost var outcome := Collect(todo, dtype);
    assert Then(res, outcome) == outcome by {
      if outcome.Success? {
        assert [] + outcome.value == outcome.value;
      }
    }
    var buckets := OrEmpty(data.bucket);
    var i := 0;
    assert buckets[i..] == buckets;
    while i < |buckets|
      invariant 0 <= i <= |buckets|
      invariant todo == FlatMap(buckets[i..], BucketItems)
      invariant outcome == Then(res, Collect(todo, dtype))
    {
      FlatMapFrom(buckets, BucketItems, i);
      ghost var rest := FlatMap(buckets[i + 1..], BucketItems);
      ThenAppend(res, BucketItems(buckets[i]), rest, dtype);
      var parsed := ParseBucket(buckets[i], dtype, res);
      if parsed.Failure? {
        return parsed;
      }
      res := parsed.value;
      todo := rest;
      i := i + 1;
    }
    assert buckets[i..] == [];
    assert res + [] == res;
    return Success(res);
  }

  /** The dataset loop of `parse_data` for one bucket. */
  method ParseBucket(bucket: Bucket, dtype: DType, res: seq<MetricRes>) returns (r: Result<seq<MetricRes>, FitError>)
    ensures r == Then(res, Collect(BucketItems(bucket), dtype))
  {
    var acc := res;
    ghost var todo := BucketItems(bucket);
    ghost var outcome := Then(res, Collect(todo, dtype));
    var datasets := OrEmpty(bucket.dataset);
    var j := 0;
    assert datasets[j..] == datasets;
    while j < |datasets|
      invariant 0 <= j <= |datasets|
      invariant todo == FlatMap(datasets[j..], DatasetItems)
      invariant outcome == Then(acc, Collect(todo, dtype))
    {
      FlatMapFrom(datasets, DatasetItems, j);
      ghost var rest := FlatMap(datasets[j + 1..], DatasetItems);
      ThenAppend(acc, DatasetItems(datasets[j]), rest, dtype);
      var parsed := ParseDataset(datasets[j], dtype, acc);
      if parsed.Failure? {
        return parsed;
      }
      acc := parsed.value;
      todo := rest;
      j := j + 1;
    }
    assert datasets[j..] == [];
    assert acc + [] == acc;
    return Success(acc);
  }

  /** The point and value loops of `parse_data` for one dataset. */
  method ParseDataset(dataset: Dataset, dtype: DType, res: seq<MetricRes>) returns (r: Result<seq<MetricRes>, FitError>)
    ensures r == Then(res, Collect(DatasetItems(dataset), dtype))
  {
    var acc := res;
    ghost var todo := DatasetItems(dataset);
    ghost var outcome := Then(res, Collect(todo, dtype));
    var points := OrEmpty(dataset.point);
    var k := 0;
    assert points[k..] == points;
    while k < |points|
      invariant 0 <= k <= |points|
      invariant todo == FlatMap(points[k..], PointItems)
      invariant outcome == Then(acc, Collect(todo, dtype))
    {
      FlatMapFrom(points, PointItems, k);
      ghost var afterPoint := FlatMap(points[k + 1..], PointItems);
      var point := points[k];
      var values := OrEmpty(point.value);
      var l := 0;
      assert values[l..] == values;
      while l < |values|
        invariant 0 <= l <= |values|
        invariant todo == ValueItems(point, values[l..]) + afterPoint
        invariant outcome == Then(acc, Collect(todo, dtype))
      {
        var value := values[l];
        ValueItemsFrom(point, values, l);
        ghost var rest := ValueItems(point, values[l + 1..]) + afterPoint;
        assert todo == [Item(point, value)] + rest;
        var record := ReadValue(point, value, dtype);
        if record.Failure? {
          ThenFails(acc, Item(point, value), rest, dtype);
          return Failure(record.error);
        }
        ThenStep(acc, Item(point, value), rest, dtype, record.value);
        acc := acc + [record.value];
        todo := rest;
        l := l + 1;
      }
      assert values[l..] == [];
      assert todo == afterPoint;
      k := k + 1;
    }
    assert points[k..] == [];
    assert todo == [];
    assert acc + [] == acc;
    return Success(acc);
  }

  // ---------------------------------------------------------------------------
  // Properties of parse_data
  // ---------------------------------------------------------------------------

  lemma {:induction false} FlatMapAppend<T, U>(xs: seq<T>, ys: seq<T>, f: T -> seq<U>)
    ensures FlatMap(xs + ys, f) == FlatMap(xs, f) + FlatMap(ys, f)
  {
    if xs == [] {
      assert xs + ys == ys;
    } else {
      assert (xs + ys)[1..] == xs[1..] + ys;
      FlatMapAppend(xs[1..], ys, f);
    }
  }

  lemma {:induction false} FlatMapLength<T, U>(xs: seq<T>, f: T -> seq<U>, g: T -> nat)
    requires forall x :: |f(x)| == g(x)
    ensures |FlatMap(xs, f)| == Sum(xs, g)
  {
    if xs != [] {
      FlatMapLength(xs[1..], f, g);
    }
  }

  /**
   * The records succeed exactly when every item converts, and then there is
   * one record per item, in item order.
   */
  lemma {:induction false} CollectAll(items: seq<Item>, dtype: DType)
    ensures Collect(items, dtype).Success? <==> forall k :: 0 <= k < |items| ==> ToRecord(items[k], dtype).Success?
    ensures Collect(items, dtype).Success? ==>
      && |Collect(items, dtype).value| == |items|
      && forall k :: 0 <= k < |items| ==> Collect(items, dtype).value[k] == ToRecord(items[k], dtype).value
  {
    if items != [] {
      CollectAll(items[1..], dtype);
      assert forall k :: 1 <= k < |items| ==> items[k] == items[1..][k - 1];
    }
  }

  /** The first item that fails to convert decides the error. */
  lemma {:induction false} CollectFirstError(items: seq<Item>, dtype: DType, k: nat)
    requires k < |items|
    requires ToRecord(items[k], dtype).Failure?
    requires forall j :: 0 <= j < k ==> ToRecord(items[j], dtype).Success?
    ensures Collect(items, dtype) == Failure(ToRecord(items[k], dtype).error)
  {
    if k > 0 {
      assert forall j :: 0 <= j < k - 1 ==> items[1..][j] == items[j + 1];
      CollectFirstError(items[1..], dtype, k - 1);
    }
  }

  lemma {:induction false} DatasetCount(d: Dataset)
    ensures |DatasetItems(d)| == DatasetValueCount(d)
  {
    FlatMapLength(OrEmpty(d.point), PointItems, (p: Point) => |OrEmpty(p.value)|);
  }

  lemma {:induction false} BucketCount(b: Bucket)
    ensures |BucketItems(b)| == BucketValueCount(b)
  {
    forall d ensures |DatasetItems(d)| == DatasetValueCount(d) {
      DatasetCount(d);
    }
    FlatMapLength(OrEmpty(b.dataset), DatasetItems, DatasetValueCount);
  }

  /** The flattening visits every value entry once: as many items as entries counted level by level. */
  lemma {:induction false} ResponseCount(data: Response)
    ensures |ResponseItems(data)| == ValueCount(data)
  {
    forall b ensures |BucketItems(b)| == BucketValueCount(b) {
      BucketCount(b);
    }
    FlatMapLength(OrEmpty(data.bucket), BucketItems, BucketValueCount);
  }

  /** An item converts exactly when the dtype is supported and the three keys it reads are present. */
  ghost predicate WellFormed(item: Item)
  {
    item.value.intVal.Some? && item.point.startTimeNanos.Some? && item.point.endTimeNanos.Some?
  }

  /**
   * A successful parse yields exactly one record per value entry, the k-th
   * record built from the k-th entry in bucket, dataset, point, value order:
   * its value is the entry's `intVal` (for INT and FLOAT alike) and its window
   * is the point's nanosecond window floor-divided by 10^9, so records of the
   * same point share start and end.
   */
  lemma ParseRecords(data: Response, dtype: DType, rs: seq<MetricRes>)
    requires Parse(data, dtype) == Success(rs)
    ensures |rs| == |ResponseItems(data)| == ValueCount(data)
    ensures forall k :: 0 <= k < |rs| ==>
      var item := ResponseItems(data)[k];
      && WellFormed(item)
      && rs[k] == MetricRes(item.point.startTimeNanos.value / NanosPerSecond,
                            item.point.endTimeNanos.value / NanosPerSecond,
                            item.value.intVal.value)
    ensures forall j, k :: 0 <= j < |rs| && 0 <= k < |rs| && ResponseItems(data)[j].point == ResponseItems(data)[k].point ==>
      rs[j].startSeconds == rs[k].startSeconds && rs[j].endSeconds == rs[k].endSeconds
  {
    CollectAll(ResponseItems(data), dtype);
    ResponseCount(data);
  }

  /**
   * `parse_data` succeeds exactly when there is no value entry at all, or the
   * dtype is INT or FLOAT and every entry has the keys it reads.
   */
  lemma ParseSucceeds(data: Response, dtype: DType)
    ensures Parse(data, dtype).Success? <==>
      (ValueCount(data) == 0 ||
       (!dtype.Unsupported? && forall k :: 0 <= k < |ResponseItems(data)| ==> WellFormed(ResponseItems(data)[k])))
  {
    CollectAll(ResponseItems(data), dtype);
    ResponseCount(data);
    if ValueCount(data) > 0 && dtype.Unsupported? {
      assert !ToRecord(ResponseItems(data)[0], dtype).Success?;
    }
  }

  /**
   * An unsupported dtype raises as soon as one value entry is reached, and
   * only then: a response without value entries parses to no records.
   */
  lemma ParseUnsupported(data: Response, name: string)
    ensures Parse(data, Unsupported(name)) ==
      if ValueCount(data) == 0 then Success([]) else Failure(UnsupportedDType(Unsupported(name)))
  {
    ResponseCount(data);
    if ValueCount(data) > 0 {
      CollectFirstError(ResponseItems(data), Unsupported(name), 0);
    }
  }

  /** An empty dictionary parses to no records, whatever the dtype. */
  lemma ParseEmptyResponse(dtype: DType)
    ensures Parse(Response(None), dtype) == Success([])
  {
  }

  lemma {:induction false} FlatMapSkip<T, U>(xs: seq<T>, x: T, ys: seq<T>, f: T -> seq<U>)
    requires f(x) == []
    ensures FlatMap(xs + [x] + ys, f) == FlatMap(xs + ys, f)
  {
    FlatMapAppend(xs + [x], ys, f);
    FlatMapAppend(xs, [x], f);
    FlatMapAppend(xs, ys, f);
    assert FlatMap([x], f) == f(x) + FlatMap([], f);
  }

  /**
   * Absent keys count as empty lists: a bucket without `dataset`, or whose
   * datasets have no `point`, or whose points have no `value`, contributes
   * nothing, wherever it stands.
   */
  lemma ParseSkipsEmptyBucket(before: seq<Bucket>, b: Bucket, after: seq<Bucket>, dtype: DType)
    requires BucketValueCount(b) == 0
    ensures Parse(Response(Some(before + [b] + after)), dtype) == Parse(Response(Some(before + after)), dtype)
  {
    BucketCount(b);
    FlatMapSkip(before, b, after, BucketItems);
  }

  /**
   * Buckets are visited in order: parsing the concatenation of two bucket
   * lists parses the first, then continues with the second, and on success
   * the records of the first come first.
   */
  lemma ParseConcat(bs1: seq<Bucket>, bs2: seq<Bucket>, dtype: DType)
    ensures Parse(Response(Some(bs1 + bs2)), dtype) ==
      match Parse(Response(Some(bs1)), dtype)
      case Failure(e) => Failure(e)
      case Success(rs1) => Then(rs1, Parse(Response(Some(bs2)), dtype))
  {
    FlatMapAppend(bs1, bs2, BucketItems);
    var a, b := FlatMap(bs1, BucketItems), FlatMap(bs2, BucketItems);
    ThenAppend([], a, b, dtype);
    assert Then([], Collect(a + b, dtype)) == Collect(a + b, dtype) by {
      if Collect(a + b, dtype).Success? {
        assert [] + Collect(a + b, dtype).value == Collect(a + b, dtype).value;
      }
    }
    assert Then([], Collect(a, dtype)) == Collect(a, dtype) by {
      if Collect(a, dtype).Success? {
        assert [] + Collect(a, dtype).value == Collect(a, dtype).value;
      }
    }
  }

  // ---------------------------------------------------------------------------
  // get_data: the aggregate request body
  // ---------------------------------------------------------------------------

  const MillisPerSecond: int := 1000
  const MillisPerDay: int := 24 * 3600 * 1000

  /** One entry of `aggregateBy`. */
  datatype AggregateBy = AggregateBy(dataTypeName: string)

  datatype BucketByTime = BucketByTime(durationMillis: int)

  /** The request dictionary; `bucketByTime` is `None` when the key is absent. */
  datatype RequestBody = RequestBody(
    aggregateBy: seq<AggregateBy>,
    startTimeMillis: int,
    endTimeMillis: int,
    bucketByTime: Option<BucketByTime>)

  /**
   * The body `get_data` sends: the mode's data-type URI, the window converted
   * from epoch seconds to milliseconds, and, when `bucketBy` days are asked
   * for, a bucket duration of that many days in milliseconds. The mode URI
   * and the epoch seconds of the two datetimes are given.
   */
  function AggregateRequestBody(modeUri: string, startSeconds: int, endSeconds: int, bucketBy: Option<int> := None): RequestBody
  {
    var body := RequestBody([AggregateBy(modeUri)], startSeconds * MillisPerSecond, endSeconds * MillisPerSecond, None);
    if bucketBy.Some? then body.(bucketByTime := Some(BucketByTime(bucketBy.value * MillisPerDay))) else body
  }

  /** The arguments of `get_data` a request body carries. */
  datatype AggregateQuery = AggregateQuery(modeUri: string, startSeconds: int, endSeconds: int, bucketBy: Option<int>)

  /**
   * Reads a body back: one data type, whole seconds, and a whole number of
   * days when bucketed; anything else was not built by `get_data`.
   */
  function DecodeRequestBody(body: RequestBody): Option<AggregateQuery>
  {
    if |body.aggregateBy| != 1
       || body.startTimeMillis % MillisPerSecond != 0
       || body.endTimeMillis % MillisPerSecond != 0
       || (body.bucketByTime.Some? && body.bucketByTime.value.durationMillis % MillisPerDay != 0)
    then None
    else Some(AggregateQuery(
      body.aggregateBy[0].dataTypeName,
      body.startTimeMillis / MillisPerSecond,
      body.endTimeMillis / MillisPerSecond,
      if body.bucketByTime.Some? then Some(body.bucketByTime.value.durationMillis / MillisPerDay) else None))
  }

  /**
   * The body carries exactly the arguments it was built from: decoding gives
   * them back, and every body that decodes is the one built from what it
   * decodes to. In particular `aggregateBy` has exactly one element, and
   * `bucketByTime` is present exactly when `bucketBy` was given.
   */
  lemma RequestBodyRoundTrip(modeUri: string, startSeconds: int, endSeconds: int, bucketBy: Option<int>, body: RequestBody)
    ensures DecodeRequestBody(AggregateRequestBody(modeUri, startSeconds, endSeconds, bucketBy)) ==
      Some(AggregateQuery(modeUri, startSeconds, endSeconds, bucketBy))
    ensures DecodeRequestBody(body).Some? ==>
      var q := DecodeRequestBody(body).value;
      AggregateRequestBody(q.modeUri, q.startSeconds, q.endSeconds, q.bucketBy) == body
  {
  }
}
