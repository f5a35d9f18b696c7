/**
 * `HealthKitManager` of the iOS app (biomarkersApp.swift): a fixed policy
 * table saying how each metric is aggregated per day, one statistics query per
 * table entry, and six published arrays that each query's callback replaces
 * with the week's per-day values.
 *
 * HealthKit itself is abstracted: authorization arrives as a success flag, and
 * a query's results arrive as the sequence of per-day statistics its
 * collection enumerates (or `None` when the query failed). The statistics
 * carry their average and sum already expressed in the metric's unit.
 */
module HealthKit {
  import opened Wrappers

  // ---------------------------------------------------------------------------
  // Policy table
  // ---------------------------------------------------------------------------

  /** Quantity type identifiers; the open-ended rest of HealthKit's list is `Other`. */
  datatype Identifier =
    | HeartRate
    | Vo2Max
    | HeartRateVariabilitySDNN
    | RestingHeartRate
    | ActiveEnergyBurned
    | DistanceWalkingRunning
    | StepCount
    | Other(rawValue: string)

  /** How a collection query aggregates the samples of one day. */
  datatype StatisticsOption = DiscreteAverage | CumulativeSum

  datatype Unit = CountPerMinute | MillilitresPerKilogramMinute | Milliseconds | Kilocalorie | Meter | Count

  /**
   * A table entry: the query option, and the unit the extraction closure
   * converts to. The closure reads `averageQuantity()` for a discrete average
   * and `sumQuantity()` for a cumulative sum.
   */
  datatype QueryDetail = QueryDetail(option: StatisticsOption, unit: Unit)

  /** `queryDetails`. */
  const QueryDetails: map<Identifier, QueryDetail> := map[
    HeartRate := QueryDetail(DiscreteAverage, CountPerMinute),
    Vo2Max := QueryDetail(DiscreteAverage, MillilitresPerKilogramMinute),
    HeartRateVariabilitySDNN := QueryDetail(DiscreteAverage, Milliseconds),
    RestingHeartRate := QueryDetail(DiscreteAverage, CountPerMinute),
    ActiveEnergyBurned := QueryDetail(CumulativeSum, Kilocalorie),
    DistanceWalkingRunning := QueryDetail(CumulativeSum, Meter),
    StepCount := QueryDetail(CumulativeSum, Count)
  ]

  /** Instantaneous measurements, whose daily figure is a mean. */
  predicate IsDiscrete(id: Identifier)
  {
    id == HeartRate || id == Vo2Max || id == HeartRateVariabilitySDNN || id == RestingHeartRate
  }

  /**
   * The table has seven entries; the four discrete metrics are averaged and
   * the three cumulative ones (active energy, distance, steps) are summed.
   */
  lemma QueryPolicy()
    ensures |QueryDetails| == 7
    ensures QueryDetails.Keys == {HeartRate, Vo2Max, HeartRateVariabilitySDNN, RestingHeartRate,
                                  ActiveEnergyBurned, DistanceWalkingRunning, StepCount}
    ensures forall id :: id in QueryDetails ==> (QueryDetails[id].option == DiscreteAverage <==> IsDiscrete(id))
  {
  }

  // ---------------------------------------------------------------------------
  // Per-day values
  // ---------------------------------------------------------------------------

  /** One day's `HKStatistics`. */
  datatype Statistics = Statistics(averageQuantity: Option<real>, sumQuantity: Option<real>)

  /** The table entry's extraction closure. */
  function Extract(detail: QueryDetail, stats: Statistics): Option<real>
  {
    match detail.option
    case DiscreteAverage => stats.averageQuantity
    case CumulativeSum => stats.sumQuantity
  }

  /** The values the enumeration callback appends, one per day, 0 where extraction is nil. */
  function DailyValues(stats: seq<Statistics>, detail: QueryDetail): seq<real>
  {
    if stats == [] then []
    else DailyValues(stats[..|stats| - 1], detail) + [Extract(detail, stats[|stats| - 1]).GetOr(0.0)]
  }

  /**
   * One value per enumerated day, in day order: the day's average or sum as
   * the policy says, and 0.0 exactly where that quantity is missing or is 0.
   */
  lemma {:induction false} DailyValuesAt(stats: seq<Statistics>, detail: QueryDetail)
    ensures |DailyValues(stats, detail)| == |stats|
    ensures forall k :: 0 <= k < |stats| ==>
      DailyValues(stats, detail)[k] ==
        (if detail.option == DiscreteAverage then stats[k].averageQuantity else stats[k].sumQuantity).GetOr(0.0)
    ensures forall k :: 0 <= k < |stats| ==>
      (DailyValues(stats, detail)[k] == 0.0 <==> Extract(detail, stats[k]) in {None, Some(0.0)})
  {
    if stats != [] {
      DailyValuesAt(stats[..|stats| - 1], detail);
    }
  }

  // ---------------------------------------------------------------------------
  // Published arrays
  // ---------------------------------------------------------------------------

  /** The six published arrays. */
  datatype Series = HeartRateSeries | Vo2MaxSeries | HrvSeries | RhrSeries | StepSeries | EnergyBurnedSeries

  /** A snapshot of the six published arrays. */
  datatype Published = Published(
    heartRateData: seq<real>,
    vo2MaxData: seq<real>,
    hrvData: seq<real>,
    rhrData: seq<real>,
    stepData: seq<real>,
    energyBurnedData: seq<real>)

  function Get(p: Published, s: Series): seq<real>
  {
    match s
    case HeartRateSeries => p.heartRateData
    case Vo2MaxSeries => p.vo2MaxData
    case HrvSeries => p.hrvData
    case RhrSeries => p.rhrData
    case StepSeries => p.stepData
    case EnergyBurnedSeries => p.energyBurnedData
  }

  /** The array each metric is published in; distance and unlisted identifiers have none. */
  function SeriesOf(id: Identifier): Option<Series>
  {
    match id
    case HeartRate => Some(HeartRateSeries)
    case Vo2Max => Some(Vo2MaxSeries)
    case HeartRateVariabilitySDNN => Some(HrvSeries)
    case RestingHeartRate => Some(RhrSeries)
    case ActiveEnergyBurned => Some(EnergyBurnedSeries)
    case StepCount => Some(StepSeries)
    case _ => None
  }

  /** The metric feeding each published array. */
  function SourceOf(s: Series): (id: Identifier)
    ensures SeriesOf(id) == Some(s)
    ensures id in QueryDetails
  {
    match s
    case HeartRateSeries => HeartRate
    case Vo2MaxSeries => Vo2Max
    case HrvSeries => HeartRateVariabilitySDNN
    case RhrSeries => RestingHeartRate
    case StepSeries => StepCount
    case EnergyBurnedSeries => ActiveEnergyBurned
  }

  /** Each array is fed by exactly one metric. */
  lemma SeriesOfSourceOf(id: Identifier, s: Series)
    ensures SeriesOf(id) == Some(s) <==> id == SourceOf(s)
  {
  }

  /** The `switch` on the identifier that assigns the collected values. */
  function Route(p: Published, id: Identifier, values: seq<real>): Published
  {
    match id
    case HeartRate => p.(heartRateData := values)
    case Vo2Max => p.(vo2MaxData := values)
    case RestingHeartRate => p.(rhrData := values)
    case HeartRateVariabilitySDNN => p.(hrvData := values)
    case ActiveEnergyBurned => p.(energyBurnedData := values)
    case StepCount => p.(stepData := values)
    case _ => p
  }

  /**
   * Routing replaces the identifier's array wholesale with the new values and
   * leaves the other five untouched; distance and unlisted identifiers change
   * nothing.
   */
  lemma RouteReplacesOne(p: Published, id: Identifier, values: seq<real>)
    ensures forall s :: Get(Route(p, id, values), s) == if SeriesOf(id) == Some(s) then values else Get(p, s)
    ensures SeriesOf(id).None? ==> Route(p, id, values) == p
  {
  }

  /**
   * A later result for the same metric overrides an earlier one, and results
   * for two different metrics can be applied in either order.
   */
  lemma RouteOrder(p: Published, a: Identifier, va: seq<real>, b: Identifier, vb: seq<real>)
    ensures a == b ==> Route(Route(p, a, va), b, vb) == Route(p, b, vb)
    ensures a != b ==> Route(Route(p, a, va), b, vb) == Route(Route(p, b, vb), a, va)
  {
  }

  /** The results a query's callback receives; an identifier with no entry is a failed query. */
  function Answer(answers: map<Identifier, Option<seq<Statistics>>>, id: Identifier): Option<seq<Statistics>>
  {
    if id in answers then answers[id] else None
  }

  /** The callback of one query: publish on results, leave everything on failure. */
  function Deliver(p: Published, id: Identifier, answers: map<Identifier, Option<seq<Statistics>>>): Published
    requires id in QueryDetails
  {
    match Answer(answers, id)
    case None => p
    case Some(stats) => Route(p, id, DailyValues(stats, QueryDetails[id]))
  }

  /** The callbacks of the queries `ids`, in that order. */
  function DeliverAll(p: Published, ids: seq<Identifier>, answers: map<Identifier, Option<seq<Statistics>>>): Published
    requires forall k :: 0 <= k < |ids| ==> ids[k] in QueryDetails
  {
    if ids == [] then p
    else Deliver(DeliverAll(p, ids[..|ids| - 1], answers), ids[|ids| - 1], answers)
  }

  /**
   * After the callbacks of `ids`, in whatever order they ran, each array holds
   * the values of its metric's query when that query was among them and
   * returned results, and its earlier contents otherwise.
   */
  lemma {:induction false} DeliverAllPerSeries(p: Published, ids: seq<Identifier>, answers: map<Identifier, Option<seq<Statistics>>>, s: Series)
    requires forall k :: 0 <= k < |ids| ==> ids[k] in QueryDetails
    ensures Get(DeliverAll(p, ids, answers), s) ==
      if SourceOf(s) in ids && Answer(answers, SourceOf(s)).Some?
      then DailyValues(Answer(answers, SourceOf(s)).value, QueryDetails[SourceOf(s)])
      else Get(p, s)
  {
    if ids != [] {
      var init, last := ids[..|ids| - 1], ids[|ids| - 1];
      assert ids == init + [last];
      DeliverAllPerSeries(p, init, answers, s);
      if Answer(answers, last).Some? {
        RouteReplacesOne(DeliverAll(p, init, answers), last, DailyValues(Answer(answers, last).value, QueryDetails[last]));
      }
      SeriesOfSourceOf(last, s);
    }
  }

  // ---------------------------------------------------------------------------
  // The manager
  // ---------------------------------------------------------------------------

  class HealthKitManager {
    /** Whether `healthStore` was created, i.e. health data is available on the device. */
    const hasHealthStore: bool

    var heartRateData: seq<real>
    var vo2MaxData: seq<real>
    var hrvData: seq<real>
    var rhrData: seq<real>
    var stepData: seq<real>
    var energyBurnedData: seq<real>

    function Snapshot(): Published
      reads this
    {
      Published(heartRateData, vo2MaxData, hrvData, rhrData, stepData, energyBurnedData)
    }

    /** `init()`: the store exists only when health data is available; every array starts empty. */
    constructor (isHealthDataAvailable: bool)
      ensures hasHealthStore == isHealthDataAvailable
      ensures Snapshot() == Published([], [], [], [], [], [])
    {
      hasHealthStore := isHealthDataAvailable;
      heartRateData, vo2MaxData, hrvData, rhrData, stepData, energyBurnedData := [], [], [], [], [], [];
    }

    /**
     * `requestAuthorization()`: without a store nothing happens; when
     * authorization fails nothing is published; when it succeeds every
     * query of the table is issued and its callback handled.
     */
    method RequestAuthorization(success: bool, answers: map<Identifier, Option<seq<Statistics>>>)
      returns (issued: seq<Identifier>)
      modifies this
      ensures !hasHealthStore || !success ==> issued == [] && Snapshot() == old(Snapshot())
      ensures hasHealthStore && success ==>
        && |issued| == |QueryDetails|
        && (forall k :: 0 <= k < |issued| ==> issued[k] in QueryDetails)
        && Snapshot() == DeliverAll(old(Snapshot()), issued, answers)
      ensures forall s :: (Get(Snapshot(), s) ==
        if hasHealthStore && success && Answer(answers, SourceOf(s)).Some?
        then DailyValues(Answer(answers, SourceOf(s)).value, QueryDetails[SourceOf(s)])
        else Get(old(Snapshot()), s))
    {
      issued := [];
      if hasHealthStore && success {
        issued := ExecuteQueriesForAllDataTypes(answers);
      }
    }

    /**
     * `executeQueriesForAllDataTypes()`: one query per table entry, in the
     * dictionary's (unspecified) order, each entry exactly once.
     */
    method ExecuteQueriesForAllDataTypes(answers: map<Identifier, Option<seq<Statistics>>>)
      returns (issued: seq<Identifier>)
      modifies this
      ensures |issued| == |QueryDetails|
      ensures forall k :: 0 <= k < |issued| ==> issued[k] in QueryDetails
      ensures forall id :: id in QueryDetails ==> id in issued
      ensures forall j, k :: 0 <= j < k < |issued| ==> issued[j] != issued[k]
      ensures Snapshot() == if hasHealthStore then DeliverAll(old(Snapshot()), issued, answers) else old(Snapshot())
      ensures forall s :: (Get(Snapshot(), s) ==
        if hasHealthStore && Answer(answers, SourceOf(s)).Some?
        then DailyValues(Answer(answers, SourceOf(s)).value, QueryDetails[SourceOf(s)])
        else Get(old(Snapshot()), s))
    {
      issued := [];
      var remaining := QueryDetails.Keys;
      while remaining != {}
        invariant remaining <= QueryDetails.Keys
        invariant forall k :: 0 <= k < |issued| ==> issued[k] in QueryDetails && issued[k] !in remaining
        invariant forall id :: id in QueryDetails ==> id in issued || id in remaining
        invariant forall j, k :: 0 <= j < k < |issued| ==> issued[j] != issued[k]
        invariant |issued| + |remaining| == |QueryDetails|
        invariant Snapshot() == if hasHealthStore then DeliverAll(old(Snapshot()), issued, answers) else old(Snapshot())
        decreases |remaining|
      {
        var identifier :| identifier in remaining;
        ExecuteHealthDataQuery(identifier, QueryDetails[identifier], Answer(answers, identifier));
        issued := issued + [identifier];
        remaining := remaining - {identifier};
      }
      forall s ensures Get(DeliverAll(old(Snapshot()), issued, answers), s) ==
        if Answer(answers, SourceOf(s)).Some?
        then DailyValues(Answer(answers, SourceOf(s)).value, QueryDetails[SourceOf(s)])
        else Get(old(Snapshot()), s)
      {
        DeliverAllPerSeries(old(Snapshot()), issued, answers, s);
      }
    }

    /**
     * `executeHealthDataQuery(for:with:)` together with its results handler:
     * with a store, results are processed and a failed query (nil results)
     * changes nothing.
     */
    method ExecuteHealthDataQuery(identifier: Identifier, queryDetail: QueryDetail, results: Option<seq<Statistics>>)
      modifies this
      ensures Snapshot() ==
        if hasHealthStore && results.Some?
        then Route(old(Snapshot()), identifier, DailyValues(results.value, queryDetail))
        else old(Snapshot())
    {
      if hasHealthStore {
        if results.Some? {
          ProcessStatisticsCollection(results.value, identifier, queryDetail);
        }
      }
    }

    /**
     * `processStatisticsCollection`: collect one value per enumerated day,
     * then replace the identifier's published array.
     */
    method ProcessStatisticsCollection(statsCollection: seq<Statistics>, identifier: Identifier, queryDetail: QueryDetail)
      modifies this
      ensures Snapshot() == Route(old(Snapshot()), identifier, DailyValues(statsCollection, queryDetail))
    {
      var values: seq<real> := [];
      var i := 0;
      while i < |statsCollection|
        invariant 0 <= i <= |statsCollection|
        invariant values == DailyValues(statsCollection[..i], queryDetail)
      {
        var value := Extract(queryDetail, statsCollection[i]).GetOr(0.0);
        assert statsCollection[..i + 1][..i] == statsCollection[..i];
        values := values + [value];
        i := i + 1;
      }
      assert statsCollection[..i] == statsCollection;
      match identifier {
        case HeartRate => heartRateData := values;
        case Vo2Max => vo2MaxData := values;
        case RestingHeartRate => rhrData := values;
        case HeartRateVariabilitySDNN => hrvData := values;
        case ActiveEnergyBurned => energyBurnedData := values;
        case StepCount => stepData := values;
        case _ =>
      }
    }
  }
}
