/**
  The Cassandra devops query generator: a benchmark horizon and one pure
  function per query shape. Each shape takes the incoming (pool-reset)
  record and the two random draws of a call as parameters — the window
  `TimeInterval.RandWindow` returns and the permutation `rand.Perm`
  returns — and yields the filled record.
 */
module Devops {
  import opened Times
  import opened Hosts
  import opened Strings
  import opened Queries

  const FieldSep: char := ','

  const UsageUser: string := "usage_user"

  /** The five cpu fields of the 5-metrics shape, in the order the source writes them. */
  const FiveCpuFieldList: seq<string> :=
    ["usage_user", "usage_system", "usage_idle", "usage_nice", "usage_guest"]
  const FiveCpuFields: string := Join(FiveCpuFieldList, FieldSep)

  /** All ten cpu fields, in the order the source writes them. */
  const AllCpuFieldList: seq<string> :=
    ["usage_user", "usage_system", "usage_idle", "usage_nice", "usage_iowait",
     "usage_irq", "usage_softirq", "usage_steal", "usage_guest", "usage_guest_nice"]
  const AllCpuFields: string := Join(AllCpuFieldList, FieldSep)

  const HighCpuWhere: string := "usage_user,>,90.0"
  const LastPointForEveryN: string := "hostname,1"
  const LatestFirst: string := "timestamp_ns DESC"
  const HighCpuLabelPrefix: string := "Cassandra CPU over threshold, "

  /** The generator: the horizon all query windows are drawn from. */
  datatype CassandraDevops = CassandraDevops(allInterval: TimeInterval) {
    predicate Valid() {
      allInterval.Valid()
    }
  }

  /** Construction demands `start` strictly before `end`; the source panics otherwise. */
  function NewCassandraDevopsCommon(start: int, end: int): (d: CassandraDevops)
    requires start < end
    ensures d.Valid()
    ensures d.allInterval.start == start && d.allInterval.end == end
  {
    CassandraDevops(TimeInterval(start, end))
  }

  lemma UsageUserDecodes()
    ensures Split(UsageUser, FieldSep) == [UsageUser]
  {
    SplitJoin([UsageUser], FieldSep);
  }

  lemma FiveCpuFieldsDecode()
    ensures Split(FiveCpuFields, FieldSep) == FiveCpuFieldList
  {
    assert NoneContains(FiveCpuFieldList, FieldSep);
    SplitJoin(FiveCpuFieldList, FieldSep);
  }

  lemma AllCpuFieldsDecode()
    ensures Split(AllCpuFields, FieldSep) == AllCpuFieldList
  {
    assert NoneContains(AllCpuFieldList, FieldSep);
    SplitJoin(AllCpuFieldList, FieldSep);
  }

  /** The where clause is the triple `field,op,value`. */
  lemma HighCpuWhereDecodes()
    ensures Split(HighCpuWhere, FieldSep) == [UsageUser, ">", "90.0"]
  {
    var parts := [UsageUser, ">", "90.0"];
    assert parts[1..] == [">", "90.0"];
    assert Join(parts[1..], FieldSep) == ">,90.0";
    assert HighCpuWhere == Join(parts, FieldSep);
    SplitJoin([UsageUser, ">", "90.0"], FieldSep);
  }

  /** The for-every-N clause is the pair `key,stride`. */
  lemma ForEveryNDecodes()
    ensures Split(LastPointForEveryN, FieldSep) == ["hostname", "1"]
  {
    assert LastPointForEveryN == Join(["hostname", "1"], FieldSep);
    SplitJoin(["hostname", "1"], FieldSep);
  }

  /** The query range is exactly the drawn window. */
  predicate SpansWindow(r: Query, window: TimeInterval) {
    r.timeStart == window.start && r.timeEnd == window.end
  }

  /**
    The query the max-over-hosts shapes produce: max of `fields` on cpu,
    over the drawn window, grouped by `groupBy`, with one tag group
    selecting the first `nhosts` hosts of the drawn permutation; ordering,
    limit, where clause and for-every-N keep their incoming values.
   */
  predicate HostMaxQuery(r: Query, q: Query, fields: seq<string>, groupBy: int,
                         scaleVar: nat, nhosts: nat, window: TimeInterval, perm: seq<nat>)
  {
    && r.aggregationType == "max"
    && r.measurementName == "cpu"
    && Split(r.fieldName, FieldSep) == fields
    && SpansWindow(r, window)
    && r.groupByDuration == groupBy
    && |r.tagSets| == 1
    && SelectsHosts(r.tagSets[0], scaleVar, nhosts, perm)
    && r.orderBy == q.orderBy
    && r.limit == q.limit
    && r.whereClause == q.whereClause
    && r.forEveryN == q.forEveryN
  }

  /**
    Max of `usage_user` per minute for `nhosts` random hosts over a random
    window of length `timeRange`. The tag group is present even when
    `nhosts` is 0, as one empty group.
   */
  function MaxCPUUsageHourByMinuteNHosts(d: CassandraDevops, q: Query, scaleVar: nat, nhosts: nat,
                                        timeRange: int, window: TimeInterval, perm: seq<nat>): (r: Query)
    requires d.allInterval.HasWindow(window, timeRange)
    requires IsPermutation(perm, scaleVar)
    requires nhosts <= scaleVar
    ensures HostMaxQuery(r, q, [UsageUser], Minute, scaleVar, nhosts, window, perm)
    ensures d.allInterval.start <= r.timeStart && r.timeEnd <= d.allInterval.end
    ensures r.timeEnd - r.timeStart == timeRange
  {
    UsageUserDecodes();
    q.(aggregationType := "max", measurementName := "cpu", fieldName := UsageUser,
       timeStart := window.start, timeEnd := window.end, groupByDuration := Minute,
       tagSets := [GetHostWhere(scaleVar, nhosts, perm)])
  }

  function MaxCPUUsageHourByMinuteOneHost(d: CassandraDevops, q: Query, scaleVar: nat,
                                         window: TimeInterval, perm: seq<nat>): (r: Query)
    requires d.allInterval.HasWindow(window, Hour)
    requires IsPermutation(perm, scaleVar)
    requires 1 <= scaleVar
    ensures HostMaxQuery(r, q, [UsageUser], Minute, scaleVar, 1, window, perm)
    ensures r.timeEnd - r.timeStart == Hour
  {
    MaxCPUUsageHourByMinuteNHosts(d, q, scaleVar, 1, Hour, window, perm)
  }

  function MaxCPUUsageHourByMinuteTwoHosts(d: CassandraDevops, q: Query, scaleVar: nat,
                                          window: TimeInterval, perm: seq<nat>): (r: Query)
    requires d.allInterval.HasWindow(window, Hour)
    requires IsPermutation(perm, scaleVar)
    requires 2 <= scaleVar
    ensures HostMaxQuery(r, q, [UsageUser], Minute, scaleVar, 2, window, perm)
    ensures r.timeEnd - r.timeStart == Hour
  {
    MaxCPUUsageHourByMinuteNHosts(d, q, scaleVar, 2, Hour, window, perm)
  }

  function MaxCPUUsageHourByMinuteFourHosts(d: CassandraDevops, q: Query, scaleVar: nat,
                                           window: TimeInterval, perm: seq<nat>): (r: Query)
    requires d.allInterval.HasWindow(window, Hour)
    requires IsPermutation(perm, scaleVar)
    requires 4 <= scaleVar
    ensures HostMaxQuery(r, q, [UsageUser], Minute, scaleVar, 4, window, perm)
    ensures r.timeEnd - r.timeStart == Hour
  {
    MaxCPUUsageHourByMinuteNHosts(d, q, scaleVar, 4, Hour, window, perm)
  }

  function MaxCPUUsageHourByMinuteEightHosts(d: CassandraDevops, q: Query, scaleVar: nat,
                                            window: TimeInterval, perm: seq<nat>): (r: Query)
    requires d.allInterval.HasWindow(window, Hour)
    requires IsPermutation(perm, scaleVar)
    requires 8 <= scaleVar
    ensures HostMaxQuery(r, q, [UsageUser], Minute, scaleVar, 8, window, perm)
    ensures r.timeEnd - r.timeStart == Hour
  {
    MaxCPUUsageHourByMinuteNHosts(d, q, scaleVar, 8, Hour, window, perm)
  }

  function MaxCPUUsageHourByMinuteSixteenHosts(d: CassandraDevops, q: Query, scaleVar: nat,
                                              window: TimeInterval, perm: seq<nat>): (r: Query)
    requires d.allInterval.HasWindow(window, Hour)
    requires IsPermutation(perm, scaleVar)
    requires 16 <= scaleVar
    ensures HostMaxQuery(r, q, [UsageUser], Minute, scaleVar, 16, window, perm)
    ensures r.timeEnd - r.timeStart == Hour
  {
    MaxCPUUsageHourByMinuteNHosts(d, q, scaleVar, 16, Hour, window, perm)
  }

  function MaxCPUUsageHourByMinuteThirtyTwoHosts(d: CassandraDevops, q: Query, scaleVar: nat,
                                                window: TimeInterval, perm: seq<nat>): (r: Query)
    requires d.allInterval.HasWindow(window, Hour)
    requires IsPermutation(perm, scaleVar)
    requires 32 <= scaleVar
    ensures HostMaxQuery(r, q, [UsageUser], Minute, scaleVar, 32, window, perm)
    ensures r.timeEnd - r.timeStart == Hour
  {
    MaxCPUUsageHourByMinuteNHosts(d, q, scaleVar, 32, Hour, window, perm)
  }

  function MaxCPUUsage12HoursByMinuteOneHost(d: CassandraDevops, q: Query, scaleVar: nat,
                                            window: TimeInterval, perm: seq<nat>): (r: Query)
    requires d.allInterval.HasWindow(window, 12 * Hour)
    requires IsPermutation(perm, scaleVar)
    requires 1 <= scaleVar
    ensures HostMaxQuery(r, q, [UsageUser], Minute, scaleVar, 1, window, perm)
    ensures r.timeEnd - r.timeStart == 12 * Hour
  {
    MaxCPUUsageHourByMinuteNHosts(d, q, scaleVar, 1, 12 * Hour, window, perm)
  }

  /** The public entry point forwards all of its arguments unchanged. */
  function MaxCPUUsageHourByMinute(d: CassandraDevops, q: Query, scaleVar: nat, nhosts: nat,
                                  timeRange: int, window: TimeInterval, perm: seq<nat>): (r: Query)
    requires d.allInterval.HasWindow(window, timeRange)
    requires IsPermutation(perm, scaleVar)
    requires nhosts <= scaleVar
    ensures HostMaxQuery(r, q, [UsageUser], Minute, scaleVar, nhosts, window, perm)
    ensures r.timeEnd - r.timeStart == timeRange
  {
    MaxCPUUsageHourByMinuteNHosts(d, q, scaleVar, nhosts, timeRange, window, perm)
  }

  /** Max of the five cpu fields per minute for `nhosts` random hosts over a random window. */
  function CPU5Metrics(d: CassandraDevops, q: Query, scaleVar: nat, nhosts: nat,
                       timeRange: int, window: TimeInterval, perm: seq<nat>): (r: Query)
    requires d.allInterval.HasWindow(window, timeRange)
    requires IsPermutation(perm, scaleVar)
    requires nhosts <= scaleVar
    ensures HostMaxQuery(r, q, FiveCpuFieldList, Minute, scaleVar, nhosts, window, perm)
    ensures d.allInterval.start <= r.timeStart && r.timeEnd <= d.allInterval.end
    ensures r.timeEnd - r.timeStart == timeRange
  {
    FiveCpuFieldsDecode();
    q.(aggregationType := "max", measurementName := "cpu", fieldName := FiveCpuFields,
       timeStart := window.start, timeEnd := window.end, groupByDuration := Minute,
       tagSets := [GetHostWhere(scaleVar, nhosts, perm)])
  }

  /**
    Max `usage_user` per minute from the horizon start up to the end of a
    random one-hour window, latest first, five rows. No tag filter is set.
    The int argument of the source is ignored.
   */
  function GroupByOrderByLimit(d: CassandraDevops, q: Query, scaleVar: int, window: TimeInterval): (r: Query)
    requires d.allInterval.HasWindow(window, Hour)
    ensures r.aggregationType == "max" && r.measurementName == "cpu"
    ensures Split(r.fieldName, FieldSep) == [UsageUser]
    ensures r.timeStart == d.allInterval.start && r.timeEnd == window.end
    ensures r.timeStart < r.timeEnd <= d.allInterval.end
    ensures r.timeEnd - r.timeStart >= Hour
    ensures r.groupByDuration == Minute
    ensures r.orderBy == LatestFirst && r.limit == 5
    ensures r.tagSets == q.tagSets && r.whereClause == q.whereClause && r.forEveryN == q.forEveryN
  {
    UsageUserDecodes();
    q.(aggregationType := "max", measurementName := "cpu", fieldName := UsageUser,
       timeStart := d.allInterval.start, timeEnd := window.end, groupByDuration := Minute,
       orderBy := LatestFirst, limit := 5)
  }

  /**
    Average of the first `numMetrics` cpu metrics per hour over a random
    day, for all hosts: the tag groups are left as they came in.
   */
  function MeanCPUUsageDayByHourAllHostsGroupbyHost(d: CassandraDevops, q: Query, numMetrics: nat,
                                                   cpuMetrics: seq<string>, window: TimeInterval): (r: Query)
    requires d.allInterval.HasWindow(window, 24 * Hour)
    requires numMetrics <= |cpuMetrics|
    ensures r.aggregationType == "avg" && r.measurementName == "cpu"
    ensures r.fieldName == Join(cpuMetrics[..numMetrics], FieldSep)
    ensures numMetrics == 0 ==> r.fieldName == ""
    ensures 0 < numMetrics && NoneContains(cpuMetrics[..numMetrics], FieldSep) ==>
              Split(r.fieldName, FieldSep) == cpuMetrics[..numMetrics]
    ensures SpansWindow(r, window) && r.timeEnd - r.timeStart == 24 * Hour
    ensures d.allInterval.start <= r.timeStart < r.timeEnd <= d.allInterval.end
    ensures r.groupByDuration == Hour
    ensures r.tagSets == q.tagSets && r.orderBy == q.orderBy && r.limit == q.limit
    ensures r.whereClause == q.whereClause && r.forEveryN == q.forEveryN
  {
    var metrics := cpuMetrics[..numMetrics];
    SplitJoinWhenFree(metrics, FieldSep);
    q.(aggregationType := "avg", measurementName := "cpu", fieldName := Join(metrics, FieldSep),
       timeStart := window.start, timeEnd := window.end, groupByDuration := Hour)
  }

  /** Max of all ten cpu fields per hour for `nhosts` random hosts over a random 8-hour window. */
  function MaxAllCPU(d: CassandraDevops, q: Query, scaleVar: nat, nhosts: nat,
                     window: TimeInterval, perm: seq<nat>): (r: Query)
    requires d.allInterval.HasWindow(window, 8 * Hour)
    requires IsPermutation(perm, scaleVar)
    requires nhosts <= scaleVar
    ensures HostMaxQuery(r, q, AllCpuFieldList, Hour, scaleVar, nhosts, window, perm)
    ensures r.timeEnd - r.timeStart == 8 * Hour
    ensures d.allInterval.start <= r.timeStart < r.timeEnd <= d.allInterval.end
  {
    AllCpuFieldsDecode();
    q.(aggregationType := "max", measurementName := "cpu", fieldName := AllCpuFields,
       timeStart := window.start, timeEnd := window.end, groupByDuration := Hour,
       tagSets := [GetHostWhere(scaleVar, nhosts, perm)])
  }

  /**
    The most recent row of all ten cpu fields for every host: the whole
    horizon, one row per `hostname` group. Aggregation, group-by, ordering,
    limit, tags and where clause keep their incoming values, and the int
    argument of the source is ignored.
   */
  function LastPointPerHost(d: CassandraDevops, q: Query, scaleVar: int): (r: Query)
    ensures r.measurementName == "cpu"
    ensures Split(r.fieldName, FieldSep) == AllCpuFieldList
    ensures SpansWindow(r, d.allInterval)
    ensures d.Valid() ==> r.timeStart < r.timeEnd
    ensures Split(r.forEveryN, FieldSep) == ["hostname", "1"]
    ensures r.aggregationType == q.aggregationType && r.groupByDuration == q.groupByDuration
    ensures r.orderBy == q.orderBy && r.limit == q.limit
    ensures r.tagSets == q.tagSets && r.whereClause == q.whereClause
  {
    AllCpuFieldsDecode();
    ForEveryNDecodes();
    q.(measurementName := "cpu", fieldName := AllCpuFields,
       timeStart := d.allInterval.start, timeEnd := d.allInterval.end,
       forEveryN := LastPointForEveryN)
  }

  /**
    All ten cpu fields of the rows whose `usage_user` exceeds 90.0 over a
    random day, per hour, for `nhosts` random hosts, or for all hosts when
    `nhosts` is 0: then no tag group is set at all.
   */
  function HighCPUForHosts(d: CassandraDevops, q: Query, scaleVar: nat, nhosts: nat,
                           window: TimeInterval, perm: seq<nat>): (r: Query)
    requires d.allInterval.HasWindow(window, 24 * Hour)
    requires IsPermutation(perm, scaleVar)
    requires nhosts <= scaleVar
    ensures r.aggregationType == "" && r.measurementName == "cpu"
    ensures Split(r.fieldName, FieldSep) == AllCpuFieldList
    ensures SpansWindow(r, window) && r.timeEnd - r.timeStart == 24 * Hour
    ensures d.allInterval.start <= r.timeStart < r.timeEnd <= d.allInterval.end
    ensures r.groupByDuration == Hour
    ensures Split(r.whereClause, FieldSep) == [UsageUser, ">", "90.0"]
    ensures r.tagSets == [] <==> nhosts == 0
    ensures nhosts > 0 ==> |r.tagSets| == 1 && SelectsHosts(r.tagSets[0], scaleVar, nhosts, perm)
    ensures r.orderBy == q.orderBy && r.limit == q.limit && r.forEveryN == q.forEveryN
  {
    AllCpuFieldsDecode();
    HighCpuWhereDecodes();
    var tagSet := GetHostWhere(scaleVar, nhosts, perm);
    var tagSets := if |tagSet| > 0 then [tagSet] else [];
    q.(aggregationType := "", measurementName := "cpu", fieldName := AllCpuFields,
       timeStart := window.start, timeEnd := window.end, groupByDuration := Hour,
       whereClause := HighCpuWhere, tagSets := tagSets)
  }

  /** The human label of `HighCPUForHosts`: says "one host" when a tag group is set, "all hosts" otherwise. */
  function HighCpuLabel(tagSet: seq<string>): (text: string)
    ensures |tagSet| > 0 <==> text == HighCpuLabelPrefix + "one host"
    ensures |tagSet| == 0 <==> text == HighCpuLabelPrefix + "all hosts"
  {
    HighCpuLabelPrefix + (if |tagSet| > 0 then "one host" else "all hosts")
  }
}
