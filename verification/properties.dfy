/**
  Properties that relate several shape calls, or a shape and its
  declarative description.
 */
module DevopsProperties {
  import opened Times
  import opened Hosts
  import opened Strings
  import opened Queries
  import opened Devops

  /** The max-over-hosts description pins the whole record: at most one query meets it. */
  lemma HostMaxQueryUnique(r1: Query, r2: Query, q: Query, fields: seq<string>, groupBy: int,
                           scaleVar: nat, nhosts: nat, window: TimeInterval, perm: seq<nat>)
    requires HostMaxQuery(r1, q, fields, groupBy, scaleVar, nhosts, window, perm)
    requires HostMaxQuery(r2, q, fields, groupBy, scaleVar, nhosts, window, perm)
    ensures r1 == r2
  {
    JoinSplit(r1.fieldName, FieldSep);
    JoinSplit(r2.fieldName, FieldSep);
    SelectsHostsUnique(r1.tagSets[0], r2.tagSets[0], scaleVar, nhosts, perm);
    assert r1.tagSets == [r1.tagSets[0]];
    assert r2.tagSets == [r2.tagSets[0]];
  }

  /**
    So a query meets the N-host max-CPU description exactly when it is the
    one the shape produces.
   */
  lemma MaxCPUUsageHourByMinuteNHostsCharacterized(d: CassandraDevops, q: Query, r: Query, scaleVar: nat,
                                                   nhosts: nat, timeRange: int, window: TimeInterval,
                                                   perm: seq<nat>)
    requires d.allInterval.HasWindow(window, timeRange)
    requires IsPermutation(perm, scaleVar)
    requires nhosts <= scaleVar
    ensures HostMaxQuery(r, q, [UsageUser], Minute, scaleVar, nhosts, window, perm) <==>
            r == MaxCPUUsageHourByMinuteNHosts(d, q, scaleVar, nhosts, timeRange, window, perm)
  {
    var s := MaxCPUUsageHourByMinuteNHosts(d, q, scaleVar, nhosts, timeRange, window, perm);
    if HostMaxQuery(r, q, [UsageUser], Minute, scaleVar, nhosts, window, perm) {
      HostMaxQueryUnique(r, s, q, [UsageUser], Minute, scaleVar, nhosts, window, perm);
    }
  }

  /** The hosts a max-over-hosts query selects are a sample of `nhosts` distinct hosts below `scaleVar`. */
  lemma HostMaxQuerySamplesHosts(r: Query, q: Query, fields: seq<string>, groupBy: int,
                                 scaleVar: nat, nhosts: nat, window: TimeInterval, perm: seq<nat>)
    requires HostMaxQuery(r, q, fields, groupBy, scaleVar, nhosts, window, perm)
    ensures |SelectedHosts(r.tagSets[0])| == nhosts
    ensures forall i | i in SelectedHosts(r.tagSets[0]) :: i < scaleVar
  {
    SelectionIsSample(r.tagSets[0], scaleVar, nhosts, perm);
  }

  /**
    Two calls of a shape with different draws may differ in window and
    hosts, but agree on aggregation, measurement, fields and group-by.
   */
  lemma ShapeFieldsIgnoreDraws(d: CassandraDevops, q: Query, scaleVar: nat, nhosts: nat, timeRange: int,
                               w1: TimeInterval, p1: seq<nat>, w2: TimeInterval, p2: seq<nat>)
    requires d.allInterval.HasWindow(w1, timeRange) && d.allInterval.HasWindow(w2, timeRange)
    requires IsPermutation(p1, scaleVar) && IsPermutation(p2, scaleVar)
    requires nhosts <= scaleVar
    ensures SameShapeFields(MaxCPUUsageHourByMinuteNHosts(d, q, scaleVar, nhosts, timeRange, w1, p1),
                            MaxCPUUsageHourByMinuteNHosts(d, q, scaleVar, nhosts, timeRange, w2, p2))
    ensures SameShapeFields(CPU5Metrics(d, q, scaleVar, nhosts, timeRange, w1, p1),
                            CPU5Metrics(d, q, scaleVar, nhosts, timeRange, w2, p2))
    ensures timeRange == 8 * Hour ==>
              SameShapeFields(MaxAllCPU(d, q, scaleVar, nhosts, w1, p1), MaxAllCPU(d, q, scaleVar, nhosts, w2, p2))
    ensures timeRange == 24 * Hour ==>
              SameShapeFields(HighCPUForHosts(d, q, scaleVar, nhosts, w1, p1),
                              HighCPUForHosts(d, q, scaleVar, nhosts, w2, p2))
    ensures timeRange == 24 * Hour ==> forall numMetrics: nat, cpuMetrics: seq<string> | numMetrics <= |cpuMetrics| ::
              SameShapeFields(MeanCPUUsageDayByHourAllHostsGroupbyHost(d, q, numMetrics, cpuMetrics, w1),
                              MeanCPUUsageDayByHourAllHostsGroupbyHost(d, q, numMetrics, cpuMetrics, w2))
    ensures timeRange == Hour ==>
              SameShapeFields(GroupByOrderByLimit(d, q, scaleVar, w1), GroupByOrderByLimit(d, q, scaleVar, w2))
  {
  }

  predicate SameShapeFields(a: Query, b: Query) {
    && a.aggregationType == b.aggregationType
    && a.measurementName == b.measurementName
    && a.fieldName == b.fieldName
    && a.groupByDuration == b.groupByDuration
  }

  /**
    Every shape that draws a window keeps its query range inside the
    horizon, and the range is non-empty whenever the drawn length is positive.
   */
  lemma DrawnRangesInsideHorizon(d: CassandraDevops, q: Query, scaleVar: nat, nhosts: nat, timeRange: int,
                                 window: TimeInterval, perm: seq<nat>, numMetrics: nat, cpuMetrics: seq<string>)
    requires d.allInterval.HasWindow(window, timeRange)
    requires IsPermutation(perm, scaleVar)
    requires nhosts <= scaleVar
    requires numMetrics <= |cpuMetrics|
    ensures InsideHorizon(d, MaxCPUUsageHourByMinuteNHosts(d, q, scaleVar, nhosts, timeRange, window, perm), timeRange > 0)
    ensures InsideHorizon(d, CPU5Metrics(d, q, scaleVar, nhosts, timeRange, window, perm), timeRange > 0)
    ensures timeRange == Hour ==> InsideHorizon(d, GroupByOrderByLimit(d, q, scaleVar, window), true)
    ensures timeRange == 8 * Hour ==> InsideHorizon(d, MaxAllCPU(d, q, scaleVar, nhosts, window, perm), true)
    ensures timeRange == 24 * Hour ==>
              InsideHorizon(d, MeanCPUUsageDayByHourAllHostsGroupbyHost(d, q, numMetrics, cpuMetrics, window), true)
    ensures timeRange == 24 * Hour ==> InsideHorizon(d, HighCPUForHosts(d, q, scaleVar, nhosts, window, perm), true)
  {
  }

  /** The query range lies inside the horizon, and is non-empty when `nonEmpty` holds. */
  predicate InsideHorizon(d: CassandraDevops, r: Query, nonEmpty: bool) {
    && d.allInterval.start <= r.timeStart
    && r.timeEnd <= d.allInterval.end
    && (nonEmpty ==> r.timeStart < r.timeEnd)
  }

  /** The last-point and order-by-limit shapes ignore their int argument. */
  lemma IntArgumentIgnored(d: CassandraDevops, q: Query, s1: int, s2: int, window: TimeInterval)
    requires d.allInterval.HasWindow(window, Hour)
    ensures LastPointPerHost(d, q, s1) == LastPointPerHost(d, q, s2)
    ensures GroupByOrderByLimit(d, q, s1, window) == GroupByOrderByLimit(d, q, s2, window)
  {
  }

  /** The label of the high-CPU shape says "all hosts" exactly when the query sets no tag group. */
  lemma HighCpuLabelMatchesTags(d: CassandraDevops, q: Query, scaleVar: nat, nhosts: nat,
                                window: TimeInterval, perm: seq<nat>)
    requires d.allInterval.HasWindow(window, 24 * Hour)
    requires IsPermutation(perm, scaleVar)
    requires nhosts <= scaleVar
    ensures HighCpuLabel(GetHostWhere(scaleVar, nhosts, perm)) == HighCpuLabelPrefix + "all hosts" <==>
            HighCPUForHosts(d, q, scaleVar, nhosts, window, perm).tagSets == []
  {
    var tagSet := GetHostWhere(scaleVar, nhosts, perm);
    if |tagSet| > 0 {
      assert HighCpuLabel(tagSet) == HighCpuLabelPrefix + "one host";
      assert (HighCpuLabelPrefix + "one host")[|HighCpuLabelPrefix|] == 'o';
    }
  }

  /** A generator built from `[start, end)` gives a last-point query over exactly that span. */
  lemma NewGeneratorLastPointSpan(start: int, end: int, q: Query, scaleVar: int)
    requires start < end
    ensures var r := LastPointPerHost(NewCassandraDevopsCommon(start, end), q, scaleVar);
            r.timeStart == start && r.timeEnd == end && r.timeStart < r.timeEnd
  {
  }
}
