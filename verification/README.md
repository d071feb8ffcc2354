# Devops query shapes (Cassandra generator) in Dafny

This project models the core of the benchmark's devops query generator
for Cassandra, `CassandraDevops` in
`cmd/bulk_query_gen/cassandra_devops_common.go`. A generator owns a
benchmark horizon `[start, end)`. Each query shape fills one query record
from two random draws:

- a window of fixed length taken from the horizon (`TimeInterval.RandWindow`);
- a permutation of the host indices `[0, scaleVar)` (`rand.Perm`).

The shape sets the aggregation, measurement and comma-joined field list.
It also sets the time range, the group-by duration, ordering and limit, a
where clause, a for-every-N clause, and tag groups of `hostname=host_<i>`
predicates.

The model has these parts:

- Times and durations are integer nanoseconds (`Times`).
- Both random draws are explicit parameters with preconditions:
  - the window lies inside the horizon and has the requested length (`TimeInterval.HasWindow`);
  - the permutation is a permutation of `[0, scaleVar)` (`Hosts.IsPermutation`).
- Each shape is a pure function from the incoming record to the filled one.
- Fields a shape never writes keep their incoming value, and the contracts say which.
- Panics become preconditions:
  - the explicit `panic("bad time order")` of the constructor is `requires start < end`;
  - the runtime panic of `rand.Perm(scaleVar)[:nhosts]` with `nhosts > scaleVar` is `requires nhosts <= scaleVar`;
  - the runtime panic of `cpuMetrics[:numMetrics]` past the end of the list is `requires numMetrics <= |cpuMetrics|`;
  - the runtime panics for a negative `scaleVar` (`rand.Perm`) or a negative `nhosts` or `numMetrics` (slice bounds) are excluded by giving those parameters the type `nat`.
- `getHostWhere` is modelled as `Hosts.GetHostWhere`. The three max-over-hosts shapes inline the same loop in the source and use this one definition in the model. The receiver is dropped because it is unused.

Each encoding has a parsing partner, so the contracts can state what a
field means and not only how it is built:

- `host_%d` decimal rendering has `Decimal.ParseNat`.
- The tag predicate `hostname=host_<i>` has `Hosts.ParseHostTag`.
- `strings.Join` with `,` has `Strings.Split`.
- The max-over-hosts shapes have a declarative description,
  `Devops.HostMaxQuery`. It is proved to pin the record exactly.

Modules:

- `Wrappers` (option type).
- `Decimal` (`%d` and its parser).
- `Strings` (join and split).
- `Times` (intervals).
- `Hosts` (host tags, permutations, `getHostWhere`).
- `Queries` (the record).
- `Devops` (constructor and shapes).
- `DevopsProperties` (lemmas relating calls).

Behaviours of the Go code worth noting:

- With `nhosts = 0`, the max-CPU, 5-metrics and max-all-CPU shapes produce one empty tag group, not an empty tag list. Only `HighCPUForHosts` produces an empty tag list.
- `GroupByOrderByLimit` starts at the horizon start and ends at the end of a random one-hour window, not at the horizon's end.
- `HighCPUForHosts` sets a one-hour group-by.
- `LastPointPerHost` leaves the aggregation untouched.
- Out-of-range host or metric counts are panics, not returned errors.
- Every shape that draws a window keeps its query range inside the horizon; only `GroupByOrderByLimit` widens it, back to the horizon start.

## Model

| member | source | states |
|---|---|---|
| Decimal.ParseNatToString | cmd/bulk_query_gen/cassandra_devops_common.go:40 | reading back the decimal digits `%d` writes for a host index gives that index |
| Decimal.NatToStringParse | cmd/bulk_query_gen/cassandra_devops_common.go:40 | every canonical digit string (no leading zero) is the `%d` rendering of the number it denotes |
| Decimal.NatToStringInjective | cmd/bulk_query_gen/cassandra_devops_common.go:40 | distinct host indices are rendered as distinct digit strings |
| Decimal.NatToString | cmd/bulk_query_gen/cassandra_devops_common.go:40 | the rendering is non-empty, all digits, and starts with '0' only for zero |
| Strings.SplitJoin | cmd/bulk_query_gen/cassandra_devops_common.go:191 | `Strings.Join` models `strings.Join`; splitting such a comma join at commas gives back the non-empty list of names when no name holds a comma |
| Strings.JoinSplit | cmd/bulk_query_gen/cassandra_devops_common.go:191 | joining the pieces of a split with the separator gives back the string |
| Strings.FirstIndex | cmd/bulk_query_gen/cassandra_devops_common.go:191 | the index found holds the separator and nothing before it does |
| Hosts.HostTags | cmd/bulk_query_gen/cassandra_devops_common.go:39-43 | the loop yields one tag per index, in order, and the k-th tag parses back to the k-th index |
| Hosts.HostTagRoundTrip | cmd/bulk_query_gen/cassandra_devops_common.go:40-41 | `Hosts.HostTag` builds `hostname=` + `Hosts.HostName` (`host_%d`); that tag parses back to host index i |
| Hosts.ParseHostTagExact | cmd/bulk_query_gen/cassandra_devops_common.go:40-41 | a string parses to host i exactly when it is the tag for host i |
| Hosts.HostTagInjective | cmd/bulk_query_gen/cassandra_devops_common.go:40-41 | distinct hosts get distinct tag predicates |
| Hosts.GetHostWhere | cmd/bulk_query_gen/cassandra_devops_common.go:35-46 | needs `nhosts <= scaleVar`; yields exactly `nhosts` pairwise distinct tags naming the permutation prefix in order, each host below `scaleVar` |
| Hosts.SelectsHostsUnique | cmd/bulk_query_gen/cassandra_devops_common.go:35-46 | two tag lists that select the same permutation prefix are equal, so the selection is determined by the draw |
| Hosts.SelectionNamesPrefix | cmd/bulk_query_gen/cassandra_devops_common.go:36-43 | the hosts a selection names are exactly the first `nhosts` permutation entries, and those are distinct |
| Hosts.SelectionIsSample | cmd/bulk_query_gen/cassandra_devops_common.go:36 | a selection names exactly `nhosts` distinct hosts, all below `scaleVar`: a sample without replacement |
| Devops.NewCassandraDevopsCommon | cmd/bulk_query_gen/cassandra_devops_common.go:18-26 | needs `start < end` (the source panics otherwise); the horizon stored is exactly `[start, end)` and is non-empty |
| Devops.UsageUserDecodes | cmd/bulk_query_gen/cassandra_devops_common.go:103 | the field name `usage_user` is the one-element field list |
| Devops.FiveCpuFieldsDecode | cmd/bulk_query_gen/cassandra_devops_common.go:140 | the 5-metrics field string splits into user, system, idle, nice, guest in that order |
| Devops.AllCpuFieldsDecode | cmd/bulk_query_gen/cassandra_devops_common.go:225 | the all-fields string splits into the ten `usage_*` names in source order |
| Devops.HighCpuWhereDecodes | cmd/bulk_query_gen/cassandra_devops_common.go:284 | the where clause is the triple `usage_user`, `>`, `90.0` |
| Devops.ForEveryNDecodes | cmd/bulk_query_gen/cassandra_devops_common.go:246 | the for-every-N clause is the pair `hostname`, `1` |
| Devops.MaxCPUUsageHourByMinuteNHosts | cmd/bulk_query_gen/cassandra_devops_common.go:83-110 | max of `usage_user` on cpu over exactly the drawn window (inside the horizon, of length `timeRange`) by 1 minute; exactly one tag group selecting the permutation prefix, even for 0 hosts; ordering, limit, where and for-every-N untouched |
| Devops.MaxCPUUsageHourByMinuteOneHost | cmd/bulk_query_gen/cassandra_devops_common.go:49-51 | the max-CPU query for 1 host over a 1-hour window |
| Devops.MaxCPUUsageHourByMinuteTwoHosts | cmd/bulk_query_gen/cassandra_devops_common.go:53-55 | the max-CPU query for 2 hosts over a 1-hour window |
| Devops.MaxCPUUsageHourByMinuteFourHosts | cmd/bulk_query_gen/cassandra_devops_common.go:57-59 | the max-CPU query for 4 hosts over a 1-hour window |
| Devops.MaxCPUUsageHourByMinuteEightHosts | cmd/bulk_query_gen/cassandra_devops_common.go:61-63 | the max-CPU query for 8 hosts over a 1-hour window |
| Devops.MaxCPUUsageHourByMinuteSixteenHosts | cmd/bulk_query_gen/cassandra_devops_common.go:65-67 | the max-CPU query for 16 hosts over a 1-hour window |
| Devops.MaxCPUUsageHourByMinuteThirtyTwoHosts | cmd/bulk_query_gen/cassandra_devops_common.go:69-71 | the max-CPU query for 32 hosts over a 1-hour window |
| Devops.MaxCPUUsage12HoursByMinuteOneHost | cmd/bulk_query_gen/cassandra_devops_common.go:73-75 | the max-CPU query for 1 host over a 12-hour window |
| Devops.MaxCPUUsageHourByMinute | cmd/bulk_query_gen/cassandra_devops_common.go:77-79 | the max-CPU query for the given host count and time range, arguments forwarded unchanged |
| Devops.CPU5Metrics | cmd/bulk_query_gen/cassandra_devops_common.go:120-147 | max of the five cpu fields by 1 minute over exactly the drawn window; exactly one tag group selecting the permutation prefix; other fields untouched |
| Devops.GroupByOrderByLimit | cmd/bulk_query_gen/cassandra_devops_common.go:154-171 | range from the horizon start to the drawn 1-hour window's end, so non-empty, at least an hour long and ending within the horizon; max `usage_user` by 1 minute, `timestamp_ns DESC`, limit 5; tags, where and for-every-N untouched |
| Devops.MeanCPUUsageDayByHourAllHostsGroupbyHost | cmd/bulk_query_gen/cassandra_devops_common.go:180-196 | needs `numMetrics <= |cpuMetrics|`; avg by 1 hour over the drawn 24-hour window, inside the horizon; the field string is the comma join of the first `numMetrics` metrics (empty for 0), and splits back into them when no chosen metric contains a comma; tag groups untouched |
| Devops.MaxAllCPU | cmd/bulk_query_gen/cassandra_devops_common.go:205-232 | max of all ten cpu fields by 1 hour over the drawn 8-hour window, inside the horizon; always exactly one tag group selecting the permutation prefix |
| Devops.LastPointPerHost | cmd/bulk_query_gen/cassandra_devops_common.go:234-247 | the whole horizon, all ten cpu fields, for-every-N `hostname`/`1`; aggregation, group-by, ordering, limit, tags and where untouched |
| Devops.HighCPUForHosts | cmd/bulk_query_gen/cassandra_devops_common.go:257-287 | no aggregation, ten fields, where `usage_user > 90.0`, 1-hour group-by over the drawn 24-hour window, inside the horizon; tag groups empty iff `nhosts = 0`, otherwise exactly one selecting the permutation prefix |
| Devops.HighCpuLabel | cmd/bulk_query_gen/cassandra_devops_common.go:266-271 | the label ends in "one host" exactly when the tag list is non-empty, and in "all hosts" exactly when it is empty |
| DevopsProperties.HostMaxQueryUnique | cmd/bulk_query_gen/cassandra_devops_common.go:83-110 | the max-over-hosts description determines the whole record: two queries meeting it are equal |
| DevopsProperties.MaxCPUUsageHourByMinuteNHostsCharacterized | cmd/bulk_query_gen/cassandra_devops_common.go:83-110 | a query meets the N-host max-CPU description if and only if it is the one the shape produces |
| DevopsProperties.HostMaxQuerySamplesHosts | cmd/bulk_query_gen/cassandra_devops_common.go:85-94 | the single tag group of a max-over-hosts query names exactly `nhosts` distinct hosts below `scaleVar` |
| DevopsProperties.ShapeFieldsIgnoreDraws | cmd/bulk_query_gen/cassandra_devops_common.go:101-107 | two calls of any window-drawing shape with different windows and permutations agree on aggregation, measurement, fields and group-by |
| DevopsProperties.DrawnRangesInsideHorizon | cmd/bulk_query_gen/cassandra_devops_common.go:84-106 | for every shape that draws a window, the query range lies inside the horizon and is non-empty when the drawn length is positive |
| DevopsProperties.IntArgumentIgnored | cmd/bulk_query_gen/cassandra_devops_common.go:234-247 | the last-point and order-by-limit shapes do not depend on their int argument |
| DevopsProperties.HighCpuLabelMatchesTags | cmd/bulk_query_gen/cassandra_devops_common.go:259-271 | the high-CPU label says "all hosts" exactly when the query carries no tag group |
| DevopsProperties.NewGeneratorLastPointSpan | cmd/bulk_query_gen/cassandra_devops_common.go:18-26 | a generator built from `[start, end)` yields a last-point query spanning exactly that non-empty range |

## Left out

- Randomness: `rand.Perm` and `TimeInterval.RandWindow` are not modelled. Their results are parameters constrained by preconditions. `RandWindow`'s own code is not part of this model, so its uniformity and its handling of windows longer than the horizon are not modelled either.
- Human labels and descriptions: these are metadata built with `fmt` padding (`%4d`), duration and time formatting. Only the "one host" / "all hosts" choice of `HighCPUForHosts` is modelled (`HighCpuLabel`). The max-all-CPU label says "12hr" while its window is 8 hours. That is a label quirk and is not modelled.
- `Dispatch`, `devopsDispatchAll`, the query pool (`query.NewCassandra`) and the `query.Cassandra` type assertion: routing and allocation live in code that is not part of this model. The incoming record is a parameter.
- `cpuMetrics` is defined in a file that is not part of this model. It is a parameter of `MeanCPUUsageDayByHourAllHostsGroupbyHost`.
- Fixed field strings: the five-field and ten-field strings are defined as the comma join of their name lists. The model does not prove them equal to the source's literals character by character.
- Commented-out code: the older `MeanCPUUsageDayByHourAllHostsGroupbyHost` at the end of the file is not modelled.
- The TimescaleDB single-metric wrapper (`cmd/tsbs_generate_queries/timescaledb_devops_1_metric.go`) only forwards `hosts` and `hours` to a TimescaleDB generator that is not part of this model. Its `int64(hours) * int64(time.Hour)` overflow is not modelled.
- Integer width: Go `int` and `time.Duration` are 64-bit. All shape constants are far below the limit, so the model uses unbounded integers. `timeRange` and the window bounds are taken as given.
