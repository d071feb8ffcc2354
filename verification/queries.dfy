/**
  The dialect-agnostic query record a devops shape fills in. Every field
  a shape does not write keeps the value the record arrived with.
 */
module Queries {

  /**
    The query record: aggregation, measurement and comma-joined field list,
    the time range `[timeStart, timeEnd)` and group-by duration in
    nanoseconds, ordering and limit, tag groups of host predicates, a
    `field,op,value` where clause and a `key,stride` for-every-N encoding.
   */
  datatype Query = Query(
    aggregationType: string,
    measurementName: string,
    fieldName: string,
    timeStart: int,
    timeEnd: int,
    groupByDuration: int,
    orderBy: string,
    limit: int,
    tagSets: seq<seq<string>>,
    whereClause: string,
    forEveryN: string)
}
