/**
 * The records the request middleware and the instrumentation calls push into
 * the store, reduced to the properties the point construction reads.
 */
module Records {
  import opened Wrappers
  import opened JsValues

  /** `record.location`: the client's geolocation, when one was resolved. */
  datatype Location = Location(country: Value, geohash: Value)

  /** `record.errorMessage`: the error details object of a request. */
  datatype ErrorInfo = ErrorInfo(errorMessage: Value, errorStack: Value)

  /** `record.memoryUsage`: the host memory sampled with the request. */
  datatype MemoryUsage = MemoryUsage(total: Value, used: Value)

  /**
   * One completed HTTP request. `statusCode` is the text of the status code
   * that the status-class buckets compare against.
   */
  datatype RequestRecord = RequestRecord(
    statusCode: string,
    statusMessage: Value,
    httpMethod: Value,
    path: Value,
    url: Value,
    ip: Value,
    osHost: Value,
    hostname: Value,
    location: Option<Location>,
    clientInfo: Value,
    auth: Value,
    body: Value,
    query: Value,
    params: Value,
    errorMessage: ErrorInfo,
    memoryUsage: MemoryUsage,
    cpuAverage: Value,
    responseTime: Value)

  /** A custom timing object: its own properties become the point's tags. */
  type CustomObject = map<string, Value>

  /**
   * One host performance object: either an object without own properties,
   * which the flush skips, or one carrying the host name and the sampled
   * memory and CPU load values.
   */
  datatype PerformanceSample =
    | EmptySample
    | Sample(hostname: Value, memoryTotal: Value, memoryUsed: Value, memoryFree: Value, cpuLoadSystem: Value)
}
