/** The result records of a benchmark run. Floating-point fields are reals. */
module Schema {

  /** A rate, size or time that was measured: never negative. */
  type Measure = r: real | r >= 0.0 witness 0.0

  datatype LatencyUS = LatencyUS(
    min: real, max: real, mean: real,
    p50: real, p75: real, p90: real, p95: real, p99: real, p999: real, p9999: real)

  datatype TotalStats = TotalStats(
    totalMB: real, totalRecords: int,
    writeRequestMB: real, writeRequestRecords: int, readRequestMB: real, readRequestRecords: int,
    writePendingMB: real, writePendingRecords: int, readPendingMB: real, readPendingRecords: int,
    writeTimeoutEvents: int, readTimeoutEvents: int,
    invalidLatencies: int, lowerDiscard: int, higherDiscard: int, slc1: int, slc2: int)

  /** One time bucket of one node; timestamp 0 is the zero time. */
  datatype IntervalSample = IntervalSample(
    number: int, timestamp: int, elapsedSec: real,
    iops: real, readIops: real, writeIops: real, mbps: real, readMbps: real, writeMbps: real,
    avgLatency: real, minLatency: real, maxLatency: real,
    writeTimeoutEvents: int, readTimeoutEvents: int, writeTimeoutPerSec: real, readTimeoutPerSec: real,
    percentiles: map<string, real>)

  datatype Results = Results(
    iops: real, readIops: real, writeIops: real, mbps: real, opsPerSec: real,
    latency: LatencyUS, percentiles: map<string, real>, percentileCounts: map<string, int>,
    intervals: seq<IntervalSample>, cpuPercent: real,
    totalBytesRead: int, totalBytesWritten: int, totalOperations: int, totals: TotalStats)

  const NO_LATENCY := LatencyUS(0.0, 0.0, 0.0, 0.0, 0.0, 0.0, 0.0, 0.0, 0.0, 0.0)

  const NO_TOTALS := TotalStats(0.0, 0, 0.0, 0, 0.0, 0, 0.0, 0, 0.0, 0, 0, 0, 0, 0, 0, 0, 0)

  const NO_RESULTS := Results(0.0, 0.0, 0.0, 0.0, 0.0, NO_LATENCY, map[], map[], [], 0.0, 0, 0, 0, NO_TOTALS)

  function Max(x: real, y: real): real { if x < y then y else x }
}
