/**
  Instants and durations as integer nanoseconds, and the half-open time
  interval `[start, end)` that bounds a benchmark run or a query window.
 */
module Times {

  const Second: int := 1_000_000_000
  const Minute: int := 60 * Second
  const Hour: int := 60 * Minute

  datatype TimeInterval = TimeInterval(start: int, end: int) {

    /** The interval invariant: it is non-empty. */
    predicate Valid() {
      start < end
    }

    function Length(): int {
      end - start
    }

    /** `w` is a window of length `d` lying inside this interval. */
    predicate HasWindow(w: TimeInterval, d: int) {
      start <= w.start && w.end <= end && w.Length() == d
    }
  }
}
