/** The tunable constants of the engine, and its clock: instants are counted in nanoseconds. */
module Config {

  type Time = int

  const MILLISECOND := 1_000_000
  const SECOND := 1_000_000_000

  const LB_PRIMARY_PORT := 9000
  const LB_FAILOVER_THRESHOLD_MS := 3000
  const SESSION_TIMEOUT_SEC := 300
  const RATE_LIMIT_WINDOW_SEC := 60
  const RATE_LIMIT_MAX_REQUESTS := 100
  const MAX_PAYLOAD_SIZE := 1024
  const SPOOF_DETECTION_THRESHOLD := 50
  const SPOOF_DETECTION_WINDOW_SEC := 60
  const CONSISTENT_HASH_VNODES := 150

  /** Something that happens at one instant: a call, a packet, or a record of one. */
  datatype Timed<T> = At(now: Time, event: T)

  /** The clock never goes back. */
  ghost predicate ClockRuns<T>(ts: seq<Timed<T>>) {
    forall i, j | 0 <= i < j < |ts| :: ts[i].now <= ts[j].now
  }

  ghost predicate UpTo<T>(ts: seq<Timed<T>>, end: Time) {
    forall i | 0 <= i < |ts| :: ts[i].now <= end
  }

  ghost predicate ClockFrom<T>(start: Time, ts: seq<Timed<T>>) {
    ClockRuns(ts) && forall i | 0 <= i < |ts| :: start <= ts[i].now
  }

  lemma PrefixRuns<T>(ts: seq<Timed<T>>, n: nat)
    requires n <= |ts| && ClockRuns(ts)
    ensures ClockRuns(ts[..n])
  {}

  lemma ClockOfPrefix<T>(start: Time, ts: seq<Timed<T>>, n: nat)
    requires n <= |ts| && ClockFrom(start, ts)
    ensures ClockFrom(start, ts[..n]) && (n < |ts| ==> Latest(start, ts[..n]) <= ts[n].now)
  {}

  /** The instant of the last event, or the start of the run when there is none. */
  ghost function Latest<T>(start: Time, ts: seq<Timed<T>>): Time {
    if ts == [] then start else ts[|ts| - 1].now
  }

  /** All instants, or those from `first` to `last`, both included. */
  datatype Span = Always | Closed(first: Time, last: Time)

  predicate During(now: Time, span: Span) {
    span.Closed? ==> span.first <= now <= span.last
  }
}
