/** The sliding-window rate limiter, and the full request log it stands for. */
module RateLimiting {
  import opened Config
  import opened SlidingWindow

  datatype Status = Allowed | Rejected

  datatype Limiter = Limiter(windowSec: int, maxRequests: int, queues: Store<Status>)

  function EmptyLimiter(windowSec: int, maxRequests: int): Limiter {
    Limiter(windowSec, maxRequests, map[])
  }

  function Window(l: Limiter): int {
    l.windowSec * SECOND
  }

  /** The record of one answer. */
  function Record(ok: bool, now: Time): Timed<Status> {
    At(now, if ok then Allowed else Rejected)
  }

  /** `allowRequest`: a rejected request is recorded in the same queue as an allowed one. */
  function Allowing(l: Limiter, key: string, now: Time): (Limiter, bool) {
    var q := Evict(QueueOf(l.queues, key), now, Window(l));
    var ok := |q| < l.maxRequests;
    (l.(queues := l.queues[key := q + [Record(ok, now)]]), ok)
  }

  datatype Call = Allow(key: string) | Reset

  function HandleCall(l: Limiter, c: Timed<Call>): (Limiter, bool) {
    match c.event
    case Allow(key) => Allowing(l, key, c.now)
    case Reset => (l.(queues := map[]), true)
  }

  /** The reference limiter: it keeps every request since the last reset and searches them all. */
  function HandleCallByLog(l: Limiter, c: Timed<Call>): (Limiter, bool) {
    match c.event
    case Allow(key) =>
      var ok := |Within(QueueOf(l.queues, key), c.now, Window(l))| < l.maxRequests;
      (l.(queues := l.queues[key := QueueOf(l.queues, key) + [Record(ok, c.now)]]), ok)
    case Reset => (l.(queues := map[]), true)
  }

  /** State and answers after a run of calls. */
  function RunCalls(l: Limiter, calls: seq<Timed<Call>>): (Limiter, seq<bool>) {
    if calls == [] then (l, [])
    else
      var (before, answers) := RunCalls(l, calls[..|calls| - 1]);
      var (after, answer) := HandleCall(before, calls[|calls| - 1]);
      (after, answers + [answer])
  }

  function RunCallsByLog(l: Limiter, calls: seq<Timed<Call>>): (Limiter, seq<bool>) {
    if calls == [] then (l, [])
    else
      var (before, answers) := RunCallsByLog(l, calls[..|calls| - 1]);
      var (after, answer) := HandleCallByLog(before, calls[|calls| - 1]);
      (after, answers + [answer])
  }

  ghost predicate Agree(l: Limiter, log: Limiter, last: Time) {
    l.windowSec == log.windowSec && l.maxRequests == log.maxRequests && Tracks(l.queues, log.queues, last, Window(l))
  }

  lemma AgreeAfterCall(l: Limiter, log: Limiter, c: Timed<Call>, last: Time)
    requires Agree(l, log, last) && last <= c.now
    ensures HandleCall(l, c).1 == HandleCallByLog(log, c).1
    ensures Agree(HandleCall(l, c).0, HandleCallByLog(log, c).0, c.now)
  {
    if c.event.Allow? {
      EvictFindsTheLog(l.queues, log.queues, c.event.key, last, c.now, Window(l));
      TracksAfterPush(l.queues, log.queues, c.event.key, Record(HandleCall(l, c).1, c.now), last, Window(l));
    }
  }

  lemma AgreeLater(l: Limiter, log: Limiter, last: Time, later: Time)
    requires Agree(l, log, last) && last <= later
    ensures Agree(l, log, later)
  {
    TracksLater(l.queues, log.queues, last, later, Window(l));
  }

  lemma {:induction false} CallsAgree(l: Limiter, calls: seq<Timed<Call>>, last: Time)
    requires l.queues == map[]
    requires ClockRuns(calls) && UpTo(calls, last)
    ensures RunCalls(l, calls).1 == RunCallsByLog(l, calls).1
    ensures Agree(RunCalls(l, calls).0, RunCallsByLog(l, calls).0, last)
  {
    if calls != [] {
      var front, c := calls[..|calls| - 1], calls[|calls| - 1];
      CallsAgree(l, front, c.now);
      var before, logBefore := RunCalls(l, front).0, RunCallsByLog(l, front).0;
      AgreeAfterCall(before, logBefore, c, c.now);
      AgreeLater(HandleCall(before, c).0, HandleCallByLog(logBefore, c).0, c.now, last);
    }
  }

  /** On every run the evicting limiter answers exactly as the one that never forgets a request. */
  lemma DecidesLikeTheFullLog(windowSec: int, maxRequests: int, calls: seq<Timed<Call>>)
    requires ClockRuns(calls)
    ensures var l := EmptyLimiter(windowSec, maxRequests); RunCalls(l, calls).1 == RunCallsByLog(l, calls).1
  {
    CallsAgree(EmptyLimiter(windowSec, maxRequests), calls, Latest(0, calls));
  }

  // ---------------------------------------------------------------------------------------
  // Answers and queue lengths from the earlier requests alone
  // ---------------------------------------------------------------------------------------

  /** How many requests of a key since the last reset, allowed or rejected, have an age within the window. */
  function Recent(calls: seq<Timed<Call>>, key: string, now: Time, window: int): nat {
    if calls == [] then 0
    else
      var last := calls[|calls| - 1];
      match last.event
      case Reset => 0
      case Allow(k) =>
        Recent(calls[..|calls| - 1], key, now, window) + if k == key && now - last.now <= window then 1 else 0
  }

  lemma {:induction false} LogHoldsTheRecent(l: Limiter, calls: seq<Timed<Call>>, key: string, now: Time, window: int)
    requires l.queues == map[]
    ensures |Within(QueueOf(RunCallsByLog(l, calls).0.queues, key), now, window)| == Recent(calls, key, now, window)
  {
    if calls != [] {
      var front, c := calls[..|calls| - 1], calls[|calls| - 1];
      LogHoldsTheRecent(l, front, key, now, window);
      var log := RunCallsByLog(l, front).0;
      if c.event == Allow(key) {
        WithinAppend(QueueOf(log.queues, key), Record(HandleCallByLog(log, c).1, c.now), now, window);
      }
    }
  }

  lemma EvictionLeavesTheRecent(l: Limiter, calls: seq<Timed<Call>>, key: string, now: Time)
    requires l.queues == map[] && ClockRuns(calls) && UpTo(calls, now)
    ensures var after := RunCalls(l, calls).0;
            && after.windowSec == l.windowSec && after.maxRequests == l.maxRequests
            && |Evict(QueueOf(after.queues, key), now, Window(l))| == Recent(calls, key, now, Window(l))
  {
    var after, log := RunCalls(l, calls).0, RunCallsByLog(l, calls).0;
    CallsAgree(l, calls, now);
    LogKeepsSettings(l, calls);
    EvictFindsTheLog(after.queues, log.queues, key, now, now, Window(l));
    LogHoldsTheRecent(l, calls, key, now, Window(l));
  }

  /**
   After any calls, a request is allowed exactly when fewer than the limit of requests of its key
   since the last reset, allowed or rejected, lie within the window; and exactly then the queue it
   leaves behind is within the limit.
   */
  lemma QueueBoundHoldsForTheRecent(
      windowSec: int, maxRequests: int, calls: seq<Timed<Call>>, key: string, now: Time)
    requires ClockRuns(calls) && UpTo(calls, now)
    ensures var l := EmptyLimiter(windowSec, maxRequests);
            var (after, ok) := Allowing(RunCalls(l, calls).0, key, now);
            var few := Recent(calls, key, now, Window(l)) < maxRequests;
            (ok <==> few) && (|QueueOf(after.queues, key)| <= maxRequests <==> few)
  {
    EvictionLeavesTheRecent(EmptyLimiter(windowSec, maxRequests), calls, key, now);
  }

  /** The queue of a key after the first `n` calls. */
  function QueueAfter(l: Limiter, calls: seq<Timed<Call>>, n: nat, key: string): Queue<Status>
    requires n <= |calls|
  {
    QueueOf(RunCalls(l, calls[..n]).0.queues, key)
  }

  /** Before each of its requests the key had fewer than the limit of requests within the window. */
  ghost predicate NeverTooMany(l: Limiter, calls: seq<Timed<Call>>, key: string) {
    forall i | 0 <= i < |calls| && calls[i].event == Allow(key) ::
      Recent(calls[..i], key, calls[i].now, Window(l)) < l.maxRequests
  }

  lemma QueueGrows(l: Limiter, calls: seq<Timed<Call>>, i: nat, key: string)
    requires l.queues == map[] && ClockRuns(calls) && i < |calls|
    ensures var q, q' := QueueAfter(l, calls, i, key), QueueAfter(l, calls, i + 1, key);
            if calls[i].event == Allow(key) then
              |q'| <= l.maxRequests <==> Recent(calls[..i], key, calls[i].now, Window(l)) < l.maxRequests
            else q' == q || q' == []
  {
    assert calls[..i + 1][..i] == calls[..i];
    EvictionLeavesTheRecent(l, calls[..i], key, calls[i].now);
  }

  lemma {:induction false} FewKeepTheQueueShort(l: Limiter, calls: seq<Timed<Call>>, n: nat, key: string)
    requires l.queues == map[] && l.maxRequests >= 0 && ClockRuns(calls) && n <= |calls|
    requires NeverTooMany(l, calls, key)
    ensures |QueueAfter(l, calls, n, key)| <= l.maxRequests
  {
    if n > 0 {
      FewKeepTheQueueShort(l, calls, n - 1, key);
      QueueGrows(l, calls, n - 1, key);
    }
  }

  /**
   Over a whole run the queue of a key never exceeds the limit exactly when each of its requests
   found fewer than the limit of earlier ones within the window.
   */
  lemma QueueNeverExceedsTheLimit(windowSec: int, maxRequests: nat, calls: seq<Timed<Call>>, key: string)
    requires ClockRuns(calls)
    ensures var l := EmptyLimiter(windowSec, maxRequests);
            NeverTooMany(l, calls, key)
            <==> forall n | 0 <= n <= |calls| :: |QueueAfter(l, calls, n, key)| <= maxRequests
  {
    var l := EmptyLimiter(windowSec, maxRequests);
    if NeverTooMany(l, calls, key) {
      forall n | 0 <= n <= |calls| ensures |QueueAfter(l, calls, n, key)| <= maxRequests {
        FewKeepTheQueueShort(l, calls, n, key);
      }
    } else {
      var i :| 0 <= i < |calls| && calls[i].event == Allow(key)
            && Recent(calls[..i], key, calls[i].now, Window(l)) >= maxRequests;
      QueueGrows(l, calls, i, key);
      assert |QueueAfter(l, calls, i + 1, key)| > maxRequests;
    }
  }

  /** Rejected requests pile up: a queue can grow past the limit. */
  lemma QueueCanExceedTheLimit()
    ensures var l := RunCalls(EmptyLimiter(60, 1), [At(0, Allow("k")), At(0, Allow("k")), At(0, Allow("k"))]).0;
            |QueueOf(l.queues, "k")| == 3 > l.maxRequests
  {
    var l, c := EmptyLimiter(60, 1), At(0, Allow("k"));
    assert [c, c, c][..2] == [c, c] && [c, c][..1] == [c] && [c][..0] == [];
    var l1 := HandleCall(l, c).0;
    assert RunCalls(l, [c]).0 == l1 && l1.queues["k"] == [At(0, Allowed)];
    var l2 := HandleCall(l1, c).0;
    assert RunCalls(l, [c, c]).0 == l2 && l2.queues["k"] == [At(0, Allowed), At(0, Rejected)];
  }

  // ---------------------------------------------------------------------------------------
  // The bound that the limiter is for
  // ---------------------------------------------------------------------------------------

  /** How many requests of a log were allowed during a span of time. */
  function AllowedIn(log: Queue<Status>, span: Span): nat {
    if log == [] then 0
    else
      var last := log[|log| - 1];
      AllowedIn(log[..|log| - 1], span) + if last.event == Allowed && During(last.now, span) then 1 else 0
  }

  lemma {:induction false} AllowedAreWithin(log: Queue<Status>, span: Span, now: Time, window: int)
    requires span.Closed? && now - window <= span.first
    ensures AllowedIn(log, span) <= |Within(log, now, window)|
  {
    if log != [] {
      AllowedAreWithin(log[..|log| - 1], span, now, window);
    }
  }

  /** What one more call adds to the allowed requests of a key. */
  lemma LogGrows(log: Limiter, c: Timed<Call>, key: string, span: Span)
    requires c.event.Allow?
    ensures AllowedIn(QueueOf(HandleCallByLog(log, c).0.queues, key), span)
         == AllowedIn(QueueOf(log.queues, key), span)
            + if c.event.key == key && HandleCallByLog(log, c).1 && During(c.now, span) then 1 else 0
  {
    if c.event.key == key {
      var q := QueueOf(log.queues, key);
      assert (q + [Record(HandleCallByLog(log, c).1, c.now)])[..|q|] == q;
    }
  }

  /** Of one key, at most `maxRequests` of the requests since the last reset are allowed in any closed window. */
  lemma {:induction false} NoWindowExceedsTheLimit(
      windowSec: int, maxRequests: nat, calls: seq<Timed<Call>>, key: string, lo: Time)
    requires ClockRuns(calls)
    ensures var log := RunCallsByLog(EmptyLimiter(windowSec, maxRequests), calls).0;
            AllowedIn(QueueOf(log.queues, key), Closed(lo, lo + windowSec * SECOND)) <= maxRequests
  {
    if calls != [] {
      var front, c := calls[..|calls| - 1], calls[|calls| - 1];
      NoWindowExceedsTheLimit(windowSec, maxRequests, front, key, lo);
      var l := EmptyLimiter(windowSec, maxRequests);
      LogKeepsSettings(l, front);
      var log := RunCallsByLog(l, front).0;
      var span := Closed(lo, lo + windowSec * SECOND);
      if c.event.Allow? {
        LogGrows(log, c, key, span);
        if During(c.now, span) { AllowedAreWithin(QueueOf(log.queues, key), span, c.now, Window(l)); }
      }
    }
  }

  lemma {:induction false} LogKeepsSettings(l: Limiter, calls: seq<Timed<Call>>)
    ensures RunCallsByLog(l, calls).0 == l.(queues := RunCallsByLog(l, calls).0.queues)
  {
    if calls != [] {
      LogKeepsSettings(l, calls[..|calls| - 1]);
    }
  }

  /** The limiter that all load balancers share. */
  class RateLimiter {
    const windowSec: int
    const maxRequests: int
    var clientQueues: Store<Status>

    ghost function State(): Limiter
      reads this
    {
      Limiter(windowSec, maxRequests, clientQueues)
    }

    constructor (windowSec: int, maxRequests: int)
      ensures State() == EmptyLimiter(windowSec, maxRequests)
    {
      this.windowSec := windowSec;
      this.maxRequests := maxRequests;
      clientQueues := map[];
    }

    method AllowRequest(clientKey: string, now: Time) returns (ok: bool)
      modifies this
      ensures (State(), ok) == Allowing(old(State()), clientKey, now)
    {
      var q := PopExpired(QueueOf(clientQueues, clientKey), now, windowSec * SECOND);
      if |q| >= maxRequests {
        clientQueues := clientQueues[clientKey := q + [At(now, Rejected)]];
        return false;
      }
      clientQueues := clientQueues[clientKey := q + [At(now, Allowed)]];
      return true;
    }

    method Reset()
      modifies this
      ensures State() == EmptyLimiter(windowSec, maxRequests)
    {
      clientQueues := map[];
    }
  }
}
