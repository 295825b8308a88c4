/** Session affinity and blocking over whole runs of the router. */
module Affinity {
  import opened Config
  import opened FiveTuples
  import opened HashRing
  import opened Sessions
  import opened Routing

  predicate Requests(t: Timed<Event>, key: string) {
    t.event.Request? && ToKey(t.event.ft) == key
  }

  predicate BlockedBy(blocked: bool, t: Timed<Event>, key: string) {
    match t.event
    case Admin(SetBlocked(k, block)) => if k == key then block else blocked
    case _ => blocked
  }

  /** The blocked flag of the session after the events, judging by the admin calls alone. */
  predicate BlockedAfter(blocked: bool, ts: seq<Timed<Event>>, key: string) {
    if ts == [] then blocked else BlockedBy(BlockedAfter(blocked, ts[..|ts| - 1], key), ts[|ts| - 1], key)
  }

  /** The latest request of the session that was not blocked, or `last` when there is none. */
  function LastUse(blocked: bool, ts: seq<Timed<Event>>, key: string, last: Time): Time {
    if ts == [] then last
    else
      var front, t := ts[..|ts| - 1], ts[|ts| - 1];
      if Requests(t, key) && !BlockedAfter(blocked, front, key) then t.now else LastUse(blocked, front, key, last)
  }

  /** An event that an operator aims at this session or at its server. */
  predicate AimsAt(t: Timed<Event>, key: string, backend: int) {
    match t.event
    case Lose(s) => s == backend
    case Admin(Reassign(k)) => k == key
    case Admin(SetTimeout(k, _)) => k == key
    case _ => false
  }

  /** Nothing in the run disturbs the session, and it is never idle for longer than its timeout. */
  predicate LeftInPeace(ts: seq<Timed<Event>>, key: string, backend: int, blocked: bool, last: Time, timeout: int) {
    forall i | 0 <= i < |ts| ::
      !AimsAt(ts[i], key, backend) && ts[i].now - LastUse(blocked, ts[..i], key, last) <= timeout
  }

  ghost predicate Bound(r: Router, key: string, backend: int, blocked: bool, last: Time, timeout: int) {
    && backend in r.ring.active
    && key in r.table.sessions
    && var e := r.table.sessions[key];
       && e.backend == backend && e.blocked == blocked && e.lastAccess == last
       && Timeout(r.table.defaultTimeout, e) == timeout
  }

  lemma StepKeepsBound(r: Router, t: Timed<Event>, key: string, backend: int, blocked: bool, last: Time, timeout: int)
    requires Bound(r, key, backend, blocked, last, timeout)
    requires t.now - last <= timeout && !AimsAt(t, key, backend)
    ensures Bound(RouterStep(r, t).0, key, backend, BlockedBy(blocked, t, key),
                  if Requests(t, key) && !blocked then t.now else last, timeout)
    ensures Requests(t, key) ==>
              RouterStep(r, t).1 == Answer(if blocked then Routed(SESSION_BLOCKED, -1) else Routed(SUCCESS, backend))
  {}

  lemma {:induction false} RunKeepsBound(r: Router, ts: seq<Timed<Event>>, key: string, backend: int,
                                         blocked: bool, last: Time, timeout: int, n: nat)
    requires Bound(r, key, backend, blocked, last, timeout)
    requires LeftInPeace(ts, key, backend, blocked, last, timeout) && n <= |ts|
    ensures Bound(RouterAfter(r, ts[..n]), key, backend, BlockedAfter(blocked, ts[..n], key),
                  LastUse(blocked, ts[..n], key, last), timeout)
  {
    if n > 0 {
      RunKeepsBound(r, ts, key, backend, blocked, last, timeout, n - 1);
      assert ts[..n][..n - 1] == ts[..n - 1];
      StepKeepsBound(RouterAfter(r, ts[..n - 1]), ts[n - 1], key, backend, BlockedAfter(blocked, ts[..n - 1], key),
                     LastUse(blocked, ts[..n - 1], key, last), timeout);
    }
  }

  /**
   Whole-run affinity: while the session is left in peace, every request of it that is not
   blocked is answered with the same backend, whatever else goes on.
   */
  lemma RunKeepsAffinity(r: Router, ts: seq<Timed<Event>>, key: string, backend: int,
                         blocked: bool, last: Time, timeout: int)
    requires Bound(r, key, backend, blocked, last, timeout)
    requires LeftInPeace(ts, key, backend, blocked, last, timeout)
    ensures forall i | 0 <= i < |ts| && Requests(ts[i], key) ::
              OutcomeAt(r, ts, i) == Answer(if BlockedAfter(blocked, ts[..i], key) then Routed(SESSION_BLOCKED, -1)
                                            else Routed(SUCCESS, backend))
  {
    forall i | 0 <= i < |ts| && Requests(ts[i], key)
      ensures OutcomeAt(r, ts, i) == Answer(if BlockedAfter(blocked, ts[..i], key) then Routed(SESSION_BLOCKED, -1)
                                            else Routed(SUCCESS, backend))
    {
      RunKeepsBound(r, ts, key, backend, blocked, last, timeout, i);
      StepKeepsBound(RouterAfter(r, ts[..i]), ts[i], key, backend, BlockedAfter(blocked, ts[..i], key),
                     LastUse(blocked, ts[..i], key, last), timeout);
    }
  }

  /** Affinity from the moment a request has been routed. */
  lemma RoutedStaysPut(r: Router, ft: FiveTuple, now: Time, r': Router, routed: Routed, ts: seq<Timed<Event>>)
    requires WellFormed(r.ring)
    requires RouterStep(r, At(now, Request(ft))) == (r', Answer(routed)) && Succeeded(routed)
    requires ToKey(ft) in r'.table.sessions ==>
               LeftInPeace(ts, ToKey(ft), routed.target, false, now,
                           Timeout(r'.table.defaultTimeout, r'.table.sessions[ToKey(ft)]))
    ensures forall i | 0 <= i < |ts| && Requests(ts[i], ToKey(ft)) && !BlockedAfter(false, ts[..i], ToKey(ft)) ::
              OutcomeAt(r', ts, i) == Answer(Routed(SUCCESS, routed.target))
  {
    RoutedSits(r.table, r.ring, ft, -1, now);
    assert SitsOn(r'.table, r'.ring, ToKey(ft), routed.target, now);
    RunKeepsAffinity(r', ts, ToKey(ft), routed.target, false, now,
                     Timeout(r'.table.defaultTimeout, r'.table.sessions[ToKey(ft)]));
  }

  lemma StepKeepsBlocked(r: Router, t: Timed<Event>, key: string)
    requires key in r.table.sessions && r.table.sessions[key].blocked
    requires t.event != Admin(SetBlocked(key, false)) && t.event != Admin(CleanUp)
    ensures var r' := RouterStep(r, t).0; key in r'.table.sessions && r'.table.sessions[key].blocked
    ensures Requests(t, key) ==> RouterStep(r, t).1 == Answer(Routed(SESSION_BLOCKED, -1))
  {}

  lemma {:induction false} RunKeepsBlocked(r: Router, ts: seq<Timed<Event>>, key: string, n: nat)
    requires key in r.table.sessions && r.table.sessions[key].blocked && n <= |ts|
    requires forall i | 0 <= i < |ts| :: ts[i].event != Admin(SetBlocked(key, false)) && ts[i].event != Admin(CleanUp)
    ensures var r' := RouterAfter(r, ts[..n]); key in r'.table.sessions && r'.table.sessions[key].blocked
  {
    if n > 0 {
      RunKeepsBlocked(r, ts, key, n - 1);
      RouterPrefix(r, ts, n - 1);
      StepKeepsBlocked(RouterAfter(r, ts[..n - 1]), ts[n - 1], key);
    }
  }

  /** A blocked session is rejected, even long past its expiry, until it is unblocked or cleaned up. */
  lemma BlockedStaysRejected(r: Router, ts: seq<Timed<Event>>, key: string)
    requires key in r.table.sessions && r.table.sessions[key].blocked
    requires forall i | 0 <= i < |ts| :: ts[i].event != Admin(SetBlocked(key, false)) && ts[i].event != Admin(CleanUp)
    ensures forall i | 0 <= i < |ts| && Requests(ts[i], key) ::
              OutcomeAt(r, ts, i) == Answer(Routed(SESSION_BLOCKED, -1))
  {
    forall i | 0 <= i < |ts| && Requests(ts[i], key)
      ensures OutcomeAt(r, ts, i) == Answer(Routed(SESSION_BLOCKED, -1))
    {
      RunKeepsBlocked(r, ts, key, i);
      StepKeepsBlocked(RouterAfter(r, ts[..i]), ts[i], key);
    }
  }
}
