/** What a session's timeout means over whole runs: how long silence may last, and what resets it. */
module Timeouts {
  import opened Config
  import opened FiveTuples
  import opened HashRing
  import opened Sessions
  import opened Routing
  import opened Affinity

  // ---------------------------------------------------------------------------------------
  // Silence
  // ---------------------------------------------------------------------------------------

  /** The event does not concern the session: no request of it, no operator on it, no loss of its server. */
  predicate PassesBy(t: Timed<Event>, key: string, backend: int) {
    && !Requests(t, key) && !AimsAt(t, key, backend)
    && match t.event
       case Admin(SetBlocked(k, _)) => k != key
       case _ => true
  }

  /** Its server is active, and the session is as it was when last used, unless it was cleaned up. */
  ghost predicate Dormant(r: Router, key: string, backend: int, last: Time, timeout: int) {
    backend in r.ring.active && (key in r.table.sessions ==> Bound(r, key, backend, false, last, timeout))
  }

  lemma StepKeepsDormant(r: Router, t: Timed<Event>, key: string, backend: int, last: Time, timeout: int)
    requires Dormant(r, key, backend, last, timeout) && PassesBy(t, key, backend)
    ensures Dormant(RouterStep(r, t).0, key, backend, last, timeout)
    ensures key in r.table.sessions && t.now - last <= timeout ==> key in RouterStep(r, t).0.table.sessions
  {}

  lemma {:induction false} RunKeepsDormant(
      r: Router, ts: seq<Timed<Event>>, key: string, backend: int, last: Time, timeout: int)
    requires Dormant(r, key, backend, last, timeout)
    requires forall i | 0 <= i < |ts| :: PassesBy(ts[i], key, backend)
    ensures Dormant(RouterAfter(r, ts), key, backend, last, timeout)
    ensures key in r.table.sessions && UpTo(ts, last + timeout) ==> key in RouterAfter(r, ts).table.sessions
  {
    if ts != [] {
      var front := ts[..|ts| - 1];
      RunKeepsDormant(r, front, key, backend, last, timeout);
      StepKeepsDormant(RouterAfter(r, front), ts[|ts| - 1], key, backend, last, timeout);
    }
  }

  /** The request is answered as the first one of its key: routed by hash, with a new session and a new trail. */
  ghost predicate OpensAnew(r: Router, ft: FiveTuple, now: Time) {
    var (table, routed) := Route(r.table, r.ring, ft, -1, now);
    var hashed := Lookup(r.ring, ToKey(ft));
    if hashed < 0 then routed == Routed(SERVER_DOWN, -1) && ToKey(ft) !in table.sessions
    else
      && routed == Routed(SUCCESS, hashed)
      && ToKey(ft) in table.sessions && IsNew(table.sessions[ToKey(ft)], ft, hashed, now)
  }

  /**
   How long silence may last: whatever passes by, clean-ups included, the next request of the
   session is answered by its backend if it comes within the timeout, and as a new one after that.
   */
  lemma SilenceDecides(r: Router, ts: seq<Timed<Event>>, ft: FiveTuple, backend: int, last: Time, timeout: int,
                       later: Time)
    requires Bound(r, ToKey(ft), backend, false, last, timeout)
    requires UpTo(ts, later) && forall i | 0 <= i < |ts| :: PassesBy(ts[i], ToKey(ft), backend)
    ensures var r' := RouterAfter(r, ts);
            if later - last <= timeout then Route(r'.table, r'.ring, ft, -1, later).1 == Routed(SUCCESS, backend)
            else OpensAnew(r', ft, later)
  {
    RunKeepsDormant(r, ts, ToKey(ft), backend, last, timeout);
  }

  /** Where no session is in the way, a request opens one that has the default timeout. */
  lemma NewSessionIsBound(r: Router, ft: FiveTuple, now: Time)
    requires ActiveAreNumbered(r.ring) && r.ring.slots != map[]
    requires ToKey(ft) !in r.table.sessions || IsErased(r.table, ToKey(ft), now)
    ensures var (r', o) := RouterStep(r, At(now, Request(ft)));
            var backend := Lookup(r.ring, ToKey(ft));
            && o == Answer(Routed(SUCCESS, backend))
            && r'.table.sessions.Keys == r.table.sessions.Keys + {ToKey(ft)}
            && Bound(r', ToKey(ft), backend, false, now, r.table.defaultTimeout * SECOND)
  {
    LookupIsActive(r.ring, ToKey(ft));
  }

  /** A session opened, or opened anew, survives a silence of exactly the default timeout. */
  lemma NewSessionLife(r: Router, ft: FiveTuple, now: Time, ts: seq<Timed<Event>>, later: Time)
    requires ActiveAreNumbered(r.ring) && r.ring.slots != map[]
    requires ToKey(ft) !in r.table.sessions || IsErased(r.table, ToKey(ft), now)
    requires UpTo(ts, later) && forall i | 0 <= i < |ts| :: PassesBy(ts[i], ToKey(ft), Lookup(r.ring, ToKey(ft)))
    ensures var r' := RouterAfter(RouterStep(r, At(now, Request(ft))).0, ts);
            if later - now <= r.table.defaultTimeout * SECOND
            then Route(r'.table, r'.ring, ft, -1, later).1 == Routed(SUCCESS, Lookup(r.ring, ToKey(ft)))
            else OpensAnew(r', ft, later)
  {
    NewSessionIsBound(r, ft, now);
    SilenceDecides(RouterStep(r, At(now, Request(ft))).0, ts, ft, Lookup(r.ring, ToKey(ft)), now,
                   r.table.defaultTimeout * SECOND, later);
  }

  /** Setting a timeout of some seconds, none included, lets the session survive a silence of exactly that long. */
  lemma CustomTimeoutDecides(r: Router, ft: FiveTuple, backend: int, last: Time, timeout: int, secs: nat, now: Time,
                             ts: seq<Timed<Event>>, later: Time)
    requires Bound(r, ToKey(ft), backend, false, last, timeout)
    requires UpTo(ts, later) && forall i | 0 <= i < |ts| :: PassesBy(ts[i], ToKey(ft), backend)
    ensures var r' := RouterAfter(RouterStep(r, At(now, Admin(SetTimeout(ToKey(ft), secs)))).0, ts);
            if later - last <= secs * 1_000_000_000
            then Route(r'.table, r'.ring, ft, -1, later).1 == Routed(SUCCESS, backend)
            else OpensAnew(r', ft, later)
  {
    OperatorIsAnswered(r, SetTimeout(ToKey(ft), secs), now);
    SilenceDecides(RouterStep(r, At(now, Admin(SetTimeout(ToKey(ft), secs)))).0, ts, ft, backend, last, secs * SECOND,
                   later);
  }

  /** A session moved off a lost server survives a silence of exactly its timeout, counted from the loss. */
  lemma RedistributedLife(r: Router, ft: FiveTuple, server: int, now: Time, ts: seq<Timed<Event>>, later: Time)
    requires ActiveAreNumbered(r.ring) && Remove(r.ring, server).slots != map[]
    requires ToKey(ft) in r.table.sessions
    requires var e := r.table.sessions[ToKey(ft)];
             e.backend == server && !e.blocked && !Expired(r.table.defaultTimeout, e, now)
    requires UpTo(ts, later)
    requires forall i | 0 <= i < |ts| :: PassesBy(ts[i], ToKey(ft), Lookup(Remove(r.ring, server), ToKey(ft)))
    ensures var r' := RouterAfter(LoseServer(r, server, now), ts);
            var e := r.table.sessions[ToKey(ft)];
            if later - now <= Timeout(r.table.defaultTimeout, e)
            then Route(r'.table, r'.ring, ft, -1, later).1
              == Routed(SUCCESS, Lookup(Remove(r.ring, server), ToKey(ft)))
            else OpensAnew(r', ft, later)
  {
    LosingMovesExactlyItsSessions(r, server, now, ToKey(ft));
    SilenceDecides(LoseServer(r, server, now), ts, ft, Lookup(Remove(r.ring, server), ToKey(ft)), now,
                   Timeout(r.table.defaultTimeout, r.table.sessions[ToKey(ft)]), later);
  }

  /** A session moved by hand sits on its new backend as if just used. */
  lemma ReassignedIsBound(r: Router, key: string, now: Time)
    requires WellFormed(r.ring) && key in r.table.sessions && !r.table.sessions[key].blocked
    requires RouterStep(r, At(now, Admin(Reassign(key)))).1 == Flag(true)
    ensures var moved := RouterStep(r, At(now, Admin(Reassign(key)))).0;
            && key in moved.table.sessions
            && Bound(moved, key, moved.table.sessions[key].backend, false, now,
                     Timeout(r.table.defaultTimeout, r.table.sessions[key]))
  {
    ReassignLands(r, key, now);
  }

  /** A session reassigned by hand survives a silence of its timeout too, counted from the reassignment. */
  lemma ReassignedLife(r: Router, ft: FiveTuple, now: Time, moved: Router, backend: int, ts: seq<Timed<Event>>,
                       later: Time)
    requires WellFormed(r.ring) && ToKey(ft) in r.table.sessions && !r.table.sessions[ToKey(ft)].blocked
    requires RouterStep(r, At(now, Admin(Reassign(ToKey(ft))))) == (moved, Flag(true))
    requires ToKey(ft) in moved.table.sessions ==> moved.table.sessions[ToKey(ft)].backend == backend
    requires UpTo(ts, later) && forall i | 0 <= i < |ts| :: PassesBy(ts[i], ToKey(ft), backend)
    ensures var r' := RouterAfter(moved, ts);
            if later - now <= Timeout(r.table.defaultTimeout, r.table.sessions[ToKey(ft)])
            then Route(r'.table, r'.ring, ft, -1, later).1 == Routed(SUCCESS, backend)
            else OpensAnew(r', ft, later)
  {
    ReassignedIsBound(r, ToKey(ft), now);
    SilenceDecides(moved, ts, ft, backend, now, Timeout(r.table.defaultTimeout, r.table.sessions[ToKey(ft)]), later);
  }

  // ---------------------------------------------------------------------------------------
  // Negative timeouts
  // ---------------------------------------------------------------------------------------

  /** The same but for custom timeouts that are both negative. */
  predicate AlikeSessions(e: Session, f: Session) {
    && e == f.(customTimeout := e.customTimeout)
    && (e.customTimeout == f.customTimeout || (e.customTimeout < 0 && f.customTimeout < 0))
  }

  ghost predicate Alike(r: Router, s: Router) {
    && r.ring == s.ring && r.table.defaultTimeout == s.table.defaultTimeout
    && r.table.sessions.Keys == s.table.sessions.Keys
    && forall key | key in r.table.sessions :: AlikeSessions(r.table.sessions[key], s.table.sessions[key])
  }

  lemma AlikeRoutes(r: Router, s: Router, ft: FiveTuple, now: Time)
    requires Alike(r, s)
    ensures var (t, o) := Route(r.table, r.ring, ft, -1, now);
            var (t', o') := Route(s.table, s.ring, ft, -1, now);
            o == o' && Alike(r.(table := t), s.(table := t'))
  {}

  lemma AlikeExpiry(r: Router, s: Router, now: Time)
    requires Alike(r, s)
    ensures ExpiredKeys(r.table, now) == ExpiredKeys(s.table, now)
    ensures LiveSessions(r.table, now) == LiveSessions(s.table, now)
  {
    assert LiveKeys(r.table, now) == LiveKeys(s.table, now);
  }

  lemma AlikeLosses(r: Router, s: Router, server: int, now: Time)
    requires Alike(r, s)
    ensures Alike(LoseServer(r, server, now), LoseServer(s, server, now))
  {}

  lemma AlikeOperations(r: Router, s: Router, op: AdminOp, now: Time)
    requires Alike(r, s)
    ensures AdminStep(r, op, now).1 == AdminStep(s, op, now).1
    ensures Alike(AdminStep(r, op, now).0, AdminStep(s, op, now).0)
  {
    AlikeExpiry(r, s, now);
  }

  lemma AlikeSteps(r: Router, s: Router, t: Timed<Event>)
    requires Alike(r, s)
    ensures RouterStep(r, t).1 == RouterStep(s, t).1 && Alike(RouterStep(r, t).0, RouterStep(s, t).0)
  {
    match t.event
    case Request(ft) => AlikeRoutes(r, s, ft, t.now);
    case Gain(_) =>
    case Lose(lost) => AlikeLosses(r, s, lost, t.now);
    case Admin(op) => AlikeOperations(r, s, op, t.now);
  }

  lemma {:induction false} AlikeRuns(r: Router, s: Router, ts: seq<Timed<Event>>)
    requires Alike(r, s)
    ensures Alike(RouterAfter(r, ts), RouterAfter(s, ts))
  {
    if ts != [] {
      var front := ts[..|ts| - 1];
      AlikeRuns(r, s, front);
      AlikeSteps(RouterAfter(r, front), RouterAfter(s, front), ts[|ts| - 1]);
    }
  }

  /** Every negative timeout resets the session as -1 does: no later answer or report tells them apart. */
  lemma AnyNegativeTimeoutResets(r: Router, key: string, timeoutSec: int, now: Time, ts: seq<Timed<Event>>)
    requires timeoutSec < 0
    ensures var (a, o) := RouterStep(r, At(now, Admin(SetTimeout(key, timeoutSec))));
            var (b, o') := RouterStep(r, At(now, Admin(SetTimeout(key, -1))));
            && o == o' && (forall i | 0 <= i < |ts| :: OutcomeAt(a, ts, i) == OutcomeAt(b, ts, i))
            && (forall later ::
                  LiveSessions(RouterAfter(a, ts).table, later) == LiveSessions(RouterAfter(b, ts).table, later))
            && (key in a.table.sessions ==>
                  Timeout(a.table.defaultTimeout, a.table.sessions[key]) == a.table.defaultTimeout * SECOND)
  {
    var a := RouterStep(r, At(now, Admin(SetTimeout(key, timeoutSec)))).0;
    var b := RouterStep(r, At(now, Admin(SetTimeout(key, -1)))).0;
    forall i | 0 <= i < |ts| ensures OutcomeAt(a, ts, i) == OutcomeAt(b, ts, i) {
      AlikeRuns(a, b, ts[..i]);
      AlikeSteps(RouterAfter(a, ts[..i]), RouterAfter(b, ts[..i]), ts[i]);
    }
    AlikeRuns(a, b, ts);
    forall later
      ensures LiveSessions(RouterAfter(a, ts).table, later) == LiveSessions(RouterAfter(b, ts).table, later)
    {
      AlikeExpiry(RouterAfter(a, ts), RouterAfter(b, ts), later);
    }
  }
}
