/** Removing expired sessions early goes unnoticed through the whole request pipeline. */
module EngineExpiry {
  import opened Config
  import opened FiveTuples
  import opened Sessions
  import opened Routing
  import opened Engines
  import opened LazyExpiry

  /** The engines differ only in sessions that the eager one lacks, all of them expired and unblocked. */
  ghost predicate EnginesLag(lazy: Engine, eager: Engine, gone: set<string>, now: Time) {
    eager == lazy.(router := eager.router) && Lags(lazy.router, eager.router, gone, now)
  }

  /** The keys still missing on the eager side after one event: a request that reaches routing closes its gap. */
  function StillGone(e: Engine, gone: set<string>, h: Timed<EngineEvent>): set<string> {
    match h.event
    case Deliver(ft, payload) => if Screen(e, ft, payload, h.now).1.None? then gone - {ToKey(ft)} else gone
    case Operate(CleanUp) => {}
    case _ => gone
  }

  function GoneOver(e: Engine, gone: set<string>, hs: seq<Timed<EngineEvent>>): set<string> {
    if hs == [] then gone
    else
      var front := hs[..|hs| - 1];
      StillGone(EngineAfter(e, front), GoneOver(e, gone, front), hs[|hs| - 1])
  }

  /** The operator names a session that only one side still has. */
  predicate NamesGone(gone: set<string>, h: Timed<EngineEvent>) {
    h.event.Operate? && TouchesGone(gone, At(h.now, Admin(h.event.op)))
  }

  ghost predicate NeverNamesGone(e: Engine, gone: set<string>, hs: seq<Timed<EngineEvent>>) {
    forall i | 0 <= i < |hs| :: !NamesGone(GoneOver(e, gone, hs[..i]), hs[i])
  }

  lemma RoutingLags(lazy: Engine, eager: Engine, gone: set<string>, ft: FiveTuple, target: int, now: Time)
    requires EnginesLag(lazy, eager, gone, now)
    ensures var (l, o) := RouteOnce(lazy, ft, target, now);
            var (e, o') := RouteOnce(eager, ft, target, now);
            o == o' && EnginesLag(l, e, gone - {ToKey(ft)}, now)
  {
    RequestLags(lazy.router, eager.router, gone, ft, target, now, now);
  }

  lemma ServingLags(lazy: Engine, eager: Engine, gone: set<string>, backend: nat, key: string,
                    status: RequestStatus, now: Time)
    requires EnginesLag(lazy, eager, gone, now) && backend < |lazy.backends|
    ensures var (l, r) := Serve(lazy, backend, key, status);
            var (e, r') := Serve(eager, backend, key, status);
            r == r' && EnginesLag(l, e, gone, now)
  {}

  lemma RetryLags(lazy: Engine, eager: Engine, gone: set<string>, ft: FiveTuple, again: Routed, now: Time)
    requires EnginesLag(lazy, eager, gone, now)
    ensures var (l, r) := Retry(lazy, ft, again);
            var (e, r') := Retry(eager, ft, again);
            r == r' && EnginesLag(l, e, gone, now)
  {
    if IsBackend(lazy, again.target) {
      ServingLags(lazy, eager, gone, again.target, ToKey(ft), again.status, now);
    }
  }

  lemma RepairLags(lazy: Engine, eager: Engine, gone: set<string>, ft: FiveTuple, dead: int, now: Time)
    requires EnginesLag(lazy, eager, gone, now)
    ensures var (l, r) := Repair(lazy, ft, dead, now);
            var (e, r') := Repair(eager, ft, dead, now);
            r == r' && EnginesLag(l, e, gone - {ToKey(ft)}, now)
  {
    LoseLags(lazy.router, eager.router, gone, dead, now, now);
    RoutingLags(lazy.(router := LoseServer(lazy.router, dead, now)),
                eager.(router := LoseServer(eager.router, dead, now)), gone, ft, dead, now);
    var (l, again) := Rerouted(lazy, ft, dead, now);
    RetryLags(l, Rerouted(eager, ft, dead, now).0, gone - {ToKey(ft)}, ft, again, now);
  }

  /** From the routed request on, for a key that is no longer missing. */
  lemma DispatchLags(lazy: Engine, eager: Engine, gone: set<string>, ft: FiveTuple, routed: Routed, now: Time)
    requires EnginesLag(lazy, eager, gone, now) && ToKey(ft) !in gone
    ensures var (l, r) := Dispatch(lazy, ft, routed, now);
            var (e, r') := Dispatch(eager, ft, routed, now);
            r == r' && EnginesLag(l, e, gone, now)
  {
    if IsBackend(lazy, routed.target) {
      ServingLags(lazy, eager, gone, routed.target, ToKey(ft), routed.status, now);
      RepairLags(lazy, eager, gone, ft, routed.target, now);
      assert gone - {ToKey(ft)} == gone;
    }
  }

  lemma RouteAndServeLags(lazy: Engine, eager: Engine, gone: set<string>, ft: FiveTuple, now: Time)
    requires EnginesLag(lazy, eager, gone, now)
    ensures var (l, r) := RouteAndServe(lazy, ft, now);
            var (e, r') := RouteAndServe(eager, ft, now);
            r == r' && EnginesLag(l, e, gone - {ToKey(ft)}, now)
  {
    RoutingLags(lazy, eager, gone, ft, -1, now);
    var (l, routed) := RouteOnce(lazy, ft, -1, now);
    DispatchLags(l, RouteOnce(eager, ft, -1, now).0, gone - {ToKey(ft)}, ft, routed, now);
  }

  /** Screening does not look at the session table. */
  lemma ScreeningLags(lazy: Engine, eager: Engine, gone: set<string>, ft: FiveTuple, payload: string, now: Time)
    requires EnginesLag(lazy, eager, gone, now)
    ensures var (l, refusal) := Screen(lazy, ft, payload, now);
            var (e, refusal') := Screen(eager, ft, payload, now);
            refusal == refusal' && EnginesLag(l, e, gone, now)
  {}

  lemma HandlingLags(lazy: Engine, eager: Engine, gone: set<string>, ft: FiveTuple, payload: string, now: Time)
    requires EnginesLag(lazy, eager, gone, now)
    ensures var (l, r) := Handle(lazy, ft, payload, now);
            var (e, r') := Handle(eager, ft, payload, now);
            r == r' && EnginesLag(l, e, StillGone(lazy, gone, At(now, Deliver(ft, payload))), now)
  {
    ScreeningLags(lazy, eager, gone, ft, payload, now);
    if Screen(lazy, ft, payload, now).1.None? {
      RouteAndServeLags(Screen(lazy, ft, payload, now).0, Screen(eager, ft, payload, now).0, gone, ft, now);
    }
  }

  lemma LagLater(lazy: Engine, eager: Engine, gone: set<string>, before: Time, now: Time)
    requires EnginesLag(lazy, eager, gone, before) && before <= now
    ensures EnginesLag(lazy, eager, gone, now)
  {}

  /** One event of the engine is answered alike on both sides. */
  lemma EngineStepLags(lazy: Engine, eager: Engine, gone: set<string>, h: Timed<EngineEvent>, before: Time)
    requires EnginesLag(lazy, eager, gone, before) && before <= h.now && !NamesGone(gone, h)
    ensures EngineStep(lazy, h).1 == EngineStep(eager, h).1
    ensures EnginesLag(EngineStep(lazy, h).0, EngineStep(eager, h).0, StillGone(lazy, gone, h), h.now)
  {
    LagLater(lazy, eager, gone, before, h.now);
    match h.event
    case Deliver(ft, payload) => HandlingLags(lazy, eager, gone, ft, payload, h.now);
    case Crashes(id) =>
    case GoesOffline(id) => LoseLags(lazy.router, eager.router, gone, id, h.now, h.now);
    case ComesOnline(id) =>
    case Operate(op) => StepLags(lazy.router, eager.router, gone, At(h.now, Admin(op)), h.now);
  }

  /** After any number of events of the run the engines still differ only in what is missing by then. */
  lemma {:induction false} EngineRunLags(
      lazy: Engine, eager: Engine, gone: set<string>, hs: seq<Timed<EngineEvent>>, start: Time, n: nat)
    requires n <= |hs|
    requires EnginesLag(lazy, eager, gone, start) && ClockFrom(start, hs) && NeverNamesGone(lazy, gone, hs)
    ensures EnginesLag(EngineAfter(lazy, hs[..n]), EngineAfter(eager, hs[..n]), GoneOver(lazy, gone, hs[..n]),
                       Latest(start, hs[..n]))
  {
    if n > 0 {
      EngineRunLags(lazy, eager, gone, hs, start, n - 1);
      assert hs[..n][..n - 1] == hs[..n - 1];
      ClockOfPrefix(start, hs, n - 1);
      EngineStepLags(EngineAfter(lazy, hs[..n - 1]), EngineAfter(eager, hs[..n - 1]),
                     GoneOver(lazy, gone, hs[..n - 1]), hs[n - 1], Latest(start, hs[..n - 1]));
    }
  }

  /**
   An extra clean-up anywhere in a run of the engine, with crashes and repairs around it, goes
   unnoticed: every later answer, the backends with their counters, the limiter and the trackers,
   and every later report of live sessions are the same, as long as what it removes is unblocked
   and no operator names a removed session before it is routed again.
   */
  lemma EngineCleanUpGoesUnnoticed(e: Engine, now: Time, hs: seq<Timed<EngineEvent>>)
    requires forall key | key in ExpiredKeys(e.router.table, now) :: !e.router.table.sessions[key].blocked
    requires ClockFrom(now, hs) && NeverNamesGone(e, ExpiredKeys(e.router.table, now), hs)
    ensures var cleaned := EngineStep(e, At(now, Operate(CleanUp))).0;
            var l, c := EngineAfter(e, hs), EngineAfter(cleaned, hs);
            && (forall i | 0 <= i < |hs| :: ResponseAt(e, hs, i) == ResponseAt(cleaned, hs, i))
            && l.backends == c.backends && l.limiter == c.limiter && l.trackers == c.trackers
            && l.router.ring == c.router.ring
            && forall later | later >= Latest(now, hs) ::
                 LiveSessions(l.router.table, later) == LiveSessions(c.router.table, later)
  {
    var gone, cleaned := ExpiredKeys(e.router.table, now), EngineStep(e, At(now, Operate(CleanUp))).0;
    forall i | 0 <= i < |hs| ensures ResponseAt(e, hs, i) == ResponseAt(cleaned, hs, i) {
      EngineRunLags(e, cleaned, gone, hs, now, i);
      ClockOfPrefix(now, hs, i);
      EngineStepLags(EngineAfter(e, hs[..i]), EngineAfter(cleaned, hs[..i]), GoneOver(e, gone, hs[..i]), hs[i],
                     Latest(now, hs[..i]));
    }
    EngineRunLags(e, cleaned, gone, hs, now, |hs|);
    assert hs[..|hs|] == hs;
    var l, c := EngineAfter(e, hs), EngineAfter(cleaned, hs);
    forall later | later >= Latest(now, hs)
      ensures LiveSessions(l.router.table, later) == LiveSessions(c.router.table, later)
    {
      LagIsInvisible(l.router, c.router, GoneOver(e, gone, hs), Latest(now, hs), later);
    }
  }
}
