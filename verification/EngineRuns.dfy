/** What holds over every run of the engine, crashes included. */
module EngineRuns {
  import opened Config
  import opened FiveTuples
  import opened HashRing
  import opened Sessions
  import opened Routing
  import opened Validation
  import opened Backends
  import opened Engines

  // ---------------------------------------------------------------------------------------
  // Agreement
  // ---------------------------------------------------------------------------------------

  lemma OnlineFlagOnly(e: Engine, id: int, online: bool)
    requires Sound(e) && IsBackend(e, id) && (online ==> id in e.router.ring.active)
    ensures Sound(SetOnline(e, id, online))
  {}

  lemma TakeOfflineIsSound(e: Engine, id: int, now: Time)
    requires Sound(e)
    ensures Sound(TakeOffline(e, id, now))
  {
    if IsBackend(e, id) {
      OnlineFlagOnly(e, id, false);
      LoseKeepsAudit(e.router, id, now);
      LoseKeepsNumbered(e.router, id, now, |e.backends|);
    }
  }

  lemma BringOnlineIsSound(e: Engine, id: int)
    requires Sound(e)
    ensures Sound(BringOnline(e, id))
  {
    if IsBackend(e, id) {
      var e' := e.(router := e.router.(ring := Add(e.router.ring, id)));
      AddKeepsWellFormed(e.router.ring, id);
      AddedIsActive(e.router.ring, id);
      assert Sound(e');
      OnlineFlagOnly(e', id, true);
      assert BringOnline(e, id) == SetOnline(e', id, true);
    }
  }

  lemma OperateIsSound(e: Engine, op: AdminOp, now: Time)
    requires Sound(e)
    ensures Sound(e.(router := AdminStep(e.router, op, now).0))
  {
    StepKeepsAudit(e.router, At(now, Admin(op)));
    AdminKeepsNumbered(e.router, op, now, |e.backends|);
    AdminKeepsRing(e.router, op, now);
  }

  lemma AdminKeepsRing(r: Router, op: AdminOp, now: Time)
    ensures AdminStep(r, op, now).0.ring == r.ring
    ensures RouterStep(r, At(now, Admin(op))) == AdminStep(r, op, now)
  {}

  lemma StepKeepsSound(e: Engine, h: Timed<EngineEvent>)
    requires Sound(e)
    ensures Sound(EngineStep(e, h).0)
  {
    match h.event
    case Deliver(ft, payload) => DeliverIsSound(e, ft, payload, h.now);
    case Crashes(id) => if IsBackend(e, id) { OnlineFlagOnly(e, id, false); }
    case GoesOffline(id) => TakeOfflineIsSound(e, id, h.now);
    case ComesOnline(id) => BringOnlineIsSound(e, id);
    case Operate(op) => OperateIsSound(e, op, h.now);
  }

  lemma DeliverIsSound(e: Engine, ft: FiveTuple, payload: string, now: Time)
    requires Sound(e)
    ensures Sound(Handle(e, ft, payload, now).0)
  {
    HandleDelivers(e, ft, payload, now);
  }

  /** Ring, table, backends and counters agree after every run, whatever crashes. */
  lemma {:induction false} EveryRunIsSound(e: Engine, hs: seq<Timed<EngineEvent>>)
    requires Sound(e)
    ensures Sound(EngineAfter(e, hs))
  {
    if hs != [] {
      EveryRunIsSound(e, hs[..|hs| - 1]);
      StepKeepsSound(EngineAfter(e, hs[..|hs| - 1]), hs[|hs| - 1]);
    }
  }

  /**
   Every answer of every run is proper: no internal error, no answer from an offline backend,
   each success from the backend recorded for the session, and "no backends" only on an empty ring.
   */
  lemma EveryAnswerIsProper(e: Engine, hs: seq<Timed<EngineEvent>>, i: nat)
    requires Sound(e) && i < |hs| && hs[i].event.Deliver?
    ensures AnswerOk(EngineAfter(e, hs[..i + 1]), ToKey(hs[i].event.ft), ResponseAt(e, hs, i))
  {
    EveryRunIsSound(e, hs[..i]);
    assert hs[..i + 1][..i] == hs[..i];
    HandleDelivers(EngineAfter(e, hs[..i]), hs[i].event.ft, hs[i].event.payload, hs[i].now);
  }

  // ---------------------------------------------------------------------------------------
  // One tuple per session
  // ---------------------------------------------------------------------------------------

  /** Every session was opened by one of these tuples. */
  ghost predicate OpenedBy(tbl: Table, tuples: iset<FiveTuple>) {
    forall key | key in tbl.sessions :: tbl.sessions[key].tuple in tuples
  }

  lemma OpenedFrom(tbl': Table, tbl: Table, ft: FiveTuple, tuples: iset<FiveTuple>)
    requires OpenedBy(tbl, tuples) && TuplesFrom(tbl', tbl, ft) && ft in tuples
    ensures OpenedBy(tbl', tuples)
  {}

  lemma RouteOnceOpens(e: Engine, ft: FiveTuple, target: int, now: Time, tuples: iset<FiveTuple>)
    requires OpenedBy(e.router.table, tuples) && ft in tuples
    ensures OpenedBy(RouteOnce(e, ft, target, now).0.router.table, tuples)
  {
    RouteKeepsTuples(e.router.table, e.router.ring, ft, target, now);
    OpenedFrom(RouteOnce(e, ft, target, now).0.router.table, e.router.table, ft, tuples);
  }

  lemma DispatchOpens(e: Engine, ft: FiveTuple, routed: Routed, now: Time, tuples: iset<FiveTuple>)
    requires OpenedBy(e.router.table, tuples) && ft in tuples
    ensures OpenedBy(Dispatch(e, ft, routed, now).0.router.table, tuples)
  {
    if IsBackend(e, routed.target) { ServeAnswers(e, routed.target, ToKey(ft), routed.status); }
    OthersOpenNothing(e.router, routed.target, CleanUp, now, tuples);
    RouteOnceOpens(e.(router := LoseServer(e.router, routed.target, now)), ft, routed.target, now, tuples);
    var (mid, again) := Rerouted(e, ft, routed.target, now);
    RetryAnswers(mid, ft, again);
  }

  lemma RouteAndServeOpens(e: Engine, ft: FiveTuple, now: Time, tuples: iset<FiveTuple>)
    requires OpenedBy(e.router.table, tuples) && ft in tuples
    ensures OpenedBy(RouteAndServe(e, ft, now).0.router.table, tuples)
  {
    RouteOnceOpens(e, ft, -1, now, tuples);
    var (mid, routed) := RouteOnce(e, ft, -1, now);
    DispatchOpens(mid, ft, routed, now, tuples);
  }

  lemma HandleOpens(e: Engine, ft: FiveTuple, payload: string, now: Time, tuples: iset<FiveTuple>)
    requires OpenedBy(e.router.table, tuples) && (Screen(e, ft, payload, now).1.None? ==> ft in tuples)
    ensures OpenedBy(Handle(e, ft, payload, now).0.router.table, tuples)
  {
    ScreenKeepsTheRest(e, ft, payload, now);
    if Screen(e, ft, payload, now).1.None? {
      RouteAndServeOpens(Screen(e, ft, payload, now).0, ft, now, tuples);
    }
  }

  /** Changes other than routing open no session at all. */
  lemma OthersOpenNothing(r: Router, server: int, op: AdminOp, now: Time, tuples: iset<FiveTuple>)
    requires OpenedBy(r.table, tuples)
    ensures OpenedBy(LoseServer(r, server, now).table, tuples)
    ensures OpenedBy(AdminStep(r, op, now).0.table, tuples)
  {}

  lemma PassingTupleIsValid(e: Engine, ft: FiveTuple, payload: string, now: Time)
    requires Screen(e, ft, payload, now).1.None?
    ensures TupleVerdict(ft) == Accepted
  {}

  lemma StepOpens(e: Engine, h: Timed<EngineEvent>, tuples: iset<FiveTuple>)
    requires OpenedBy(e.router.table, tuples)
    requires forall t :: TupleVerdict(t) == Accepted ==> t in tuples
    ensures OpenedBy(EngineStep(e, h).0.router.table, tuples)
  {
    match h.event
    case Deliver(ft, payload) =>
      if Screen(e, ft, payload, h.now).1.None? { PassingTupleIsValid(e, ft, payload, h.now); }
      HandleOpens(e, ft, payload, h.now, tuples);
    case Crashes(id) =>
    case GoesOffline(id) => OthersOpenNothing(e.router, id, CleanUp, h.now, tuples);
    case ComesOnline(id) =>
    case Operate(op) => OthersOpenNothing(e.router, 0, op, h.now, tuples);
  }

  lemma {:induction false} ValidTuplesOpenAllSessions(e: Engine, hs: seq<Timed<EngineEvent>>, tuples: iset<FiveTuple>)
    requires OpenedBy(e.router.table, tuples)
    requires forall t :: TupleVerdict(t) == Accepted ==> t in tuples
    ensures OpenedBy(EngineAfter(e, hs).router.table, tuples)
  {
    if hs != [] {
      ValidTuplesOpenAllSessions(e, hs[..|hs| - 1], tuples);
      StepOpens(EngineAfter(e, hs[..|hs| - 1]), hs[|hs| - 1], tuples);
    }
  }

  /** From the start on, only tuples that pass validation ever have sessions. */
  lemma OnlyValidTuplesHaveSessions(n: nat, hs: seq<Timed<EngineEvent>>, key: string)
    requires key in EngineAfter(StartOf(n), hs).router.table.sessions
    ensures TupleVerdict(EngineAfter(StartOf(n), hs).router.table.sessions[key].tuple) == Accepted
  {
    ValidTuplesOpenAllSessions(StartOf(n), hs, iset t: FiveTuple | TupleVerdict(t) == Accepted);
  }

  /**
   In every run from a sound state, a request that reaches routing finds under its key only a
   session that was opened by the very same tuple: no two clients ever share a session.
   */
  lemma SessionsAreNeverShared(e: Engine, hs: seq<Timed<EngineEvent>>, ft: FiveTuple, payload: string, now: Time)
    requires Sound(e)
    requires var after := EngineAfter(e, hs);
             Screen(after, ft, payload, now).1.None? && ToKey(ft) in after.router.table.sessions
    ensures EngineAfter(e, hs).router.table.sessions[ToKey(ft)].tuple == ft
  {
    EveryRunIsSound(e, hs);
    PassingTupleIsValid(EngineAfter(e, hs), ft, payload, now);
    ValidTuplesHaveOwnKeys(EngineAfter(e, hs).router.table.sessions[ToKey(ft)].tuple, ft);
  }

  // ---------------------------------------------------------------------------------------
  // Repair makes progress
  // ---------------------------------------------------------------------------------------

  /** A request that is not turned away succeeds, or finds the ring empty, or takes a dead server off the ring. */
  lemma RequestMakesProgress(e: Engine, ft: FiveTuple, payload: string, now: Time)
    requires Sound(e)
    ensures var (e', r) := Handle(e, ft, payload, now);
            || r.SecurityRejected? || r.RateLimited? || r.SessionIsBlocked?
            || r.Success? || e'.router.ring.slots == map[] || Dead(e') < Dead(e)
  {
    HandleDelivers(e, ft, payload, now);
  }

  function Crashed(hs: seq<Timed<EngineEvent>>): nat {
    if hs == [] then 0 else Crashed(hs[..|hs| - 1]) + if hs[|hs| - 1].event.Crashes? then 1 else 0
  }

  /** How many requests of a run hit two dead servers in a row. */
  function FailedFailovers(e: Engine, hs: seq<Timed<EngineEvent>>): nat {
    if hs == [] then 0
    else
      var front := hs[..|hs| - 1];
      FailedFailovers(e, front)
      + if EngineStep(EngineAfter(e, front), hs[|hs| - 1]).1.FailoverTargetDown? then 1 else 0
  }

  lemma OfflineLeavesFewerDead(e: Engine, id: int, now: Time)
    requires Sound(e) && IsBackend(e, id)
    ensures Dead(TakeOffline(e, id, now)) <= Dead(e)
  {
    RemoveKeepsWellFormed(e.router.ring, id);
  }

  lemma OnlineLeavesFewerDead(e: Engine, id: int)
    requires IsBackend(e, id)
    ensures Dead(BringOnline(e, id)) <= Dead(e)
  {
    AddedIsActive(e.router.ring, id);
  }

  lemma CrashAddsOneDead(e: Engine, id: int)
    ensures |Dead(Crash(e, id))| <= |Dead(e)| + 1
  {
    FewerElements(Dead(Crash(e, id)), Dead(e) + {id});
  }

  lemma StepKeepsBudget(e: Engine, h: Timed<EngineEvent>)
    requires Sound(e)
    ensures var (e', r) := EngineStep(e, h);
            |Dead(e')| + (if r.FailoverTargetDown? then 1 else 0) <= |Dead(e)| + if h.event.Crashes? then 1 else 0
  {
    match h.event
    case Deliver(ft, payload) =>
      HandleDelivers(e, ft, payload, h.now);
      FewerElements(Dead(Handle(e, ft, payload, h.now).0), Dead(e));
    case Crashes(id) => CrashAddsOneDead(e, id);
    case GoesOffline(id) =>
      if IsBackend(e, id) {
        OfflineLeavesFewerDead(e, id, h.now);
        FewerElements(Dead(TakeOffline(e, id, h.now)), Dead(e));
      }
    case ComesOnline(id) =>
      if IsBackend(e, id) {
        OnlineLeavesFewerDead(e, id);
        FewerElements(Dead(BringOnline(e, id)), Dead(e));
      }
    case Operate(op) => AdminKeepsRing(e.router, op, h.now);
  }

  /** In every run, failed failovers are paid for by crashes: at most one each, besides the servers already dead. */
  lemma {:induction false} CrashesPayForFailures(e: Engine, hs: seq<Timed<EngineEvent>>)
    requires Sound(e)
    ensures FailedFailovers(e, hs) + |Dead(EngineAfter(e, hs))| <= |Dead(e)| + Crashed(hs)
  {
    if hs != [] {
      var front := hs[..|hs| - 1];
      CrashesPayForFailures(e, front);
      EveryRunIsSound(e, front);
      StepKeepsBudget(EngineAfter(e, front), hs[|hs| - 1]);
    }
  }

  lemma NobodyStartsDead(n: nat)
    ensures Dead(StartOf(n)) == {}
  {}

  /** From the start, a run with some number of crashes has at most that many failed failovers. */
  lemma CrashesPayFromTheStart(n: nat, hs: seq<Timed<EngineEvent>>)
    ensures FailedFailovers(StartOf(n), hs) <= Crashed(hs)
  {
    StartIsSound(n);
    NobodyStartsDead(n);
    CrashesPayForFailures(StartOf(n), hs);
  }

  // ---------------------------------------------------------------------------------------
  // Conservation
  // ---------------------------------------------------------------------------------------

  predicate Delivers(h: Timed<EngineEvent>, key: string) {
    h.event.Deliver? && ToKey(h.event.ft) == key
  }

  /** How many requests of a key succeeded during a span of time. */
  function Successes(e: Engine, hs: seq<Timed<EngineEvent>>, key: string, span: Span): nat {
    if hs == [] then 0
    else
      var front, last := hs[..|hs| - 1], hs[|hs| - 1];
      Successes(e, front, key, span)
      + if Delivers(last, key) && During(last.now, span) && EngineStep(EngineAfter(e, front), last).1.Success?
        then 1 else 0
  }

  lemma FlagsKeepCounts(e: Engine, id: int, online: bool, key: string)
    requires IsBackend(e, id)
    ensures Served(SetOnline(e, id, online).backends, key) == Served(e.backends, key)
  {
    ServedAfterUpdate(e.backends, id, e.backends[id].(online := online), key);
  }

  lemma DeliveryConserves(e: Engine, ft: FiveTuple, payload: string, now: Time, key: string)
    requires Sound(e)
    ensures var (e', r) := Handle(e, ft, payload, now);
            Served(e'.backends, key) == Served(e.backends, key) + if ToKey(ft) == key && r.Success? then 1 else 0
  {
    HandleDelivers(e, ft, payload, now);
  }

  lemma StepConserves(e: Engine, h: Timed<EngineEvent>, key: string)
    requires Sound(e)
    ensures Served(EngineStep(e, h).0.backends, key)
         == Served(e.backends, key) + if Delivers(h, key) && EngineStep(e, h).1.Success? then 1 else 0
  {
    match h.event
    case Deliver(ft, payload) => DeliveryConserves(e, ft, payload, h.now, key);
    case Crashes(id) => if IsBackend(e, id) { FlagsKeepCounts(e, id, false, key); }
    case GoesOffline(id) => if IsBackend(e, id) { FlagsKeepCounts(e, id, false, key); }
    case ComesOnline(id) => if IsBackend(e, id) { FlagsKeepCounts(e, id, true, key); }
    case Operate(_) =>
  }

  /** The successes a client saw are exactly the requests that all backends together counted for it. */
  lemma {:induction false} SuccessesAreCounted(e: Engine, hs: seq<Timed<EngineEvent>>, key: string)
    requires Sound(e)
    ensures Served(EngineAfter(e, hs).backends, key) == Served(e.backends, key) + Successes(e, hs, key, Always)
  {
    if hs != [] {
      var front := hs[..|hs| - 1];
      SuccessesAreCounted(e, front, key);
      EveryRunIsSound(e, front);
      StepConserves(EngineAfter(e, front), hs[|hs| - 1], key);
    }
  }
}
