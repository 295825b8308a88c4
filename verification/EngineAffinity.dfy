/** Session affinity, and the absence of stranded sessions, through the whole request pipeline. */
module EngineAffinity {
  import opened Config
  import opened FiveTuples
  import opened HashRing
  import opened Sessions
  import opened Routing
  import opened RateLimiting
  import opened Backends
  import opened Engines
  import opened EngineRuns

  // ---------------------------------------------------------------------------------------
  // Affinity
  // ---------------------------------------------------------------------------------------

  /** The backend of the session stops, or an operator moves or retimes the session. */
  predicate Disturbs(h: Timed<EngineEvent>, key: string, backend: int) {
    match h.event
    case Crashes(id) => id == backend
    case GoesOffline(id) => id == backend
    case Operate(Reassign(k)) => k == key
    case Operate(SetTimeout(k, _)) => k == key
    case _ => false
  }

  /** When the session last got a success in a run, or `start` if it did not. */
  function LastSuccess(e: Engine, hs: seq<Timed<EngineEvent>>, key: string, start: Time): Time {
    if hs == [] then start
    else
      var front, last := hs[..|hs| - 1], hs[|hs| - 1];
      if Delivers(last, key) && EngineStep(EngineAfter(e, front), last).1.Success? then last.now
      else LastSuccess(e, front, key, start)
  }

  /** The session sits on a running backend and was last used at `last`. */
  ghost predicate AtHome(e: Engine, key: string, backend: int, last: Time, timeout: int) {
    && Sound(e) && IsBackend(e, backend) && e.backends[backend].online
    && key in e.router.table.sessions
    && var s := e.router.table.sessions[key];
       s.backend == backend && s.lastAccess == last && Timeout(e.router.table.defaultTimeout, s) == timeout
  }

  /** What a request of a session at home may be answered. */
  predicate HomeAnswer(r: Response, backend: int) {
    || r.SecurityRejected? || r.RateLimited? || r.SessionIsBlocked?
    || (r.Success? && r.backend == backend && !r.reassigned)
  }

  /** A routed request to an online backend is served there. */
  lemma OnlineIsServed(e: Engine, ft: FiveTuple, routed: Routed, now: Time)
    requires Succeeded(routed) && IsBackend(e, routed.target) && e.backends[routed.target].online
    ensures Dispatch(e, ft, routed, now) == Serve(e, routed.target, ToKey(ft), routed.status)
  {}

  lemma StickyRoute(r: Router, ft: FiveTuple, target: int, now: Time)
    requires ToKey(ft) in r.table.sessions && r.table.sessions[ToKey(ft)].backend in r.ring.active
    requires now - r.table.sessions[ToKey(ft)].lastAccess
          <= Timeout(r.table.defaultTimeout, r.table.sessions[ToKey(ft)])
    ensures var e := r.table.sessions[ToKey(ft)];
            var touched := r.table.(sessions := r.table.sessions[ToKey(ft) := e.(lastAccess := now)]);
            Route(r.table, r.ring, ft, target, now)
            == if e.blocked then (r.table, Routed(SESSION_BLOCKED, target)) else (touched, Routed(SUCCESS, e.backend))
  {}

  lemma RouteAtHome(e: Engine, ft: FiveTuple, backend: int, last: Time, timeout: int, now: Time)
    requires AtHome(e, ToKey(ft), backend, last, timeout) && now - last <= timeout
    ensures var (e', r) := RouteAndServe(e, ft, now);
            HomeAnswer(r, backend) && AtHome(e', ToKey(ft), backend, if r.Success? then now else last, timeout)
  {
    var (mid, routed) := RouteOnce(e, ft, -1, now);
    StickyRoute(e.router, ft, -1, now);
    RoutedIsSound(e, ft, -1, now);
    if routed.status == SUCCESS {
      OnlineIsServed(mid, ft, routed, now);
      ServeAnswers(mid, backend, ToKey(ft), SUCCESS);
      ServeCounts(mid, backend, ToKey(ft), SUCCESS);
    }
  }

  /** The session is the same in both engines. */
  ghost predicate LeftAlone(e: Engine, e': Engine, key: string) {
    && key in e.router.table.sessions && key in e'.router.table.sessions
    && e'.router.table.sessions[key] == e.router.table.sessions[key]
    && e'.router.table.defaultTimeout == e.router.table.defaultTimeout
  }

  lemma RouteElsewhere(e: Engine, ft: FiveTuple, target: int, now: Time, key: string)
    requires key in e.router.table.sessions && ToKey(ft) != key
    ensures LeftAlone(e, RouteOnce(e, ft, target, now).0, key)
  {
    RouteTouchesOneSession(e.router.table, e.router.ring, ft, target, now);
  }

  lemma RepairLeavesOthersAlone(e: Engine, ft: FiveTuple, dead: int, now: Time, key: string)
    requires key in e.router.table.sessions && ToKey(ft) != key && e.router.table.sessions[key].backend != dead
    ensures LeftAlone(e, Repair(e, ft, dead, now).0, key)
  {
    var lost := e.(router := LoseServer(e.router, dead, now));
    assert LeftAlone(e, lost, key);
    RouteElsewhere(lost, ft, dead, now, key);
    var (mid, again) := Rerouted(e, ft, dead, now);
    RetryAnswers(mid, ft, again);
  }

  lemma DispatchLeavesOthersAlone(e: Engine, ft: FiveTuple, routed: Routed, now: Time, key: string)
    requires key in e.router.table.sessions && ToKey(ft) != key
    requires IsBackend(e, e.router.table.sessions[key].backend)
    requires e.backends[e.router.table.sessions[key].backend].online
    ensures LeftAlone(e, Dispatch(e, ft, routed, now).0, key)
  {
    if IsBackend(e, routed.target) {
      ServeAnswers(e, routed.target, ToKey(ft), routed.status);
      if !e.backends[routed.target].online { RepairLeavesOthersAlone(e, ft, routed.target, now, key); }
    }
  }

  /** A request of another session, with whatever repair it sets off, leaves this one at home. */
  lemma OthersLeaveHomeAlone(e: Engine, ft: FiveTuple, now: Time, key: string, backend: int, last: Time, timeout: int)
    requires AtHome(e, key, backend, last, timeout) && ToKey(ft) != key
    ensures AtHome(RouteAndServe(e, ft, now).0, key, backend, last, timeout)
  {
    RouteAndServeDelivers(e, ft, now);
    RouteElsewhere(e, ft, -1, now, key);
    var (mid, routed) := RouteOnce(e, ft, -1, now);
    DispatchLeavesOthersAlone(mid, ft, routed, now, key);
  }

  lemma DeliverAtHome(e: Engine, h: Timed<EngineEvent>, key: string, backend: int, last: Time, timeout: int)
    requires AtHome(e, key, backend, last, timeout) && h.event.Deliver? && h.now - last <= timeout
    ensures var (e', r) := EngineStep(e, h);
            && (Delivers(h, key) ==> HomeAnswer(r, backend))
            && AtHome(e', key, backend, if Delivers(h, key) && r.Success? then h.now else last, timeout)
  {
    var ft := h.event.ft;
    ScreenKeepsTheRest(e, ft, h.event.payload, h.now);
    var (mid, refusal) := Screen(e, ft, h.event.payload, h.now);
    assert AtHome(mid, key, backend, last, timeout);
    if refusal.None? {
      if ToKey(ft) == key {
        RouteAtHome(mid, ft, backend, last, timeout, h.now);
      } else {
        OthersLeaveHomeAlone(mid, ft, h.now, key, backend, last, timeout);
      }
    }
  }

  lemma AdminAtHome(r: Router, op: AdminOp, now: Time, key: string, last: Time, timeout: int)
    requires key in r.table.sessions && now - last <= timeout
    requires r.table.sessions[key].lastAccess == last
    requires Timeout(r.table.defaultTimeout, r.table.sessions[key]) == timeout
    requires op != Reassign(key) && !(op.SetTimeout? && op.key == key)
    ensures var r' := AdminStep(r, op, now).0;
            && r'.ring == r.ring && r'.table.defaultTimeout == r.table.defaultTimeout && key in r'.table.sessions
            && r'.table.sessions[key] == r.table.sessions[key].(blocked := r'.table.sessions[key].blocked)
  {}

  lemma OperateAtHome(e: Engine, op: AdminOp, now: Time, key: string, backend: int, last: Time, timeout: int)
    requires AtHome(e, key, backend, last, timeout) && now - last <= timeout
    requires op != Reassign(key) && !(op.SetTimeout? && op.key == key)
    ensures AtHome(EngineStep(e, At(now, Operate(op))).0, key, backend, last, timeout)
  {
    AdminAtHome(e.router, op, now, key, last, timeout);
    StepKeepsSound(e, At(now, Operate(op)));
  }

  lemma FleetAtHome(e: Engine, h: Timed<EngineEvent>, key: string, backend: int, last: Time, timeout: int)
    requires AtHome(e, key, backend, last, timeout) && !Disturbs(h, key, backend)
    requires h.event.Crashes? || h.event.GoesOffline? || h.event.ComesOnline?
    ensures AtHome(EngineStep(e, h).0, key, backend, last, timeout)
  {
    StepKeepsSound(e, h);
    if h.event.GoesOffline? && IsBackend(e, h.event.id) {
      assert LoseServer(e.router, h.event.id, h.now).table.sessions[key] == e.router.table.sessions[key];
    }
  }

  lemma StepAtHome(e: Engine, h: Timed<EngineEvent>, key: string, backend: int, last: Time, timeout: int)
    requires AtHome(e, key, backend, last, timeout)
    requires h.now - last <= timeout && !Disturbs(h, key, backend)
    ensures var (e', r) := EngineStep(e, h);
            && (Delivers(h, key) ==> HomeAnswer(r, backend))
            && AtHome(e', key, backend, if Delivers(h, key) && r.Success? then h.now else last, timeout)
  {
    if h.event.Deliver? {
      DeliverAtHome(e, h, key, backend, last, timeout);
    } else if h.event.Operate? {
      OperateAtHome(e, h.event.op, h.now, key, backend, last, timeout);
    } else {
      FleetAtHome(e, h, key, backend, last, timeout);
    }
  }

  /** Nothing in the run disturbs the session, and it is never idle beyond its timeout. */
  ghost predicate InPeace(e: Engine, hs: seq<Timed<EngineEvent>>, key: string, backend: int, start: Time,
                          timeout: int)
  {
    forall i | 0 <= i < |hs| ::
      !Disturbs(hs[i], key, backend) && hs[i].now - LastSuccess(e, hs[..i], key, start) <= timeout
  }

  lemma PeaceOfPrefix(e: Engine, hs: seq<Timed<EngineEvent>>, n: nat, key: string, backend: int, start: Time,
                      timeout: int)
    requires n <= |hs| && InPeace(e, hs, key, backend, start, timeout)
    ensures InPeace(e, hs[..n], key, backend, start, timeout)
  {
    assert forall i | 0 <= i < n :: hs[..n][i] == hs[i] && hs[..n][..i] == hs[..i];
  }

  lemma {:induction false} StaysAtHome(e: Engine, hs: seq<Timed<EngineEvent>>, key: string, backend: int, start: Time,
                                       timeout: int)
    requires AtHome(e, key, backend, start, timeout) && InPeace(e, hs, key, backend, start, timeout)
    ensures AtHome(EngineAfter(e, hs), key, backend, LastSuccess(e, hs, key, start), timeout)
  {
    if hs != [] {
      var front, last := hs[..|hs| - 1], hs[|hs| - 1];
      PeaceOfPrefix(e, hs, |front|, key, backend, start, timeout);
      StaysAtHome(e, front, key, backend, start, timeout);
      StepAtHome(EngineAfter(e, front), last, key, backend, LastSuccess(e, front, key, start), timeout);
    }
  }

  /**
   Whole-run affinity: while its own backend keeps running and nobody touches the session, every
   success of a session comes from the same backend, under any other traffic, crashes, repairs,
   scaling, blocking and clean-up; and no request of it is turned away for lack of a backend.
   */
  lemma SessionsAreSticky(e: Engine, hs: seq<Timed<EngineEvent>>, i: nat, key: string, backend: int, start: Time,
                          timeout: int)
    requires AtHome(e, key, backend, start, timeout) && InPeace(e, hs, key, backend, start, timeout)
    requires i < |hs| && Delivers(hs[i], key)
    ensures HomeAnswer(ResponseAt(e, hs, i), backend)
  {
    var front := hs[..i];
    PeaceOfPrefix(e, hs, i, key, backend, start, timeout);
    StaysAtHome(e, front, key, backend, start, timeout);
    StepAtHome(EngineAfter(e, front), hs[i], key, backend, LastSuccess(e, front, key, start), timeout);
  }

  /** A success after routing comes from the backend where the session sits, online and just used. */
  lemma RetrySits(e: Engine, ft: FiveTuple, dead: int, again: Routed, now: Time)
    requires RoutedWell(e, ft, dead, again, now) && again.status != SESSION_BLOCKED && Retry(e, ft, again).1.Success?
    ensures var (e', r) := Retry(e, ft, again);
            SitsOn(e'.router.table, e'.router.ring, ToKey(ft), r.backend, now)
  {
    RetryAnswers(e, ft, again);
  }

  lemma SuccessSits(e: Engine, ft: FiveTuple, now: Time)
    requires Sound(e) && RouteAndServe(e, ft, now).1.Success?
    ensures var (e', r) := RouteAndServe(e, ft, now);
            SitsOn(e'.router.table, e'.router.ring, ToKey(ft), r.backend, now)
  {
    var (mid, routed) := RouteOnce(e, ft, -1, now);
    RoutedIsSound(e, ft, -1, now);
    if mid.backends[routed.target].online {
      ServeAnswers(mid, routed.target, ToKey(ft), routed.status);
    } else {
      ReroutedIsSound(mid, ft, routed.target, now);
      var (again, rerouted) := Rerouted(mid, ft, routed.target, now);
      RetrySits(again, ft, routed.target, rerouted, now);
    }
  }

  /** The state right after a success is such a home. */
  lemma SuccessIsAHome(e: Engine, ft: FiveTuple, payload: string, now: Time)
    requires Sound(e) && Handle(e, ft, payload, now).1.Success?
    ensures var (e', r) := Handle(e, ft, payload, now);
            && ToKey(ft) in e'.router.table.sessions
            && AtHome(e', ToKey(ft), r.backend, now,
                      Timeout(e'.router.table.defaultTimeout, e'.router.table.sessions[ToKey(ft)]))
  {
    HandleDelivers(e, ft, payload, now);
    ScreenKeepsTheRest(e, ft, payload, now);
    SuccessSits(Screen(e, ft, payload, now).0, ft, now);
  }

  // ---------------------------------------------------------------------------------------
  // No stranded sessions
  // ---------------------------------------------------------------------------------------

  /** The ring still has positions after the event, and the event revives no session of a lost server. */
  ghost predicate KeepsEveryoneServed(e: Engine, h: Timed<EngineEvent>) {
    && EngineStep(e, h).0.router.ring.slots != map[]
    && (h.event.Operate? ==> StrandsNobody(e.router, At(h.now, Admin(h.event.op))))
  }

  ghost predicate EveryoneServedOn(e: Engine, hs: seq<Timed<EngineEvent>>) {
    hs != [] ==>
      var front, last := hs[..|hs| - 1], hs[|hs| - 1];
      EveryoneServedOn(e, front) && KeepsEveryoneServed(EngineAfter(e, front), last)
  }

  lemma SoundIsNumbered(e: Engine)
    requires Sound(e)
    ensures ActiveAreNumbered(e.router.ring)
  {}

  lemma RouteOnceStrands(e: Engine, ft: FiveTuple, target: int, now: Time)
    requires ActiveAreNumbered(e.router.ring) && NoneStranded(e.router, now)
    ensures var (e', routed) := RouteOnce(e, ft, target, now);
            NoneStranded(e'.router, now) && e'.router.ring == e.router.ring && routed.status != REASSIGNED
  {
    RouteStrandsNobody(e.router, ft, target, now);
    ReassignedMeansStranded(e.router, ft, target, now);
  }

  lemma ReroutedStrands(e: Engine, ft: FiveTuple, dead: int, now: Time)
    requires ActiveAreNumbered(e.router.ring) && NoneStranded(e.router, now)
    requires Remove(e.router.ring, dead).slots != map[]
    ensures var (e', again) := Rerouted(e, ft, dead, now);
            NoneStranded(e'.router, now) && again.status != REASSIGNED
  {
    LoseStrands(e.router, dead, now);
    StepKeepsNumbering(e.router, At(now, Lose(dead)));
    RouteOnceStrands(e.(router := LoseServer(e.router, dead, now)), ft, dead, now);
  }

  lemma ReroutedRing(e: Engine, ft: FiveTuple, dead: int, now: Time)
    ensures Rerouted(e, ft, dead, now).0.router.ring == Remove(e.router.ring, dead)
  {}

  lemma DispatchStrands(e: Engine, ft: FiveTuple, routed: Routed, now: Time)
    requires ActiveAreNumbered(e.router.ring) && NoneStranded(e.router, now) && routed.status != REASSIGNED
    requires Dispatch(e, ft, routed, now).0.router.ring.slots != map[]
    ensures var (e', r) := Dispatch(e, ft, routed, now);
            NoneStranded(e'.router, now) && (r.Success? ==> !r.reassigned)
  {
    if IsBackend(e, routed.target) {
      ServeAnswers(e, routed.target, ToKey(ft), routed.status);
      var (mid, again) := Rerouted(e, ft, routed.target, now);
      RetryAnswers(mid, ft, again);
      ReroutedRing(e, ft, routed.target, now);
      if mid.router.ring.slots != map[] { ReroutedStrands(e, ft, routed.target, now); }
    }
  }

  lemma RouteStrands(e: Engine, ft: FiveTuple, now: Time)
    requires Sound(e) && NoneStranded(e.router, now) && RouteAndServe(e, ft, now).0.router.ring.slots != map[]
    ensures var (e', r) := RouteAndServe(e, ft, now);
            NoneStranded(e'.router, now) && (r.Success? ==> !r.reassigned)
  {
    SoundIsNumbered(e);
    RouteOnceStrands(e, ft, -1, now);
    var (mid, routed) := RouteOnce(e, ft, -1, now);
    DispatchStrands(mid, ft, routed, now);
  }

  lemma StepStrandsNobody(e: Engine, h: Timed<EngineEvent>)
    requires Sound(e) && NoneStranded(e.router, h.now) && KeepsEveryoneServed(e, h)
    ensures var (e', r) := EngineStep(e, h);
            NoneStranded(e'.router, h.now) && (r.Success? ==> !r.reassigned)
  {
    SoundIsNumbered(e);
    match h.event
    case Deliver(ft, payload) =>
      ScreenKeepsTheRest(e, ft, payload, h.now);
      var (mid, refusal) := Screen(e, ft, payload, h.now);
      if refusal.None? { RouteStrands(mid, ft, h.now); }
    case Crashes(id) =>
    case GoesOffline(id) => if IsBackend(e, id) { LoseStrands(e.router, id, h.now); }
    case ComesOnline(id) => AddedIsActive(e.router.ring, id);
    case Operate(op) => StepStrands(e.router, At(h.now, Admin(op)));
  }

  lemma {:induction false} ServedUpTo(e: Engine, hs: seq<Timed<EngineEvent>>, i: nat)
    requires EveryoneServedOn(e, hs) && i < |hs|
    ensures EveryoneServedOn(e, hs[..i]) && KeepsEveryoneServed(EngineAfter(e, hs[..i]), hs[i])
  {
    if i < |hs| - 1 {
      ServedUpTo(e, hs[..|hs| - 1], i);
      assert hs[..|hs| - 1][..i] == hs[..i];
    }
  }

  /**
   As long as the ring never runs empty and no operator revives a session of a lost server, no
   live session is ever left on a server off the ring, whatever crashes.
   */
  lemma {:induction false} NobodyIsLeftBehind(e: Engine, hs: seq<Timed<EngineEvent>>, start: Time)
    requires Sound(e) && NoneStranded(e.router, start)
    requires ClockFrom(start, hs)
    requires EveryoneServedOn(e, hs)
    ensures NoneStranded(EngineAfter(e, hs).router, Latest(start, hs))
  {
    if hs != [] {
      var front, last := hs[..|hs| - 1], hs[|hs| - 1];
      NobodyIsLeftBehind(e, front, start);
      EveryRunIsSound(e, front);
      NobodyStrandedLater(EngineAfter(e, front).router, Latest(start, front), last.now);
      StepStrandsNobody(EngineAfter(e, front), last);
    }
  }

  /** In such a run no success ever carries the note that its session was reassigned. */
  lemma NoSuccessIsReassigned(e: Engine, hs: seq<Timed<EngineEvent>>, start: Time, i: nat)
    requires Sound(e) && NoneStranded(e.router, start)
    requires ClockFrom(start, hs)
    requires EveryoneServedOn(e, hs) && i < |hs| && ResponseAt(e, hs, i).Success?
    ensures !ResponseAt(e, hs, i).reassigned
  {
    var front := hs[..i];
    ServedUpTo(e, hs, i);
    NobodyIsLeftBehind(e, front, start);
    EveryRunIsSound(e, front);
    NobodyStrandedLater(EngineAfter(e, front).router, Latest(start, front), hs[i].now);
    StepStrandsNobody(EngineAfter(e, front), hs[i]);
  }

  // ---------------------------------------------------------------------------------------
  // While all backends are up
  // ---------------------------------------------------------------------------------------

  /** Every backend is online, the ring has positions, and no session is blocked. */
  ghost predicate AllUp(e: Engine) {
    && Sound(e) && e.router.ring.slots != map[]
    && (forall i | 0 <= i < |e.backends| :: e.backends[i].online)
    && forall key | key in e.router.table.sessions :: !e.router.table.sessions[key].blocked
  }

  lemma RouteAllUp(e: Engine, ft: FiveTuple, now: Time)
    requires AllUp(e)
    ensures var (e', routed) := RouteOnce(e, ft, -1, now);
            routed.status == SUCCESS && IsBackend(e', routed.target) && AllUp(e')
  {
    SoundIsNumbered(e);
    RoutedIsSound(e, ft, -1, now);
    ReassignedMeansStranded(e.router, ft, -1, now);
    RouteTouchesOneSession(e.router.table, e.router.ring, ft, -1, now);
    RefusedWhen(e.router, ft, -1, now);
    if ToKey(ft) in e.router.table.sessions {
      assert e.backends[e.router.table.sessions[ToKey(ft)].backend].online;
    }
  }

  lemma ServeAllUp(e: Engine, backend: nat, key: string)
    requires AllUp(e) && backend < |e.backends|
    ensures var (e', r) := Serve(e, backend, key, SUCCESS);
            AllUp(e') && r.Success? && r.backend == backend && !r.reassigned
  {
    ServeAnswers(e, backend, key, SUCCESS);
    ServeCounts(e, backend, key, SUCCESS);
  }

  lemma RouteAndServeAllUp(e: Engine, ft: FiveTuple, now: Time)
    requires AllUp(e)
    ensures var (e', r) := RouteAndServe(e, ft, now);
            var (mid, routed) := RouteOnce(e, ft, -1, now);
            && AllUp(e') && r.Success? && r.backend == routed.target && !r.reassigned
            && e'.router == mid.router
  {
    RouteAllUp(e, ft, now);
    var (mid, routed) := RouteOnce(e, ft, -1, now);
    OnlineIsServed(mid, ft, routed, now);
    ServeAllUp(mid, routed.target, ToKey(ft));
    ServeAnswers(mid, routed.target, ToKey(ft), SUCCESS);
  }

  /** While all backends are up, every request that passes screening succeeds, without a failover note. */
  lemma HandleAllUp(e: Engine, ft: FiveTuple, payload: string, now: Time)
    requires AllUp(e)
    ensures var (e', r) := Handle(e, ft, payload, now);
            AllUp(e') && (r.SecurityRejected? || r.RateLimited? || (r.Success? && !r.reassigned))
  {
    ScreenKeepsTheRest(e, ft, payload, now);
    RouteAndServeAllUp(Screen(e, ft, payload, now).0, ft, now);
  }

  /** Every session sits where its key hashes to. */
  ghost predicate SitsWhereHashed(r: Router) {
    forall key | key in r.table.sessions :: r.table.sessions[key].backend == Lookup(r.ring, key)
  }

  lemma RoutedToHashed(r: Router, ft: FiveTuple, target: int, now: Time)
    requires SitsWhereHashed(r) && Succeeded(Route(r.table, r.ring, ft, target, now).1)
    ensures var (table, routed) := Route(r.table, r.ring, ft, target, now);
            routed.target == Lookup(r.ring, ToKey(ft)) && SitsWhereHashed(r.(table := table))
  {
    RouteTouchesOneSession(r.table, r.ring, ft, target, now);
  }

  lemma ServeWhereHashed(e: Engine, ft: FiveTuple, now: Time)
    requires AllUp(e) && SitsWhereHashed(e.router)
    ensures var (e', r) := RouteAndServe(e, ft, now);
            && SitsWhereHashed(e'.router) && e'.router.ring == e.router.ring
            && (r.Success? ==> r.backend == Lookup(e.router.ring, ToKey(ft)))
  {
    RouteAllUp(e, ft, now);
    RouteAndServeAllUp(e, ft, now);
    RoutedToHashed(e.router, ft, -1, now);
  }

  /** While all backends are up the ring stays as it is and every success comes from the hashed server. */
  lemma HandleWhereHashed(e: Engine, ft: FiveTuple, payload: string, now: Time)
    requires AllUp(e) && SitsWhereHashed(e.router)
    ensures var (e', r) := Handle(e, ft, payload, now);
            && SitsWhereHashed(e'.router) && e'.router.ring == e.router.ring
            && (r.Success? ==> r.backend == Lookup(e.router.ring, ToKey(ft)))
  {
    ScreenKeepsTheRest(e, ft, payload, now);
    ServeWhereHashed(Screen(e, ft, payload, now).0, ft, now);
  }

  /** A key is counted nowhere but on the server it hashes to. */
  ghost predicate CountedWhereHashed(e: Engine) {
    forall i, key | 0 <= i < |e.backends| && i != Lookup(e.router.ring, key) :: CountOf(e.backends[i].counts, key) == 0
  }

  lemma ServeCountsWhereHashed(e: Engine, backend: nat, key: string, status: RequestStatus)
    requires CountedWhereHashed(e) && backend < |e.backends| && backend == Lookup(e.router.ring, key)
    ensures CountedWhereHashed(Serve(e, backend, key, status).0)
  {}

  /** While all backends are up, counting goes where hashing goes. */
  lemma HandleCountsWhereHashed(e: Engine, ft: FiveTuple, payload: string, now: Time)
    requires AllUp(e) && SitsWhereHashed(e.router) && CountedWhereHashed(e)
    ensures CountedWhereHashed(Handle(e, ft, payload, now).0)
  {
    ScreenKeepsTheRest(e, ft, payload, now);
    var (screened, refusal) := Screen(e, ft, payload, now);
    assert AllUp(screened) && CountedWhereHashed(screened);
    if refusal.None? { ServingCountsWhereHashed(screened, ft, now); }
  }

  lemma ServingCountsWhereHashed(e: Engine, ft: FiveTuple, now: Time)
    requires AllUp(e) && SitsWhereHashed(e.router) && CountedWhereHashed(e)
    ensures CountedWhereHashed(RouteAndServe(e, ft, now).0)
  {
    RouteAllUp(e, ft, now);
    RoutedToHashed(e.router, ft, -1, now);
    var (mid, routed) := RouteOnce(e, ft, -1, now);
    OnlineIsServed(mid, ft, routed, now);
    ServeCountsWhereHashed(mid, routed.target, ToKey(ft), routed.status);
  }

  lemma AddGivesPositions(r: Ring, server: int)
    requires r.vnodes > 0 && server !in r.active
    ensures Add(r, server).slots != map[]
  {
    var p := VnodeHash(server, 0);
    assert p in Positions(r.vnodes, server);
    assert p in Add(r, server).slots;
  }

  lemma {:induction false} RingOfKeepsVnodes(vnodes: int, n: nat)
    ensures RingOf(vnodes, n).vnodes == vnodes
  {
    if n > 0 { RingOfKeepsVnodes(vnodes, n - 1); }
  }

  lemma {:induction false} RingOfInOrder(vnodes: int, n: nat)
    ensures RingOf(vnodes, n).active == seq(n, i => i)
  {
    if n > 0 {
      RingOfInOrder(vnodes, n - 1);
      assert seq(n, i => i) == seq(n - 1, i => i) + [n - 1];
    }
  }

  /** The start in numbers: the servers in order, 150 positions each, 300 s of idleness, 100 requests in 60 s. */
  lemma StartInNumbers(n: nat)
    ensures var e := StartOf(n);
            && e.router.ring.vnodes == 150 && e.router.ring.active == seq(n, i => i)
            && e.router.table == Table(300, map[]) && e.limiter == Limiter(60, 100, map[]) && e.trackers == map[]
            && |e.backends| == n && forall i | 0 <= i < n :: e.backends[i] == Backend(i, true, map[], 0)
  {
    RingOfInOrder(CONSISTENT_HASH_VNODES, n);
    RingOfKeepsVnodes(CONSISTENT_HASH_VNODES, n);
  }

  lemma StartIsAllUp(n: nat)
    requires n > 0
    ensures AllUp(StartOf(n))
  {
    StartIsSound(n);
    RingOfIsSound(CONSISTENT_HASH_VNODES, n - 1);
    RingOfKeepsVnodes(CONSISTENT_HASH_VNODES, n - 1);
    AddGivesPositions(RingOf(CONSISTENT_HASH_VNODES, n - 1), n - 1);
  }
}
