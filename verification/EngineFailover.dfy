/** What losing, repairing, stopping and starting backends does to requests and sessions. */
module EngineFailover {
  import opened Config
  import opened FiveTuples
  import opened HashRing
  import opened Sessions
  import opened Routing
  import opened Validation
  import opened Backends
  import opened Engines
  import opened EngineRuns
  import opened EngineAffinity

  // ---------------------------------------------------------------------------------------
  // A failover serves
  // ---------------------------------------------------------------------------------------

  /** What remains for a request that is neither turned away nor without servers, when one server at most is dead. */
  lemma OneDeadServerLeft(e: Engine, e': Engine, key: string, r: Response)
    requires Delivered(e, e', key, r) && |Dead(e)| <= 1 && e'.router.ring.slots != map[]
    requires !r.SecurityRejected? && !r.RateLimited? && !r.SessionIsBlocked?
    ensures r.Success?
  {
    if r.FailoverTargetDown? {
      FewerElements(Dead(e'), Dead(e));
    }
  }

  /** With at most one dead server, a request that gets past screening and is not blocked succeeds. */
  lemma OneDeadServerIsRepaired(e: Engine, ft: FiveTuple, payload: string, now: Time)
    requires Sound(e) && |Dead(e)| <= 1 && Screen(e, ft, payload, now).1.None?
    requires ToKey(ft) in e.router.table.sessions ==> IsOpen(e, ToKey(ft))
    requires Handle(e, ft, payload, now).0.router.ring.slots != map[]
    ensures Handle(e, ft, payload, now).1.Success?
  {
    var (e', r) := Handle(e, ft, payload, now);
    HandleDelivers(e, ft, payload, now);
    OpenIsNotRefused(e, ft, payload, now);
    OneDeadServerLeft(e, e', ToKey(ft), r);
  }

  lemma OpenIsNotRefused(e: Engine, ft: FiveTuple, payload: string, now: Time)
    requires Sound(e) && Screen(e, ft, payload, now).1.None?
    requires ToKey(ft) in e.router.table.sessions ==> IsOpen(e, ToKey(ft))
    ensures var r := Handle(e, ft, payload, now).1;
            !r.SecurityRejected? && !r.RateLimited? && !r.SessionIsBlocked?
  {
    ScreenKeepsTheRest(e, ft, payload, now);
    var mid := Screen(e, ft, payload, now).0;
    RouteAndServeAnswers(mid, ft, now);
    RouteAndServeOpen(mid, ft, now);
  }

  lemma RetryIsNoBlock(e: Engine, ft: FiveTuple, again: Routed)
    ensures !Retry(e, ft, again).1.SessionIsBlocked?
  {}

  lemma RouteAndServeOpen(e: Engine, ft: FiveTuple, now: Time)
    requires Sound(e)
    requires ToKey(ft) in e.router.table.sessions ==> IsOpen(e, ToKey(ft))
    ensures !RouteAndServe(e, ft, now).1.SessionIsBlocked?
  {
    SoundIsNumbered(e);
    RefusedWhen(e.router, ft, -1, now);
    var (mid, routed) := RouteOnce(e, ft, -1, now);
    if IsBackend(mid, routed.target) { ServeAnswers(mid, routed.target, ToKey(ft), routed.status); }
    var (mid', again) := Rerouted(mid, ft, routed.target, now);
    RetryIsNoBlock(mid', ft, again);
  }

  // ---------------------------------------------------------------------------------------
  // The note of a reassignment
  // ---------------------------------------------------------------------------------------

  /** A live, unblocked session on a server that is off a ring with positions. */
  ghost predicate IsStranded(e: Engine, key: string, now: Time) {
    && e.router.ring.slots != map[] && IsOpen(e, key)
    && var s := e.router.table.sessions[key];
       !Expired(e.router.table.defaultTimeout, s, now) && s.backend !in e.router.ring.active
  }

  /** After the loss of its server, a session that was just routed there is not found stranded. */
  lemma ReroutingLeavesNoNote(e: Engine, ft: FiveTuple, dead: int, now: Time)
    requires Sound(e) && ToKey(ft) in e.router.table.sessions
    requires e.router.table.sessions[ToKey(ft)].backend == dead
    ensures Rerouted(e, ft, dead, now).1.status != REASSIGNED
  {
    var lost := LoseServer(e.router, dead, now);
    RemoveKeepsWellFormed(e.router.ring, dead);
    SoundIsNumbered(e);
    ReassignedMeansStranded(lost, ft, dead, now);
    if lost.ring.slots != map[] { LosingMovesExactlyItsSessions(e.router, dead, now, ToKey(ft)); }
  }

  lemma DispatchNote(e: Engine, ft: FiveTuple, routed: Routed, now: Time)
    requires RoutedWell(e, ft, -1, routed, now)
    ensures var r := Dispatch(e, ft, routed, now).1;
            r.Success? ==> (r.reassigned <==> routed.status == REASSIGNED && e.backends[routed.target].online)
  {
    if Succeeded(routed) {
      ServeAnswers(e, routed.target, ToKey(ft), routed.status);
      ReroutingLeavesNoNote(e, ft, routed.target, now);
      var (mid, again) := Rerouted(e, ft, routed.target, now);
      RetryAnswers(mid, ft, again);
    }
  }

  /**
   A success carries the note that its session was reassigned exactly if the session was stranded
   before, and the server it was moved to answered at once.
   */
  lemma NoteMeansStranded(e: Engine, ft: FiveTuple, now: Time)
    requires Sound(e) && RouteAndServe(e, ft, now).1.Success?
    ensures RouteAndServe(e, ft, now).1.reassigned
       <==> IsStranded(e, ToKey(ft), now) && OnOnline(e, Lookup(e.router.ring, ToKey(ft)))
  {
    var (mid, routed) := RouteOnce(e, ft, -1, now);
    SoundIsNumbered(e);
    RoutedIsSound(e, ft, -1, now);
    ReassignedMeansStranded(e.router, ft, -1, now);
    DispatchNote(mid, ft, routed, now);
    if routed.status == REASSIGNED { ReassignedToHash(e.router, ft, -1, now); }
  }

  lemma ReassignedToHash(r: Router, ft: FiveTuple, target: int, now: Time)
    requires Route(r.table, r.ring, ft, target, now).1.status == REASSIGNED
    ensures Route(r.table, r.ring, ft, target, now).1.target == Lookup(r.ring, ToKey(ft))
  {}

  // ---------------------------------------------------------------------------------------
  // Where sessions go
  // ---------------------------------------------------------------------------------------

  /** The session stayed where it was, or it sits where its key hashes to on the ring as it is now. */
  predicate MovedByHash(before: Router, after: Router, key: string)
    requires key in after.table.sessions
  {
    || (key in before.table.sessions && before.table.sessions[key].backend == after.table.sessions[key].backend)
    || after.table.sessions[key].backend == Lookup(after.ring, key)
  }

  lemma LossMovesByHash(r: Router, server: int, now: Time, key: string)
    requires key in r.table.sessions
    ensures key in LoseServer(r, server, now).table.sessions && MovedByHash(r, LoseServer(r, server, now), key)
  {}

  /** Losing the server of a session just routed there, and routing it again, puts it where its key hashes to. */
  lemma RerouteByHash(e: Engine, ft: FiveTuple, dead: int, now: Time)
    requires Sound(e) && ToKey(ft) in e.router.table.sessions
    requires e.router.table.sessions[ToKey(ft)].backend == dead && IsOpen(e, ToKey(ft))
    requires Remove(e.router.ring, dead).slots != map[]
    ensures var r := Rerouted(e, ft, dead, now).0.router;
            ToKey(ft) in r.table.sessions && r.table.sessions[ToKey(ft)].backend == Lookup(r.ring, ToKey(ft))
  {
    SoundIsNumbered(e);
    RemoveKeepsWellFormed(e.router.ring, dead);
    LosingMovesExactlyItsSessions(e.router, dead, now, ToKey(ft));
    LookupSucceeds(Remove(e.router.ring, dead), ToKey(ft));
  }

  lemma RerouteOthersByHash(e: Engine, ft: FiveTuple, dead: int, now: Time, key: string)
    requires ToKey(ft) != key && key in Rerouted(e, ft, dead, now).0.router.table.sessions
    ensures MovedByHash(e.router, Rerouted(e, ft, dead, now).0.router, key)
  {
    var lost := e.(router := LoseServer(e.router, dead, now));
    RouteTouchesOneSession(lost.router.table, lost.router.ring, ft, dead, now);
    if key in e.router.table.sessions { LossMovesByHash(e.router, dead, now, key); }
  }

  lemma DispatchByHash(e: Engine, ft: FiveTuple, routed: Routed, now: Time, key: string)
    requires RoutedWell(e, ft, -1, routed, now) && Dispatch(e, ft, routed, now).0.router.ring.slots != map[]
    requires key in Dispatch(e, ft, routed, now).0.router.table.sessions
    ensures MovedByHash(e.router, Dispatch(e, ft, routed, now).0.router, key)
  {
    if Succeeded(routed) {
      ServeAnswers(e, routed.target, ToKey(ft), routed.status);
      if !e.backends[routed.target].online {
        var (mid, again) := Rerouted(e, ft, routed.target, now);
        RetryAnswers(mid, ft, again);
        ReroutedRing(e, ft, routed.target, now);
        if key == ToKey(ft) {
          RerouteByHash(e, ft, routed.target, now);
        } else {
          RerouteOthersByHash(e, ft, routed.target, now, key);
        }
      }
    }
  }

  lemma RouteAndServeByHash(e: Engine, ft: FiveTuple, now: Time, key: string)
    requires Sound(e) && RouteAndServe(e, ft, now).0.router.ring.slots != map[]
    requires key in RouteAndServe(e, ft, now).0.router.table.sessions
    ensures MovedByHash(e.router, RouteAndServe(e, ft, now).0.router, key)
  {
    var (mid, routed) := RouteOnce(e, ft, -1, now);
    RoutedIsSound(e, ft, -1, now);
    DispatchByHash(mid, ft, routed, now, key);
    if key == ToKey(ft) {
      OwnSessionByHash(mid, ft, routed, now);
      if key in mid.router.table.sessions { RouteMovesToHash(e.router, ft, -1, now, key); }
    } else {
      RouteTouchesOneSession(e.router.table, e.router.ring, ft, -1, now);
    }
  }

  /** After a repair the requested session sits where its key hashes to, whatever it did before. */
  lemma OwnSessionByHash(e: Engine, ft: FiveTuple, routed: Routed, now: Time)
    requires RoutedWell(e, ft, -1, routed, now) && Dispatch(e, ft, routed, now).0.router.ring.slots != map[]
    requires ToKey(ft) in Dispatch(e, ft, routed, now).0.router.table.sessions
    ensures var r := Dispatch(e, ft, routed, now).0.router;
            r == e.router || r.table.sessions[ToKey(ft)].backend == Lookup(r.ring, ToKey(ft))
  {
    if Succeeded(routed) {
      ServeAnswers(e, routed.target, ToKey(ft), routed.status);
      if !e.backends[routed.target].online {
        var (mid, again) := Rerouted(e, ft, routed.target, now);
        RetryAnswers(mid, ft, again);
        ReroutedRing(e, ft, routed.target, now);
        RerouteByHash(e, ft, routed.target, now);
      }
    }
  }

  /**
   Sessions follow the hash: whatever happens but a forced reassignment of it, a session stays on
   its backend or ends up where its key hashes to on the ring as it is then.
   */
  lemma SessionsFollowTheHash(e: Engine, h: Timed<EngineEvent>, key: string)
    requires Sound(e) && h.event != Operate(Reassign(key))
    requires EngineStep(e, h).0.router.ring.slots != map[] && key in EngineStep(e, h).0.router.table.sessions
    ensures MovedByHash(e.router, EngineStep(e, h).0.router, key)
  {
    match h.event
    case Deliver(ft, payload) =>
      ScreenKeepsTheRest(e, ft, payload, h.now);
      var (mid, refusal) := Screen(e, ft, payload, h.now);
      if refusal.None? { RouteAndServeByHash(mid, ft, h.now, key); }
    case Crashes(id) =>
    case GoesOffline(id) => if IsBackend(e, id) { LossMovesByHash(e.router, id, h.now, key); }
    case ComesOnline(id) =>
    case Operate(op) => OperatorLeavesBackends(e.router, op, h.now, key);
  }

  lemma OperatorLeavesBackends(r: Router, op: AdminOp, now: Time, key: string)
    requires op != Reassign(key) && key in AdminStep(r, op, now).0.table.sessions
    ensures key in r.table.sessions
         && AdminStep(r, op, now).0.table.sessions[key].backend == r.table.sessions[key].backend
  {}

  // ---------------------------------------------------------------------------------------
  // Runs in which every live session sits where its key hashes to
  // ---------------------------------------------------------------------------------------

  /** Every live session sits where its key hashes to. */
  ghost predicate LiveWhereHashed(r: Router, now: Time) {
    forall key | key in r.table.sessions && !Expired(r.table.defaultTimeout, r.table.sessions[key], now) ::
      r.table.sessions[key].backend == Lookup(r.ring, key)
  }

  /** No active server holds a position of another one. */
  ghost predicate IsUndisputed(r: Ring) {
    WellFormed(r) && forall s | s in r.active :: HoldsItsPositions(r, s)
  }

  lemma RemovalKeepsUndisputed(r: Ring, server: int)
    requires IsUndisputed(r)
    ensures IsUndisputed(Remove(r, server))
  {
    RemoveKeepsWellFormed(r, server);
    forall s | s in Remove(r, server).active ensures HoldsItsPositions(Remove(r, server), s) {
      assert HoldsItsPositions(r, s);
    }
  }

  lemma LossWhereHashed(r: Router, server: int, now: Time)
    requires ActiveAreNumbered(r.ring) && HoldsItsPositions(r.ring, server) && LiveWhereHashed(r, now)
    requires Remove(r.ring, server).slots != map[]
    ensures LiveWhereHashed(LoseServer(r, server, now), now)
  {
    var after := LoseServer(r, server, now);
    forall key | key in after.table.sessions && !Expired(r.table.defaultTimeout, after.table.sessions[key], now)
      ensures after.table.sessions[key].backend == Lookup(after.ring, key)
    {
      LosingMovesExactlyItsSessions(r, server, now, key);
      if !Expired(r.table.defaultTimeout, r.table.sessions[key], now) { LossKeepsHashed(r, server, now, key); }
    }
  }

  lemma RouteWhereHashed(r: Router, ft: FiveTuple, target: int, now: Time)
    requires LiveWhereHashed(r, now)
    ensures LiveWhereHashed(r.(table := Route(r.table, r.ring, ft, target, now).0), now)
  {
    RouteTouchesOneSession(r.table, r.ring, ft, target, now);
    if ToKey(ft) in Route(r.table, r.ring, ft, target, now).0.sessions {
      TouchedWhereHashed(r, ft, target, now);
    }
  }

  lemma TouchedWhereHashed(r: Router, ft: FiveTuple, target: int, now: Time)
    requires ToKey(ft) in Route(r.table, r.ring, ft, target, now).0.sessions
    ensures var e := Route(r.table, r.ring, ft, target, now).0.sessions[ToKey(ft)];
            || e.backend == Lookup(r.ring, ToKey(ft))
            || (ToKey(ft) in r.table.sessions && e == r.table.sessions[ToKey(ft)])
            || (ToKey(ft) in r.table.sessions && e.backend == r.table.sessions[ToKey(ft)].backend
                && !Expired(r.table.defaultTimeout, r.table.sessions[ToKey(ft)], now))
  {}

  lemma DispatchWhereHashed(e: Engine, ft: FiveTuple, routed: Routed, now: Time)
    requires Sound(e) && IsUndisputed(e.router.ring) && LiveWhereHashed(e.router, now)
    requires Succeeded(routed) ==> routed.target in e.router.ring.active && IsBackend(e, routed.target)
    requires !Succeeded(routed) ==> routed.target == -1
    requires Dispatch(e, ft, routed, now).0.router.ring.slots != map[]
    ensures var r := Dispatch(e, ft, routed, now).0.router; IsUndisputed(r.ring) && LiveWhereHashed(r, now)
  {
    if Succeeded(routed) {
      ServeAnswers(e, routed.target, ToKey(ft), routed.status);
      if !e.backends[routed.target].online {
        var (mid, again) := Rerouted(e, ft, routed.target, now);
        RetryAnswers(mid, ft, again);
        ReroutedRing(e, ft, routed.target, now);
        SoundIsNumbered(e);
        LossWhereHashed(e.router, routed.target, now);
        RemovalKeepsUndisputed(e.router.ring, routed.target);
        RouteWhereHashed(LoseServer(e.router, routed.target, now), ft, routed.target, now);
      }
    }
  }

  lemma DeliveryWhereHashed(e: Engine, ft: FiveTuple, payload: string, now: Time)
    requires Sound(e) && IsUndisputed(e.router.ring) && LiveWhereHashed(e.router, now)
    requires Handle(e, ft, payload, now).0.router.ring.slots != map[]
    ensures var r := Handle(e, ft, payload, now).0.router; IsUndisputed(r.ring) && LiveWhereHashed(r, now)
  {
    ScreenKeepsTheRest(e, ft, payload, now);
    var (screened, refusal) := Screen(e, ft, payload, now);
    if refusal.None? {
      var (mid, routed) := RouteOnce(screened, ft, -1, now);
      RoutedIsSound(screened, ft, -1, now);
      RouteWhereHashed(screened.router, ft, -1, now);
      DispatchWhereHashed(mid, ft, routed, now);
    }
  }

  /**
   The event leaves positions on the ring, brings no server back, takes none off that holds
   another's position, and neither moves a session by hand nor revives an expired one.
   */
  ghost predicate KeepsTheHash(e: Engine, h: Timed<EngineEvent>) {
    && EngineStep(e, h).0.router.ring.slots != map[]
    && match h.event
       case GoesOffline(id) => IsBackend(e, id) ==> HoldsItsPositions(e.router.ring, id)
       case ComesOnline(id) => IsBackend(e, id) ==> id in e.router.ring.active
       case Operate(Reassign(_)) => false
       case Operate(SetTimeout(key, secs)) => !Revives(e.router, key, secs, h.now)
       case _ => true
  }

  predicate Revives(r: Router, key: string, secs: int, now: Time) {
    && key in r.table.sessions && Expired(r.table.defaultTimeout, r.table.sessions[key], now)
    && !Expired(r.table.defaultTimeout, r.table.sessions[key].(customTimeout := secs), now)
  }

  lemma OperatorWhereHashed(r: Router, op: AdminOp, now: Time)
    requires LiveWhereHashed(r, now) && !op.Reassign?
    requires op.SetTimeout? ==> !Revives(r, op.key, op.timeoutSec, now)
    ensures LiveWhereHashed(AdminStep(r, op, now).0, now)
  {}

  lemma StepWhereHashed(e: Engine, h: Timed<EngineEvent>)
    requires Sound(e) && IsUndisputed(e.router.ring) && LiveWhereHashed(e.router, h.now) && KeepsTheHash(e, h)
    ensures var r := EngineStep(e, h).0.router; IsUndisputed(r.ring) && LiveWhereHashed(r, h.now)
  {
    match h.event
    case Deliver(ft, payload) => DeliveryWhereHashed(e, ft, payload, h.now);
    case Crashes(id) =>
    case GoesOffline(id) =>
      if IsBackend(e, id) {
        SoundIsNumbered(e);
        LossWhereHashed(e.router, id, h.now);
        RemovalKeepsUndisputed(e.router.ring, id);
      }
    case ComesOnline(id) =>
    case Operate(op) =>
      OperatorWhereHashed(e.router, op, h.now);
      AdminKeepsRing(e.router, op, h.now);
  }

  /**
   In every run of losses, crashes and repairs within those guards, every live session sits where
   its key hashes to on the ring as it is by then.
   */
  lemma {:induction false} EveryoneSitsWhereHashed(e: Engine, hs: seq<Timed<EngineEvent>>, start: Time, n: nat)
    requires Sound(e) && IsUndisputed(e.router.ring) && LiveWhereHashed(e.router, start)
    requires ClockFrom(start, hs) && n <= |hs|
    requires forall i | 0 <= i < |hs| :: KeepsTheHash(EngineAfter(e, hs[..i]), hs[i])
    ensures var r := EngineAfter(e, hs[..n]).router;
            IsUndisputed(r.ring) && LiveWhereHashed(r, Latest(start, hs[..n]))
  {
    if n > 0 {
      var before := EngineAfter(e, hs[..n - 1]);
      EveryoneSitsWhereHashed(e, hs, start, n - 1);
      EveryRunIsSound(e, hs[..n - 1]);
      ClockOfPrefix(start, hs, n - 1);
      assert hs[..n][..n - 1] == hs[..n - 1];
      HashedLater(before.router, Latest(start, hs[..n - 1]), hs[n - 1].now);
      StepWhereHashed(before, hs[n - 1]);
    }
  }

  lemma HashedLater(r: Router, now: Time, later: Time)
    requires LiveWhereHashed(r, now) && now <= later
    ensures LiveWhereHashed(r, later)
  {}

  // ---------------------------------------------------------------------------------------
  // Backends that stop and start
  // ---------------------------------------------------------------------------------------

  /** Only the online flag of one backend differs. */
  predicate FlagSet(bs: seq<Backend>, bs': seq<Backend>, id: int, online: bool) {
    && |bs'| == |bs|
    && forall i | 0 <= i < |bs| :: bs'[i] == if i == id then bs[i].(online := online) else bs[i]
  }

  /**
   Taking a backend offline stops it, takes it off the ring and nothing else, and leaves no live
   session on it while the ring has positions.
   */
  lemma OfflineTakesEffect(e: Engine, id: int, now: Time)
    requires Sound(e) && 0 <= id < |e.backends|
    ensures var e' := TakeOffline(e, id, now);
            && FlagSet(e.backends, e'.backends, id, false)
            && e' == e.(router := e'.router, backends := e'.backends)
            && (forall s :: s in e'.router.ring.active <==> s in e.router.ring.active && s != id)
            && e'.router.table.sessions.Keys == e.router.table.sessions.Keys
            && (e'.router.ring.slots != map[] ==>
                  forall key | key in e'.router.table.sessions
                            && !Expired(e'.router.table.defaultTimeout, e'.router.table.sessions[key], now) ::
                    e'.router.table.sessions[key].backend != id)
  {
    SoundIsNumbered(e);
    RemoveKeepsWellFormed(e.router.ring, id);
    if Remove(e.router.ring, id).slots != map[] {
      forall key | key in e.router.table.sessions
        ensures var s := TakeOffline(e, id, now).router.table.sessions[key];
                s.backend != id || Expired(e.router.table.defaultTimeout, s, now)
      {
        LosingMovesExactlyItsSessions(e.router, id, now, key);
      }
    }
  }

  /** Bringing a backend online starts it, puts it on the ring and changes nothing else. */
  lemma OnlineTakesEffect(e: Engine, id: int)
    requires 0 <= id < |e.backends|
    ensures var e' := BringOnline(e, id);
            && FlagSet(e.backends, e'.backends, id, true)
            && e' == e.(router := e'.router, backends := e'.backends) && e'.router.table == e.router.table
            && (forall s :: s in e'.router.ring.active <==> s in e.router.ring.active || s == id)
            && (id !in e.router.ring.active ==> OwnsAll(e'.router.ring, id))
  {
    AddedIsActive(e.router.ring, id);
    if id !in e.router.ring.active { NewcomerOwnsAll(e.router.ring, id); }
  }

  /** A crash stops the backend and is seen nowhere else. */
  lemma CrashOnlyStops(e: Engine, id: int)
    requires 0 <= id < |e.backends|
    ensures FlagSet(e.backends, Crash(e, id).backends, id, false)
    ensures Crash(e, id) == e.(backends := Crash(e, id).backends)
  {}

  /** Numbers of no backend change nothing. */
  lemma StrangersChangeNothing(e: Engine, id: int, now: Time)
    requires !(0 <= id < |e.backends|)
    ensures TakeOffline(e, id, now) == e && BringOnline(e, id) == e && Crash(e, id) == e
  {}

  lemma StepKeepsOffline(e: Engine, h: Timed<EngineEvent>, id: int)
    requires Sound(e) && IsBackend(e, id) && !e.backends[id].online && h.event != ComesOnline(id)
    ensures IsBackend(EngineStep(e, h).0, id) && !EngineStep(e, h).0.backends[id].online
    ensures EngineStep(e, h).1.Success? ==> EngineStep(e, h).1.backend != id
  {
    match h.event
    case Deliver(ft, payload) => HandleDelivers(e, ft, payload, h.now);
    case Crashes(other) =>
    case GoesOffline(other) =>
    case ComesOnline(other) =>
    case Operate(op) =>
  }

  lemma {:induction false} RunKeepsOffline(e: Engine, hs: seq<Timed<EngineEvent>>, id: int, n: nat)
    requires Sound(e) && IsBackend(e, id) && !e.backends[id].online && n <= |hs|
    requires forall i | 0 <= i < |hs| :: hs[i].event != ComesOnline(id)
    ensures var e' := EngineAfter(e, hs[..n]); IsBackend(e', id) && !e'.backends[id].online
  {
    if n > 0 {
      RunKeepsOffline(e, hs, id, n - 1);
      EveryRunIsSound(e, hs[..n - 1]);
      assert hs[..n][..n - 1] == hs[..n - 1];
      StepKeepsOffline(EngineAfter(e, hs[..n - 1]), hs[n - 1], id);
    }
  }

  /** A backend that was taken offline serves nobody until it is brought online again. */
  lemma OfflineServesNobody(e: Engine, id: int, now: Time, hs: seq<Timed<EngineEvent>>, i: nat)
    requires Sound(e) && 0 <= id < |e.backends| && i < |hs|
    requires forall j | 0 <= j < |hs| :: hs[j].event != ComesOnline(id)
    ensures var r := ResponseAt(TakeOffline(e, id, now), hs, i); r.Success? ==> r.backend != id
  {
    var e' := TakeOffline(e, id, now);
    OfflineTakesEffect(e, id, now);
    TakeOfflineIsSound(e, id, now);
    RunKeepsOffline(e', hs, id, i);
    EveryRunIsSound(e', hs[..i]);
    StepKeepsOffline(EngineAfter(e', hs[..i]), hs[i], id);
  }
}
