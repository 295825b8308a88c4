/**
 The whole engine behind an active load balancer as a value: ring, session table, rate
 limiter, spoof trackers and backends, and the request pipeline over them.
 */
module Engines {
  import opened Config
  import opened Decimal
  import opened FiveTuples
  import opened HashRing
  import opened Sessions
  import opened Routing
  import opened RateLimiting
  import opened Validation
  import opened Backends

  datatype Engine = Engine(router: Router, limiter: Limiter, trackers: Trackers, backends: seq<Backend>)

  datatype Response =
    | NotActive
    | SecurityRejected(verdict: Verdict)
    | RateLimited
    | SessionIsBlocked
    | NoBackends
    | InvalidBackend
    | NoBackendsAfterFailover
    | BadIndex
    | FailoverTargetDown
    | BackendIsOffline(id: int)
    | Success(backend: int, number: nat, reassigned: bool)
    | Ack

  /** Hand a routed request to a backend. */
  function Serve(e: Engine, backend: nat, key: string, status: RequestStatus): (Engine, Response)
    requires backend < |e.backends|
  {
    var (b, reply) := Process(e.backends[backend], key);
    var after := e.(backends := e.backends[backend := b]);
    match reply
    case Offline(id) => (after, BackendIsOffline(id))
    case Handled(id, n) => (after, Success(id, n, status == REASSIGNED))
  }

  /** Route one request; `target` stays in the answer when no backend is assigned. */
  function RouteOnce(e: Engine, ft: FiveTuple, target: int, now: Time): (Engine, Routed) {
    var (table, routed) := Route(e.router.table, e.router.ring, ft, target, now);
    (e.(router := e.router.(table := table)), routed)
  }

  /** Drop the dead server, move its sessions, and route once more. */
  function Rerouted(e: Engine, ft: FiveTuple, dead: int, now: Time): (Engine, Routed) {
    RouteOnce(e.(router := LoseServer(e.router, dead, now)), ft, dead, now)
  }

  /**
   The end of the failover branch. The second index into the backends is not checked in the
   code; `BadIndex` stands for reading past them.
   */
  function Retry(e: Engine, ft: FiveTuple, again: Routed): (Engine, Response) {
    if again.status == SERVER_DOWN || again.target < 0 then (e, NoBackendsAfterFailover)
    else if again.target >= |e.backends| then (e, BadIndex)
    else if !e.backends[again.target].online then (e, FailoverTargetDown)
    else Serve(e, again.target, ToKey(ft), again.status)
  }

  /** The failover branch. */
  function Repair(e: Engine, ft: FiveTuple, dead: int, now: Time): (Engine, Response) {
    var (e', again) := Rerouted(e, ft, dead, now);
    Retry(e', ft, again)
  }

  /** From a routed request to its answer. */
  function Dispatch(e: Engine, ft: FiveTuple, routed: Routed, now: Time): (Engine, Response) {
    if routed.status == SESSION_BLOCKED then (e, SessionIsBlocked)
    else if routed.status == SERVER_DOWN then (e, NoBackends)
    else if routed.target < 0 || routed.target >= |e.backends| then (e, InvalidBackend)
    else if e.backends[routed.target].online then Serve(e, routed.target, ToKey(ft), routed.status)
    else Repair(e, ft, routed.target, now)
  }

  function RouteAndServe(e: Engine, ft: FiveTuple, now: Time): (Engine, Response) {
    var (e', routed) := RouteOnce(e, ft, -1, now);
    Dispatch(e', ft, routed, now)
  }

  /** The checks before routing: security, then the rate limit. A refusal ends the request. */
  function Screen(e: Engine, ft: FiveTuple, payload: string, now: Time): (Engine, Option<Response>) {
    var (trackers, verdict) := FullValidation(e.trackers, ft, payload, now);
    var e' := e.(trackers := trackers);
    if verdict != Accepted then (e', Some(SecurityRejected(verdict)))
    else
      var (limiter, ok) := Allowing(e.limiter, ToKey(ft), now);
      (e'.(limiter := limiter), if ok then None else Some(RateLimited))
  }

  /** `handleRequest` of an active load balancer. */
  function Handle(e: Engine, ft: FiveTuple, payload: string, now: Time): (Engine, Response) {
    var (e', refusal) := Screen(e, ft, payload, now);
    if refusal.Some? then (e', refusal.value) else RouteAndServe(e', ft, now)
  }

  predicate IsBackend(e: Engine, id: int) {
    0 <= id < |e.backends|
  }

  function SetOnline(e: Engine, id: int, online: bool): Engine
    requires IsBackend(e, id)
  {
    e.(backends := e.backends[id := e.backends[id].(online := online)])
  }

  function TakeOffline(e: Engine, id: int, now: Time): Engine {
    if !IsBackend(e, id) then e
    else
      var e' := SetOnline(e, id, false);
      e'.(router := LoseServer(e'.router, id, now))
  }

  function BringOnline(e: Engine, id: int): Engine {
    if !IsBackend(e, id) then e
    else
      var e' := SetOnline(e, id, true);
      e'.(router := e'.router.(ring := Add(e'.router.ring, id)))
  }

  /** A backend stops without telling anyone. */
  function Crash(e: Engine, id: int): Engine {
    if IsBackend(e, id) then SetOnline(e, id, false) else e
  }

  datatype EngineEvent =
    | Deliver(ft: FiveTuple, payload: string)
    | Crashes(id: int)
    | GoesOffline(id: int)
    | ComesOnline(id: int)
    | Operate(op: AdminOp)

  function EngineStep(e: Engine, h: Timed<EngineEvent>): (Engine, Response) {
    match h.event
    case Deliver(ft, payload) => Handle(e, ft, payload, h.now)
    case Crashes(id) => (Crash(e, id), Ack)
    case GoesOffline(id) => (TakeOffline(e, id, h.now), Ack)
    case ComesOnline(id) => (BringOnline(e, id), Ack)
    case Operate(op) => (e.(router := AdminStep(e.router, op, h.now).0), Ack)
  }

  function EngineAfter(e: Engine, hs: seq<Timed<EngineEvent>>): Engine {
    if hs == [] then e else EngineStep(EngineAfter(e, hs[..|hs| - 1]), hs[|hs| - 1]).0
  }

  /** The answer to event number `i` of a run. */
  function ResponseAt(e: Engine, hs: seq<Timed<EngineEvent>>, i: nat): Response
    requires i < |hs|
  {
    EngineStep(EngineAfter(e, hs[..i]), hs[i]).1
  }

  // ---------------------------------------------------------------------------------------
  // What the stages of the pipeline leave alone
  // ---------------------------------------------------------------------------------------

  /** Serving changes only the backends, and succeeds exactly on an online one. */
  lemma ServeAnswers(e: Engine, backend: nat, key: string, status: RequestStatus)
    requires backend < |e.backends|
    ensures var (e', r) := Serve(e, backend, key, status);
            && e' == e.(backends := e'.backends)
            && (if e.backends[backend].online then
                  r.Success? && r.backend == e.backends[backend].id && r.reassigned == (status == REASSIGNED)
                else r.BackendIsOffline?)
  {}

  /** The second attempt changes only the backends, and succeeds only on an online one. */
  lemma RetryAnswers(e: Engine, ft: FiveTuple, again: Routed)
    ensures var (e', r) := Retry(e, ft, again);
            && e' == e.(backends := e'.backends)
            && !r.NotActive? && !r.SecurityRejected? && !r.RateLimited?
            && (r.Success? ==>
                  && IsBackend(e, again.target) && e.backends[again.target].online
                  && r.backend == e.backends[again.target].id && r.reassigned == (again.status == REASSIGNED))
  {
    if IsBackend(e, again.target) { ServeAnswers(e, again.target, ToKey(ft), again.status); }
  }

  /** The pipeline behind the screening touches neither limiter nor trackers. */
  lemma DispatchAnswers(e: Engine, ft: FiveTuple, routed: Routed, now: Time)
    ensures var (e', r) := Dispatch(e, ft, routed, now);
            && e' == e.(router := e'.router, backends := e'.backends)
            && !r.NotActive? && !r.SecurityRejected? && !r.RateLimited?
  {
    if IsBackend(e, routed.target) { ServeAnswers(e, routed.target, ToKey(ft), routed.status); }
    var (mid, again) := Rerouted(e, ft, routed.target, now);
    RetryAnswers(mid, ft, again);
  }

  lemma RouteAndServeAnswers(e: Engine, ft: FiveTuple, now: Time)
    ensures var (e', r) := RouteAndServe(e, ft, now);
            && e' == e.(router := e'.router, backends := e'.backends)
            && !r.NotActive? && !r.SecurityRejected? && !r.RateLimited?
  {
    var (mid, routed) := RouteOnce(e, ft, -1, now);
    DispatchAnswers(mid, ft, routed, now);
  }

  // ---------------------------------------------------------------------------------------
  // Start-up
  // ---------------------------------------------------------------------------------------

  function FreshBackends(n: nat): (bs: seq<Backend>)
    ensures |bs| == n && forall i | 0 <= i < n :: bs[i] == Backend(i, true, map[], 0)
  {
    if n == 0 then [] else FreshBackends(n - 1) + [Backend(n - 1, true, map[], 0)]
  }

  function RingOf(vnodes: int, n: nat): Ring {
    if n == 0 then EmptyRing(vnodes) else Add(RingOf(vnodes, n - 1), n - 1)
  }

  /** The engine as the server builds it, with `n` backends. */
  function StartOf(n: nat): Engine {
    Engine(Router(RingOf(CONSISTENT_HASH_VNODES, n), Table(SESSION_TIMEOUT_SEC, map[])),
           EmptyLimiter(RATE_LIMIT_WINDOW_SEC, RATE_LIMIT_MAX_REQUESTS), map[], FreshBackends(n))
  }

  // ---------------------------------------------------------------------------------------
  // Agreement of the parts
  // ---------------------------------------------------------------------------------------

  ghost predicate Numbered(r: Router, n: nat) {
    && (forall s | s in r.ring.active :: 0 <= s < n)
    && (forall key | key in r.table.sessions :: 0 <= r.table.sessions[key].backend < n)
  }

  ghost predicate BackendsOk(bs: seq<Backend>) {
    forall i | 0 <= i < |bs| :: bs[i].id == i && bs[i].total == SumCounts(bs[i].counts)
  }

  ghost predicate OnlineAreActive(bs: seq<Backend>, active: seq<int>) {
    forall i | 0 <= i < |bs| && bs[i].online :: i in active
  }

  /**
   Ring, table and backends agree: audit trails are sound, all ids name real backends, every
   online backend is on the ring, and each backend's total is the sum of its counters.
   */
  ghost predicate Sound(e: Engine) {
    && Audited(e.router)
    && Numbered(e.router, |e.backends|)
    && BackendsOk(e.backends)
    && OnlineAreActive(e.backends, e.router.ring.active)
  }

  ghost predicate ActiveBelow(r: Ring, n: nat) {
    forall s :: s in r.active <==> 0 <= s < n
  }

  ghost predicate StartRing(r: Ring, n: nat) {
    WellFormed(r) && ActiveBelow(r, n)
  }

  lemma AddNext(r: Ring, n: nat, r': Ring)
    requires StartRing(r, n) && r' == Add(r, n)
    ensures StartRing(r', n + 1)
  {
    AddedIsActive(r, n);
    AddKeepsWellFormed(r, n);
  }

  lemma {:induction false} RingOfIsSound(vnodes: int, n: nat)
    ensures StartRing(RingOf(vnodes, n), n)
  {
    if n > 0 {
      RingOfIsSound(vnodes, n - 1);
      AddNext(RingOf(vnodes, n - 1), n - 1, RingOf(vnodes, n));
    }
  }

  lemma StartIsSound(n: nat)
    ensures Sound(StartOf(n))
  {
    RingOfIsSound(CONSISTENT_HASH_VNODES, n);
  }

  lemma RouteKeepsNumbered(r: Router, ft: FiveTuple, target: int, now: Time, n: nat)
    requires WellFormed(r.ring) && Numbered(r, n)
    ensures Numbered(r.(table := Route(r.table, r.ring, ft, target, now).0), n)
    ensures Succeeded(Route(r.table, r.ring, ft, target, now).1) ==>
              0 <= Route(r.table, r.ring, ft, target, now).1.target < n
  {
    var (tbl, o) := Route(r.table, r.ring, ft, target, now);
    RoutedSits(r.table, r.ring, ft, target, now);
    RouteTouchesOneSession(r.table, r.ring, ft, target, now);
    assert Succeeded(o) ==> o.target in r.ring.active;
    forall k | k in tbl.sessions ensures 0 <= tbl.sessions[k].backend < n {
      if k != ToKey(ft) || !Succeeded(o) { assert k in r.table.sessions; }
    }
  }

  lemma LoseKeepsNumbered(r: Router, server: int, now: Time, n: nat)
    requires WellFormed(r.ring) && Numbered(r, n)
    ensures Numbered(LoseServer(r, server, now), n)
  {
    var after := LoseServer(r, server, now);
    RemoveKeepsWellFormed(r.ring, server);
    forall key | key in after.table.sessions ensures 0 <= after.table.sessions[key].backend < n {
      if after.ring.slots != map[] { LookupIsActive(after.ring, key); }
    }
  }

  lemma AdminKeepsNumbered(r: Router, op: AdminOp, now: Time, n: nat)
    requires WellFormed(r.ring) && Numbered(r, n)
    ensures Numbered(AdminStep(r, op, now).0, n)
  {
    if op.Reassign? && op.key in r.table.sessions { ReassignLands(r, op.key, now); }
  }

  /** Serving on an online backend succeeds, counts once, and keeps the counters consistent. */
  lemma ServeCounts(e: Engine, backend: nat, key: string, status: RequestStatus)
    requires Sound(e) && backend < |e.backends| && e.backends[backend].online
    ensures var (after, response) := Serve(e, backend, key, status);
            && Sound(after) && after.router == e.router && |after.backends| == |e.backends|
            && response == Success(backend, CountOf(after.backends[backend].counts, key), status == REASSIGNED)
            && after.backends[backend].online
            && (forall k :: Served(after.backends, k) == Served(e.backends, k) + if k == key then 1 else 0)
            && forall i | 0 <= i < |e.backends| :: after.backends[i].online == e.backends[i].online
  {
    var b := e.backends[backend];
    var b' := Process(b, key).0;
    SumAfterUpdate(b.counts, key, CountOf(b.counts, key) + 1);
    forall k ensures Served(e.backends[backend := b'], k) == Served(e.backends, k) + if k == key then 1 else 0 {
      ServedAfterUpdate(e.backends, backend, b', k);
    }
  }

  /** The servers that are still on the ring although they no longer answer. */
  function Dead(e: Engine): set<int> {
    set i | 0 <= i < |e.backends| && i in e.router.ring.active && !e.backends[i].online
  }

  /** What one delivered request may answer, and what it leaves behind. */
  ghost predicate Delivered(e: Engine, e': Engine, key: string, response: Response) {
    && Sound(e') && |e'.backends| == |e.backends|
    && (forall i | 0 <= i < |e.backends| :: e'.backends[i].online == e.backends[i].online)
    && AnswerOk(e', key, response)
    && (forall k :: Served(e'.backends, k) == Served(e.backends, k) + if response.Success? && k == key then 1 else 0)
    && Progress(e, e', response)
  }

  /** The session exists and is not blocked. */
  predicate IsOpen(e: Engine, key: string) {
    key in e.router.table.sessions && !e.router.table.sessions[key].blocked
  }

  predicate OnOnline(e: Engine, backend: int) {
    IsBackend(e, backend) && e.backends[backend].online
  }

  /** The ring is empty, and the session, if there is one, is neither blocked nor on an active server. */
  predicate IsHomeless(e: Engine, key: string) {
    && e.router.ring.slots == map[]
    && (key in e.router.table.sessions ==>
          IsOpen(e, key) && e.router.table.sessions[key].backend !in e.router.ring.active)
  }

  /**
   The internal errors of the pipeline never show. A success comes from the online backend where
   the session now sits, a failed failover leaves it on one that is on the ring but offline, and
   "no backends" means that the ring is empty.
   */
  ghost predicate AnswerOk(e': Engine, key: string, response: Response) {
    && !response.InvalidBackend? && !response.BadIndex? && !response.BackendIsOffline?
    && !response.NotActive? && !response.Ack?
    && (response.Success? ==>
          && 0 <= response.backend < |e'.backends| && e'.backends[response.backend].online
          && IsOpen(e', key) && e'.router.table.sessions[key].backend == response.backend
          && response.number == CountOf(e'.backends[response.backend].counts, key))
    && (response.SessionIsBlocked? ==> key in e'.router.table.sessions && e'.router.table.sessions[key].blocked)
    && (response.NoBackends? || response.NoBackendsAfterFailover? ==> IsHomeless(e', key))
    && (response.FailoverTargetDown? ==> IsOpen(e', key) && e'.router.table.sessions[key].backend in Dead(e'))
  }

  /**
   Requests only take dead servers off the ring. A failover that fails takes at least one, and a
   request that finds the ring empty at once takes none.
   */
  ghost predicate Progress(e: Engine, e': Engine, response: Response) {
    && Dead(e') <= Dead(e)
    && (response.FailoverTargetDown? || response.NoBackendsAfterFailover? ==> Dead(e') < Dead(e))
    && (response.NoBackends? ==> e'.router.ring == e.router.ring)
  }

  /** Serving a session on its recorded, online backend delivers the request. */
  lemma ServeDelivers(e: Engine, backend: nat, key: string, status: RequestStatus)
    requires Sound(e) && backend < |e.backends| && e.backends[backend].online
    requires IsOpen(e, key) && e.router.table.sessions[key].backend == backend
    ensures Delivered(e, Serve(e, backend, key, status).0, key, Serve(e, backend, key, status).1)
  {
    ServeCounts(e, backend, key, status);
    var after := Serve(e, backend, key, status).0;
    assert Dead(after) == Dead(e);
  }

  lemma LostIsSound(e: Engine, dead: int, now: Time)
    requires Sound(e) && dead in Dead(e)
    ensures var e' := e.(router := LoseServer(e.router, dead, now));
            Sound(e') && Dead(e') == Dead(e) - {dead}
  {
    LoseKeepsAudit(e.router, dead, now);
    LoseKeepsNumbered(e.router, dead, now, |e.backends|);
  }

  /** What routing once leaves behind: a sound engine, and the session where the answer says it is. */
  ghost predicate RoutedWell(e: Engine, ft: FiveTuple, target: int, routed: Routed, now: Time) {
    && Sound(e)
    && (if Succeeded(routed) then
          IsBackend(e, routed.target) && SitsOn(e.router.table, e.router.ring, ToKey(ft), routed.target, now)
        else routed.target == target)
    && (routed.status == SERVER_DOWN ==> IsHomeless(e, ToKey(ft)))
    && (routed.status == SESSION_BLOCKED ==>
          ToKey(ft) in e.router.table.sessions && e.router.table.sessions[ToKey(ft)].blocked)
  }

  lemma RoutedIsSound(e: Engine, ft: FiveTuple, target: int, now: Time)
    requires Sound(e)
    ensures var (e', routed) := RouteOnce(e, ft, target, now);
            RoutedWell(e', ft, target, routed, now) && Dead(e') == Dead(e)
  {
    RouteKeepsAudit(e.router, ft, target, now);
    RouteKeepsNumbered(e.router, ft, target, now, |e.backends|);
    RoutedSits(e.router.table, e.router.ring, ft, target, now);
    RefusedKeepsTarget(e.router.table, e.router.ring, ft, target, now);
    RefusedWhen(e.router, ft, target, now);
    RouteTouchesOneSession(e.router.table, e.router.ring, ft, target, now);
  }

  lemma RefusedKeepsTarget(tbl: Table, ring: Ring, ft: FiveTuple, target: int, now: Time)
    ensures var o := Route(tbl, ring, ft, target, now).1; !Succeeded(o) ==> o.target == target
  {}

  /** A session that was just routed to the dead server is found open again, so the second routing is no refusal. */
  lemma ReroutedIsSound(e: Engine, ft: FiveTuple, dead: int, now: Time)
    requires Sound(e) && dead in Dead(e) && IsOpen(e, ToKey(ft))
    ensures var (e', again) := Rerouted(e, ft, dead, now);
            && RoutedWell(e', ft, dead, again, now) && Dead(e') == Dead(e) - {dead}
            && again.status != SESSION_BLOCKED
  {
    var lost := e.(router := LoseServer(e.router, dead, now));
    LostIsSound(e, dead, now);
    assert IsOpen(lost, ToKey(ft));
    RoutedIsSound(lost, ft, dead, now);
    RefusedWhen(lost.router, ft, dead, now);
  }

  /** What is delivered after the ring lost a dead server, or nothing, is delivered on the whole. */
  lemma DeliveredFrom(e: Engine, mid: Engine, e': Engine, key: string, response: Response)
    requires Delivered(mid, e', key, response) && mid.backends == e.backends && Dead(mid) <= Dead(e)
    requires response.NoBackends? ==> mid.router.ring == e.router.ring
    ensures Delivered(e, e', key, response)
    ensures Dead(mid) < Dead(e) ==> Dead(e') < Dead(e)
  {}

  /** A request that ends without reaching a backend. */
  lemma TurnedAwayIsDelivered(e: Engine, e': Engine, key: string, response: Response)
    requires Sound(e') && e'.backends == e.backends && AnswerOk(e', key, response) && !response.Success?
    requires Progress(e, e', response)
    ensures Delivered(e, e', key, response)
  {}

  lemma RetryDelivers(e: Engine, mid: Engine, ft: FiveTuple, dead: int, again: Routed, now: Time)
    requires RoutedWell(mid, ft, dead, again, now) && again.status != SESSION_BLOCKED
    requires mid.backends == e.backends && Dead(mid) < Dead(e)
    ensures var (after, response) := Retry(mid, ft, again);
            Delivered(e, after, ToKey(ft), response) && Dead(after) < Dead(e)
  {
    var (after, response) := Retry(mid, ft, again);
    if again.status == SERVER_DOWN || !mid.backends[again.target].online {
      TurnedAwayIsDelivered(e, mid, ToKey(ft), response);
    } else {
      ServeDelivers(mid, again.target, ToKey(ft), again.status);
      DeliveredFrom(e, mid, after, ToKey(ft), response);
    }
  }

  lemma RepairDelivers(e: Engine, ft: FiveTuple, dead: int, now: Time)
    requires Sound(e) && dead in Dead(e) && IsOpen(e, ToKey(ft))
    ensures var (after, response) := Repair(e, ft, dead, now);
            Delivered(e, after, ToKey(ft), response) && Dead(after) < Dead(e)
  {
    var (mid, again) := Rerouted(e, ft, dead, now);
    ReroutedIsSound(e, ft, dead, now);
    RetryDelivers(e, mid, ft, dead, again, now);
  }

  lemma DispatchDelivers(e: Engine, ft: FiveTuple, routed: Routed, now: Time)
    requires RoutedWell(e, ft, -1, routed, now)
    ensures var (after, response) := Dispatch(e, ft, routed, now); Delivered(e, after, ToKey(ft), response)
  {
    if !Succeeded(routed) {
      TurnedAwayIsDelivered(e, e, ToKey(ft), Dispatch(e, ft, routed, now).1);
    } else if e.backends[routed.target].online {
      ServeDelivers(e, routed.target, ToKey(ft), routed.status);
    } else {
      RepairDelivers(e, ft, routed.target, now);
    }
  }

  lemma RouteAndServeDelivers(e: Engine, ft: FiveTuple, now: Time)
    requires Sound(e)
    ensures Delivered(e, RouteAndServe(e, ft, now).0, ToKey(ft), RouteAndServe(e, ft, now).1)
  {
    var (mid, routed) := RouteOnce(e, ft, -1, now);
    RoutedIsSound(e, ft, -1, now);
    DispatchDelivers(mid, ft, routed, now);
    var (after, response) := Dispatch(mid, ft, routed, now);
    DeliveredFrom(e, mid, after, ToKey(ft), response);
  }

  /** Screening touches only the limiter and the trackers, and refuses in two ways. */
  lemma ScreenKeepsTheRest(e: Engine, ft: FiveTuple, payload: string, now: Time)
    ensures var (e', refusal) := Screen(e, ft, payload, now);
            && e'.router == e.router && e'.backends == e.backends
            && (refusal.Some? ==> refusal.value.SecurityRejected? || refusal.value.RateLimited?)
  {}

  /** The whole pipeline delivers every request soundly. */
  lemma HandleDelivers(e: Engine, ft: FiveTuple, payload: string, now: Time)
    requires Sound(e)
    ensures Delivered(e, Handle(e, ft, payload, now).0, ToKey(ft), Handle(e, ft, payload, now).1)
  {
    ScreenKeepsTheRest(e, ft, payload, now);
    var mid := Screen(e, ft, payload, now).0;
    assert Sound(mid) && Dead(mid) == Dead(e);
    RouteAndServeDelivers(mid, ft, now);
    DeliveredFrom(e, mid, RouteAndServe(mid, ft, now).0, ToKey(ft), RouteAndServe(mid, ft, now).1);
  }

  /**
   What a request that passed the screening is answered can be read off the engine it leaves
   behind: a success exactly if its session is open on an online backend, a failed failover
   exactly if it is open on one that is on the ring but offline.
   */
  lemma AnswerIsDecided(e: Engine, ft: FiveTuple, payload: string, now: Time)
    requires Sound(e) && Screen(e, ft, payload, now).1.None?
    ensures var (e', r) := Handle(e, ft, payload, now);
            var key := ToKey(ft);
            && (r.Success? <==>
                  IsOpen(e', key) && OnOnline(e', e'.router.table.sessions[key].backend))
            && (r.FailoverTargetDown? <==> IsOpen(e', key) && e'.router.table.sessions[key].backend in Dead(e'))
            && (r.SessionIsBlocked? <==> key in e'.router.table.sessions && e'.router.table.sessions[key].blocked)
            && (r.NoBackends? || r.NoBackendsAfterFailover? <==> IsHomeless(e', key))
  {
    HandleDelivers(e, ft, payload, now);
    var mid := Screen(e, ft, payload, now).0;
    RouteAndServeAnswers(mid, ft, now);
  }
}
