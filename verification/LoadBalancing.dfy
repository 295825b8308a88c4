/** The load balancer object: the request pipeline and the backend switches over shared parts. */
module LoadBalancing {
  import opened Config
  import opened Decimal
  import opened FiveTuples
  import opened ConsistentHash
  import opened Sessions
  import opened SessionManagement
  import opened Routing
  import opened RateLimiting
  import opened Validation
  import opened Backends
  import opened Engines

  datatype Role = PRIMARY | STANDBY

  /** `duration_cast` to milliseconds, which truncates toward zero. */
  function ToMilliseconds(elapsed: int): int {
    if elapsed >= 0 then elapsed / MILLISECOND else -((-elapsed) / MILLISECOND)
  }

  predicate ShouldTakeover(primaryLastHeartbeat: Time, now: Time) {
    ToMilliseconds(now - primaryLastHeartbeat) > LB_FAILOVER_THRESHOLD_MS
  }

  ghost function BackendStates(handlers: seq<RequestHandler>): (bs: seq<Backend>)
    reads set h | h in handlers
    ensures |bs| == |handlers| && forall i | 0 <= i < |handlers| :: bs[i] == handlers[i].State()
  {
    seq(|handlers|, i requires 0 <= i < |handlers| reads set h | h in handlers => handlers[i].State())
  }

  class LoadBalancer {
    const role: Role
    const sessionMgr: SessionManager
    const hashRing: ConsistentHashRing
    const rateLimiter: RateLimiter
    const security: Security
    const backends: seq<RequestHandler>
    var active: bool

    /** The parts that both load balancers share. */
    ghost function Shared(): set<object> {
      {hashRing, sessionMgr, rateLimiter, security} + set h | h in backends
    }

    ghost predicate Valid() {
      && sessionMgr.hashRing == hashRing
      && forall i, j | 0 <= i < j < |backends| :: backends[i] != backends[j]
    }

    ghost function EngineState(): Engine
      reads Shared()
    {
      Engine(Router(hashRing.State(), sessionMgr.State()), rateLimiter.State(), security.State(),
             BackendStates(backends))
    }

    constructor (role: Role, sessionMgr: SessionManager, rateLimiter: RateLimiter, security: Security,
                 backends: seq<RequestHandler>)
      requires forall i, j | 0 <= i < j < |backends| :: backends[i] != backends[j]
      ensures Valid() && active == role.PRIMARY? && this.role == role
      ensures this.sessionMgr == sessionMgr && hashRing == sessionMgr.hashRing
      ensures this.rateLimiter == rateLimiter && this.security == security && this.backends == backends
    {
      this.role := role;
      this.sessionMgr := sessionMgr;
      this.hashRing := sessionMgr.hashRing;
      this.rateLimiter := rateLimiter;
      this.security := security;
      this.backends := backends;
      active := role.PRIMARY?;
    }

    /** Serving a request does not touch the balancer itself. */
    lemma NotShared()
      ensures this !in Shared()
    {}

    method HandleRequest(ft: FiveTuple, payload: string, now: Time) returns (r: Response)
      requires Valid()
      modifies Shared()
      ensures (EngineState(), r)
           == if active then Handle(old(EngineState()), ft, payload, now) else (old(EngineState()), NotActive)
    {
      if !active { return NotActive; }
      NotShared();
      var refusal := Check(ft, payload, now);
      if refusal.Some? { return refusal.value; }
      ghost var screened := EngineState();
      r := RouteAndForward(ft, now);
      assert (EngineState(), r) == RouteAndServe(screened, ft, now);
    }

    method Check(ft: FiveTuple, payload: string, now: Time) returns (refusal: Option<Response>)
      requires Valid()
      modifies security, rateLimiter
      ensures (EngineState(), refusal) == Screen(old(EngineState()), ft, payload, now)
    {
      var verdict := security.FullCheck(ft, payload, now);
      if verdict != Accepted { return Some(SecurityRejected(verdict)); }
      var allowed := rateLimiter.AllowRequest(ToKey(ft), now);
      if !allowed { return Some(RateLimited); }
      return None;
    }

    method RouteAndForward(ft: FiveTuple, now: Time) returns (r: Response)
      requires Valid()
      modifies Shared()
      ensures (EngineState(), r) == RouteAndServe(old(EngineState()), ft, now)
    {
      var status, assignedBackend := sessionMgr.RouteRequest(ft, -1, now);
      if status == SESSION_BLOCKED { return SessionIsBlocked; }
      if status == SERVER_DOWN { return NoBackends; }
      if assignedBackend < 0 || assignedBackend >= |backends| { return InvalidBackend; }
      if !backends[assignedBackend].online {
        r := Failover(ft, assignedBackend, now);
      } else {
        r := Forward(ft, assignedBackend, status);
      }
    }

    method Failover(ft: FiveTuple, dead: int, now: Time) returns (r: Response)
      requires Valid()
      modifies Shared()
      ensures (EngineState(), r) == Repair(old(EngineState()), ft, dead, now)
    {
      hashRing.RemoveServer(dead);
      sessionMgr.HandleServerDown(dead, now);
      var status, assignedBackend := sessionMgr.RouteRequest(ft, dead, now);
      if status == SERVER_DOWN || assignedBackend < 0 { return NoBackendsAfterFailover; }
      if assignedBackend >= |backends| { return BadIndex; }
      if !backends[assignedBackend].online { return FailoverTargetDown; }
      r := Forward(ft, assignedBackend, status);
    }

    method Forward(ft: FiveTuple, backend: nat, status: RequestStatus) returns (r: Response)
      requires Valid() && backend < |backends|
      modifies backends[backend]
      ensures (EngineState(), r) == Serve(old(EngineState()), backend, ToKey(ft), status)
    {
      ghost var before := BackendStates(backends);
      var reply := backends[backend].ProcessRequest(ft);
      assert BackendStates(backends) == before[backend := Process(before[backend], ToKey(ft)).0];
      match reply {
        case Offline(id) => r := BackendIsOffline(id);
        case Handled(id, n) => r := Success(id, n, status == REASSIGNED);
      }
    }

    method TakeBackendOffline(server: int, now: Time)
      requires Valid()
      modifies Shared()
      ensures EngineState() == TakeOffline(old(EngineState()), server, now)
    {
      if server < 0 || server >= |backends| { return; }
      ghost var before := BackendStates(backends);
      backends[server].Stop();
      assert BackendStates(backends) == before[server := before[server].(online := false)];
      hashRing.RemoveServer(server);
      sessionMgr.HandleServerDown(server, now);
    }

    method BringBackendOnline(server: int)
      requires Valid()
      modifies Shared()
      ensures EngineState() == BringOnline(old(EngineState()), server)
    {
      if server < 0 || server >= |backends| { return; }
      ghost var before := BackendStates(backends);
      backends[server].Start();
      assert BackendStates(backends) == before[server := before[server].(online := true)];
      hashRing.AddServer(server);
    }

    method Activate()
      modifies this
      ensures active
    {
      active := true;
    }

    method Deactivate()
      modifies this
      ensures !active
    {
      active := false;
    }
  }
}
