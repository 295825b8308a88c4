/**
 The server loop: one packet per step, a primary and a standby load balancer over one shared
 engine, and two commands that kill and revive the primary.
 */
module UdpServers {
  import opened Config
  import opened FiveTuples
  import opened HashRing
  import opened Sessions
  import opened RateLimiting
  import opened Validation
  import opened Backends
  import opened Engines
  import opened EngineRuns
  import opened EngineScreening
  import opened EngineAffinity
  import opened LoadBalancing
  import opened ConsistentHash
  import opened SessionManagement

  datatype Datagram = Datagram(srcIp: string, srcPort: Port, payload: string)

  /** A datagram and the instant of its arrival. */
  type Packet = Timed<Datagram>

  datatype Server = Server(primaryActive: bool, standbyActive: bool, lastPrimaryHeartbeat: Time, engine: Engine)

  datatype Reply = PrimaryKilled | PrimaryRevived | NoActiveBalancer | Relayed(response: Response)

  const KILL := "CMD:KILL_PRIMARY"
  const REVIVE := "CMD:REVIVE_PRIMARY"

  predicate IsTraffic(p: Packet) {
    p.event.payload != KILL && p.event.payload != REVIVE
  }

  /** The 5-tuple that the server builds from the packet headers. */
  function TupleOf(p: Packet): FiveTuple {
    FiveTuple(p.event.srcIp, p.event.srcPort, "0.0.0.0", LB_PRIMARY_PORT, "UDP")
  }

  function StartServer(n: nat, now: Time): Server {
    Server(true, false, now, StartOf(n))
  }

  /** `handleRequest` of an active load balancer, and the reply that carries its answer. */
  function Relay(e: Engine, p: Packet): (Engine, Reply) {
    var (e', r) := Handle(e, TupleOf(p), p.event.payload, p.now);
    (e', Relayed(r))
  }

  /** An active primary serves: its heartbeat moves on, and an active standby yields. */
  function PrimaryServes(s: Server, p: Packet): (Server, Reply) {
    var (e, reply) := Relay(s.engine, p);
    (Server(true, false, p.now, e), reply)
  }

  /** The standby serves for an inactive primary. */
  function StandbyServes(s: Server, p: Packet): (Server, Reply) {
    var (e, reply) := Relay(s.engine, p);
    (s.(standbyActive := true, engine := e), reply)
  }

  /** One iteration of the loop. */
  function Receive(s: Server, p: Packet): (Server, Reply) {
    if p.event.payload == KILL then (s.(primaryActive := false), PrimaryKilled)
    else if p.event.payload == REVIVE then (s.(primaryActive := true), PrimaryRevived)
    else if s.primaryActive then PrimaryServes(s, p)
    else if s.standbyActive || ShouldTakeover(s.lastPrimaryHeartbeat, p.now) then StandbyServes(s, p)
    else (s, NoActiveBalancer)
  }

  function ServerAfter(s: Server, ps: seq<Packet>): Server {
    if ps == [] then s else Receive(ServerAfter(s, ps[..|ps| - 1]), ps[|ps| - 1]).0
  }

  function ReplyAt(s: Server, ps: seq<Packet>, i: nat): Reply
    requires i < |ps|
  {
    Receive(ServerAfter(s, ps[..i]), ps[i]).1
  }

  // ---------------------------------------------------------------------------------------
  // One load balancer routes at a time
  // ---------------------------------------------------------------------------------------

  predicate ServedByPrimary(s: Server, p: Packet) {
    IsTraffic(p) && s.primaryActive
  }

  predicate ServedByStandby(s: Server, p: Packet) {
    IsTraffic(p) && !s.primaryActive && Receive(s, p).1.Relayed?
  }

  predicate Forwarded(s: Server, p: Packet) {
    ServedByPrimary(s, p) || ServedByStandby(s, p)
  }

  /** Whenever a packet is relayed, exactly one load balancer is active: the one that served it. */
  lemma ExactlyOneRoutes(s: Server, p: Packet)
    ensures Receive(s, p).1.Relayed? <==> Forwarded(s, p)
    ensures Receive(s, p).1.Relayed? ==>
              var s' := Receive(s, p).0;
              && s'.primaryActive != s'.standbyActive
              && (s'.primaryActive <==> ServedByPrimary(s, p)) && (s'.standbyActive <==> ServedByStandby(s, p))
              && Receive(s, p).1 != Relayed(NotActive)
    ensures IsTraffic(p) && !Receive(s, p).1.Relayed? ==>
              !Receive(s, p).0.primaryActive && !Receive(s, p).0.standbyActive
  {
    if Forwarded(s, p) { ActiveAnswers(s.engine, TupleOf(p), p.event.payload, p.now); }
  }

  /** A command sets the primary's flag and nothing else; traffic that is not relayed changes nothing. */
  lemma OthersAreAnswered(s: Server, p: Packet)
    ensures p.event.payload == "CMD:KILL_PRIMARY" ==>
              Receive(s, p) == (s.(primaryActive := false), PrimaryKilled)
    ensures p.event.payload == "CMD:REVIVE_PRIMARY" ==>
              Receive(s, p) == (s.(primaryActive := true), PrimaryRevived)
    ensures IsTraffic(p) && !Receive(s, p).1.Relayed? ==> Receive(s, p) == (s, NoActiveBalancer)
  {}

  lemma ActiveAnswers(e: Engine, ft: FiveTuple, payload: string, now: Time)
    ensures !Handle(e, ft, payload, now).1.NotActive?
  {
    ScreenKeepsTheRest(e, ft, payload, now);
    RouteAndServeAnswers(Screen(e, ft, payload, now).0, ft, now);
  }

  /** Whether the last command of a trace killed the primary; without one it stays as it was. */
  predicate PrimaryUp(initially: bool, ps: seq<Packet>) {
    if ps == [] then initially
    else
      var last := ps[|ps| - 1];
      if last.event.payload == KILL then false
      else if last.event.payload == REVIVE then true
      else PrimaryUp(initially, ps[..|ps| - 1])
  }

  /** Whether the last traffic packet of a trace was served by the standby. */
  predicate StandbyServedLast(s: Server, ps: seq<Packet>) {
    ps != [] &&
    var front, last := ps[..|ps| - 1], ps[|ps| - 1];
    if IsTraffic(last) then ServedByStandby(ServerAfter(s, front), last) else StandbyServedLast(s, front)
  }

  /** One packet leaves both flags set exactly when it revives the primary under an active standby. */
  lemma BothFlagsAfter(s: Server, p: Packet)
    ensures Receive(s, p).0.primaryActive && Receive(s, p).0.standbyActive
       <==> p.event.payload == REVIVE && s.standbyActive
  {}

  /** The trace ends with a revival, and the standby served the last traffic packet before it. */
  predicate RevivedUnserved(s: Server, ps: seq<Packet>) {
    ps != [] && ps[|ps| - 1].event.payload == REVIVE && StandbyServedLast(s, ps[..|ps| - 1])
  }

  /**
   The two flags over every trace: the primary's follows the last command, and the standby's says
   who served last. Both are set exactly when the primary was revived after a takeover and has
   seen no traffic since.
   */
  lemma {:induction false} FlagsOverEveryTrace(s: Server, ps: seq<Packet>)
    requires !s.standbyActive
    ensures ServerAfter(s, ps).primaryActive <==> PrimaryUp(s.primaryActive, ps)
    ensures ServerAfter(s, ps).standbyActive <==> StandbyServedLast(s, ps)
    ensures ServerAfter(s, ps).primaryActive && ServerAfter(s, ps).standbyActive <==> RevivedUnserved(s, ps)
  {
    if ps != [] {
      FlagsOverEveryTrace(s, ps[..|ps| - 1]);
      BothFlagsAfter(ServerAfter(s, ps[..|ps| - 1]), ps[|ps| - 1]);
    }
  }

  /** Between a revival and the next traffic packet both load balancers are flagged active. */
  lemma BothCanBeFlagged(s: Server, p: Packet, q: Packet, kill: Packet)
    requires s.primaryActive && !s.standbyActive
    requires kill.event.payload == KILL && q.event.payload == REVIVE && IsTraffic(p)
    requires p.now - s.lastPrimaryHeartbeat >= 3001 * MILLISECOND
    ensures var s' := ServerAfter(s, [kill, p, q]); s'.primaryActive && s'.standbyActive
  {
    assert [kill, p, q][..2] == [kill, p] && [kill, p][..1] == [kill] && [kill][..0] == [];
    var s1 := Receive(s, kill).0;
    assert ServerAfter(s, [kill]) == s1;
    var s2 := Receive(s1, p).0;
    assert ServerAfter(s, [kill, p]) == s2;
  }

  // ---------------------------------------------------------------------------------------
  // Takeover only after silence
  // ---------------------------------------------------------------------------------------

  /** When the primary last served a packet of the trace, or the start when it did not. */
  function LastServedByPrimary(s: Server, ps: seq<Packet>, start: Time): Time {
    if ps == [] then start
    else
      var front, last := ps[..|ps| - 1], ps[|ps| - 1];
      if ServedByPrimary(ServerAfter(s, front), last) then last.now else LastServedByPrimary(s, front, start)
  }

  lemma {:induction false} HeartbeatIsLastService(s: Server, ps: seq<Packet>)
    requires !s.standbyActive && ClockFrom(s.lastPrimaryHeartbeat, ps)
    ensures ServerAfter(s, ps).lastPrimaryHeartbeat == LastServedByPrimary(s, ps, s.lastPrimaryHeartbeat)
    ensures ServerAfter(s, ps).standbyActive ==>
              ps != [] && ps[|ps| - 1].now - ServerAfter(s, ps).lastPrimaryHeartbeat >= 3001 * MILLISECOND
  {
    if ps != [] {
      HeartbeatIsLastService(s, ps[..|ps| - 1]);
    }
  }

  /**
   The standby serves a packet exactly if it is traffic, the last command killed the primary, and
   the primary has served no packet for at least 3001 ms.
   */
  lemma StandbyWaitsForSilence(s: Server, ps: seq<Packet>, i: nat)
    requires !s.standbyActive && ClockFrom(s.lastPrimaryHeartbeat, ps) && i < |ps|
    ensures ServedByStandby(ServerAfter(s, ps[..i]), ps[i])
       <==> && IsTraffic(ps[i]) && !PrimaryUp(s.primaryActive, ps[..i])
            && ps[i].now - LastServedByPrimary(s, ps[..i], s.lastPrimaryHeartbeat) >= 3001 * MILLISECOND
  {
    FlagsOverEveryTrace(s, ps[..i]);
    HeartbeatIsLastService(s, ps[..i]);
  }

  /** Once the standby has served a packet it serves all traffic until the primary is revived. */
  lemma {:induction false} StandbyServesUntilRevival(s: Server, p: Packet, ps: seq<Packet>)
    requires ServedByStandby(s, p)
    requires forall i | 0 <= i < |ps| :: ps[i].event.payload != REVIVE
    ensures var s' := ServerAfter(Receive(s, p).0, ps); !s'.primaryActive && s'.standbyActive
    ensures ps != [] && IsTraffic(ps[|ps| - 1]) ==>
              ServedByStandby(ServerAfter(Receive(s, p).0, ps[..|ps| - 1]), ps[|ps| - 1])
  {
    if ps != [] {
      StandbyServesUntilRevival(s, p, ps[..|ps| - 1]);
    }
  }

  // ---------------------------------------------------------------------------------------
  // The pair refines one load balancer that is always active
  // ---------------------------------------------------------------------------------------

  function RequestOf(p: Packet): Timed<EngineEvent> {
    At(p.now, Deliver(TupleOf(p), p.event.payload))
  }

  /** The requests that a trace puts through the engine. */
  function ForwardedRequests(s: Server, ps: seq<Packet>): seq<Timed<EngineEvent>> {
    if ps == [] then []
    else
      var front, last := ps[..|ps| - 1], ps[|ps| - 1];
      if Forwarded(ServerAfter(s, front), last) then ForwardedRequests(s, front) + [RequestOf(last)]
      else ForwardedRequests(s, front)
  }

  lemma StepIsOneRequestOrNone(s: Server, p: Packet)
    ensures if Forwarded(s, p) then
              && Receive(s, p).0.engine == EngineStep(s.engine, RequestOf(p)).0
              && Receive(s, p).1 == Relayed(EngineStep(s.engine, RequestOf(p)).1)
            else Receive(s, p).0.engine == s.engine && !Receive(s, p).1.Relayed?
  {}

  /**
   After every trace of kills, revivals and traffic, the session table, ring, limiter, trackers and
   backends are those of one balancer that was always active and got only the forwarded packets.
   */
  lemma {:induction false} PairRefinesOneBalancer(s: Server, ps: seq<Packet>)
    ensures ServerAfter(s, ps).engine == EngineAfter(s.engine, ForwardedRequests(s, ps))
  {
    if ps != [] {
      var front, last := ps[..|ps| - 1], ps[|ps| - 1];
      PairRefinesOneBalancer(s, front);
      StepIsOneRequestOrNone(ServerAfter(s, front), last);
      var hs := ForwardedRequests(s, front);
      assert (hs + [RequestOf(last)])[..|hs|] == hs;
    }
  }

  /** Every relayed reply is the answer of that one balancer. */
  lemma RepliesAreTheBalancers(s: Server, ps: seq<Packet>, i: nat)
    requires i < |ps|
    ensures ReplyAt(s, ps, i).Relayed? <==> Forwarded(ServerAfter(s, ps[..i]), ps[i])
    ensures var e := EngineAfter(s.engine, ForwardedRequests(s, ps[..i]));
            ReplyAt(s, ps, i).Relayed? ==> ReplyAt(s, ps, i).response == EngineStep(e, RequestOf(ps[i])).1
  {
    PairRefinesOneBalancer(s, ps[..i]);
    StepIsOneRequestOrNone(ServerAfter(s, ps[..i]), ps[i]);
  }

  // ---------------------------------------------------------------------------------------
  // What clients of the pair may rely on
  // ---------------------------------------------------------------------------------------

  predicate IsSuccess(s: Server, p: Packet, key: string) {
    ToKey(TupleOf(p)) == key && Receive(s, p).1.Relayed? && Receive(s, p).1.response.Success?
  }

  /** Success replies for a key during a span of time, from whichever balancer. */
  function SuccessReplies(s: Server, ps: seq<Packet>, key: string, span: Span): nat {
    if ps == [] then 0
    else
      var front, last := ps[..|ps| - 1], ps[|ps| - 1];
      SuccessReplies(s, front, key, span)
      + if IsSuccess(ServerAfter(s, front), last, key) && During(last.now, span) then 1 else 0
  }

  lemma {:induction false} RepliesAreEngineSuccesses(s: Server, ps: seq<Packet>, key: string, span: Span)
    ensures SuccessReplies(s, ps, key, span) == Successes(s.engine, ForwardedRequests(s, ps), key, span)
  {
    if ps != [] {
      var front, last := ps[..|ps| - 1], ps[|ps| - 1];
      RepliesAreEngineSuccesses(s, front, key, span);
      PairRefinesOneBalancer(s, front);
      StepIsOneRequestOrNone(ServerAfter(s, front), last);
      var hs := ForwardedRequests(s, front);
      assert (hs + [RequestOf(last)])[..|hs|] == hs;
    }
  }

  lemma {:induction false} RequestsFollowTheClock(s: Server, ps: seq<Packet>, last: Time)
    requires ClockRuns(ps) && UpTo(ps, last)
    ensures ClockRuns(ForwardedRequests(s, ps)) && UpTo(ForwardedRequests(s, ps), last)
  {
    if ps != [] {
      RequestsFollowTheClock(s, ps[..|ps| - 1], ps[|ps| - 1].now);
    }
  }

  /** The rate limit holds across takeover and failback: both balancers together stay within it. */
  lemma RateLimitAcrossFailover(n: nat, start: Time, ps: seq<Packet>, key: string, lo: Time)
    requires ClockRuns(ps)
    ensures SuccessReplies(StartServer(n, start), ps, key, Closed(lo, lo + RATE_LIMIT_WINDOW_SEC * SECOND))
         <= RATE_LIMIT_MAX_REQUESTS
  {
    var s := StartServer(n, start);
    RepliesAreEngineSuccesses(s, ps, key, Closed(lo, lo + RATE_LIMIT_WINDOW_SEC * SECOND));
    RequestsFollowTheClock(s, ps, Latest(start, ps));
    RateLimitAcrossBackends(s.engine, ForwardedRequests(s, ps), key, lo);
  }

  /** A packet from one prefix that was relayed and not rejected by security. */
  predicate IsLetIn(s: Server, p: Packet, subnet: string) {
    && Subnet(p.event.srcIp) == subnet
    && Receive(s, p).1.Relayed? && !Receive(s, p).1.response.SecurityRejected?
  }

  /** The sources of one prefix that either balancer let in during a span of time. */
  function SourcesRelayed(s: Server, ps: seq<Packet>, subnet: string, span: Span): set<string> {
    if ps == [] then {}
    else
      var front, last := ps[..|ps| - 1], ps[|ps| - 1];
      SourcesRelayed(s, front, subnet, span)
      + if IsLetIn(ServerAfter(s, front), last, subnet) && During(last.now, span) then {last.event.srcIp} else {}
  }

  lemma {:induction false} RelayedAreLetIn(s: Server, ps: seq<Packet>, subnet: string, span: Span)
    ensures SourcesRelayed(s, ps, subnet, span) == SourcesLetIn(s.engine, ForwardedRequests(s, ps), subnet, span)
  {
    if ps != [] {
      var front, last := ps[..|ps| - 1], ps[|ps| - 1];
      RelayedAreLetIn(s, front, subnet, span);
      PairRefinesOneBalancer(s, front);
      StepIsOneRequestOrNone(ServerAfter(s, front), last);
      var hs := ForwardedRequests(s, front);
      assert (hs + [RequestOf(last)])[..|hs|] == hs;
    }
  }

  /** The spoof threshold holds across takeover and failback. */
  lemma SpoofThresholdAcrossFailover(n: nat, start: Time, ps: seq<Packet>, subnet: string, lo: Time)
    requires ClockRuns(ps)
    ensures |SourcesRelayed(StartServer(n, start), ps, subnet, Closed(lo, lo + SPOOF_WINDOW))|
         <= SPOOF_DETECTION_THRESHOLD
  {
    var s := StartServer(n, start);
    RelayedAreLetIn(s, ps, subnet, Closed(lo, lo + SPOOF_WINDOW));
    RequestsFollowTheClock(s, ps, Latest(start, ps));
    SpoofThresholdAcrossBackends(s.engine, ForwardedRequests(s, ps), subnet, lo);
  }

  /**
   Over every trace of the running server, across takeover and failback, security and rate limit
   turn a relayed packet away exactly as the requests forwarded before it decide.
   */
  lemma ScreeningAcrossFailover(n: nat, start: Time, ps: seq<Packet>, i: nat)
    requires ClockRuns(ps) && i < |ps| && ReplyAt(StartServer(n, start), ps, i).Relayed?
    ensures var front := ForwardedRequests(StartServer(n, start), ps[..i]);
            var r := ReplyAt(StartServer(n, start), ps, i).response;
            && (r.SecurityRejected? <==> !PassesAfter(front, RequestOf(ps[i])))
            && (r.RateLimited? <==> LimitedAfter(front, RequestOf(ps[i])))
  {
    var s := StartServer(n, start);
    RepliesAreTheBalancers(s, ps, i);
    RequestsFollowTheClock(s, ps[..i], ps[i].now);
    ScreeningIsDecided(s.engine, ForwardedRequests(s, ps[..i]), RequestOf(ps[i]));
  }

  lemma {:induction false} OnlyDeliveries(s: Server, ps: seq<Packet>)
    ensures forall i | 0 <= i < |ForwardedRequests(s, ps)| :: ForwardedRequests(s, ps)[i].event.Deliver?
  {
    if ps != [] {
      OnlyDeliveries(s, ps[..|ps| - 1]);
    }
  }

  lemma {:induction false} ServerStaysUp(n: nat, start: Time, ps: seq<Packet>)
    requires n > 0
    ensures AllUp(ServerAfter(StartServer(n, start), ps).engine)
  {
    if ps == [] {
      StartIsAllUp(n);
    } else {
      var front, last := ps[..|ps| - 1], ps[|ps| - 1];
      ServerStaysUp(n, start, front);
      var s := ServerAfter(StartServer(n, start), front);
      StepIsOneRequestOrNone(s, last);
      HandleAllUp(s.engine, TupleOf(last), last.event.payload, last.now);
    }
  }

  /** Every packet that a running server relays is refused by screening or succeeds, without a failover note. */
  lemma RunningServerAlwaysServes(n: nat, start: Time, ps: seq<Packet>, i: nat)
    requires n > 0 && i < |ps| && ReplyAt(StartServer(n, start), ps, i).Relayed?
    ensures var r := ReplyAt(StartServer(n, start), ps, i).response;
            r.SecurityRejected? || r.RateLimited? || (r.Success? && !r.reassigned)
  {
    var s := ServerAfter(StartServer(n, start), ps[..i]);
    ServerStaysUp(n, start, ps[..i]);
    StepIsOneRequestOrNone(s, ps[i]);
    HandleAllUp(s.engine, TupleOf(ps[i]), ps[i].event.payload, ps[i].now);
  }

  /** No forwarded packet of the trace comes later than a timeout after the session's last success. */
  ghost predicate NeverIdle(e: Engine, hs: seq<Timed<EngineEvent>>, key: string, start: Time, timeout: int) {
    forall i | 0 <= i < |hs| :: hs[i].now - LastSuccess(e, hs[..i], key, start) <= timeout
  }

  lemma SuccessMakesAHome(s: Server, p: Packet, key: string)
    requires Sound(s.engine) && IsSuccess(s, p, key)
    ensures var (s', reply) := Receive(s, p);
            && key in s'.engine.router.table.sessions
            && AtHome(s'.engine, key, reply.response.backend, p.now,
                      Timeout(s'.engine.router.table.defaultTimeout, s'.engine.router.table.sessions[key]))
  {
    StepIsOneRequestOrNone(s, p);
    SuccessIsAHome(s.engine, TupleOf(p), p.event.payload, p.now);
  }

  lemma HomeAnswersTheNext(s: Server, ps: seq<Packet>, q: Packet, key: string, backend: int, start: Time, timeout: int)
    requires AtHome(s.engine, key, backend, start, timeout)
    requires NeverIdle(s.engine, ForwardedRequests(s, ps) + [RequestOf(q)], key, start, timeout)
    requires IsSuccess(ServerAfter(s, ps), q, key)
    ensures Receive(ServerAfter(s, ps), q).1.response.backend == backend
  {
    var hs := ForwardedRequests(s, ps);
    var all := hs + [RequestOf(q)];
    OnlyDeliveries(s, ps);
    assert all[..|hs|] == hs && all[|hs|] == RequestOf(q);
    assert forall i | 0 <= i < |all| :: all[i].event.Deliver?;
    SessionsAreSticky(s.engine, all, |hs|, key, backend, start, timeout);
    PairRefinesOneBalancer(s, ps);
    StepIsOneRequestOrNone(ServerAfter(s, ps), q);
  }

  /**
   Takeover and failback never move a session: after a success from some backend, every further
   success of the session comes from that backend, whichever balancer serves it.
   */
  lemma FailoverNeverMovesASession(
      s: Server, p: Packet, s': Server, ps: seq<Packet>, q: Packet, key: string, timeout: int)
    requires Sound(s.engine) && IsSuccess(s, p, key) && s' == Receive(s, p).0
    requires key in s'.engine.router.table.sessions ==>
               timeout == Timeout(s'.engine.router.table.defaultTimeout, s'.engine.router.table.sessions[key])
    requires NeverIdle(s'.engine, ForwardedRequests(s', ps) + [RequestOf(q)], key, p.now, timeout)
    requires IsSuccess(ServerAfter(s', ps), q, key)
    ensures Receive(ServerAfter(s', ps), q).1.response.backend == Receive(s, p).1.response.backend
  {
    SuccessMakesAHome(s, p, key);
    HomeAnswersTheNext(s', ps, q, key, Receive(s, p).1.response.backend, p.now, timeout);
  }

  lemma {:induction false} ServerKeepsItsRing(n: nat, start: Time, ps: seq<Packet>)
    requires n > 0
    ensures var e := ServerAfter(StartServer(n, start), ps).engine;
            e.router.ring == RingOf(CONSISTENT_HASH_VNODES, n) && SitsWhereHashed(e.router)
  {
    if ps != [] {
      var front, last := ps[..|ps| - 1], ps[|ps| - 1];
      ServerKeepsItsRing(n, start, front);
      ServerStaysUp(n, start, front);
      var s := ServerAfter(StartServer(n, start), front);
      StepIsOneRequestOrNone(s, last);
      HandleWhereHashed(s.engine, TupleOf(last), last.event.payload, last.now);
    }
  }

  /**
   The running server answers every success of a session from one and the same backend, the one
   its key hashes to: after any pauses, kills, takeovers and revivals, and whatever the clock does.
   */
  lemma RunningServerNeverMovesASession(n: nat, start: Time, ps: seq<Packet>, i: nat, key: string)
    requires n > 0 && i < |ps| && IsSuccess(ServerAfter(StartServer(n, start), ps[..i]), ps[i], key)
    ensures ReplyAt(StartServer(n, start), ps, i).response.backend == Lookup(RingOf(CONSISTENT_HASH_VNODES, n), key)
  {
    var s := ServerAfter(StartServer(n, start), ps[..i]);
    ServerKeepsItsRing(n, start, ps[..i]);
    ServerStaysUp(n, start, ps[..i]);
    StepIsOneRequestOrNone(s, ps[i]);
    HandleWhereHashed(s.engine, TupleOf(ps[i]), ps[i].event.payload, ps[i].now);
  }

  lemma OneMoreHandler(handlers: seq<RequestHandler>, h: RequestHandler, bs: seq<Backend>)
    requires BackendStates(handlers) == bs
    ensures BackendStates(handlers + [h]) == bs + [h.State()]
  {}

  /** All backends are created online and put on the ring. */
  method MakeBackends(ring: ConsistentHashRing, n: nat) returns (backends: seq<RequestHandler>)
    requires ring.State() == EmptyRing(CONSISTENT_HASH_VNODES)
    modifies ring
    ensures ring.State() == RingOf(CONSISTENT_HASH_VNODES, n)
    ensures forall i | 0 <= i < |backends| :: fresh(backends[i])
    ensures forall i, j | 0 <= i < j < |backends| :: backends[i] != backends[j]
    ensures BackendStates(backends) == FreshBackends(n)
  {
    backends := [];
    for i := 0 to n
      invariant ring.State() == RingOf(CONSISTENT_HASH_VNODES, i)
      invariant |backends| == i && forall j | 0 <= j < i :: fresh(backends[j])
      invariant forall j, k | 0 <= j < k < i :: backends[j] != backends[k]
      invariant BackendStates(backends) == FreshBackends(i)
    {
      var handler := new RequestHandler(i);
      OneMoreHandler(backends, handler, FreshBackends(i));
      backends := backends + [handler];
      assert BackendStates(backends) == FreshBackends(i + 1);
      ring.AddServer(i);
      assert BackendStates(backends) == FreshBackends(i + 1);
    }
  }

  /** All parts that the load balancers share. */
  method MakeParts(n: nat)
    returns (sessions: SessionManager, limiter: RateLimiter, security: Security, backends: seq<RequestHandler>)
    ensures sessions.State() == Table(SESSION_TIMEOUT_SEC, map[])
    ensures sessions.hashRing.State() == RingOf(CONSISTENT_HASH_VNODES, n)
    ensures limiter.State() == EmptyLimiter(RATE_LIMIT_WINDOW_SEC, RATE_LIMIT_MAX_REQUESTS)
    ensures security.State() == map[]
    ensures forall i, j | 0 <= i < j < |backends| :: backends[i] != backends[j]
    ensures BackendStates(backends) == FreshBackends(n)
  {
    var ring := new ConsistentHashRing(CONSISTENT_HASH_VNODES);
    backends := MakeBackends(ring, n);
    limiter := new RateLimiter(RATE_LIMIT_WINDOW_SEC, RATE_LIMIT_MAX_REQUESTS);
    security := new Security();
    sessions := new SessionManager(ring, SESSION_TIMEOUT_SEC);
  }

  /** The start of `runUDPServer`: all parts, the backends on the ring, and the two load balancers. */
  method SetUp(n: nat, now: Time) returns (server: UdpServer)
    ensures fresh(server) && server.Valid() && server.State() == StartServer(n, now)
  {
    var sessions, limiter, security, backends := MakeParts(n);
    var primary := new LoadBalancer(PRIMARY, sessions, limiter, security, backends);
    var standby := new LoadBalancer(STANDBY, sessions, limiter, security, backends);
    assert primary.EngineState() == StartOf(n);
    server := new UdpServer(primary, standby, now);
  }

  /** The loop with its two load balancers. */
  class UdpServer {
    const primary: LoadBalancer
    const standby: LoadBalancer
    var lastPrimaryHeartbeat: Time

    /** Both load balancers work on the same parts. */
    ghost predicate Valid() {
      && primary.Valid() && primary != standby
      && standby.sessionMgr == primary.sessionMgr && standby.hashRing == primary.hashRing
      && standby.rateLimiter == primary.rateLimiter && standby.security == primary.security
      && standby.backends == primary.backends
    }

    ghost function State(): Server
      reads this, primary, standby, primary.Shared()
    {
      Server(primary.active, standby.active, lastPrimaryHeartbeat, primary.EngineState())
    }

    constructor (primary: LoadBalancer, standby: LoadBalancer, now: Time)
      requires primary.Valid() && primary != standby
      requires standby.sessionMgr == primary.sessionMgr && standby.hashRing == primary.hashRing
      requires standby.rateLimiter == primary.rateLimiter && standby.security == primary.security
      requires standby.backends == primary.backends
      ensures Valid() && State() == Server(primary.active, standby.active, now, primary.EngineState())
    {
      this.primary := primary;
      this.standby := standby;
      lastPrimaryHeartbeat := now;
    }

    /** Serving a request touches neither the flags nor the heartbeat. */
    lemma FlagsAreNotShared()
      ensures primary !in primary.Shared() && standby !in primary.Shared() && this !in primary.Shared()
    {}

    lemma SameEngine()
      requires Valid()
      ensures standby.Shared() == primary.Shared()
      ensures standby.EngineState() == primary.EngineState()
    {}

    method RelayByPrimary(p: Packet) returns (reply: Reply)
      requires Valid() && primary.active
      modifies this, standby, primary.Shared()
      ensures (State(), reply) == PrimaryServes(old(State()), p)
    {
      lastPrimaryHeartbeat := p.now;
      if standby.active { standby.Deactivate(); }
      assert primary.EngineState() == old(primary.EngineState());
      FlagsAreNotShared();
      var response := primary.HandleRequest(TupleOf(p), p.event.payload, p.now);
      reply := Relayed(response);
    }

    method RelayByStandby(p: Packet) returns (reply: Reply)
      requires Valid() && !primary.active && standby.active
      modifies primary.Shared()
      ensures (State(), reply) == StandbyServes(old(State()), p)
    {
      SameEngine();
      FlagsAreNotShared();
      var response := standby.HandleRequest(TupleOf(p), p.event.payload, p.now);
      SameEngine();
      reply := Relayed(response);
    }

    /** One iteration of the loop, from a received packet to the reply. */
    method OnPacket(p: Packet) returns (reply: Reply)
      requires Valid()
      modifies this, primary, standby, primary.Shared()
      ensures (State(), reply) == Receive(old(State()), p)
    {
      if p.event.payload == KILL {
        primary.Deactivate();
        reply := PrimaryKilled;
      } else if p.event.payload == REVIVE {
        primary.Activate();
        reply := PrimaryRevived;
      } else if primary.active {
        reply := RelayByPrimary(p);
      } else {
        if !standby.active && ShouldTakeover(lastPrimaryHeartbeat, p.now) { standby.Activate(); }
        if standby.active {
          reply := RelayByStandby(p);
        } else {
          reply := NoActiveBalancer;
        }
      }
    }
  }
}
