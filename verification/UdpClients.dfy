/**
 What a client of the running server may rely on, in terms of its packets alone: a client is a
 source address and a source port.
 */
module UdpClients {
  import opened Config
  import opened Decimal
  import opened Fields
  import opened FiveTuples
  import opened Ipv4
  import opened RateLimiting
  import opened Validation
  import opened Backends
  import opened Engines
  import opened EngineRuns
  import opened EngineScreening
  import opened EngineAffinity
  import opened UdpServers

  // ---------------------------------------------------------------------------------------
  // Clients
  // ---------------------------------------------------------------------------------------

  predicate IsFrom(p: Packet, ip: string, port: Port) {
    p.event.srcIp == ip && p.event.srcPort == port
  }

  /** A packet that nothing is wrong with. */
  ghost predicate IsGood(p: Packet) {
    1 <= |p.event.payload| <= 1024 && IsAddress(p.event.srcIp) && p.event.srcPort != 0
  }

  lemma AnyAddressIsAddress()
    ensures IsAddress("0.0.0.0")
  {
    var o: Octets := [0, 0, 0, 0];
    assert Dotted(o) == "0.0.0.0";
    assert IsIPv4Address("0.0.0.0");
  }

  lemma TupleOfGood(p: Packet)
    ensures IsWellFormedRequest(TupleOf(p), p.event.payload) <==> IsGood(p)
  {
    AnyAddressIsAddress();
  }

  lemma LiteralsAreUnmarked()
    ensures Free("0.0.0.0", '>') && Free("0.0.0.0", '/') && Free("UDP", '/')
  {}

  lemma TupleIsUnmarked(p: Packet)
    requires IsAddress(p.event.srcIp)
    ensures var t := TupleOf(p);
            Free(t.srcIp, '>') && Free(t.dstIp, '>') && Free(t.dstIp, '/') && Free(t.protocol, '/')
  {
    AcceptedStrings(p.event.srcIp);
    ValidIsPlain(p.event.srcIp, '>');
    LiteralsAreUnmarked();
  }

  /** The session key of a client: its address and port, and the server's side. */
  lemma KeyOfClient(p: Packet)
    ensures ToKey(TupleOf(p)) == p.event.srcIp + ":" + NatToString(p.event.srcPort) + "->0.0.0.0:9000/UDP"
  {
    var front := p.event.srcIp + ":" + NatToString(p.event.srcPort);
    assert NatToString(LB_PRIMARY_PORT) == "9000";
    ServerSide(front);
  }

  lemma ServerSide(front: string)
    ensures front + "->" + "0.0.0.0" + ":" + "9000" + "/" + "UDP" == front + "->0.0.0.0:9000/UDP"
  {
    assert "->" + "0.0.0.0" + ":" == "->0.0.0.0:";
    assert "->0.0.0.0:" + "9000" + "/" == "->0.0.0.0:9000/";
    assert "->0.0.0.0:9000/" + "UDP" == "->0.0.0.0:9000/UDP";
    assert front + "->" + "0.0.0.0" + ":" == front + "->0.0.0.0:";
    assert front + "->0.0.0.0:" + "9000" + "/" == front + "->0.0.0.0:9000/";
  }

  /** Packets share a session key exactly if they come from the same address and port. */
  lemma SameClient(p: Packet, q: Packet)
    requires IsAddress(p.event.srcIp)
    ensures ToKey(TupleOf(p)) == ToKey(TupleOf(q)) <==> IsFrom(q, p.event.srcIp, p.event.srcPort)
  {
    TupleIsUnmarked(p);
    if ToKey(TupleOf(p)) == ToKey(TupleOf(q)) {
      UnmarkedKeysAreOwn(TupleOf(q), TupleOf(p));
    }
  }

  lemma GoodReachesSpoofCheck(p: Packet)
    ensures ReachesSpoofCheck(RequestOf(p)) <==> IsGood(p)
  {
    TupleOfGood(p);
    TupleIsAccepted(TupleOf(p));
  }

  // ---------------------------------------------------------------------------------------
  // Security, in terms of packets
  // ---------------------------------------------------------------------------------------

  /** The distinct sources of a prefix that sent a good packet that was relayed, not more than 60 s ago. */
  ghost function SourcesSeen(s: Server, ps: seq<Packet>, subnet: string, now: Time): set<string> {
    if ps == [] then {}
    else
      var front, last := ps[..|ps| - 1], ps[|ps| - 1];
      SourcesSeen(s, front, subnet, now)
      + if Forwarded(ServerAfter(s, front), last) && IsGood(last) && Subnet(last.event.srcIp) == subnet
           && now - last.now <= 60 * SECOND then {last.event.srcIp}
        else {}
  }

  lemma {:induction false} SourcesSeenArrived(s: Server, ps: seq<Packet>, subnet: string, now: Time)
    ensures RecentSources(Arrivals(ForwardedRequests(s, ps)), subnet, now) == SourcesSeen(s, ps, subnet, now)
  {
    if ps != [] {
      var front, last := ps[..|ps| - 1], ps[|ps| - 1];
      SourcesSeenArrived(s, front, subnet, now);
      GoodReachesSpoofCheck(last);
      var hs := ForwardedRequests(s, front);
      assert (hs + [RequestOf(last)])[..|hs|] == hs;
      var arrivals := Arrivals(hs);
      var more := arrivals + [ArrivalOf(RequestOf(last))];
      assert more[..|arrivals|] == arrivals;
      OneMoreSource(more, subnet, now);
    }
  }

  /**
   A relayed packet is rejected by security exactly if something is wrong with it, or if with it
   more than 50 sources of its prefix sent good packets in the last 60 s.
   */
  lemma SecurityByPackets(n: nat, start: Time, ps: seq<Packet>, i: nat)
    requires ClockRuns(ps) && i < |ps| && ReplyAt(StartServer(n, start), ps, i).Relayed?
    ensures var ip := ps[i].event.srcIp;
            ReplyAt(StartServer(n, start), ps, i).response.SecurityRejected?
            <==> || !IsGood(ps[i])
                 || |SourcesSeen(StartServer(n, start), ps[..i], Subnet(ip), ps[i].now) + {ip}| > 50
  {
    ScreeningAcrossFailover(n, start, ps, i);
    GoodReachesSpoofCheck(ps[i]);
    SourcesSeenArrived(StartServer(n, start), ps[..i], Subnet(ps[i].event.srcIp), ps[i].now);
  }

  // ---------------------------------------------------------------------------------------
  // The rate limit, in terms of packets
  // ---------------------------------------------------------------------------------------

  /** The packet was relayed and not rejected by security. */
  predicate GetsPast(s: Server, p: Packet) {
    Receive(s, p).1.Relayed? && !Receive(s, p).1.response.SecurityRejected?
  }

  /** How many packets of a client got past security, not more than 60 s ago. */
  function RecentPackets(s: Server, ps: seq<Packet>, ip: string, port: Port, now: Time): nat {
    if ps == [] then 0
    else
      var front, last := ps[..|ps| - 1], ps[|ps| - 1];
      RecentPackets(s, front, ip, port, now)
      + if IsFrom(last, ip, port) && GetsPast(ServerAfter(s, front), last) && now - last.now <= 60 * SECOND then 1
        else 0
  }

  /** One more packet is admitted to the rate limit exactly if it got past security. */
  lemma AdmittedGrow(n: nat, start: Time, ps: seq<Packet>)
    requires ps != [] && ClockRuns(ps)
    ensures var s, front, last := StartServer(n, start), ps[..|ps| - 1], ps[|ps| - 1];
            Admitted(ForwardedRequests(s, ps))
            == if GetsPast(ServerAfter(s, front), last)
               then Admitted(ForwardedRequests(s, front)) + [CallOf(RequestOf(last))]
               else Admitted(ForwardedRequests(s, front))
  {
    var s, front, last := StartServer(n, start), ps[..|ps| - 1], ps[|ps| - 1];
    ExactlyOneRoutes(ServerAfter(s, front), last);
    if Forwarded(ServerAfter(s, front), last) {
      ScreeningAcrossFailover(n, start, ps, |ps| - 1);
      var hs := ForwardedRequests(s, front);
      assert (hs + [RequestOf(last)])[..|hs|] == hs;
    }
  }

  lemma {:induction false} RecentAreAdmitted(n: nat, start: Time, ps: seq<Packet>, p: Packet, now: Time)
    requires ClockRuns(ps) && IsAddress(p.event.srcIp)
    ensures Recent(Admitted(ForwardedRequests(StartServer(n, start), ps)), ToKey(TupleOf(p)), now, 60 * SECOND)
         == RecentPackets(StartServer(n, start), ps, p.event.srcIp, p.event.srcPort, now)
  {
    if ps != [] {
      var front, last := ps[..|ps| - 1], ps[|ps| - 1];
      RecentAreAdmitted(n, start, front, p, now);
      AdmittedGrow(n, start, ps);
      SameClient(p, last);
      var calls := Admitted(ForwardedRequests(StartServer(n, start), front));
      assert (calls + [CallOf(RequestOf(last))])[..|calls|] == calls;
    }
  }

  lemma PastIsGood(n: nat, start: Time, ps: seq<Packet>, i: nat)
    requires ClockRuns(ps) && i < |ps| && GetsPast(ServerAfter(StartServer(n, start), ps[..i]), ps[i])
    ensures IsGood(ps[i])
    ensures PassesAfter(ForwardedRequests(StartServer(n, start), ps[..i]), RequestOf(ps[i]))
  {
    ScreeningAcrossFailover(n, start, ps, i);
    GoodReachesSpoofCheck(ps[i]);
  }

  lemma LimitInNumbers(front: seq<Timed<EngineEvent>>, h: Timed<EngineEvent>)
    ensures LimitedAfter(front, h)
       <==> PassesAfter(front, h) && Recent(Admitted(front), ToKey(h.event.ft), h.now, 60 * SECOND) >= 100
  {}

  lemma LimitedByPackets(n: nat, start: Time, ps: seq<Packet>, p: Packet)
    requires ClockRuns(ps) && IsAddress(p.event.srcIp)
    ensures var s := StartServer(n, start);
            LimitedAfter(ForwardedRequests(s, ps), RequestOf(p))
            <==> && PassesAfter(ForwardedRequests(s, ps), RequestOf(p))
                 && RecentPackets(s, ps, p.event.srcIp, p.event.srcPort, p.now) >= 100
  {
    LimitInNumbers(ForwardedRequests(StartServer(n, start), ps), RequestOf(p));
    RecentAreAdmitted(n, start, ps, p, p.now);
  }

  /**
   A packet that got past security is turned away by the rate limit exactly if 100 or more packets
   of the very same address and port got past security in the last 60 s.
   */
  lemma RateLimitByPackets(n: nat, start: Time, ps: seq<Packet>, i: nat)
    requires ClockRuns(ps) && i < |ps| && GetsPast(ServerAfter(StartServer(n, start), ps[..i]), ps[i])
    ensures var p := ps[i].event;
            ReplyAt(StartServer(n, start), ps, i).response.RateLimited?
            <==> RecentPackets(StartServer(n, start), ps[..i], p.srcIp, p.srcPort, ps[i].now) >= 100
  {
    PrefixRuns(ps, i);
    PastIsGood(n, start, ps, i);
    LimitedByPackets(n, start, ps[..i], ps[i]);
    ScreeningAcrossFailover(n, start, ps, i);
  }

  // ---------------------------------------------------------------------------------------
  // Service, in terms of packets
  // ---------------------------------------------------------------------------------------

  predicate Succeeds(s: Server, p: Packet) {
    Receive(s, p).1.Relayed? && Receive(s, p).1.response.Success?
  }

  /** How many packets of a client succeeded during a span of time. */
  function ClientSuccesses(s: Server, ps: seq<Packet>, ip: string, port: Port, span: Span): nat {
    if ps == [] then 0
    else
      var front, last := ps[..|ps| - 1], ps[|ps| - 1];
      ClientSuccesses(s, front, ip, port, span)
      + if IsFrom(last, ip, port) && Succeeds(ServerAfter(s, front), last) && During(last.now, span) then 1 else 0
  }

  lemma {:induction false} ClientsAreKeys(s: Server, ps: seq<Packet>, p: Packet, span: Span)
    requires IsAddress(p.event.srcIp)
    ensures ClientSuccesses(s, ps, p.event.srcIp, p.event.srcPort, span)
         == SuccessReplies(s, ps, ToKey(TupleOf(p)), span)
  {
    if ps != [] {
      ClientsAreKeys(s, ps[..|ps| - 1], p, span);
      SameClient(p, ps[|ps| - 1]);
    }
  }

  lemma {:induction false} OnlyAddressesSucceed(s: Server, ps: seq<Packet>, ip: string, port: Port, span: Span)
    requires !IsAddress(ip)
    ensures ClientSuccesses(s, ps, ip, port, span) == 0
  {
    if ps != [] {
      var front, last := ps[..|ps| - 1], ps[|ps| - 1];
      OnlyAddressesSucceed(s, front, ip, port, span);
      if Succeeds(ServerAfter(s, front), last) { SuccessIsGood(ServerAfter(s, front), last); }
    }
  }

  /** No client gets more than 100 successes in any closed 60 s. */
  lemma ClientsStayWithinTheLimit(n: nat, start: Time, ps: seq<Packet>, ip: string, port: Port, lo: Time)
    requires ClockRuns(ps)
    ensures ClientSuccesses(StartServer(n, start), ps, ip, port, Closed(lo, lo + 60 * SECOND)) <= 100
  {
    var s, span := StartServer(n, start), Closed(lo, lo + 60 * SECOND);
    if IsAddress(ip) {
      var p: Packet := At(0, Datagram(ip, port, ""));
      ClientsAreKeys(s, ps, p, span);
      RateLimitAcrossFailover(n, start, ps, ToKey(TupleOf(p)), lo);
    } else {
      OnlyAddressesSucceed(s, ps, ip, port, span);
    }
  }

  lemma {:induction false} ServerCountsWhereHashed(n: nat, start: Time, ps: seq<Packet>)
    requires n > 0
    ensures CountedWhereHashed(ServerAfter(StartServer(n, start), ps).engine)
  {
    if ps != [] {
      var front, last := ps[..|ps| - 1], ps[|ps| - 1];
      var s := ServerAfter(StartServer(n, start), front);
      ServerCountsWhereHashed(n, start, front);
      ServerKeepsItsRing(n, start, front);
      ServerStaysUp(n, start, front);
      StepIsOneRequestOrNone(s, last);
      HandleCountsWhereHashed(s.engine, TupleOf(last), last.event.payload, last.now);
    }
  }

  lemma {:induction false} NothingServedAtFirst(n: nat, key: string)
    ensures Served(FreshBackends(n), key) == 0
  {
    ServedNowhere(FreshBackends(n), key);
  }

  /** What all backends together have counted for a key is what its clients saw succeed. */
  lemma ServedIsSeen(n: nat, start: Time, ps: seq<Packet>, key: string)
    ensures Served(ServerAfter(StartServer(n, start), ps).engine.backends, key)
         == SuccessReplies(StartServer(n, start), ps, key, Always)
  {
    var s := StartServer(n, start);
    StartIsSound(n);
    NothingServedAtFirst(n, key);
    PairRefinesOneBalancer(s, ps);
    SuccessesAreCounted(s.engine, ForwardedRequests(s, ps), key);
    RepliesAreEngineSuccesses(s, ps, key, Always);
  }

  /** The number in a success reply is the count of its backend for the key. */
  lemma NumberIsTheCount(s: Server, p: Packet)
    requires Sound(s.engine) && Succeeds(s, p)
    ensures var (s', reply) := Receive(s, p);
            && 0 <= reply.response.backend < |s'.engine.backends|
            && reply.response.number == CountOf(s'.engine.backends[reply.response.backend].counts, ToKey(TupleOf(p)))
  {
    StepIsOneRequestOrNone(s, p);
    HandleDelivers(s.engine, TupleOf(p), p.event.payload, p.now);
  }

  lemma SuccessIsGood(s: Server, p: Packet)
    requires Succeeds(s, p)
    ensures IsGood(p)
  {
    StepIsOneRequestOrNone(s, p);
    ScreenKeepsTheRest(s.engine, TupleOf(p), p.event.payload, p.now);
    FirstFaultDecides(s.engine.trackers, TupleOf(p), p.event.payload, p.now);
    TupleOfGood(p);
  }

  /**
   Every success of a client comes from one and the same backend, and carries how many of the
   client's packets have succeeded so far: nobody else is counted with it, and none is lost in a
   takeover or a failback.
   */
  lemma ClientsAreServedByOne(n: nat, start: Time, ps: seq<Packet>, i: nat)
    requires n > 0 && i < |ps| && Succeeds(ServerAfter(StartServer(n, start), ps[..i]), ps[i])
    ensures var s, p := StartServer(n, start), ps[i].event;
            var r := ReplyAt(s, ps, i).response;
            && r.number == ClientSuccesses(s, ps[..i + 1], p.srcIp, p.srcPort, Always)
            && forall j | 0 <= j < |ps| && Succeeds(ServerAfter(s, ps[..j]), ps[j])
                          && IsFrom(ps[j], p.srcIp, p.srcPort) ::
                 ReplyAt(s, ps, j).response.backend == r.backend
  {
    var s, key := StartServer(n, start), ToKey(TupleOf(ps[i]));
    SuccessIsGood(ServerAfter(s, ps[..i]), ps[i]);
    NumberIsSeen(n, start, ps, i);
    ClientsAreKeys(s, ps[..i + 1], ps[i], Always);
    RunningServerNeverMovesASession(n, start, ps, i, key);
    forall j | 0 <= j < |ps| && Succeeds(ServerAfter(s, ps[..j]), ps[j])
            && IsFrom(ps[j], ps[i].event.srcIp, ps[i].event.srcPort)
      ensures ReplyAt(s, ps, j).response.backend == ReplyAt(s, ps, i).response.backend
    {
      RunningServerNeverMovesASession(n, start, ps, j, key);
    }
  }

  lemma NumberIsSeen(n: nat, start: Time, ps: seq<Packet>, i: nat)
    requires n > 0 && i < |ps| && Succeeds(ServerAfter(StartServer(n, start), ps[..i]), ps[i])
    ensures var s := StartServer(n, start);
            ReplyAt(s, ps, i).response.number == SuccessReplies(s, ps[..i + 1], ToKey(TupleOf(ps[i])), Always)
  {
    var s, key := StartServer(n, start), ToKey(TupleOf(ps[i]));
    var before, after := ServerAfter(s, ps[..i]), ServerAfter(s, ps[..i + 1]);
    assert ps[..i + 1][..i] == ps[..i];
    assert after == Receive(before, ps[i]).0;
    ServerStaysUp(n, start, ps[..i]);
    NumberIsTheCount(before, ps[i]);
    RunningServerNeverMovesASession(n, start, ps, i, key);
    ServerKeepsItsRing(n, start, ps[..i + 1]);
    ServerCountsWhereHashed(n, start, ps[..i + 1]);
    ServedAtOne(after.engine.backends, ReplyAt(s, ps, i).response.backend, key);
    ServedIsSeen(n, start, ps[..i + 1], key);
  }
}
