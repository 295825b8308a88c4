/** Input validation and the spoof check, which counts distinct sources per address prefix. */
module Validation {
  import opened Config
  import opened Decimal
  import opened Fields
  import opened FiveTuples
  import opened Ipv4
  import opened SlidingWindow

  datatype Verdict =
    | Accepted
    | PayloadTooLarge
    | EmptyPayload
    | BadSourceIp
    | BadDestinationIp
    | BadSourcePort
    | BadDestinationPort
    | BadProtocol
    | SpoofSuspected

  function ToUpper(c: char): char {
    if 'a' <= c <= 'z' then (c as int - 'a' as int + 'A' as int) as char else c
  }

  function Upper(s: string): string {
    seq(|s|, i requires 0 <= i < |s| => ToUpper(s[i]))
  }

  function TupleVerdict(t: FiveTuple): Verdict {
    if !ValidIPv4(t.srcIp) then BadSourceIp
    else if !ValidIPv4(t.dstIp) then BadDestinationIp
    else if t.srcPort == 0 then BadSourcePort
    else if t.dstPort == 0 then BadDestinationPort
    else if Upper(t.protocol) != "TCP" && Upper(t.protocol) != "UDP" then BadProtocol
    else Accepted
  }

  function PayloadVerdict(payload: string, maxSize: int): Verdict {
    if |payload| > maxSize then PayloadTooLarge
    else if payload == "" then EmptyPayload
    else Accepted
  }

  /** Everything before the last dot, or the whole string when it has none. */
  function Subnet(ip: string): string {
    BeforeLastDot(ip, ip)
  }

  function BeforeLastDot(front: string, ip: string): string {
    if front == "" then ip
    else if front[|front| - 1] == '.' then front[..|front| - 1]
    else BeforeLastDot(front[..|front| - 1], ip)
  }

  type Trackers = Store<string>

  const SPOOF_WINDOW := SPOOF_DETECTION_WINDOW_SEC * SECOND

  function Sources(q: Queue<string>): set<string> {
    set i | 0 <= i < |q| :: q[i].event
  }

  /** `checkSpoofing`: evict, record this source, then count the distinct sources that remain. */
  function SpoofCheck(trackers: Trackers, srcIp: string, now: Time): (Trackers, Verdict) {
    var q := Evict(QueueOf(trackers, Subnet(srcIp)), now, SPOOF_WINDOW) + [At(now, srcIp)];
    (trackers[Subnet(srcIp) := q], if |Sources(q)| > SPOOF_DETECTION_THRESHOLD then SpoofSuspected else Accepted)
  }

  /** The reference check: keep every request and look at those within the window. */
  function SpoofCheckByLog(log: Trackers, srcIp: string, now: Time): (Trackers, Verdict) {
    var all := QueueOf(log, Subnet(srcIp)) + [At(now, srcIp)];
    (log[Subnet(srcIp) := all],
     if |Sources(Within(all, now, SPOOF_WINDOW))| > SPOOF_DETECTION_THRESHOLD then SpoofSuspected else Accepted)
  }

  /** `fullValidation`: the first failing check decides, and only the last one leaves a trace. */
  function FullValidation(trackers: Trackers, t: FiveTuple, payload: string, now: Time): (Trackers, Verdict) {
    if PayloadVerdict(payload, MAX_PAYLOAD_SIZE) != Accepted then (trackers, PayloadVerdict(payload, MAX_PAYLOAD_SIZE))
    else if TupleVerdict(t) != Accepted then (trackers, TupleVerdict(t))
    else SpoofCheck(trackers, t.srcIp, now)
  }

  // ---------------------------------------------------------------------------------------
  // The spoof check against the full log
  // ---------------------------------------------------------------------------------------

  function RunArrivals(trackers: Trackers, arrivals: seq<Timed<string>>): (Trackers, seq<Verdict>) {
    if arrivals == [] then (trackers, [])
    else
      var (before, verdicts) := RunArrivals(trackers, arrivals[..|arrivals| - 1]);
      var last := arrivals[|arrivals| - 1];
      var (after, verdict) := SpoofCheck(before, last.event, last.now);
      (after, verdicts + [verdict])
  }

  function RunArrivalsByLog(log: Trackers, arrivals: seq<Timed<string>>): (Trackers, seq<Verdict>) {
    if arrivals == [] then (log, [])
    else
      var (before, verdicts) := RunArrivalsByLog(log, arrivals[..|arrivals| - 1]);
      var last := arrivals[|arrivals| - 1];
      var (after, verdict) := SpoofCheckByLog(before, last.event, last.now);
      (after, verdicts + [verdict])
  }

  lemma CheckAgrees(trackers: Trackers, log: Trackers, srcIp: string, last: Time, now: Time)
    requires Tracks(trackers, log, last, SPOOF_WINDOW) && last <= now
    ensures SpoofCheck(trackers, srcIp, now).1 == SpoofCheckByLog(log, srcIp, now).1
    ensures Tracks(SpoofCheck(trackers, srcIp, now).0, SpoofCheckByLog(log, srcIp, now).0, now, SPOOF_WINDOW)
  {
    var x := At(now, srcIp);
    EvictFindsTheLog(trackers, log, Subnet(srcIp), last, now, SPOOF_WINDOW);
    WithinAppend(QueueOf(log, Subnet(srcIp)), x, now, SPOOF_WINDOW);
    TracksAfterPush(trackers, log, Subnet(srcIp), x, last, SPOOF_WINDOW);
  }

  lemma {:induction false} ArrivalsAgree(arrivals: seq<Timed<string>>, last: Time)
    requires ClockRuns(arrivals) && UpTo(arrivals, last)
    ensures RunArrivals(map[], arrivals).1 == RunArrivalsByLog(map[], arrivals).1
    ensures Tracks(RunArrivals(map[], arrivals).0, RunArrivalsByLog(map[], arrivals).0, last, SPOOF_WINDOW)
  {
    if arrivals != [] {
      var front, a := arrivals[..|arrivals| - 1], arrivals[|arrivals| - 1];
      ArrivalsAgree(front, a.now);
      var before, logBefore := RunArrivals(map[], front).0, RunArrivalsByLog(map[], front).0;
      CheckAgrees(before, logBefore, a.event, a.now, a.now);
      TracksLater(SpoofCheck(before, a.event, a.now).0, SpoofCheckByLog(logBefore, a.event, a.now).0,
                  a.now, last, SPOOF_WINDOW);
    }
  }

  /** On every run the evicting check gives the verdicts of the check that never forgets a source. */
  lemma DecidesLikeTheFullLog(arrivals: seq<Timed<string>>)
    requires ClockRuns(arrivals)
    ensures RunArrivals(map[], arrivals).1 == RunArrivalsByLog(map[], arrivals).1
  {
    ArrivalsAgree(arrivals, Latest(0, arrivals));
  }

  // ---------------------------------------------------------------------------------------
  // The bound that the spoof check is for
  // ---------------------------------------------------------------------------------------

  /** The sources of one prefix that the check let through during a span of time. */
  function LetThrough(trackers: Trackers, arrivals: seq<Timed<string>>, subnet: string, span: Span): set<string> {
    if arrivals == [] then {}
    else
      var front, a := arrivals[..|arrivals| - 1], arrivals[|arrivals| - 1];
      LetThrough(trackers, front, subnet, span)
      + if Subnet(a.event) == subnet && During(a.now, span)
           && SpoofCheck(RunArrivals(trackers, front).0, a.event, a.now).1 == Accepted then {a.event}
        else {}
  }

  lemma SourcesGrow(log: Trackers, a: Timed<string>, subnet: string, now: Time)
    ensures Sources(Within(QueueOf(SpoofCheckByLog(log, a.event, a.now).0, subnet), now, SPOOF_WINDOW))
         == Sources(Within(QueueOf(log, subnet), now, SPOOF_WINDOW))
            + if Subnet(a.event) == subnet && now - a.now <= SPOOF_WINDOW then {a.event} else {}
  {
    if Subnet(a.event) == subnet {
      WithinAppend(QueueOf(log, subnet), a, now, SPOOF_WINDOW);
      SourcesAppend(Within(QueueOf(log, subnet), now, SPOOF_WINDOW), a);
    }
  }

  /** Whoever was let through is still in the log, as long as the span lies within the window. */
  lemma {:induction false} LetThroughAreLogged(arrivals: seq<Timed<string>>, subnet: string, span: Span, now: Time)
    requires span.Closed? && now - SPOOF_WINDOW <= span.first
    ensures LetThrough(map[], arrivals, subnet, span)
         <= Sources(Within(QueueOf(RunArrivalsByLog(map[], arrivals).0, subnet), now, SPOOF_WINDOW))
  {
    if arrivals != [] {
      var front, a := arrivals[..|arrivals| - 1], arrivals[|arrivals| - 1];
      LetThroughAreLogged(front, subnet, span, now);
      SourcesGrow(RunArrivalsByLog(map[], front).0, a, subnet, now);
    }
  }

  /** The check decides by the sources within the window, this one included. */
  lemma NextVerdict(arrivals: seq<Timed<string>>, a: Timed<string>)
    requires ClockRuns(arrivals) && UpTo(arrivals, a.now)
    ensures var log := SpoofCheckByLog(RunArrivalsByLog(map[], arrivals).0, a.event, a.now).0;
            SpoofCheck(RunArrivals(map[], arrivals).0, a.event, a.now).1 == Accepted
            <==> |Sources(Within(QueueOf(log, Subnet(a.event)), a.now, SPOOF_WINDOW))| <= SPOOF_DETECTION_THRESHOLD
  {
    ArrivalsAgree(arrivals, a.now);
    CheckAgrees(RunArrivals(map[], arrivals).0, RunArrivalsByLog(map[], arrivals).0, a.event, a.now, a.now);
  }

  /** The distinct sources of a prefix that arrived, let through or not, with an age within the window. */
  function RecentSources(arrivals: seq<Timed<string>>, subnet: string, now: Time): set<string> {
    set i | 0 <= i < |arrivals| && Subnet(arrivals[i].event) == subnet && now - arrivals[i].now <= SPOOF_WINDOW ::
      arrivals[i].event
  }

  lemma OneMoreSource(arrivals: seq<Timed<string>>, subnet: string, now: Time)
    requires arrivals != []
    ensures var a := arrivals[|arrivals| - 1];
            RecentSources(arrivals, subnet, now)
            == RecentSources(arrivals[..|arrivals| - 1], subnet, now)
               + if Subnet(a.event) == subnet && now - a.now <= SPOOF_WINDOW then {a.event} else {}
  {
    var front, a := arrivals[..|arrivals| - 1], arrivals[|arrivals| - 1];
    forall s | s in RecentSources(front, subnet, now) ensures s in RecentSources(arrivals, subnet, now) {
      var i :| 0 <= i < |front| && Subnet(front[i].event) == subnet
            && now - front[i].now <= SPOOF_WINDOW && front[i].event == s;
      assert arrivals[i].event == s;
    }
    forall s | s in RecentSources(arrivals, subnet, now) && s != a.event
      ensures s in RecentSources(front, subnet, now)
    {
      var i :| 0 <= i < |arrivals| && Subnet(arrivals[i].event) == subnet
            && now - arrivals[i].now <= SPOOF_WINDOW && arrivals[i].event == s;
      assert front[i].event == s;
    }
  }

  lemma {:induction false} LogHoldsTheRecentSources(arrivals: seq<Timed<string>>, subnet: string, now: Time)
    ensures Sources(Within(QueueOf(RunArrivalsByLog(map[], arrivals).0, subnet), now, SPOOF_WINDOW))
         == RecentSources(arrivals, subnet, now)
  {
    if arrivals != [] {
      var front := arrivals[..|arrivals| - 1];
      LogHoldsTheRecentSources(front, subnet, now);
      SourcesGrow(RunArrivalsByLog(map[], front).0, arrivals[|arrivals| - 1], subnet, now);
      OneMoreSource(arrivals, subnet, now);
    }
  }

  /**
   After any arrivals a source is rejected exactly when, with it, the distinct sources of its
   prefix that arrived within the window exceed the threshold, rejected ones included.
   */
  lemma RejectedForTheRecent(arrivals: seq<Timed<string>>, srcIp: string, now: Time)
    requires ClockRuns(arrivals) && UpTo(arrivals, now)
    ensures SpoofCheck(RunArrivals(map[], arrivals).0, srcIp, now).1
         == if |RecentSources(arrivals, Subnet(srcIp), now) + {srcIp}| > SPOOF_DETECTION_THRESHOLD then SpoofSuspected
            else Accepted
  {
    NextVerdict(arrivals, At(now, srcIp));
    SourcesGrow(RunArrivalsByLog(map[], arrivals).0, At(now, srcIp), Subnet(srcIp), now);
    LogHoldsTheRecentSources(arrivals, Subnet(srcIp), now);
  }

  /** At most the threshold of distinct sources of one prefix is let through in any closed window. */
  lemma {:induction false} NoWindowExceedsTheThreshold(arrivals: seq<Timed<string>>, subnet: string, lo: Time)
    requires ClockRuns(arrivals)
    ensures |LetThrough(map[], arrivals, subnet, Closed(lo, lo + SPOOF_WINDOW))| <= SPOOF_DETECTION_THRESHOLD
  {
    if arrivals != [] {
      var front, a := arrivals[..|arrivals| - 1], arrivals[|arrivals| - 1];
      var span := Closed(lo, lo + SPOOF_WINDOW);
      NoWindowExceedsTheThreshold(front, subnet, lo);
      if LetThrough(map[], arrivals, subnet, span) != LetThrough(map[], front, subnet, span) {
        NextVerdict(front, a);
        LetThroughAreLogged(arrivals, subnet, span, a.now);
        FewerElements(LetThrough(map[], arrivals, subnet, span),
                      Sources(Within(QueueOf(RunArrivalsByLog(map[], arrivals).0, subnet), a.now, SPOOF_WINDOW)));
      }
    }
  }

  lemma FewerElements<T>(a: set<T>, b: set<T>)
    requires a <= b
    ensures |a| <= |b| && (a < b ==> |a| < |b|)
  {
    assert b == a + (b - a);
    assert a < b ==> b - a != {};
  }

  // ---------------------------------------------------------------------------------------
  // Prefixes and keys of valid tuples
  // ---------------------------------------------------------------------------------------

  lemma {:induction false} BeforeLastDotSkips(front: string, tail: string, ip: string)
    requires Free(tail, '.')
    ensures BeforeLastDot(front + ['.'] + tail, ip) == front
  {
    var s := front + ['.'] + tail;
    if tail == "" {
      assert s[..|s| - 1] == front;
    } else {
      assert s[..|s| - 1] == front + ['.'] + tail[..|tail| - 1];
      BeforeLastDotSkips(front, tail[..|tail| - 1], ip);
    }
  }

  /** The prefix of a dotted address is its first three octets; a trailing dot keeps all four. */
  lemma SubnetOfAddress(o: Octets)
    ensures Subnet(Dotted(o)) == NatToString(o[0]) + "." + NatToString(o[1]) + "." + NatToString(o[2])
    ensures Subnet(Dotted(o) + ['.']) == Dotted(o)
  {
    var three := NatToString(o[0]) + "." + NatToString(o[1]) + "." + NatToString(o[2]);
    assert Dotted(o) == three + ['.'] + NatToString(o[3]);
    DigitsAreFree(NatToString(o[3]), '.');
    BeforeLastDotSkips(three, NatToString(o[3]), Dotted(o));
    assert Dotted(o) + ['.'] == Dotted(o) + ['.'] + "";
    BeforeLastDotSkips(Dotted(o), "", Dotted(o) + ['.']);
  }

  // ---------------------------------------------------------------------------------------
  // What is accepted, in terms of the characters
  // ---------------------------------------------------------------------------------------

  ghost predicate IsAddress(ip: string) {
    IsIPv4Address(ip) || IsAddressWithDot(ip)
  }

  /** TCP or UDP, each letter in either case. */
  predicate IsTransport(p: string) {
    && |p| == 3 && p[2] in "Pp"
    && ((p[0] in "Tt" && p[1] in "Cc") || (p[0] in "Uu" && p[1] in "Dd"))
  }

  lemma LetterInEitherCase(c: char, upper: char, lower: char)
    requires 'A' <= upper <= 'Z' && lower as int == upper as int + 32
    ensures ToUpper(c) == upper <==> c in [upper, lower]
  {}

  lemma TransportSpellings(p: string)
    ensures Upper(p) == "TCP" || Upper(p) == "UDP" <==> IsTransport(p)
  {
    if |p| == 3 {
      assert Upper(p) == [ToUpper(p[0]), ToUpper(p[1]), ToUpper(p[2])];
      LetterInEitherCase(p[0], 'T', 't');
      LetterInEitherCase(p[1], 'C', 'c');
      LetterInEitherCase(p[2], 'P', 'p');
      LetterInEitherCase(p[0], 'U', 'u');
      LetterInEitherCase(p[1], 'D', 'd');
      assert "TCP" == ['T', 'C', 'P'] && "UDP" == ['U', 'D', 'P'];
    } else {
      assert |Upper(p)| == |p|;
    }
  }

  /** A tuple is accepted exactly for two addresses, two ports that are not 0, and TCP or UDP in any spelling. */
  lemma TupleIsAccepted(t: FiveTuple)
    ensures TupleVerdict(t) == Accepted
       <==> && IsAddress(t.srcIp) && IsAddress(t.dstIp) && t.srcPort != 0 && t.dstPort != 0
            && IsTransport(t.protocol)
  {
    AcceptedStrings(t.srcIp);
    AcceptedStrings(t.dstIp);
    TransportSpellings(t.protocol);
  }

  /** A payload and a tuple that nothing is wrong with. */
  ghost predicate IsWellFormedRequest(t: FiveTuple, payload: string) {
    && 1 <= |payload| <= 1024
    && IsAddress(t.srcIp) && IsAddress(t.dstIp) && t.srcPort != 0 && t.dstPort != 0 && IsTransport(t.protocol)
  }

  /**
   The first thing that is wrong decides: size, emptiness, source address, destination address,
   source port, destination port, protocol; and only a request without fault is looked up.
   */
  lemma FirstFaultDecides(trackers: Trackers, t: FiveTuple, payload: string, now: Time)
    ensures var (trackers', v) := FullValidation(trackers, t, payload, now);
            var sized := 1 <= |payload| <= 1024;
            var located := sized && IsAddress(t.srcIp) && IsAddress(t.dstIp);
            && (v == PayloadTooLarge <==> |payload| > 1024)
            && (v == EmptyPayload <==> |payload| == 0)
            && (v == BadSourceIp <==> sized && !IsAddress(t.srcIp))
            && (v == BadDestinationIp <==> sized && IsAddress(t.srcIp) && !IsAddress(t.dstIp))
            && (v == BadSourcePort <==> located && t.srcPort == 0)
            && (v == BadDestinationPort <==> located && t.srcPort != 0 && t.dstPort == 0)
            && (v == BadProtocol <==> located && t.srcPort != 0 && t.dstPort != 0 && !IsTransport(t.protocol))
            && (v == Accepted || v == SpoofSuspected <==> IsWellFormedRequest(t, payload))
            && (trackers' != trackers ==> IsWellFormedRequest(t, payload))
  {
    AcceptedStrings(t.srcIp);
    AcceptedStrings(t.dstIp);
    TransportSpellings(t.protocol);
  }

  lemma UpperIsPlain(protocol: string)
    requires Upper(protocol) == "TCP" || Upper(protocol) == "UDP"
    ensures Free(protocol, '/')
  {
    TransportSpellings(protocol);
  }

  /** A tuple that passes validation shares its key with no other tuple at all. */
  lemma ValidTuplesHaveOwnKeys(s: FiveTuple, t: FiveTuple)
    requires TupleVerdict(t) == Accepted && ToKey(s) == ToKey(t)
    ensures s == t
  {
    ValidIsPlain(t.srcIp, '>');
    ValidIsPlain(t.dstIp, '>');
    ValidIsPlain(t.dstIp, '/');
    UpperIsPlain(t.protocol);
    UnmarkedKeysAreOwn(s, t);
  }

  /** The validation object that all load balancers share. */
  class Security {
    var subnetTrackers: Trackers

    ghost function State(): Trackers
      reads this
    {
      subnetTrackers
    }

    constructor ()
      ensures State() == map[]
    {
      subnetTrackers := map[];
    }

    method ValidateTuple(ft: FiveTuple) returns (v: Verdict)
      ensures v == TupleVerdict(ft)
    {
      var ok := IsValidIPv4(ft.srcIp);
      if !ok { return BadSourceIp; }
      ok := IsValidIPv4(ft.dstIp);
      if !ok { return BadDestinationIp; }
      if ft.srcPort == 0 { return BadSourcePort; }
      if ft.dstPort == 0 { return BadDestinationPort; }
      var proto := Upper(ft.protocol);
      if proto != "TCP" && proto != "UDP" { return BadProtocol; }
      return Accepted;
    }

    method CheckSpoofing(srcIp: string, now: Time) returns (v: Verdict)
      modifies this
      ensures (State(), v) == SpoofCheck(old(State()), srcIp, now)
    {
      var subnet := Subnet(srcIp);
      var entries := PopExpired(QueueOf(subnetTrackers, subnet), now, SPOOF_WINDOW);
      entries := entries + [At(now, srcIp)];
      subnetTrackers := subnetTrackers[subnet := entries];
      var uniqueIps: set<string> := {};
      for i := 0 to |entries|
        invariant subnetTrackers == old(subnetTrackers)[subnet := entries]
        invariant uniqueIps == Sources(entries[..i])
      {
        assert entries[..i + 1] == entries[..i] + [entries[i]];
        SourcesAppend(entries[..i], entries[i]);
        uniqueIps := uniqueIps + {entries[i].event};
      }
      assert entries[..|entries|] == entries;
      if |uniqueIps| > SPOOF_DETECTION_THRESHOLD { return SpoofSuspected; }
      return Accepted;
    }

    method FullCheck(ft: FiveTuple, payload: string, now: Time) returns (v: Verdict)
      modifies this
      ensures (State(), v) == FullValidation(old(State()), ft, payload, now)
    {
      v := PayloadVerdict(payload, MAX_PAYLOAD_SIZE);
      if v != Accepted { return; }
      v := ValidateTuple(ft);
      if v != Accepted { return; }
      v := CheckSpoofing(ft.srcIp, now);
    }
  }

  lemma SourcesAppend(q: Queue<string>, x: Timed<string>)
    ensures Sources(q + [x]) == Sources(q) + {x.event}
  {
    var both := q + [x];
    forall s | s in Sources(q) ensures s in Sources(both) {
      var i :| 0 <= i < |q| && q[i].event == s;
      assert both[i].event == s;
    }
    assert both[|q|].event == x.event;
  }
}
