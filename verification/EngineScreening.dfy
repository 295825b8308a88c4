/** The rate limit and the spoof check over every run of the engine. */
module EngineScreening {
  import opened Config
  import opened FiveTuples
  import opened SlidingWindow
  import opened RateLimiting
  import opened Validation
  import opened Engines
  import opened EngineRuns

  // ---------------------------------------------------------------------------------------
  // The rate limit across all backends
  // ---------------------------------------------------------------------------------------

  predicate PassesSecurity(e: Engine, h: Timed<EngineEvent>) {
    h.event.Deliver? && FullValidation(e.trackers, h.event.ft, h.event.payload, h.now).1 == Accepted
  }

  /** The limiter call of a request that passed security. */
  function CallOf(h: Timed<EngineEvent>): Timed<Call>
    requires h.event.Deliver?
  {
    At(h.now, Allow(ToKey(h.event.ft)))
  }

  /** The limiter calls that a run makes. */
  function Calls(e: Engine, hs: seq<Timed<EngineEvent>>): seq<Timed<Call>> {
    if hs == [] then []
    else
      var front, last := hs[..|hs| - 1], hs[|hs| - 1];
      if PassesSecurity(EngineAfter(e, front), last) then Calls(e, front) + [CallOf(last)] else Calls(e, front)
  }

  lemma StepOfLimiter(e: Engine, h: Timed<EngineEvent>)
    ensures var (e', r) := EngineStep(e, h);
            if PassesSecurity(e, h) then
              && e'.limiter == Allowing(e.limiter, ToKey(h.event.ft), h.now).0
              && (r.Success? ==> Allowing(e.limiter, ToKey(h.event.ft), h.now).1)
            else e'.limiter == e.limiter && !r.Success?
  {
    if PassesSecurity(e, h) {
      RouteAndServeAnswers(Screen(e, h.event.ft, h.event.payload, h.now).0, h.event.ft, h.now);
    }
  }

  lemma RunStep(l: Limiter, calls: seq<Timed<Call>>, c: Timed<Call>)
    ensures RunCalls(l, calls + [c]).0 == HandleCall(RunCalls(l, calls).0, c).0
    ensures RunCallsByLog(l, calls + [c]).0 == HandleCallByLog(RunCallsByLog(l, calls).0, c).0
  {
    assert (calls + [c])[..|calls|] == calls;
  }

  lemma {:induction false} LimiterFollowsCalls(e: Engine, hs: seq<Timed<EngineEvent>>)
    ensures EngineAfter(e, hs).limiter == RunCalls(e.limiter, Calls(e, hs)).0
  {
    if hs != [] {
      var front, last := hs[..|hs| - 1], hs[|hs| - 1];
      LimiterFollowsCalls(e, front);
      StepOfLimiter(EngineAfter(e, front), last);
      if PassesSecurity(EngineAfter(e, front), last) {
        RunStep(e.limiter, Calls(e, front), CallOf(last));
      }
    }
  }

  lemma {:induction false} CallsFollowTheClock(e: Engine, hs: seq<Timed<EngineEvent>>, last: Time)
    requires ClockRuns(hs) && UpTo(hs, last)
    ensures ClockRuns(Calls(e, hs)) && UpTo(Calls(e, hs), last)
  {
    if hs != [] {
      CallsFollowTheClock(e, hs[..|hs| - 1], hs[|hs| - 1].now);
    }
  }

  /** The limiter inside the engine answers the next request as the full log of its calls would. */
  lemma NextAnswerIsByLog(e: Engine, front: seq<Timed<EngineEvent>>, c: Timed<Call>)
    requires e.limiter.queues == map[] && ClockRuns(front) && UpTo(front, c.now)
    ensures HandleCall(EngineAfter(e, front).limiter, c).1
         == HandleCallByLog(RunCallsByLog(e.limiter, Calls(e, front)).0, c).1
  {
    LimiterFollowsCalls(e, front);
    CallsFollowTheClock(e, front, c.now);
    CallsAgree(e.limiter, Calls(e, front), c.now);
    var calls := Calls(e, front);
    AgreeAfterCall(RunCalls(e.limiter, calls).0, RunCallsByLog(e.limiter, calls).0, c, c.now);
  }

  /** Every success of the engine was allowed by the full log of its limiter calls. */
  lemma SuccessWasAllowed(e: Engine, front: seq<Timed<EngineEvent>>, h: Timed<EngineEvent>)
    requires e.limiter.queues == map[] && ClockRuns(front) && UpTo(front, h.now)
    requires EngineStep(EngineAfter(e, front), h).1.Success?
    ensures PassesSecurity(EngineAfter(e, front), h)
    ensures HandleCallByLog(RunCallsByLog(e.limiter, Calls(e, front)).0, CallOf(h)).1
  {
    StepOfLimiter(EngineAfter(e, front), h);
    NextAnswerIsByLog(e, front, CallOf(h));
  }

  lemma AllowedGrow(e: Engine, hs: seq<Timed<EngineEvent>>, key: string, span: Span)
    requires hs != []
    ensures var front, last := hs[..|hs| - 1], hs[|hs| - 1];
            var log, log' := RunCallsByLog(e.limiter, Calls(e, front)).0, RunCallsByLog(e.limiter, Calls(e, hs)).0;
            AllowedIn(QueueOf(log'.queues, key), span) >= AllowedIn(QueueOf(log.queues, key), span)
              + if PassesSecurity(EngineAfter(e, front), last) && Delivers(last, key) && During(last.now, span)
                   && HandleCallByLog(log, CallOf(last)).1 then 1 else 0
  {
    var front, last := hs[..|hs| - 1], hs[|hs| - 1];
    if PassesSecurity(EngineAfter(e, front), last) {
      RunStep(e.limiter, Calls(e, front), CallOf(last));
      LogGrows(RunCallsByLog(e.limiter, Calls(e, front)).0, CallOf(last), key, span);
    }
  }

  lemma {:induction false} SuccessesWereAllowed(e: Engine, hs: seq<Timed<EngineEvent>>, key: string, span: Span)
    requires e.limiter.queues == map[] && ClockRuns(hs)
    ensures Successes(e, hs, key, span)
         <= AllowedIn(QueueOf(RunCallsByLog(e.limiter, Calls(e, hs)).0.queues, key), span)
  {
    if hs != [] {
      var front, last := hs[..|hs| - 1], hs[|hs| - 1];
      SuccessesWereAllowed(e, front, key, span);
      AllowedGrow(e, hs, key, span);
      if EngineStep(EngineAfter(e, front), last).1.Success? {
        SuccessWasAllowed(e, front, last);
      }
    }
  }

  /** In no closed window do all backends together serve more requests of one key than the limit. */
  lemma RateLimitAcrossBackends(e: Engine, hs: seq<Timed<EngineEvent>>, key: string, lo: Time)
    requires e.limiter == EmptyLimiter(RATE_LIMIT_WINDOW_SEC, RATE_LIMIT_MAX_REQUESTS) && ClockRuns(hs)
    ensures Successes(e, hs, key, Closed(lo, lo + RATE_LIMIT_WINDOW_SEC * SECOND)) <= RATE_LIMIT_MAX_REQUESTS
  {
    CallsFollowTheClock(e, hs, Latest(0, hs));
    SuccessesWereAllowed(e, hs, key, Closed(lo, lo + RATE_LIMIT_WINDOW_SEC * SECOND));
    NoWindowExceedsTheLimit(RATE_LIMIT_WINDOW_SEC, RATE_LIMIT_MAX_REQUESTS, Calls(e, hs), key, lo);
  }

  // ---------------------------------------------------------------------------------------
  // The spoof threshold across all backends
  // ---------------------------------------------------------------------------------------

  /** Only requests with a sound payload and tuple come as far as the spoof check. */
  predicate ReachesSpoofCheck(h: Timed<EngineEvent>) {
    && h.event.Deliver?
    && PayloadVerdict(h.event.payload, MAX_PAYLOAD_SIZE) == Accepted && TupleVerdict(h.event.ft) == Accepted
  }

  function ArrivalOf(h: Timed<EngineEvent>): Timed<string>
    requires h.event.Deliver?
  {
    At(h.now, h.event.ft.srcIp)
  }

  /** The sources that the spoof check of a run looks at. */
  function Arrivals(hs: seq<Timed<EngineEvent>>): seq<Timed<string>> {
    if hs == [] then []
    else
      var front, last := hs[..|hs| - 1], hs[|hs| - 1];
      if ReachesSpoofCheck(last) then Arrivals(front) + [ArrivalOf(last)] else Arrivals(front)
  }

  /** A request from one prefix that security did not reject. */
  predicate LetsIn(e: Engine, h: Timed<EngineEvent>, subnet: string) {
    h.event.Deliver? && Subnet(h.event.ft.srcIp) == subnet && !EngineStep(e, h).1.SecurityRejected?
  }

  /** The sources of one prefix whose requests security did not reject during a span of time. */
  function SourcesLetIn(e: Engine, hs: seq<Timed<EngineEvent>>, subnet: string, span: Span): set<string> {
    if hs == [] then {}
    else
      var front, last := hs[..|hs| - 1], hs[|hs| - 1];
      SourcesLetIn(e, front, subnet, span)
      + if LetsIn(EngineAfter(e, front), last, subnet) && During(last.now, span) then {last.event.ft.srcIp} else {}
  }

  lemma StepOfTrackers(e: Engine, h: Timed<EngineEvent>)
    ensures EngineStep(e, h).0.trackers
         == if ReachesSpoofCheck(h) then SpoofCheck(e.trackers, h.event.ft.srcIp, h.now).0 else e.trackers
    ensures h.event.Deliver? ==>
              (!EngineStep(e, h).1.SecurityRejected? <==>
               ReachesSpoofCheck(h) && SpoofCheck(e.trackers, h.event.ft.srcIp, h.now).1 == Accepted)
  {
    if h.event.Deliver? {
      RouteAndServeAnswers(Screen(e, h.event.ft, h.event.payload, h.now).0, h.event.ft, h.now);
    }
  }

  lemma OneMoreArrival(trackers: Trackers, arrivals: seq<Timed<string>>, a: Timed<string>, subnet: string, span: Span)
    ensures RunArrivals(trackers, arrivals + [a]).0 == SpoofCheck(RunArrivals(trackers, arrivals).0, a.event, a.now).0
    ensures LetThrough(trackers, arrivals + [a], subnet, span)
         == LetThrough(trackers, arrivals, subnet, span)
            + if Subnet(a.event) == subnet && During(a.now, span)
                 && SpoofCheck(RunArrivals(trackers, arrivals).0, a.event, a.now).1 == Accepted then {a.event}
              else {}
  {
    assert (arrivals + [a])[..|arrivals|] == arrivals;
  }

  lemma {:induction false} TrackersFollowArrivals(e: Engine, hs: seq<Timed<EngineEvent>>)
    ensures EngineAfter(e, hs).trackers == RunArrivals(e.trackers, Arrivals(hs)).0
  {
    if hs != [] {
      var front, last := hs[..|hs| - 1], hs[|hs| - 1];
      TrackersFollowArrivals(e, front);
      StepOfTrackers(EngineAfter(e, front), last);
      if ReachesSpoofCheck(last) { OneMoreArrival(e.trackers, Arrivals(front), ArrivalOf(last), "", Always); }
    }
  }

  lemma OneMoreLetIn(e: Engine, hs: seq<Timed<EngineEvent>>, subnet: string, span: Span)
    requires hs != []
    ensures var front, last := hs[..|hs| - 1], hs[|hs| - 1];
            LetThrough(e.trackers, Arrivals(hs), subnet, span)
            == LetThrough(e.trackers, Arrivals(front), subnet, span)
               + if LetsIn(EngineAfter(e, front), last, subnet) && During(last.now, span) then {last.event.ft.srcIp}
                 else {}
  {
    var front, last := hs[..|hs| - 1], hs[|hs| - 1];
    TrackersFollowArrivals(e, front);
    StepOfTrackers(EngineAfter(e, front), last);
    if ReachesSpoofCheck(last) { OneMoreArrival(e.trackers, Arrivals(front), ArrivalOf(last), subnet, span); }
  }

  lemma {:induction false} SourcesWereLetThrough(e: Engine, hs: seq<Timed<EngineEvent>>, subnet: string, span: Span)
    ensures SourcesLetIn(e, hs, subnet, span) == LetThrough(e.trackers, Arrivals(hs), subnet, span)
  {
    if hs != [] {
      SourcesWereLetThrough(e, hs[..|hs| - 1], subnet, span);
      OneMoreLetIn(e, hs, subnet, span);
    }
  }

  lemma {:induction false} ArrivalsFollowTheClock(hs: seq<Timed<EngineEvent>>, last: Time)
    requires ClockRuns(hs) && UpTo(hs, last)
    ensures ClockRuns(Arrivals(hs)) && UpTo(Arrivals(hs), last)
  {
    if hs != [] {
      ArrivalsFollowTheClock(hs[..|hs| - 1], hs[|hs| - 1].now);
    }
  }

  /** In no closed window are more distinct sources of one prefix let in than the threshold. */
  lemma SpoofThresholdAcrossBackends(e: Engine, hs: seq<Timed<EngineEvent>>, subnet: string, lo: Time)
    requires e.trackers == map[] && ClockRuns(hs)
    ensures |SourcesLetIn(e, hs, subnet, Closed(lo, lo + SPOOF_WINDOW))| <= SPOOF_DETECTION_THRESHOLD
  {
    ArrivalsFollowTheClock(hs, Latest(0, hs));
    SourcesWereLetThrough(e, hs, subnet, Closed(lo, lo + SPOOF_WINDOW));
    NoWindowExceedsTheThreshold(Arrivals(hs), subnet, lo);
  }

  // ---------------------------------------------------------------------------------------
  // Screening decided by the earlier events alone
  // ---------------------------------------------------------------------------------------

  /** With the requests before it, the request has sound parts and its prefix is not over the threshold. */
  predicate PassesAfter(front: seq<Timed<EngineEvent>>, h: Timed<EngineEvent>) {
    && ReachesSpoofCheck(h)
    && var srcIp := h.event.ft.srcIp;
       |RecentSources(Arrivals(front), Subnet(srcIp), h.now) + {srcIp}| <= SPOOF_DETECTION_THRESHOLD
  }

  /** The requests of a run that come as far as the rate limit. */
  function Admitted(hs: seq<Timed<EngineEvent>>): seq<Timed<Call>> {
    if hs == [] then []
    else
      var front, last := hs[..|hs| - 1], hs[|hs| - 1];
      if PassesAfter(front, last) then Admitted(front) + [CallOf(last)] else Admitted(front)
  }

  /** With the requests before it, the request passes security, but its key has used up its limit. */
  predicate LimitedAfter(front: seq<Timed<EngineEvent>>, h: Timed<EngineEvent>) {
    && PassesAfter(front, h)
    && Recent(Admitted(front), ToKey(h.event.ft), h.now, RATE_LIMIT_WINDOW_SEC * SECOND) >= RATE_LIMIT_MAX_REQUESTS
  }

  /** An engine that has not screened any request yet. */
  predicate Unused(e: Engine) {
    e.trackers == map[] && e.limiter == EmptyLimiter(RATE_LIMIT_WINDOW_SEC, RATE_LIMIT_MAX_REQUESTS)
  }

  lemma PassingIsDecided(e: Engine, front: seq<Timed<EngineEvent>>, h: Timed<EngineEvent>)
    requires Unused(e) && ClockRuns(front) && UpTo(front, h.now)
    ensures PassesSecurity(EngineAfter(e, front), h) <==> PassesAfter(front, h)
  {
    if ReachesSpoofCheck(h) {
      TrackersFollowArrivals(e, front);
      ArrivalsFollowTheClock(front, h.now);
      RejectedForTheRecent(Arrivals(front), h.event.ft.srcIp, h.now);
    }
  }

  lemma {:induction false} CallsAreAdmitted(e: Engine, hs: seq<Timed<EngineEvent>>)
    requires Unused(e) && ClockRuns(hs)
    ensures Calls(e, hs) == Admitted(hs)
  {
    if hs != [] {
      var front, last := hs[..|hs| - 1], hs[|hs| - 1];
      CallsAreAdmitted(e, front);
      PassingIsDecided(e, front, last);
    }
  }

  lemma LimitIsDecided(e: Engine, front: seq<Timed<EngineEvent>>, key: string, now: Time)
    requires Unused(e) && ClockRuns(front) && UpTo(front, now)
    ensures Allowing(EngineAfter(e, front).limiter, key, now).1
       <==> Recent(Admitted(front), key, now, RATE_LIMIT_WINDOW_SEC * SECOND) < RATE_LIMIT_MAX_REQUESTS
  {
    LimiterFollowsCalls(e, front);
    CallsFollowTheClock(e, front, now);
    CallsAreAdmitted(e, front);
    EvictionLeavesTheRecent(e.limiter, Calls(e, front), key, now);
  }

  lemma ScreeningAnswers(e: Engine, h: Timed<EngineEvent>)
    requires h.event.Deliver?
    ensures var r := EngineStep(e, h).1;
            && (r.SecurityRejected? <==> !PassesSecurity(e, h))
            && (r.RateLimited? <==> PassesSecurity(e, h) && !Allowing(e.limiter, ToKey(h.event.ft), h.now).1)
  {
    RouteAndServeAnswers(Screen(e, h.event.ft, h.event.payload, h.now).0, h.event.ft, h.now);
  }

  /**
   After every run of an engine that starts unused, the next request is rejected by security, or
   by the rate limit, exactly as the earlier events alone decide.
   */
  lemma ScreeningIsDecided(e: Engine, front: seq<Timed<EngineEvent>>, h: Timed<EngineEvent>)
    requires Unused(e) && ClockRuns(front) && UpTo(front, h.now) && h.event.Deliver?
    ensures var r := EngineStep(EngineAfter(e, front), h).1;
            (r.SecurityRejected? <==> !PassesAfter(front, h)) && (r.RateLimited? <==> LimitedAfter(front, h))
  {
    ScreeningAnswers(EngineAfter(e, front), h);
    PassingIsDecided(e, front, h);
    LimitIsDecided(e, front, ToKey(h.event.ft), h.now);
  }
}
