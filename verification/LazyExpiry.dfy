/**
 Expired sessions stay in the table until someone looks. This module shows that removing them
 earlier goes unnoticed, and what goes wrong when an operator revives one.
 */
module LazyExpiry {
  import opened Config
  import opened FiveTuples
  import opened HashRing
  import opened Sessions
  import opened Routing

  /** The eager table lacks some sessions of the lazy one, all of them expired and unblocked. */
  ghost predicate Lags(lazy: Router, eager: Router, gone: set<string>, now: Time) {
    && lazy.ring == eager.ring
    && eager.table == lazy.table.(sessions := lazy.table.sessions - gone)
    && forall key | key in gone && key in lazy.table.sessions ::
         var e := lazy.table.sessions[key];
         !e.blocked && Expired(lazy.table.defaultTimeout, e, now)
  }

  /** The keys still missing on the eager side after one event. */
  function GoneAfter(gone: set<string>, t: Timed<Event>): set<string> {
    match t.event
    case Request(ft) => gone - {ToKey(ft)}
    case Admin(CleanUp) => {}
    case _ => gone
  }

  function GoneThrough(gone: set<string>, ts: seq<Timed<Event>>): set<string> {
    if ts == [] then gone else GoneAfter(GoneThrough(gone, ts[..|ts| - 1]), ts[|ts| - 1])
  }

  /** The admin call names a session that only one side still has. */
  predicate TouchesGone(gone: set<string>, t: Timed<Event>) {
    match t.event
    case Admin(Reassign(key)) => key in gone
    case Admin(SetBlocked(key, _)) => key in gone
    case Admin(SetTimeout(key, _)) => key in gone
    case _ => false
  }

  predicate NeverTouchesGone(gone: set<string>, ts: seq<Timed<Event>>) {
    forall i | 0 <= i < |ts| :: !TouchesGone(GoneThrough(gone, ts[..i]), ts[i])
  }

  /** After a write under a key, that key no longer makes a difference. */
  lemma WriteClosesTheGap(s: map<string, Session>, gone: set<string>, key: string, x: Session)
    ensures s[key := x] - (gone - {key}) == (s - gone)[key := x]
    ensures (s - {key})[key := x] - (gone - {key}) == ((s - gone) - {key})[key := x]
  {}

  lemma RequestLags(
      lazy: Router, eager: Router, gone: set<string>, ft: FiveTuple, target: int, before: Time, now: Time)
    requires Lags(lazy, eager, gone, before) && before <= now
    ensures var l := Route(lazy.table, lazy.ring, ft, target, now);
            var e := Route(eager.table, eager.ring, ft, target, now);
            l.1 == e.1 && Lags(lazy.(table := l.0), eager.(table := e.0), gone - {ToKey(ft)}, now)
  {
    var key, s := ToKey(ft), lazy.table.sessions;
    WriteClosesTheGap(s, gone, key, NewSession(ft, Lookup(lazy.ring, key), now));
    assert (s - {key}) - (gone - {key}) == (s - gone) - {key};
    if key in gone {
      assert (s - gone) - {key} == s - gone;
      assert key !in s ==> s - (gone - {key}) == s - gone;
    } else {
      assert gone - {key} == gone;
      if key in s {
        var e := s[key];
        WriteClosesTheGap(s, gone, key, e.(lastAccess := now));
        WriteClosesTheGap(s, gone, key, MoveTo(e, Lookup(lazy.ring, key), Failover(e.backend), now));
      }
    }
  }

  lemma LoseLags(lazy: Router, eager: Router, gone: set<string>, server: int, before: Time, now: Time)
    requires Lags(lazy, eager, gone, before) && before <= now
    ensures Lags(LoseServer(lazy, server, now), LoseServer(eager, server, now), gone, now)
  {
    var l, e := LoseServer(lazy, server, now), LoseServer(eager, server, now);
    assert e.table.sessions == l.table.sessions - gone;
  }

  lemma CleanUpLags(lazy: Router, eager: Router, gone: set<string>, before: Time, now: Time)
    requires Lags(lazy, eager, gone, before) && before <= now
    ensures Cleanup(lazy.table, now).0 == Cleanup(eager.table, now).0
  {
    var l, e := Cleanup(lazy.table, now).0, Cleanup(eager.table, now).0;
    assert l.sessions == e.sessions;
  }

  lemma WriteLags(lazy: Router, eager: Router, gone: set<string>, key: string, x: Session, now: Time)
    requires Lags(lazy, eager, gone, now) && key !in gone
    ensures Lags(lazy.(table := lazy.table.(sessions := lazy.table.sessions[key := x])),
                 eager.(table := eager.table.(sessions := eager.table.sessions[key := x])), gone, now)
  {
    WriteClosesTheGap(lazy.table.sessions, gone, key, x);
    assert gone - {key} == gone;
  }

  /** One event is answered alike on both sides; only a clean-up counts differently. */
  lemma StepLags(lazy: Router, eager: Router, gone: set<string>, t: Timed<Event>, before: Time)
    requires Lags(lazy, eager, gone, before) && before <= t.now && !TouchesGone(gone, t)
    ensures t.event != Admin(CleanUp) ==> RouterStep(lazy, t).1 == RouterStep(eager, t).1
    ensures Lags(RouterStep(lazy, t).0, RouterStep(eager, t).0, GoneAfter(gone, t), t.now)
  {
    match t.event
    case Request(ft) => RequestLags(lazy, eager, gone, ft, -1, before, t.now);
    case Gain(s) =>
    case Lose(s) => LoseLags(lazy, eager, gone, s, before, t.now);
    case Admin(CleanUp) =>
      CleanUpLags(lazy, eager, gone, before, t.now);
      assert RouterStep(lazy, t).0.table.sessions - {} == RouterStep(lazy, t).0.table.sessions;
    case Admin(op) =>
      if op.key in lazy.table.sessions {
        assert lazy.table.sessions[op.key] == eager.table.sessions[op.key];
        WriteLags(lazy, eager, gone, op.key, RouterStep(lazy, t).0.table.sessions[op.key], t.now);
        assert forall s: map<string, Session> | op.key in s :: s[op.key := s[op.key]] == s;
      }
  }

  lemma LagIsInvisible(lazy: Router, eager: Router, gone: set<string>, now: Time, later: Time)
    requires Lags(lazy, eager, gone, now) && now <= later
    ensures LiveSessions(lazy.table, later) == LiveSessions(eager.table, later)
  {
    assert LiveKeys(lazy.table, later) == LiveKeys(eager.table, later);
  }

  lemma {:induction false} RunLags(
      lazy: Router, eager: Router, gone: set<string>, ts: seq<Timed<Event>>, start: Time, n: nat)
    requires Lags(lazy, eager, gone, start) && ClockFrom(start, ts) && NeverTouchesGone(gone, ts) && n <= |ts|
    ensures Lags(RouterAfter(lazy, ts[..n]), RouterAfter(eager, ts[..n]), GoneThrough(gone, ts[..n]),
                 Latest(start, ts[..n]))
  {
    if n > 0 {
      RunLags(lazy, eager, gone, ts, start, n - 1);
      assert ts[..n][..n - 1] == ts[..n - 1];
      ClockOfPrefix(start, ts, n - 1);
      StepLags(RouterAfter(lazy, ts[..n - 1]), RouterAfter(eager, ts[..n - 1]), GoneThrough(gone, ts[..n - 1]),
               ts[n - 1], Latest(start, ts[..n - 1]));
    }
  }

  /**
   An extra clean-up anywhere in a run goes unnoticed: all later answers and all later reports
   of live sessions are the same, as long as what it removes is unblocked and no operator names
   a removed session before it is requested again.
   */
  lemma CleanUpGoesUnnoticed(r: Router, now: Time, ts: seq<Timed<Event>>)
    requires forall key | key in ExpiredKeys(r.table, now) :: !r.table.sessions[key].blocked
    requires ClockFrom(now, ts) && NeverTouchesGone(ExpiredKeys(r.table, now), ts)
    ensures var cleaned := RouterStep(r, At(now, Admin(CleanUp))).0;
            && (forall i | 0 <= i < |ts| && ts[i].event != Admin(CleanUp) ::
                  OutcomeAt(r, ts, i) == OutcomeAt(cleaned, ts, i))
            && forall later | later >= Latest(now, ts) ::
                 LiveSessions(RouterAfter(r, ts).table, later) == LiveSessions(RouterAfter(cleaned, ts).table, later)
  {
    var gone, cleaned := ExpiredKeys(r.table, now), RouterStep(r, At(now, Admin(CleanUp))).0;
    forall i | 0 <= i < |ts| && ts[i].event != Admin(CleanUp) ensures OutcomeAt(r, ts, i) == OutcomeAt(cleaned, ts, i) {
      RunLags(r, cleaned, gone, ts, now, i);
      ClockOfPrefix(now, ts, i);
      StepLags(RouterAfter(r, ts[..i]), RouterAfter(cleaned, ts[..i]), GoneThrough(gone, ts[..i]), ts[i],
               Latest(now, ts[..i]));
    }
    RunLags(r, cleaned, gone, ts, now, |ts|);
    assert ts[..|ts|] == ts;
    forall later | later >= Latest(now, ts)
      ensures LiveSessions(RouterAfter(r, ts).table, later) == LiveSessions(RouterAfter(cleaned, ts).table, later)
    {
      LagIsInvisible(RouterAfter(r, ts), RouterAfter(cleaned, ts), GoneThrough(gone, ts), Latest(now, ts), later);
    }
  }

  /** The two conditions are needed: cleaning up a blocked session, or naming a removed one, shows at once. */
  lemma OtherwiseItShows(r: Router, now: Time, key: string)
    requires key in ExpiredKeys(r.table, now) && ToKey(r.table.sessions[key].tuple) == key
    ensures var cleaned := RouterStep(r, At(now, Admin(CleanUp))).0;
            var again := At(now, Request(r.table.sessions[key].tuple));
            && (r.table.sessions[key].blocked ==> RouterStep(r, again).1 != RouterStep(cleaned, again).1)
            && forall block :: RouterStep(r, At(now, Admin(SetBlocked(key, block)))).1
                            != RouterStep(cleaned, At(now, Admin(SetBlocked(key, block)))).1
  {
    var cleaned := RouterStep(r, At(now, Admin(CleanUp))).0;
    assert key !in cleaned.table.sessions;
    var ft := r.table.sessions[key].tuple;
    assert Route(cleaned.table, cleaned.ring, ft, -1, now) == Assign(cleaned.table, cleaned.ring, ft, -1, now);
  }

  // ---------------------------------------------------------------------------------------
  // A reachable run that strands a session
  // ---------------------------------------------------------------------------------------

  const LATE := 301 * SECOND

  /** Two servers with one virtual node each. */
  function TwoServers(s: int, t: int): Ring {
    Add(Add(EmptyRing(1), s), t)
  }

  lemma ApartByOneVnode(s: int, t: int)
    requires 0 <= s < 10 && 0 <= t < 10 && s != t
    ensures Positions(1, t) !! Positions(1, s)
  {
    OnePosition(s);
    OnePosition(t);
    SameIndexNeverCollides(s, t, 0);
  }

  lemma TwoServersAreCanonical(s: int, t: int)
    requires 0 <= s < 10 && 0 <= t < 10 && s != t
    ensures Canonical(TwoServers(s, t)) && TwoServers(s, t).active == [s, t] && TwoServers(s, t).vnodes == 1
  {
    var one := Add(EmptyRing(1), s);
    JoinFreePositions(EmptyRing(1), s, one);
    ApartByOneVnode(s, t);
    assert one.slots.Keys == Positions(1, s) && one.active == [s];
    JoinFreePositions(one, t, TwoServers(s, t));
  }

  /** The loss of its server does not move a session that has expired. */
  lemma LateLoss(r: Router, ft: FiveTuple, b: int)
    requires ActiveAreNumbered(r.ring) && Remove(r.ring, b).slots != map[]
    requires r.table.defaultTimeout == SESSION_TIMEOUT_SEC
    requires ToKey(ft) in r.table.sessions && r.table.sessions[ToKey(ft)] == NewSession(ft, b, 0)
    ensures var lost := LoseServer(r, b, LATE);
            && ToKey(ft) in lost.table.sessions && lost.table.sessions[ToKey(ft)] == NewSession(ft, b, 0)
            && lost.table.defaultTimeout == SESSION_TIMEOUT_SEC
            && b !in lost.ring.active && Lookup(lost.ring, ToKey(ft)) >= 0
  {
    RemoveKeepsWellFormed(r.ring, b);
    LookupIsActive(Remove(r.ring, b), ToKey(ft));
    assert Expired(SESSION_TIMEOUT_SEC, NewSession(ft, b, 0), LATE);
  }

  lemma LateRevival(r: Router, ft: FiveTuple, b: int)
    requires ActiveAreNumbered(r.ring) && Remove(r.ring, b).slots != map[]
    requires r.table.defaultTimeout == SESSION_TIMEOUT_SEC
    requires ToKey(ft) in r.table.sessions && r.table.sessions[ToKey(ft)] == NewSession(ft, b, 0)
    ensures var revived := AdminStep(LoseServer(r, b, LATE), SetTimeout(ToKey(ft), 1000), LATE).0;
            && !NoneStranded(revived, LATE)
            && RouterStep(revived, At(LATE, Request(ft))).1
            == Answer(Routed(REASSIGNED, Lookup(Remove(r.ring, b), ToKey(ft))))
  {
    LateLoss(r, ft, b);
    var revived := AdminStep(LoseServer(r, b, LATE), SetTimeout(ToKey(ft), 1000), LATE).0;
    var e := revived.table.sessions[ToKey(ft)];
    assert e == NewSession(ft, b, 0).(customTimeout := 1000);
    assert !Expired(SESSION_TIMEOUT_SEC, e, LATE);
  }

  /** Two servers join, and then the session is routed, expires, loses its server and is revived. */
  function RevivingRun(ft: FiveTuple, s: nat, t: nat, b: int): seq<Timed<Event>> {
    [At(0, Gain(s)), At(0, Gain(t)), At(0, Request(ft)), At(LATE, Lose(b)),
     At(LATE, Admin(SetTimeout(ToKey(ft), 1000)))]
  }

  lemma AfterOneMore(r: Router, ts: seq<Timed<Event>>, t: Timed<Event>)
    ensures RouterAfter(r, ts + [t]) == RouterStep(RouterAfter(r, ts), t).0
  {
    assert (ts + [t])[..|ts|] == ts;
  }

  /** The router at the end of that run, as one expression. */
  function Revived(r: Router, ft: FiveTuple, s: nat, t: nat, b: int): Router {
    RevivedOn(Add(Add(r.ring, s), t), r.table, ft, b)
  }

  function RevivedOn(ring: Ring, tbl: Table, ft: FiveTuple, b: int): Router {
    var routed := RouterStep(Router(ring, tbl), At(0, Request(ft))).0;
    AdminStep(LoseServer(routed, b, LATE), SetTimeout(ToKey(ft), 1000), LATE).0
  }

  lemma FirstRequest(ring: Ring, ft: FiveTuple)
    requires ActiveAreNumbered(ring) && ring.slots != map[]
    ensures var r := RouterStep(Router(ring, Table(SESSION_TIMEOUT_SEC, map[])), At(0, Request(ft))).0;
            && r.ring == ring && r.table.defaultTimeout == SESSION_TIMEOUT_SEC
            && ToKey(ft) in r.table.sessions
            && r.table.sessions[ToKey(ft)] == NewSession(ft, Lookup(ring, ToKey(ft)), 0)
            && Lookup(ring, ToKey(ft)) in ring.active
  {
    LookupIsActive(ring, ToKey(ft));
  }

  predicate AnsweredWith(r: Router, t: Timed<Event>, routed: Routed) {
    RouterStep(r, t).1 == Answer(routed)
  }

  /** A live session sits on a lost server, and its next request is moved to `next`. */
  ghost predicate Stranded(r: Router, ft: FiveTuple, next: int) {
    !NoneStranded(r, LATE) && AnsweredWith(r, At(LATE, Request(ft)), Routed(REASSIGNED, next))
  }

  lemma RevivalStrandsOn(ring: Ring, ft: FiveTuple, b: int, revived: Router, next: int)
    requires ActiveAreNumbered(ring) && ring.slots != map[]
    requires b == Lookup(ring, ToKey(ft)) && Remove(ring, b).slots != map[]
    requires revived == RevivedOn(ring, Table(SESSION_TIMEOUT_SEC, map[]), ft, b)
    requires next == Lookup(Remove(ring, b), ToKey(ft))
    ensures Stranded(revived, ft, next)
  {
    FirstRequest(ring, ft);
    LateRevival(RouterStep(Router(ring, Table(SESSION_TIMEOUT_SEC, map[])), At(0, Request(ft))).0, ft, b);
  }

  lemma AfterRevivingRun(ft: FiveTuple, s: nat, t: nat, b: int, r: Router)
    ensures RouterAfter(r, RevivingRun(ft, s, t, b)) == Revived(r, ft, s, t, b)
  {
    var e1, e2, e3 := At(0, Gain(s)), At(0, Gain(t)), At(0, Request(ft));
    var e4, e5 := At(LATE, Lose(b)), At(LATE, Admin(SetTimeout(ToKey(ft), 1000)));
    assert RevivingRun(ft, s, t, b) == [] + [e1] + [e2] + [e3] + [e4] + [e5];
    AfterOneMore(r, [], e1);
    AfterOneMore(r, [] + [e1], e2);
    AfterOneMore(r, [] + [e1] + [e2], e3);
    AfterOneMore(r, [] + [e1] + [e2] + [e3], e4);
    AfterOneMore(r, [] + [e1] + [e2] + [e3] + [e4], e5);
  }

  lemma OtherOfTwo(ring: Ring, s: int, t: int, b: int, key: string)
    requires Canonical(ring) && ring.vnodes > 0 && ring.active == [s, t] && s != t && (b == s || b == t)
    ensures Remove(ring, b).slots != map[]
    ensures Lookup(Remove(ring, b), key) == s + t - b
  {
    RemovalLeavesTheOthers(ring, b, s + t - b);
    RemoveKeepsWellFormed(ring, b);
    LookupIsActive(Remove(ring, b), key);
  }

  lemma TheOtherServer(s: int, t: int, b: int, key: string)
    requires 0 <= s < 10 && 0 <= t < 10 && s != t && (b == s || b == t)
    ensures Remove(TwoServers(s, t), b).slots != map[]
    ensures Lookup(Remove(TwoServers(s, t), b), key) == s + t - b
  {
    TwoServersAreCanonical(s, t);
    OtherOfTwo(TwoServers(s, t), s, t, b, key);
  }

  lemma OneOfTwo(ring: Ring, s: int, t: int, key: string)
    requires Canonical(ring) && ring.vnodes > 0 && ring.active == [s, t] && s != t
    ensures Lookup(ring, key) == s || Lookup(ring, key) == t
    ensures ring.slots != map[]
  {
    RemovalLeavesTheOthers(ring, s, t);
    LookupIsActive(ring, key);
  }

  lemma PickServer(s: int, t: int, key: string) returns (b: int)
    requires 0 <= s < 10 && 0 <= t < 10 && s != t
    ensures b == Lookup(TwoServers(s, t), key) && (b == s || b == t)
    ensures ActiveAreNumbered(TwoServers(s, t)) && TwoServers(s, t).slots != map[]
  {
    TwoServersAreCanonical(s, t);
    OneOfTwo(TwoServers(s, t), s, t, key);
    b := Lookup(TwoServers(s, t), key);
  }

  lemma RevivedTwo(ft: FiveTuple, s: nat, t: nat, b: int)
    ensures RouterAfter(EmptyRouter(1, SESSION_TIMEOUT_SEC), RevivingRun(ft, s, t, b))
         == RevivedOn(TwoServers(s, t), Table(SESSION_TIMEOUT_SEC, map[]), ft, b)
  {
    AfterRevivingRun(ft, s, t, b, EmptyRouter(1, SESSION_TIMEOUT_SEC));
  }

  /**
   A session expires, its server is lost, and then an operator raises the session's timeout:
   the revived session names a server that is gone, and the next request is answered REASSIGNED.
   */
  lemma RevivedSessionIsStranded(ft: FiveTuple, s: nat, t: nat) returns (b: int, revived: Router, next: int)
    requires s < 10 && t < 10 && s != t
    ensures b == s || b == t
    ensures revived == RouterAfter(EmptyRouter(1, SESSION_TIMEOUT_SEC), RevivingRun(ft, s, t, b))
    ensures next == s + t - b && Stranded(revived, ft, next)
  {
    b := PickServer(s, t, ToKey(ft));
    TheOtherServer(s, t, b, ToKey(ft));
    revived := RouterAfter(EmptyRouter(1, SESSION_TIMEOUT_SEC), RevivingRun(ft, s, t, b));
    RevivedTwo(ft, s, t, b);
    next := s + t - b;
    RevivalStrandsOn(TwoServers(s, t), ft, b, revived, next);
  }
}
