/**
 Ring and session table together as one state machine, and what holds over all of its runs.
 Each event carries the one instant at which its public call takes place.
 */
module Routing {
  import opened Config
  import opened FiveTuples
  import opened HashRing
  import opened Sessions

  datatype Router = Router(ring: Ring, table: Table)

  function EmptyRouter(vnodes: int, defaultTimeout: int): Router {
    Router(EmptyRing(vnodes), Table(defaultTimeout, map[]))
  }

  datatype AdminOp =
    | Reassign(key: string)
    | SetBlocked(key: string, block: bool)
    | SetTimeout(key: string, timeoutSec: int)
    | CleanUp

  /** Servers are numbered from 0; losing one removes it from the ring and moves its sessions. */
  datatype Event = Request(ft: FiveTuple) | Gain(server: nat) | Lose(lost: int) | Admin(op: AdminOp)

  datatype Outcome = Answer(routed: Routed) | Flag(ok: bool) | Removed(count: nat) | Done

  function AdminStep(r: Router, op: AdminOp, now: Time): (Router, Outcome) {
    match op
    case Reassign(key) =>
      var (t, ok) := ForceReassign(r.table, r.ring, key, now);
      (r.(table := t), Flag(ok))
    case SetBlocked(key, block) =>
      var (t, ok) := Block(r.table, key, block);
      (r.(table := t), Flag(ok))
    case SetTimeout(key, timeoutSec) =>
      var (t, ok) := SetExpiry(r.table, key, timeoutSec);
      (r.(table := t), Flag(ok))
    case CleanUp =>
      var (t, n) := Cleanup(r.table, now);
      (r.(table := t), Removed(n))
  }

  function LoseServer(r: Router, server: int, now: Time): Router {
    var ring := Remove(r.ring, server);
    Router(ring, ServerDown(r.table, ring, server, now))
  }

  function RouterStep(r: Router, t: Timed<Event>): (Router, Outcome) {
    match t.event
    case Request(ft) =>
      var (table, routed) := Route(r.table, r.ring, ft, -1, t.now);
      (r.(table := table), Answer(routed))
    case Gain(s) => (r.(ring := Add(r.ring, s)), Done)
    case Lose(s) => (LoseServer(r, s, t.now), Done)
    case Admin(op) => AdminStep(r, op, t.now)
  }

  function RouterAfter(r: Router, ts: seq<Timed<Event>>): Router {
    if ts == [] then r else RouterStep(RouterAfter(r, ts[..|ts| - 1]), ts[|ts| - 1]).0
  }

  /** The outcome of event number `i` of a run. */
  function OutcomeAt(r: Router, ts: seq<Timed<Event>>, i: nat): Outcome
    requires i < |ts|
  {
    RouterStep(RouterAfter(r, ts[..i]), ts[i]).1
  }

  /** One more event at the end of a prefix of a run. */
  lemma RouterPrefix(r: Router, ts: seq<Timed<Event>>, i: nat)
    requires i < |ts|
    ensures RouterAfter(r, ts[..i + 1]) == RouterStep(RouterAfter(r, ts[..i]), ts[i]).0
  {
    assert ts[..i + 1][..i] == ts[..i];
  }

  // ---------------------------------------------------------------------------------------
  // What a routed request leaves behind
  // ---------------------------------------------------------------------------------------

  predicate Succeeded(o: Routed) {
    o.status == SUCCESS || o.status == REASSIGNED
  }

  /** The session sits on this active backend, unblocked and just used. */
  ghost predicate SitsOn(tbl: Table, ring: Ring, key: string, backend: int, now: Time) {
    && key in tbl.sessions && backend in ring.active
    && tbl.sessions[key].backend == backend && !tbl.sessions[key].blocked && tbl.sessions[key].lastAccess == now
  }

  lemma AssignedSits(tbl: Table, ring: Ring, ft: FiveTuple, target: int, now: Time)
    requires WellFormed(ring)
    ensures var (tbl', o) := Assign(tbl, ring, ft, target, now);
            o.status == SUCCESS ==> SitsOn(tbl', ring, ToKey(ft), o.target, now)
  {
    if ring.slots != map[] { LookupIsActive(ring, ToKey(ft)); }
  }

  /** The session exists, is not blocked and has expired: a request erases it before it looks for a server. */
  predicate IsErased(tbl: Table, key: string, now: Time) {
    && key in tbl.sessions && !tbl.sessions[key].blocked && Expired(tbl.defaultTimeout, tbl.sessions[key], now)
  }

  /**
   Routing one key leaves all other sessions alone. A success puts its own on the answered backend;
   a refusal leaves it as it was, except that an unblocked, expired session is gone.
   */
  lemma RouteTouchesOneSession(tbl: Table, ring: Ring, ft: FiveTuple, target: int, now: Time)
    ensures var (tbl', o) := Route(tbl, ring, ft, target, now);
            && tbl'.defaultTimeout == tbl.defaultTimeout
            && (forall k | k != ToKey(ft) :: k in tbl'.sessions <==> k in tbl.sessions)
            && (forall k | k != ToKey(ft) && k in tbl.sessions :: tbl'.sessions[k] == tbl.sessions[k])
            && (if Succeeded(o) then ToKey(ft) in tbl'.sessions && tbl'.sessions[ToKey(ft)].backend == o.target
                else if IsErased(tbl, ToKey(ft), now) then ToKey(ft) !in tbl'.sessions
                else tbl' == tbl)
  {}

  /**
   A request is refused exactly on a blocked session, or on an empty ring when the session is
   neither blocked nor live on an active server.
   */
  lemma RefusedWhen(r: Router, ft: FiveTuple, target: int, now: Time)
    requires ActiveAreNumbered(r.ring)
    ensures var key, status := ToKey(ft), Route(r.table, r.ring, ft, target, now).1.status;
            var known := key in r.table.sessions;
            && (status == SESSION_BLOCKED <==> known && r.table.sessions[key].blocked)
            && (status == SERVER_DOWN <==>
                  && r.ring.slots == map[]
                  && (known ==>
                        && !r.table.sessions[key].blocked
                        && (IsErased(r.table, key, now) || r.table.sessions[key].backend !in r.ring.active)))
  {
    LookupSucceeds(r.ring, ToKey(ft));
  }

  lemma LookupSucceeds(r: Ring, key: string)
    requires ActiveAreNumbered(r)
    ensures Lookup(r, key) >= 0 <==> r.slots != map[]
  {
    if r.slots != map[] { LookupIsActive(r, key); }
  }

  /** The tuple of every session after some change is one of before, or `ft`. */
  ghost predicate TuplesFrom(tbl': Table, tbl: Table, ft: FiveTuple) {
    forall k | k in tbl'.sessions ::
      tbl'.sessions[k].tuple == ft || (k in tbl.sessions && tbl'.sessions[k].tuple == tbl.sessions[k].tuple)
  }

  lemma RouteKeepsTuples(tbl: Table, ring: Ring, ft: FiveTuple, target: int, now: Time)
    ensures TuplesFrom(Route(tbl, ring, ft, target, now).0, tbl, ft)
  {}

  /** A successful answer names the active backend where the session now sits. */
  lemma RoutedSits(tbl: Table, ring: Ring, ft: FiveTuple, target: int, now: Time)
    requires WellFormed(ring)
    ensures var (tbl', o) := Route(tbl, ring, ft, target, now);
            Succeeded(o) ==> SitsOn(tbl', ring, ToKey(ft), o.target, now)
  {
    var key := ToKey(ft);
    if key !in tbl.sessions {
      AssignedSits(tbl, ring, ft, target, now);
    } else {
      var e := tbl.sessions[key];
      if !e.blocked && Expired(tbl.defaultTimeout, e, now) {
        AssignedSits(tbl.(sessions := tbl.sessions - {key}), ring, ft, target, now);
      } else if e.backend !in ring.active && ring.slots != map[] {
        LookupIsActive(ring, key);
      }
    }
  }

  // ---------------------------------------------------------------------------------------
  // The audit trail
  // ---------------------------------------------------------------------------------------

  /** The hop leaves the backend of the hop before it, and says so. */
  predicate Follows(hop: Hop, previous: Hop) {
    hop.backend != previous.backend && !hop.reason.InitialAssignment? && hop.reason.from == previous.backend
  }

  /** An initial assignment, then moves that each name the backend they leave, up to the current one. */
  ghost predicate TrailOk(e: Session) {
    && e.pathHistory != []
    && e.pathHistory[0].reason == InitialAssignment
    && e.pathHistory[|e.pathHistory| - 1].backend == e.backend
    && forall i | 0 < i < |e.pathHistory| :: Follows(e.pathHistory[i], e.pathHistory[i - 1])
  }

  ghost predicate Audited(r: Router) {
    && WellFormed(r.ring)
    && forall key | key in r.table.sessions ::
         TrailOk(r.table.sessions[key]) && ToKey(r.table.sessions[key].tuple) == key
  }

  lemma MoveKeepsTrail(e: Session, backend: int, reason: Reason, now: Time)
    requires TrailOk(e) && backend != e.backend
    requires !reason.InitialAssignment? && reason.from == e.backend
    ensures TrailOk(MoveTo(e, backend, reason, now))
  {
    var h := MoveTo(e, backend, reason, now).pathHistory;
    assert forall i | 0 <= i < |e.pathHistory| :: h[i] == e.pathHistory[i];
  }

  lemma {:induction false} FirstOtherDiffers(list: seq<int>, x: int, y: int)
    requires y in list && y != x
    ensures FirstOther(list, x) in list && FirstOther(list, x) != x
  {
    if list[0] == x {
      FirstOtherDiffers(list[1..], x, y);
    }
  }

  /** `y` stands in the list with nothing but `x` before it. */
  ghost predicate IsFirstOther(list: seq<int>, x: int, y: int) {
    exists i | 0 <= i < |list| :: list[i] == y && forall j | 0 <= j < i :: list[j] == x
  }

  lemma {:induction false} FirstOtherIsFirst(list: seq<int>, x: int)
    requires FirstOther(list, x) != x
    ensures IsFirstOther(list, x, FirstOther(list, x))
  {
    if list[0] == x {
      FirstOtherIsFirst(list[1..], x);
      var i :| 0 <= i < |list[1..]| && list[1..][i] == FirstOther(list, x)
            && forall j | 0 <= j < i :: list[1..][j] == x;
      assert list[i + 1] == FirstOther(list, x);
      assert forall j | 0 < j <= i :: list[j] == list[1..][j - 1];
    } else {
      assert list[0] == FirstOther(list, x);
    }
  }

  /** With two or more distinct servers a forced reassignment always finds another one. */
  lemma OtherServerExists(list: seq<int>, x: int)
    requires NoDuplicates(list) && |list| > 1
    ensures FirstOther(list, x) in list && FirstOther(list, x) != x
  {
    FirstOtherDiffers(list, x, if list[0] != x then list[0] else list[1]);
  }

  /** Writing one sound entry under its own key keeps every trail sound. */
  lemma WriteKeepsAudit(r: Router, key: string, e: Session)
    requires Audited(r) && TrailOk(e) && ToKey(e.tuple) == key
    ensures Audited(r.(table := r.table.(sessions := r.table.sessions[key := e])))
  {}

  lemma AssignKeepsAudit(r: Router, ft: FiveTuple, target: int, now: Time)
    requires Audited(r)
    ensures Audited(r.(table := Assign(r.table, r.ring, ft, target, now).0))
  {
    var backend := Lookup(r.ring, ToKey(ft));
    WriteKeepsAudit(r, ToKey(ft), NewSession(ft, backend, now));
  }

  lemma RouteKeepsAudit(r: Router, ft: FiveTuple, target: int, now: Time)
    requires Audited(r)
    ensures Audited(r.(table := Route(r.table, r.ring, ft, target, now).0))
  {
    var key := ToKey(ft);
    if key !in r.table.sessions {
      AssignKeepsAudit(r, ft, target, now);
    } else if IsErased(r.table, key, now) {
      AssignKeepsAudit(r.(table := r.table.(sessions := r.table.sessions - {key})), ft, target, now);
    } else {
      var e := r.table.sessions[key];
      WriteKeepsAudit(r, key, e.(lastAccess := now));
      if e.backend !in r.ring.active && Lookup(r.ring, key) >= 0 {
        MoveKeepsTrail(e, Lookup(r.ring, key), Failover(e.backend), now);
        WriteKeepsAudit(r, key, MoveTo(e, Lookup(r.ring, key), Failover(e.backend), now));
      }
    }
  }

  /** A forced reassignment changes one session at most, and moves it to another active server. */
  lemma ReassignLands(r: Router, key: string, now: Time)
    requires WellFormed(r.ring) && key in r.table.sessions
    ensures var e := r.table.sessions[key];
            var (tbl, ok) := ForceReassign(r.table, r.ring, key, now);
            if ok then
              && key in tbl.sessions
              && var backend := tbl.sessions[key].backend;
                 && tbl.sessions[key] == MoveTo(e, backend, ForcedReassignment(e.backend), now)
                 && backend in r.ring.active && backend != e.backend
                 && tbl == r.table.(sessions := r.table.sessions[key := tbl.sessions[key]])
            else tbl == r.table
  {
    var here, hashed := r.table.sessions[key].backend, Lookup(r.ring, key);
    if hashed >= 0 {
      LookupIsActive(r.ring, key);
      if hashed == here && |r.ring.active| > 1 { OtherServerExists(r.ring.active, here); }
    }
  }

  lemma ReassignKeepsAudit(r: Router, key: string, now: Time)
    requires Audited(r)
    ensures Audited(r.(table := ForceReassign(r.table, r.ring, key, now).0))
  {
    if key in r.table.sessions {
      ReassignLands(r, key, now);
      var (tbl, ok) := ForceReassign(r.table, r.ring, key, now);
      if ok {
        var e := r.table.sessions[key];
        MoveKeepsTrail(e, tbl.sessions[key].backend, ForcedReassignment(e.backend), now);
        WriteKeepsAudit(r, key, tbl.sessions[key]);
      }
    }
  }

  lemma ReassignFindsOther(r: Router, key: string, now: Time)
    requires ActiveAreNumbered(r.ring) && key in r.table.sessions
    ensures ForceReassign(r.table, r.ring, key, now).1
       <==> r.ring.slots != map[] && exists s :: s in r.ring.active && s != r.table.sessions[key].backend
  {
    var e := r.table.sessions[key];
    LookupSucceeds(r.ring, key);
    if r.ring.slots != map[] {
      LookupIsActive(r.ring, key);
      if |r.ring.active| > 1 {
        OtherServerExists(r.ring.active, e.backend);
      } else {
        assert forall s | s in r.ring.active :: s == r.ring.active[0];
      }
    }
  }

  lemma ReassignChooses(r: Router, key: string, now: Time)
    requires WellFormed(r.ring) && key in r.table.sessions && ForceReassign(r.table, r.ring, key, now).1
    ensures var backend := FirstOther(r.ring.active, r.table.sessions[key].backend);
            ForceReassign(r.table, r.ring, key, now).0.sessions[key].backend
            == if Lookup(r.ring, key) == r.table.sessions[key].backend then backend else Lookup(r.ring, key)
  {
    ReassignLands(r, key, now);
  }

  /**
   A forced reassignment succeeds exactly when the session exists and some other server is
   active on a ring with positions. It prefers the server that the key hashes to; when the session
   sits there, the first other server in the order of joining.
   */
  lemma ReassignSucceeds(r: Router, key: string, now: Time)
    requires ActiveAreNumbered(r.ring) && key in r.table.sessions
    ensures var e := r.table.sessions[key];
            var (tbl, ok) := ForceReassign(r.table, r.ring, key, now);
            && (ok <==> r.ring.slots != map[] && exists s :: s in r.ring.active && s != e.backend)
            && (ok ==> tbl.sessions[key].backend in r.ring.active && tbl.sessions[key].backend != e.backend)
            && (ok && Lookup(r.ring, key) != e.backend ==> tbl.sessions[key].backend == Lookup(r.ring, key))
            && (ok && Lookup(r.ring, key) == e.backend ==>
                  IsFirstOther(r.ring.active, e.backend, tbl.sessions[key].backend))
  {
    ReassignFindsOther(r, key, now);
    ReassignLands(r, key, now);
    if ForceReassign(r.table, r.ring, key, now).1 {
      ReassignChooses(r, key, now);
      var e := r.table.sessions[key];
      if Lookup(r.ring, key) == e.backend { FirstOtherIsFirst(r.ring.active, e.backend); }
    }
  }

  lemma LoseKeepsAudit(r: Router, server: int, now: Time)
    requires Audited(r)
    ensures Audited(LoseServer(r, server, now))
  {
    var after := LoseServer(r, server, now);
    RemoveKeepsWellFormed(r.ring, server);
    forall key | key in after.table.sessions
      ensures TrailOk(after.table.sessions[key]) && ToKey(after.table.sessions[key].tuple) == key
    {
      var e := r.table.sessions[key];
      assert TrailOk(e);
      if IsRedistributed(r.table, after.ring, server, key, now) {
        MoveKeepsTrail(e, Lookup(after.ring, key), Redistributed(server), now);
      }
    }
  }

  lemma StepKeepsAudit(r: Router, t: Timed<Event>)
    requires Audited(r)
    ensures Audited(RouterStep(r, t).0)
  {
    match t.event
    case Request(ft) => RouteKeepsAudit(r, ft, -1, t.now);
    case Gain(s) => AddKeepsWellFormed(r.ring, s);
    case Lose(s) => LoseKeepsAudit(r, s, t.now);
    case Admin(op) => if op.Reassign? { ReassignKeepsAudit(r, op.key, t.now); }
  }

  /** Why a session leaves its backend at this event. */
  function ReasonFor(event: Event, from: int): Reason {
    match event
    case Request(_) => Failover(from)
    case Lose(_) => Redistributed(from)
    case _ => ForcedReassignment(from)
  }

  /** The session as it was, or moved once with one more hop on its trail. */
  predicate StayedOrMoved(e: Session, e': Session, t: Timed<Event>) {
    || (e'.backend == e.backend && e'.pathHistory == e.pathHistory)
    || (e'.lastAccess == t.now && e'.pathHistory == e.pathHistory + [Hop(e'.backend, ReasonFor(t.event, e.backend))])
  }

  /** A session that a request has just opened. */
  predicate IsNew(e: Session, ft: FiveTuple, backend: int, now: Time) {
    && e.tuple == ft && e.backend == backend && !e.blocked && e.customTimeout < 0
    && e.createdAt == now && e.lastAccess == now && e.pathHistory == [Hop(backend, InitialAssignment)]
  }

  /**
   What one event may do to a session: a request reopens it if it was to be erased; otherwise it
   keeps its tuple and its birth, its trail grows by at most the one hop that the event explains, and
   only the operator's calls on it touch its blocked flag and its timeout.
   */
  lemma StepOnSession(r: Router, t: Timed<Event>, key: string)
    requires key in r.table.sessions && key in RouterStep(r, t).0.table.sessions
    ensures var e, e' := r.table.sessions[key], RouterStep(r, t).0.table.sessions[key];
            if t.event.Request? && ToKey(t.event.ft) == key && IsErased(r.table, key, t.now) then
              IsNew(e', t.event.ft, Lookup(r.ring, key), t.now)
            else
              && e'.tuple == e.tuple && e'.createdAt == e.createdAt && StayedOrMoved(e, e', t)
              && e'.blocked == (if t.event == Admin(SetBlocked(key, true)) then true
                                else if t.event == Admin(SetBlocked(key, false)) then false else e.blocked)
              && (e'.customTimeout == e.customTimeout || t.event == Admin(SetTimeout(key, e'.customTimeout)))
  {
    match t.event
    case Request(ft) => RouteTouchesOneSession(r.table, r.ring, ft, -1, t.now);
    case Gain(_) =>
    case Lose(_) =>
    case Admin(op) =>
  }

  /** Only a request opens a session, and only for its own key. */
  lemma StepOpensOne(r: Router, t: Timed<Event>, key: string)
    requires key !in r.table.sessions && key in RouterStep(r, t).0.table.sessions
    ensures t.event.Request? && ToKey(t.event.ft) == key
    ensures IsNew(RouterStep(r, t).0.table.sessions[key], t.event.ft, Lookup(r.ring, key), t.now)
  {
    if t.event.Request? { RouteTouchesOneSession(r.table, r.ring, t.event.ft, -1, t.now); }
  }

  /** The operator's calls on one session say whether it exists, and touch no other. */
  lemma OperatorIsAnswered(r: Router, op: AdminOp, now: Time)
    requires !op.CleanUp?
    ensures var (r', o) := AdminStep(r, op, now);
            && r'.ring == r.ring && r'.table.defaultTimeout == r.table.defaultTimeout
            && r'.table.sessions.Keys == r.table.sessions.Keys
            && (forall k | k in r.table.sessions && k != op.key :: r'.table.sessions[k] == r.table.sessions[k])
            && (op.key !in r.table.sessions ==> o == Flag(false))
            && (op.key in r.table.sessions && (op.SetBlocked? || op.SetTimeout?) ==> o == Flag(true))
            && (op.key in r.table.sessions && op.SetBlocked? ==>
                  r'.table.sessions[op.key] == r.table.sessions[op.key].(blocked := op.block))
            && (op.key in r.table.sessions && op.SetTimeout? ==>
                  r'.table.sessions[op.key] == r.table.sessions[op.key].(customTimeout := op.timeoutSec))
  {}

  /** On every run each audit trail is one unbroken chain of moves that ends at the current backend. */
  lemma {:induction false} EveryRunIsAudited(r: Router, ts: seq<Timed<Event>>)
    requires Audited(r)
    ensures Audited(RouterAfter(r, ts))
  {
    if ts != [] {
      EveryRunIsAudited(r, ts[..|ts| - 1]);
      StepKeepsAudit(RouterAfter(r, ts[..|ts| - 1]), ts[|ts| - 1]);
    }
  }

  // ---------------------------------------------------------------------------------------
  // No stranded sessions
  // ---------------------------------------------------------------------------------------

  ghost predicate ActiveAreNumbered(r: Ring) {
    WellFormed(r) && forall s | s in r.active :: s >= 0
  }

  /** Every unexpired session sits on an active server. */
  ghost predicate NoneStranded(r: Router, now: Time) {
    forall key | key in r.table.sessions && !Expired(r.table.defaultTimeout, r.table.sessions[key], now) ::
      r.table.sessions[key].backend in r.ring.active
  }

  /** The guards under which an event strands nobody. */
  ghost predicate StrandsNobody(r: Router, t: Timed<Event>) {
    match t.event
    case Lose(s) =>
      || Remove(r.ring, s).slots != map[]
      || forall key | key in r.table.sessions && r.table.sessions[key].backend == s ::
           Expired(r.table.defaultTimeout, r.table.sessions[key], t.now)
    case Admin(SetTimeout(key, secs)) =>
      key in r.table.sessions ==>
        var e := r.table.sessions[key];
        || e.backend in r.ring.active
        || Expired(r.table.defaultTimeout, e.(customTimeout := secs), t.now)
    case _ => true
  }

  lemma StepKeepsNumbering(r: Router, t: Timed<Event>)
    requires ActiveAreNumbered(r.ring)
    ensures ActiveAreNumbered(RouterStep(r, t).0.ring)
  {
    match t.event
    case Request(_) =>
    case Gain(s) => AddKeepsWellFormed(r.ring, s);
    case Lose(s) => RemoveKeepsWellFormed(r.ring, s);
    case Admin(_) =>
  }

  lemma LoseStrands(r: Router, server: int, now: Time)
    requires ActiveAreNumbered(r.ring) && NoneStranded(r, now)
    ensures NoneStranded(LoseServer(r, server, now), now) <==> StrandsNobody(r, At(now, Lose(server)))
  {
    var after := LoseServer(r, server, now);
    RemoveKeepsWellFormed(r.ring, server);
    if after.ring.slots != map[] {
      forall key | key in r.table.sessions ensures Lookup(after.ring, key) in after.ring.active {
        LookupIsActive(after.ring, key);
      }
    } else {
      assert forall key | key in r.table.sessions :: after.table.sessions[key] == r.table.sessions[key];
    }
  }

  lemma SetTimeoutStrands(r: Router, key: string, secs: int, now: Time)
    requires NoneStranded(r, now)
    ensures NoneStranded(AdminStep(r, SetTimeout(key, secs), now).0, now)
       <==> StrandsNobody(r, At(now, Admin(SetTimeout(key, secs))))
  {
    var after := AdminStep(r, SetTimeout(key, secs), now).0;
    if key in r.table.sessions {
      assert after.table.sessions[key] == r.table.sessions[key].(customTimeout := secs);
      assert forall k | k in r.table.sessions && k != key :: after.table.sessions[k] == r.table.sessions[k];
    }
  }

  lemma RouteStrandsNobody(r: Router, ft: FiveTuple, target: int, now: Time)
    requires WellFormed(r.ring) && NoneStranded(r, now)
    ensures NoneStranded(r.(table := Route(r.table, r.ring, ft, target, now).0), now)
  {
    RoutedSits(r.table, r.ring, ft, target, now);
    RouteTouchesOneSession(r.table, r.ring, ft, target, now);
  }

  lemma ReassignStrandsNobody(r: Router, key: string, now: Time)
    requires WellFormed(r.ring) && NoneStranded(r, now)
    ensures NoneStranded(r.(table := ForceReassign(r.table, r.ring, key, now).0), now)
  {
    if key in r.table.sessions { ReassignLands(r, key, now); }
  }

  /** An event strands an unexpired session exactly when its guard fails. */
  lemma StepStrands(r: Router, t: Timed<Event>)
    requires ActiveAreNumbered(r.ring) && NoneStranded(r, t.now)
    ensures NoneStranded(RouterStep(r, t).0, t.now) <==> StrandsNobody(r, t)
  {
    match t.event
    case Request(ft) => RouteStrandsNobody(r, ft, -1, t.now);
    case Gain(s) => AddedIsActive(r.ring, s);
    case Lose(s) => LoseStrands(r, s, t.now);
    case Admin(Reassign(key)) => ReassignStrandsNobody(r, key, t.now);
    case Admin(SetTimeout(key, secs)) => SetTimeoutStrands(r, key, secs, t.now);
    case Admin(SetBlocked(key, block)) =>
    case Admin(CleanUp) =>
  }

  /** The guards hold at every event of the run. */
  ghost predicate StrandsNobodyOn(r: Router, ts: seq<Timed<Event>>) {
    forall i | 0 <= i < |ts| :: StrandsNobody(RouterAfter(r, ts[..i]), ts[i])
  }

  /** Right after each event of the run no live session is stranded. */
  ghost predicate NeverStranded(r: Router, ts: seq<Timed<Event>>) {
    forall i | 0 <= i < |ts| :: NoneStranded(RouterAfter(r, ts[..i + 1]), ts[i].now)
  }

  lemma NobodyStrandedLater(r: Router, now: Time, later: Time)
    requires NoneStranded(r, now) && now <= later
    ensures NoneStranded(r, later)
  {}

  /** The lazy failover branch is taken exactly for an unblocked, unexpired, stranded session on a non-empty ring. */
  lemma ReassignedMeansStranded(r: Router, ft: FiveTuple, target: int, now: Time)
    requires ActiveAreNumbered(r.ring)
    ensures Route(r.table, r.ring, ft, target, now).1.status == REASSIGNED
       <==> && r.ring.slots != map[] && ToKey(ft) in r.table.sessions
            && var e := r.table.sessions[ToKey(ft)];
               !e.blocked && !Expired(r.table.defaultTimeout, e, now) && e.backend !in r.ring.active
  {
    if r.ring.slots != map[] { LookupIsActive(r.ring, ToKey(ft)); }
  }

  lemma {:induction false} RunKeepsNumbering(r: Router, ts: seq<Timed<Event>>)
    requires ActiveAreNumbered(r.ring)
    ensures ActiveAreNumbered(RouterAfter(r, ts).ring)
  {
    if ts != [] {
      RunKeepsNumbering(r, ts[..|ts| - 1]);
      StepKeepsNumbering(RouterAfter(r, ts[..|ts| - 1]), ts[|ts| - 1]);
    }
  }

  /** In the middle of a run: an event keeps everyone off lost servers exactly when its guard holds. */
  lemma GuardDecides(r: Router, ts: seq<Timed<Event>>, start: Time, i: nat)
    requires ActiveAreNumbered(r.ring) && ClockFrom(start, ts) && i < |ts|
    requires NoneStranded(RouterAfter(r, ts[..i]), Latest(start, ts[..i]))
    ensures NoneStranded(RouterAfter(r, ts[..i + 1]), ts[i].now) <==> StrandsNobody(RouterAfter(r, ts[..i]), ts[i])
    ensures ts[i].event.Request? ==>
              OutcomeAt(r, ts, i).Answer? && OutcomeAt(r, ts, i).routed.status != REASSIGNED
  {
    var before := RouterAfter(r, ts[..i]);
    RunKeepsNumbering(r, ts[..i]);
    ClockOfPrefix(start, ts, i);
    NobodyStrandedLater(before, Latest(start, ts[..i]), ts[i].now);
    RouterPrefix(r, ts, i);
    StepStrands(before, ts[i]);
    if ts[i].event.Request? { ReassignedMeansStranded(before, ts[i].event.ft, -1, ts[i].now); }
  }

  lemma {:induction false} GuardsKeepEveryoneOff(r: Router, ts: seq<Timed<Event>>, start: Time, n: nat)
    requires ActiveAreNumbered(r.ring) && NoneStranded(r, start) && ClockFrom(start, ts) && n <= |ts|
    requires StrandsNobodyOn(r, ts)
    ensures NoneStranded(RouterAfter(r, ts[..n]), Latest(start, ts[..n]))
  {
    if n > 0 {
      GuardsKeepEveryoneOff(r, ts, start, n - 1);
      GuardDecides(r, ts, start, n - 1);
    }
  }

  /** No live session is stranded after any event of a run exactly when the guards hold at every event. */
  lemma NobodyIsEverStranded(r: Router, ts: seq<Timed<Event>>, start: Time)
    requires ActiveAreNumbered(r.ring) && NoneStranded(r, start) && ClockFrom(start, ts)
    ensures NeverStranded(r, ts) <==> StrandsNobodyOn(r, ts)
    ensures StrandsNobodyOn(r, ts) ==>
              forall i | 0 <= i < |ts| && ts[i].event.Request? ::
                OutcomeAt(r, ts, i).Answer? && OutcomeAt(r, ts, i).routed.status != REASSIGNED
  {
    if StrandsNobodyOn(r, ts) || NeverStranded(r, ts) {
      forall i | 0 <= i < |ts|
        ensures NoneStranded(RouterAfter(r, ts[..i + 1]), ts[i].now) && StrandsNobody(RouterAfter(r, ts[..i]), ts[i])
        ensures ts[i].event.Request? ==>
                  OutcomeAt(r, ts, i).Answer? && OutcomeAt(r, ts, i).routed.status != REASSIGNED
      {
        if StrandsNobodyOn(r, ts) {
          GuardsKeepEveryoneOff(r, ts, start, i);
        } else if i > 0 {
          assert NoneStranded(RouterAfter(r, ts[..i - 1 + 1]), ts[i - 1].now);
        }
        GuardDecides(r, ts, start, i);
      }
    }
  }

  /**
   Losing a server changes exactly its unexpired sessions: each moves to the server that its key
   hashes to on what is left of the ring, and keeps all else but its time of use.
   */
  lemma LosingMovesExactlyItsSessions(r: Router, server: int, now: Time, key: string)
    requires ActiveAreNumbered(r.ring) && Remove(r.ring, server).slots != map[]
    requires key in r.table.sessions
    ensures var after := LoseServer(r, server, now);
            var e, hashed := r.table.sessions[key], Lookup(after.ring, key);
            && key in after.table.sessions
            && (after.table.sessions[key] != e <==> e.backend == server && !Expired(r.table.defaultTimeout, e, now))
            && (after.table.sessions[key] != e ==>
                  && hashed in after.ring.active && hashed != server
                  && after.table.sessions[key]
                  == e.(backend := hashed, lastAccess := now,
                        pathHistory := e.pathHistory + [Hop(hashed, Redistributed(server))]))
  {
    RemoveKeepsWellFormed(r.ring, server);
    LookupIsActive(Remove(r.ring, server), key);
  }

  /** If no other server held its positions, a live session that sat where its key hashes still does. */
  lemma LossKeepsHashed(r: Router, server: int, now: Time, key: string)
    requires ActiveAreNumbered(r.ring) && HoldsItsPositions(r.ring, server)
    requires Remove(r.ring, server).slots != map[]
    requires key in r.table.sessions && !Expired(r.table.defaultTimeout, r.table.sessions[key], now)
    requires r.table.sessions[key].backend == Lookup(r.ring, key)
    ensures var after := LoseServer(r, server, now);
            key in after.table.sessions && after.table.sessions[key].backend == Lookup(after.ring, key)
  {
    assert r.ring.slots != map[];
    LosingMovesExactlyItsSessions(r, server, now, key);
    RemovalMovesExactlyItsKeys(r.ring, server, key);
  }

  /** Routing leaves a session on its backend, or puts it where its key hashes to. */
  lemma RouteMovesToHash(r: Router, ft: FiveTuple, target: int, now: Time, key: string)
    requires key in Route(r.table, r.ring, ft, target, now).0.sessions
    ensures var backend := Route(r.table, r.ring, ft, target, now).0.sessions[key].backend;
            || (key in r.table.sessions && r.table.sessions[key].backend == backend)
            || backend == Lookup(r.ring, key)
  {}
}
