/** The session table as a value, and what each operation of the session manager does to it. */
module Sessions {
  import opened Config
  import opened FiveTuples
  import opened HashRing

  datatype Reason = InitialAssignment | Failover(from: int) | ForcedReassignment(from: int) | Redistributed(from: int)

  /** One entry of the audit trail. */
  datatype Hop = Hop(backend: int, reason: Reason)

  datatype Session = Session(
    tuple: FiveTuple, backend: int, blocked: bool, customTimeout: int,
    createdAt: Time, lastAccess: Time, pathHistory: seq<Hop>)

  datatype Table = Table(defaultTimeout: int, sessions: map<string, Session>)

  /** Any negative custom timeout means the default. */
  function Timeout(defaultTimeout: int, e: Session): int {
    (if e.customTimeout >= 0 then e.customTimeout else defaultTimeout) * SECOND
  }

  predicate Expired(defaultTimeout: int, e: Session, now: Time) {
    now - e.lastAccess > Timeout(defaultTimeout, e)
  }

  /** Point a session at another backend and record why. */
  function MoveTo(e: Session, backend: int, reason: Reason, now: Time): Session {
    e.(backend := backend, lastAccess := now, pathHistory := e.pathHistory + [Hop(backend, reason)])
  }

  function NewSession(ft: FiveTuple, backend: int, now: Time): Session {
    Session(ft, backend, false, -1, now, now, [Hop(backend, InitialAssignment)])
  }

  datatype RequestStatus = SUCCESS | SERVER_DOWN | SESSION_BLOCKED | REASSIGNED

  /** What `routeRequest` answers: its status, and the value left in `assigned_backend`. */
  datatype Routed = Routed(status: RequestStatus, target: int)

  function Assign(tbl: Table, ring: Ring, ft: FiveTuple, target: int, now: Time): (Table, Routed) {
    var backend := Lookup(ring, ToKey(ft));
    if backend < 0 then (tbl, Routed(SERVER_DOWN, target))
    else (tbl.(sessions := tbl.sessions[ToKey(ft) := NewSession(ft, backend, now)]), Routed(SUCCESS, backend))
  }

  /** `routeRequest`. The blocked check comes before the expiry check. */
  function Route(tbl: Table, ring: Ring, ft: FiveTuple, target: int, now: Time): (Table, Routed) {
    var key := ToKey(ft);
    if key !in tbl.sessions then Assign(tbl, ring, ft, target, now)
    else
      var e := tbl.sessions[key];
      if e.blocked then (tbl, Routed(SESSION_BLOCKED, target))
      else if Expired(tbl.defaultTimeout, e, now) then
        Assign(tbl.(sessions := tbl.sessions - {key}), ring, ft, target, now)
      else if e.backend in ring.active then
        (tbl.(sessions := tbl.sessions[key := e.(lastAccess := now)]), Routed(SUCCESS, e.backend))
      else
        var backend := Lookup(ring, key);
        if backend < 0 then (tbl, Routed(SERVER_DOWN, target))
        else
          (tbl.(sessions := tbl.sessions[key := MoveTo(e, backend, Failover(e.backend), now)]),
           Routed(REASSIGNED, backend))
  }

  /** The first server of the list that differs from `x`, or `x` when there is none. */
  function FirstOther(list: seq<int>, x: int): int {
    if list == [] then x else if list[0] != x then list[0] else FirstOther(list[1..], x)
  }

  /** `forceReassign`. It neither looks at the blocked flag nor at expiry. */
  function ForceReassign(tbl: Table, ring: Ring, key: string, now: Time): (Table, bool) {
    if key !in tbl.sessions then (tbl, false)
    else
      var e := tbl.sessions[key];
      var hashed := Lookup(ring, key);
      if hashed < 0 || (hashed == e.backend && |ring.active| <= 1) then (tbl, false)
      else
        var backend := if hashed == e.backend then FirstOther(ring.active, e.backend) else hashed;
        (tbl.(sessions := tbl.sessions[key := MoveTo(e, backend, ForcedReassignment(e.backend), now)]), true)
  }

  function Block(tbl: Table, key: string, block: bool): (Table, bool) {
    if key !in tbl.sessions then (tbl, false)
    else (tbl.(sessions := tbl.sessions[key := tbl.sessions[key].(blocked := block)]), true)
  }

  function SetExpiry(tbl: Table, key: string, timeoutSec: int): (Table, bool) {
    if key !in tbl.sessions then (tbl, false)
    else (tbl.(sessions := tbl.sessions[key := tbl.sessions[key].(customTimeout := timeoutSec)]), true)
  }

  /** Whether `handleServerDown` moves this session: an unexpired one of the lost server, with somewhere to go. */
  predicate IsRedistributed(tbl: Table, ring: Ring, server: int, key: string, now: Time)
    requires key in tbl.sessions
  {
    var e := tbl.sessions[key];
    e.backend == server && !Expired(tbl.defaultTimeout, e, now) && Lookup(ring, key) >= 0 && Lookup(ring, key) != server
  }

  function AfterServerDown(tbl: Table, ring: Ring, server: int, key: string, now: Time): Session
    requires key in tbl.sessions
  {
    if IsRedistributed(tbl, ring, server, key, now) then
      MoveTo(tbl.sessions[key], Lookup(ring, key), Redistributed(server), now)
    else tbl.sessions[key]
  }

  /** `handleServerDown`, on a ring that has already lost the server. */
  function ServerDown(tbl: Table, ring: Ring, server: int, now: Time): Table {
    tbl.(sessions := map key | key in tbl.sessions :: AfterServerDown(tbl, ring, server, key, now))
  }

  function ExpiredKeys(tbl: Table, now: Time): set<string> {
    set key | key in tbl.sessions && Expired(tbl.defaultTimeout, tbl.sessions[key], now)
  }

  /** `cleanupExpired`: expired sessions go, blocked or not; the answer is how many went. */
  function Cleanup(tbl: Table, now: Time): (Table, nat) {
    (tbl.(sessions := tbl.sessions - ExpiredKeys(tbl, now)), |ExpiredKeys(tbl, now)|)
  }

  /** Cleaning up leaves the live sessions, blocked or not, untouched, and counts the others. */
  lemma CleanupLeavesTheLive(tbl: Table, now: Time)
    ensures var (tbl', removed) := Cleanup(tbl, now);
            && tbl'.sessions.Keys == LiveKeys(tbl, now)
            && (forall key | key in tbl'.sessions :: tbl'.sessions[key] == tbl.sessions[key])
            && removed + |tbl'.sessions| == |tbl.sessions|
            && ExpiredKeys(tbl', now) == {}
            && LiveSessions(tbl, now) == map key | key in tbl'.sessions :: tbl'.sessions[key].backend
  {
    var tbl' := Cleanup(tbl, now).0;
    assert tbl'.sessions.Keys == LiveKeys(tbl, now);
    assert tbl.sessions.Keys == LiveKeys(tbl, now) + ExpiredKeys(tbl, now);
    assert |tbl.sessions.Keys| == |LiveKeys(tbl, now)| + |ExpiredKeys(tbl, now)|;
    assert |tbl.sessions| == |tbl.sessions.Keys| && |tbl'.sessions| == |tbl'.sessions.Keys|;
  }

  function LiveKeys(tbl: Table, now: Time): set<string> {
    set key | key in tbl.sessions && !Expired(tbl.defaultTimeout, tbl.sessions[key], now)
  }

  /** What `activeSessionCount` and `getAllSessions` report on: the backend of every unexpired session. */
  function LiveSessions(tbl: Table, now: Time): map<string, int> {
    map key | key in LiveKeys(tbl, now) :: tbl.sessions[key].backend
  }
}
