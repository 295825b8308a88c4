/** The session manager object: the methods that edit the table in place. */
module SessionManagement {
  import opened Config
  import opened FiveTuples
  import opened ConsistentHash
  import opened Sessions

  /** Visiting one more key of those still to do, on the way to all keys of some kind. */
  lemma VisitOne(kind: set<string>, todo: set<string>, key: string)
    requires key in todo
    ensures var seen, seen' := kind - todo, kind - (todo - {key});
            if key in kind then key !in seen && seen' == seen + {key} && |seen'| == |seen| + 1 else seen' == seen
  {
    if key in kind {
      assert kind - (todo - {key}) == (kind - todo) + {key};
    } else {
      assert kind - (todo - {key}) == kind - todo;
    }
  }

  lemma AllVisited(kind: set<string>)
    ensures kind - {} == kind
  {}

  /** The clean-up has gone through all keys but those still to do. */
  ghost predicate CleanedExcept(before: Table, todo: set<string>, now: Time, left: map<string, Session>, removed: nat) {
    && todo <= before.sessions.Keys
    && left == before.sessions - (ExpiredKeys(before, now) - todo)
    && removed == |ExpiredKeys(before, now) - todo|
  }

  lemma CleanNothing(before: Table, now: Time)
    ensures CleanedExcept(before, before.sessions.Keys, now, before.sessions, 0)
  {
    assert ExpiredKeys(before, now) - before.sessions.Keys == {};
  }

  lemma CleanOne(before: Table, todo: set<string>, now: Time, left: map<string, Session>, removed: nat, key: string)
    requires CleanedExcept(before, todo, now, left, removed) && key in todo
    ensures key in left
    ensures if Expired(before.defaultTimeout, left[key], now)
            then CleanedExcept(before, todo - {key}, now, left - {key}, removed + 1)
            else CleanedExcept(before, todo - {key}, now, left, removed)
  {
    var expired := ExpiredKeys(before, now);
    VisitOne(expired, todo, key);
    assert left[key] == before.sessions[key];
    if key in expired {
      assert before.sessions - ((expired - todo) + {key}) == left - {key};
    }
  }

  lemma CleanedAll(before: Table, now: Time, left: map<string, Session>, removed: nat)
    requires CleanedExcept(before, {}, now, left, removed)
    ensures (before.(sessions := left), removed) == Cleanup(before, now)
    ensures left.Keys == LiveKeys(before, now) && removed + |left| == |before.sessions|
  {
    AllVisited(ExpiredKeys(before, now));
    CleanupLeavesTheLive(before, now);
  }

  class SessionManager {
    const hashRing: ConsistentHashRing
    const defaultTimeoutSec: int
    var sessions: map<string, Session>

    ghost function State(): Table
      reads this
    {
      Table(defaultTimeoutSec, sessions)
    }

    constructor (ring: ConsistentHashRing, timeoutSec: int)
      ensures hashRing == ring && State() == Table(timeoutSec, map[])
    {
      hashRing := ring;
      defaultTimeoutSec := timeoutSec;
      sessions := map[];
    }

    predicate IsExpired(entry: Session, now: Time) {
      var timeout := if entry.customTimeout >= 0 then entry.customTimeout else defaultTimeoutSec;
      now - entry.lastAccess > timeout * SECOND
    }

    method RouteRequest(ft: FiveTuple, target: int, now: Time) returns (status: RequestStatus, assignedBackend: int)
      modifies this
      ensures (State(), Routed(status, assignedBackend)) == Route(old(State()), hashRing.State(), ft, target, now)
    {
      assignedBackend := target;
      var key := ToKey(ft);
      if key in sessions {
        var entry := sessions[key];
        if entry.blocked { return SESSION_BLOCKED, assignedBackend; }
        if IsExpired(entry, now) {
          sessions := sessions - {key};
        } else if entry.backend in hashRing.active {
          sessions := sessions[key := entry.(lastAccess := now)];
          return SUCCESS, entry.backend;
        } else {
          var newBackend := hashRing.GetServer(key);
          if newBackend < 0 { return SERVER_DOWN, assignedBackend; }
          var hop := Hop(newBackend, Failover(entry.backend));
          sessions := sessions[key := entry.(backend := newBackend, lastAccess := now,
                                             pathHistory := entry.pathHistory + [hop])];
          return REASSIGNED, newBackend;
        }
      }
      var backend := hashRing.GetServer(key);
      if backend < 0 { return SERVER_DOWN, assignedBackend; }
      sessions := sessions[key := Session(ft, backend, false, -1, now, now, [Hop(backend, InitialAssignment)])];
      return SUCCESS, backend;
    }

    method ForceReassign(key: string, now: Time) returns (ok: bool)
      modifies this
      ensures (State(), ok) == Sessions.ForceReassign(old(State()), hashRing.State(), key, now)
    {
      if key !in sessions { return false; }
      var entry := sessions[key];
      var newBackend := hashRing.GetServer(key);
      if newBackend < 0 { return false; }
      if newBackend == entry.backend {
        var servers := hashRing.active;
        if |servers| <= 1 { return false; }
        var i := 0;
        while i < |servers| && servers[i] == entry.backend
          invariant 0 <= i <= |servers|
          invariant FirstOther(servers, entry.backend) == FirstOther(servers[i..], entry.backend)
          invariant sessions == old(sessions)
        {
          assert servers[i..][1..] == servers[i + 1..];
          i := i + 1;
        }
        if i < |servers| { newBackend := servers[i]; }
      }
      var hop := Hop(newBackend, ForcedReassignment(entry.backend));
      sessions := sessions[key := entry.(backend := newBackend, lastAccess := now,
                                         pathHistory := entry.pathHistory + [hop])];
      return true;
    }

    method BlockSession(key: string, block: bool) returns (ok: bool)
      modifies this
      ensures (State(), ok) == Block(old(State()), key, block)
    {
      if key !in sessions { return false; }
      sessions := sessions[key := sessions[key].(blocked := block)];
      return true;
    }

    method SetSessionExpiry(key: string, timeoutSec: int) returns (ok: bool)
      modifies this
      ensures (State(), ok) == SetExpiry(old(State()), key, timeoutSec)
    {
      if key !in sessions { return false; }
      sessions := sessions[key := sessions[key].(customTimeout := timeoutSec)];
      return true;
    }

    /** The sessions are visited in an unspecified order, as in an unordered map. */
    method HandleServerDown(server: int, now: Time)
      modifies this
      ensures State() == ServerDown(old(State()), hashRing.State(), server, now)
    {
      ghost var before, ring := State(), hashRing.State();
      var todo := sessions.Keys;
      while todo != {}
        invariant todo <= before.sessions.Keys == sessions.Keys
        invariant forall k | k in todo :: sessions[k] == before.sessions[k]
        invariant forall k | k in sessions.Keys - todo :: sessions[k] == AfterServerDown(before, ring, server, k, now)
        decreases todo
      {
        var key :| key in todo;
        todo := todo - {key};
        var entry := sessions[key];
        if entry.backend == server && !IsExpired(entry, now) {
          var newBackend := hashRing.GetServer(key);
          if newBackend >= 0 && newBackend != server {
            var hop := Hop(newBackend, Redistributed(entry.backend));
            sessions := sessions[key := entry.(backend := newBackend, lastAccess := now,
                                               pathHistory := entry.pathHistory + [hop])];
          }
        }
      }
      assert sessions == ServerDown(before, ring, server, now).sessions;
    }

    method CleanupExpired(now: Time) returns (removed: nat)
      modifies this
      ensures (State(), removed) == Cleanup(old(State()), now)
      ensures sessions.Keys == LiveKeys(old(State()), now) && removed + |sessions| == |old(sessions)|
    {
      ghost var before := State();
      removed := 0;
      var todo := sessions.Keys;
      CleanNothing(before, now);
      while todo != {}
        invariant CleanedExcept(before, todo, now, sessions, removed)
        decreases todo
      {
        var key :| key in todo;
        CleanOne(before, todo, now, sessions, removed, key);
        todo := todo - {key};
        if IsExpired(sessions[key], now) {
          sessions := sessions - {key};
          removed := removed + 1;
        }
      }
      CleanedAll(before, now, sessions, removed);
    }

    method ActiveSessionCount(now: Time) returns (count: nat)
      ensures count == |LiveSessions(State(), now)|
    {
      count := 0;
      var todo := sessions.Keys;
      ghost var live := LiveKeys(State(), now);
      assert live - todo == {};
      while todo != {}
        invariant todo <= sessions.Keys && count == |live - todo|
        decreases todo
      {
        var key :| key in todo;
        VisitOne(live, todo, key);
        todo := todo - {key};
        if !IsExpired(sessions[key], now) { count := count + 1; }
      }
      AllVisited(live);
      assert live == LiveSessions(State(), now).Keys;
    }

    /** The pairs come in an unspecified order; no key comes twice. */
    method GetAllSessions(now: Time) returns (result: seq<(string, int)>)
      ensures Lists(result, sessions, LiveKeys(State(), now))
    {
      result := [];
      var todo := sessions.Keys;
      ghost var live := LiveKeys(State(), now);
      assert live - todo == {};
      while todo != {}
        invariant todo <= sessions.Keys && Lists(result, sessions, live - todo)
        decreases todo
      {
        var key :| key in todo;
        VisitOne(live, todo, key);
        if !IsExpired(sessions[key], now) {
          ListOneMore(result, sessions, live - todo, key);
          result := result + [(key, sessions[key].backend)];
        }
        todo := todo - {key};
      }
      AllVisited(live);
    }
  }

  /** One pair for each of the keys. */
  ghost predicate Lists(pairs: seq<(string, int)>, sessions: map<string, Session>, keys: set<string>) {
    |pairs| == |keys| && forall k | k in keys :: k in sessions && (k, sessions[k].backend) in pairs
  }

  lemma ListOneMore(pairs: seq<(string, int)>, sessions: map<string, Session>, keys: set<string>, key: string)
    requires Lists(pairs, sessions, keys) && key in sessions && key !in keys
    ensures Lists(pairs + [(key, sessions[key].backend)], sessions, keys + {key})
  {
    var pair := (key, sessions[key].backend);
    assert (pairs + [pair])[|pairs|] == pair;
    assert forall p | p in pairs :: p in pairs + [pair];
  }
}
