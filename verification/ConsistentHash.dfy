/** The ring object that all components share. */
module ConsistentHash {
  import opened Fnv
  import opened HashRing

  class ConsistentHashRing {
    const vnodesPerServer: int
    var slots: map<Word, int>
    var active: seq<int>

    ghost function State(): Ring
      reads this
    {
      Ring(vnodesPerServer, slots, active)
    }

    constructor (vnodes: int)
      ensures State() == EmptyRing(vnodes)
    {
      vnodesPerServer := vnodes;
      slots := map[];
      active := [];
    }

    method AddServer(server: int)
      modifies this
      ensures State() == Add(old(State()), server)
    {
      if server in active { return; }
      var i := 0;
      while i < vnodesPerServer
        invariant 0 <= i && (i <= vnodesPerServer || i == 0)
        invariant slots == Paint(old(slots), i, server)
        invariant active == old(active)
      {
        PaintNext(old(slots), i, server);
        var hash := HashKey(VnodeKey(server, i));
        slots := slots[hash := server];
        i := i + 1;
      }
      PaintAll(old(State()), i, server);
      active := active + [server];
    }

    method RemoveServer(server: int)
      modifies this
      ensures State() == Remove(old(State()), server)
    {
      var i := 0;
      while i < vnodesPerServer
        invariant 0 <= i && (i <= vnodesPerServer || i == 0)
        invariant slots == old(slots) - Positions(i, server)
        invariant active == old(active)
      {
        var hash := HashKey(VnodeKey(server, i));
        EraseNext(old(slots), i, server);
        slots := slots - {hash};
        i := i + 1;
      }
      NoVnodes(i, vnodesPerServer, server);
      active := Without(active, server);
    }

    method GetServer(key: string) returns (server: int)
      ensures server == Lookup(State(), key)
    {
      if slots == map[] { return -1; }
      var hash := HashKey(key);
      return slots[Successor(slots.Keys, hash)];
    }
  }

  lemma NoVnodes(i: int, n: int, server: int)
    requires 0 <= i && (i == n || (i == 0 && n <= 0))
    ensures Positions(i, server) == Positions(n, server)
  {
    assert i != n ==> Positions(i, server) == {} == Positions(n, server);
  }

  lemma NextPosition(i: nat, server: int)
    ensures Positions(i + 1, server) == Positions(i, server) + {VnodeHash(server, i)}
  {
    var next, more := Positions(i + 1, server), Positions(i, server) + {VnodeHash(server, i)};
    forall p | p in next ensures p in more {
      var j :| 0 <= j < i + 1 && p == VnodeHash(server, j);
      if j < i { assert VnodeHash(server, j) in Positions(i, server); }
    }
    forall p | p in more ensures p in next {
      if p != VnodeHash(server, i) {
        var j :| 0 <= j < i && p == VnodeHash(server, j);
      }
    }
  }

  /** The slots after the first `n` virtual nodes of a server were inserted one by one. */
  function Paint(slots: map<Word, int>, n: int, server: int): map<Word, int> {
    if n <= 0 then slots else Paint(slots, n - 1, server)[VnodeHash(server, n - 1) := server]
  }

  lemma PaintOneMore(slots: map<Word, int>, some: set<Word>, p: Word, server: int)
    ensures (slots + map q | q in some :: server)[p := server] == slots + map q | q in some + {p} :: server
  {}

  lemma OccupyNothing(slots: map<Word, int>, server: int)
    ensures Occupy(slots, 0, server) == slots
  {
    assert Positions(0, server) == {};
  }

  lemma OccupyNext(slots: map<Word, int>, i: nat, server: int, before: map<Word, int>)
    requires before == Occupy(slots, i, server)
    ensures before[VnodeHash(server, i) := server] == Occupy(slots, i + 1, server)
  {
    NextPosition(i, server);
    PaintOneMore(slots, Positions(i, server), VnodeHash(server, i), server);
  }

  lemma {:induction false} PaintIsOccupy(slots: map<Word, int>, n: nat, server: int)
    ensures Paint(slots, n, server) == Occupy(slots, n, server)
  {
    if n == 0 {
      OccupyNothing(slots, server);
    } else {
      PaintIsOccupy(slots, n - 1, server);
      OccupyNext(slots, n - 1, server, Paint(slots, n - 1, server));
    }
  }

  lemma PaintNext(slots: map<Word, int>, i: nat, server: int)
    ensures Paint(slots, i + 1, server) == Paint(slots, i, server)[Hash(VnodeKey(server, i)) := server]
  {}

  /** The loop has inserted all virtual nodes, or none when there are none. */
  lemma PaintAll(r: Ring, i: nat, server: int)
    requires (i == r.vnodes || (i == 0 && r.vnodes <= 0)) && server !in r.active
    ensures Ring(r.vnodes, Paint(r.slots, i, server), r.active + [server]) == Add(r, server)
  {
    PaintIsOccupy(r.slots, i, server);
    NoVnodes(i, r.vnodes, server);
  }

  lemma EraseOneMore(slots: map<Word, int>, some: set<Word>, p: Word)
    ensures slots - some - {p} == slots - (some + {p})
  {}

  lemma EraseNext(slots: map<Word, int>, i: nat, server: int)
    ensures slots - Positions(i, server) - {VnodeHash(server, i)} == slots - Positions(i + 1, server)
  {
    NextPosition(i, server);
    EraseOneMore(slots, Positions(i, server), VnodeHash(server, i));
  }
}
