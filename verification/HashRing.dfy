/**
 The consistent-hash ring as a value: a map from occupied positions to the server that owns
 the virtual node there, and the list of active servers. Facts that hold even when virtual
 nodes of different servers share a position come first; those that need distinct positions
 carry `CollisionFree` or the exact condition under which they hold.
 */
module HashRing {
  import opened Decimal
  import opened Fields
  import opened Fnv

  datatype Ring = Ring(vnodes: int, slots: map<Word, int>, active: seq<int>)

  function EmptyRing(vnodes: int): Ring {
    Ring(vnodes, map[], [])
  }

  function VnodeKey(server: int, i: int): string {
    "server_" + IntToString(server) + "_vnode_" + IntToString(i)
  }

  function VnodeHash(server: int, i: int): Word {
    Hash(VnodeKey(server, i))
  }

  /** All ring positions of one server. */
  function Positions(vnodes: int, server: int): set<Word> {
    set i | 0 <= i < vnodes :: VnodeHash(server, i)
  }

  /** The erase-remove idiom on the list of active servers. */
  function Without(list: seq<int>, x: int): (r: seq<int>)
    ensures forall y :: y in r <==> y in list && y != x
  {
    if list == [] then []
    else if list[0] == x then Without(list[1..], x)
    else [list[0]] + Without(list[1..], x)
  }

  /** The slots after one server took the positions of its first `n` virtual nodes. */
  function Occupy(slots: map<Word, int>, n: int, server: int): map<Word, int> {
    slots + map p | p in Positions(n, server) :: server
  }

  /** `addServer`: every virtual node takes its position, whoever held it. */
  function Add(r: Ring, server: int): Ring {
    if server in r.active then r
    else Ring(r.vnodes, Occupy(r.slots, r.vnodes, server), r.active + [server])
  }

  /** `removeServer`: the server's positions are erased, whoever holds them. */
  function Remove(r: Ring, server: int): Ring {
    Ring(r.vnodes, r.slots - Positions(r.vnodes, server), Without(r.active, server))
  }

  lemma LeastOf(keys: set<Word>) returns (m: Word)
    requires keys != {}
    ensures m in keys && forall q | q in keys :: m <= q
  {
    m :| m in keys;
    var rest := keys - {m};
    assert forall q | q in keys :: q == m || q in rest;
    if rest != {} {
      var least := LeastOf(rest);
      if least < m { m := least; }
    }
  }

  lemma MinExists(keys: set<Word>)
    requires keys != {}
    ensures exists m :: m in keys && forall q | q in keys :: m <= q
  {
    var m := LeastOf(keys);
  }

  function Min(keys: set<Word>): (m: Word)
    requires keys != {}
    ensures m in keys && forall q | q in keys :: m <= q
  {
    MinExists(keys);
    var m :| m in keys && forall q | q in keys :: m <= q;
    m
  }

  function AtOrAfter(keys: set<Word>, h: Word): set<Word> {
    set p | p in keys && h <= p
  }

  /** `lower_bound`, or the first position when there is none at or after the hash. */
  function Successor(keys: set<Word>, h: Word): (p: Word)
    requires keys != {}
    ensures p in keys
  {
    var ahead := AtOrAfter(keys, h);
    if ahead == {} then Min(keys) else Min(ahead)
  }

  /** `getServer`: the owner of the successor position, or -1 on an empty ring. */
  function Lookup(r: Ring, key: string): int {
    if r.slots == map[] then -1 else r.slots[Successor(r.slots.Keys, Hash(key))]
  }

  // ---------------------------------------------------------------------------------------
  // The index against its meaning: the nearest virtual node clockwise, modulo 2^64
  // ---------------------------------------------------------------------------------------

  /** How far clockwise a position lies from a hash. */
  function Distance(h: Word, p: Word): Word {
    (p - h) % MODULUS
  }

  lemma DistanceCases(h: Word, p: Word)
    ensures Distance(h, p) == if h <= p then p - h else p - h + MODULUS
  {
    if h > p {
      ReducedOnce(p - h + MODULUS, -1);
    }
  }

  /** The successor is the one position at the least clockwise distance. */
  lemma SuccessorIsNearest(keys: set<Word>, h: Word)
    requires keys != {}
    ensures forall q | q in keys && q != Successor(keys, h) :: Distance(h, Successor(keys, h)) < Distance(h, q)
  {
    var p := Successor(keys, h);
    forall q | q in keys && q != p ensures Distance(h, p) < Distance(h, q) {
      DistanceCases(h, p);
      DistanceCases(h, q);
      assert h <= q ==> q in AtOrAfter(keys, h);
    }
  }

  /** With fewer positions the successor stays where it is, unless it is one of those that went. */
  lemma SuccessorInSubset(few: set<Word>, many: set<Word>, h: Word)
    requires few != {} && few <= many && Successor(many, h) in few
    ensures Successor(few, h) == Successor(many, h)
  {
    SuccessorIsNearest(few, h);
    SuccessorIsNearest(many, h);
  }

  // ---------------------------------------------------------------------------------------
  // Unconditional invariants
  // ---------------------------------------------------------------------------------------

  ghost predicate NoDuplicates(list: seq<int>) {
    forall i, j | 0 <= i < j < |list| :: list[i] != list[j]
  }

  /** Every owner is active, and sits on a position hashed from its own virtual-node key. */
  ghost predicate WellFormed(r: Ring) {
    && NoDuplicates(r.active)
    && forall p | p in r.slots :: r.slots[p] in r.active && p in Positions(r.vnodes, r.slots[p])
  }

  lemma {:induction false} WithoutKeepsDistinct(list: seq<int>, x: int)
    requires NoDuplicates(list)
    ensures NoDuplicates(Without(list, x))
    ensures x !in list ==> Without(list, x) == list
  {
    if list != [] {
      assert list == [list[0]] + list[1..];
      WithoutKeepsDistinct(list[1..], x);
      assert forall i | 0 <= i < |list[1..]| :: list[1..][i] == list[i + 1];
      assert list[0] !in list[1..];
    }
  }

  lemma AddedIsActive(r: Ring, server: int)
    ensures forall s :: s in Add(r, server).active <==> s in r.active || s == server
  {}

  /** A newcomer takes all of its positions, whoever held them, and no other; it joins at the end of the list. */
  lemma NewcomerOwnsAll(r: Ring, server: int)
    requires server !in r.active
    ensures var after := Add(r, server);
            && OwnsAll(after, server) && after.vnodes == r.vnodes && after.active == r.active + [server]
            && (forall p | p !in Positions(r.vnodes, server) ::
                  (p in after.slots <==> p in r.slots) && (p in r.slots ==> after.slots[p] == r.slots[p]))
  {}

  /** A removal frees exactly the positions of the server, whoever holds them. */
  lemma RemovalFreesItsPositions(r: Ring, server: int)
    ensures var after := Remove(r, server);
            && after.vnodes == r.vnodes && after.slots.Keys == r.slots.Keys - Positions(r.vnodes, server)
            && (forall p | p in after.slots :: after.slots[p] == r.slots[p])
  {}

  /** Taking a server off the list keeps the order of the others. */
  lemma {:induction false} WithoutOne(front: seq<int>, x: int, back: seq<int>)
    requires x !in front && x !in back
    ensures Without(front + [x] + back, x) == front + back
  {
    if front == [] {
      assert [] + [x] + back == [x] + back && ([x] + back)[1..] == back;
      WithoutNone(back, x);
    } else {
      var list := front + [x] + back;
      assert list[1..] == front[1..] + [x] + back;
      WithoutOne(front[1..], x, back);
    }
  }

  lemma {:induction false} WithoutNone(list: seq<int>, x: int)
    requires x !in list
    ensures Without(list, x) == list
  {
    if list != [] { WithoutNone(list[1..], x); }
  }

  lemma AddKeepsWellFormed(r: Ring, server: int)
    requires WellFormed(r)
    ensures WellFormed(Add(r, server))
  {}

  lemma RemoveKeepsWellFormed(r: Ring, server: int)
    requires WellFormed(r)
    ensures WellFormed(Remove(r, server))
    ensures server !in Remove(r, server).active
  {
    WithoutKeepsDistinct(r.active, server);
  }

  /** On a ring with positions every lookup answers with an active server. */
  lemma LookupIsActive(r: Ring, key: string)
    requires WellFormed(r) && r.slots != map[]
    ensures Lookup(r, key) in r.active
  {}

  /** Adding a server moves keys only to it, collisions or not. */
  lemma AdditionMovesOnlyToNew(r: Ring, server: int, key: string)
    ensures Lookup(Add(r, server), key) == server || Lookup(Add(r, server), key) == Lookup(r, key)
  {
    var after := Add(r, server);
    if after.slots != map[] && server !in r.active {
      var h := Hash(key);
      var p := Successor(after.slots.Keys, h);
      if p !in Positions(r.vnodes, server) {
        assert p in r.slots && after.slots[p] == r.slots[p];
        SuccessorInSubset(r.slots.Keys, after.slots.Keys, h);
      }
    }
  }

  /** Removing a server moves only keys whose nearest virtual node lies on one of its positions. */
  lemma RemovalMovesOnlyItsPositions(r: Ring, server: int, key: string)
    requires r.slots != map[]
    requires Successor(r.slots.Keys, Hash(key)) !in Positions(r.vnodes, server)
    ensures Lookup(Remove(r, server), key) == Lookup(r, key)
  {
    var after := Remove(r, server);
    var p := Successor(r.slots.Keys, Hash(key));
    assert p in after.slots;
    SuccessorInSubset(after.slots.Keys, r.slots.Keys, Hash(key));
  }

  /** A position of the server that is occupied is its own. */
  ghost predicate HoldsItsPositions(r: Ring, server: int) {
    forall p | p in Positions(r.vnodes, server) && p in r.slots :: r.slots[p] == server
  }

  /** Without a collision on the server, exactly the keys that were on it move, to other active servers. */
  lemma RemovalMovesExactlyItsKeys(r: Ring, server: int, key: string)
    requires WellFormed(r) && HoldsItsPositions(r, server)
    requires r.slots != map[] && Remove(r, server).slots != map[]
    ensures Lookup(Remove(r, server), key) != Lookup(r, key) <==> Lookup(r, key) == server
    ensures Lookup(Remove(r, server), key) in r.active && Lookup(Remove(r, server), key) != server
  {
    RemoveKeepsWellFormed(r, server);
    LookupIsActive(Remove(r, server), key);
    if Lookup(r, key) != server {
      RemovalMovesOnlyItsPositions(r, server, key);
    }
  }

  // ---------------------------------------------------------------------------------------
  // Collision-free rings
  // ---------------------------------------------------------------------------------------

  ghost predicate CollisionFree(vnodes: int, servers: set<int>) {
    forall s, t | s in servers && t in servers && s != t :: Positions(vnodes, s) !! Positions(vnodes, t)
  }

  ghost predicate OwnsAll(r: Ring, server: int) {
    forall p | p in Positions(r.vnodes, server) :: p in r.slots && r.slots[p] == server
  }

  /** Every active server owns all of its positions. */
  ghost predicate Canonical(r: Ring) {
    WellFormed(r) && forall s | s in r.active :: OwnsAll(r, s)
  }

  lemma AddToFreePositions(r: Ring, server: int)
    requires Canonical(r) && server !in r.active
    requires Positions(r.vnodes, server) !! r.slots.Keys
    ensures Canonical(Add(r, server))
  {
    var after := Add(r, server);
    AddKeepsWellFormed(r, server);
    forall s | s in after.active ensures OwnsAll(after, s) {
      if s != server {
        assert s in r.active && OwnsAll(r, s);
        assert forall p | p in Positions(r.vnodes, s) :: p in r.slots && p !in Positions(r.vnodes, server);
      }
    }
  }

  lemma JoinFreePositions(r: Ring, server: int, r': Ring)
    requires Canonical(r) && server !in r.active && r' == Add(r, server)
    requires Positions(r.vnodes, server) !! r.slots.Keys
    ensures Canonical(r') && r'.vnodes == r.vnodes && r'.active == r.active + [server]
    ensures r'.slots.Keys == r.slots.Keys + Positions(r.vnodes, server)
  {
    AddToFreePositions(r, server);
  }

  lemma AddOverTakenPosition(r: Ring, server: int, p: Word)
    requires WellFormed(r) && server !in r.active
    requires p in Positions(r.vnodes, server) && p in r.slots
    ensures !OwnsAll(Add(r, server), r.slots[p]) && r.slots[p] in Add(r, server).active
  {
    assert Add(r, server).slots[p] == server;
  }

  /** Adding a server keeps the ring canonical exactly when none of its positions is taken. */
  lemma AddKeepsCanonical(r: Ring, server: int)
    requires Canonical(r) && server !in r.active
    ensures Canonical(Add(r, server)) <==> Positions(r.vnodes, server) !! r.slots.Keys
  {
    if Positions(r.vnodes, server) !! r.slots.Keys {
      AddToFreePositions(r, server);
    } else {
      var p :| p in Positions(r.vnodes, server) && p in r.slots;
      AddOverTakenPosition(r, server, p);
    }
  }

  /** Removing a server keeps the ring canonical exactly when it erases nobody else's positions. */
  lemma RemoveKeepsCanonical(r: Ring, server: int)
    requires Canonical(r)
    ensures Canonical(Remove(r, server)) <==> HoldsItsPositions(r, server)
    ensures server in r.active ==> HoldsItsPositions(r, server)
  {
    var after := Remove(r, server);
    RemoveKeepsWellFormed(r, server);
    if HoldsItsPositions(r, server) {
      forall s | s in after.active ensures OwnsAll(after, s) {
        assert OwnsAll(r, s);
      }
    } else {
      var p :| p in Positions(r.vnodes, server) && p in r.slots && r.slots[p] != server;
      assert r.slots[p] in after.active && p in Positions(r.vnodes, r.slots[p]) && p !in after.slots;
      assert !OwnsAll(after, r.slots[p]);
    }
    if server in r.active { assert OwnsAll(r, server); }
  }

  /** On a canonical ring with virtual nodes, losing one server leaves the others reachable. */
  lemma RemovalLeavesTheOthers(r: Ring, lost: int, other: int)
    requires Canonical(r) && r.vnodes > 0 && lost in r.active && other in r.active && lost != other
    ensures Remove(r, lost).slots != map[]
  {
    var p := VnodeHash(other, 0);
    assert p in Positions(r.vnodes, other) && OwnsAll(r, other) && OwnsAll(r, lost);
    assert p in Remove(r, lost).slots;
  }

  /** Canonical rings with the same active servers are the same index. */
  lemma CanonicalIsUnique(a: Ring, b: Ring)
    requires Canonical(a) && Canonical(b) && a.vnodes == b.vnodes
    requires forall s :: s in a.active <==> s in b.active
    ensures a.slots == b.slots
  {
    forall p | p in a.slots ensures p in b.slots && b.slots[p] == a.slots[p] {
      assert OwnsAll(b, a.slots[p]);
    }
    forall p | p in b.slots ensures p in a.slots {
      assert OwnsAll(a, b.slots[p]);
    }
  }

  /** If the lookup over more servers lands on one of the fewer, the fewer agree. */
  lemma SubRingLookup(few: Ring, many: Ring, key: string)
    requires Canonical(few) && Canonical(many) && few.vnodes == many.vnodes
    requires forall s | s in few.active :: s in many.active
    requires many.slots != map[] && Lookup(many, key) in few.active
    ensures Lookup(few, key) == Lookup(many, key)
  {
    forall p | p in few.slots ensures p in many.slots && many.slots[p] == few.slots[p] {
      assert OwnsAll(many, few.slots[p]);
    }
    var p := Successor(many.slots.Keys, Hash(key));
    assert OwnsAll(few, many.slots[p]);
    SuccessorInSubset(few.slots.Keys, many.slots.Keys, Hash(key));
  }

  // ---------------------------------------------------------------------------------------
  // Histories of additions and removals
  // ---------------------------------------------------------------------------------------

  datatype Change = Join(server: int) | Leave(server: int)

  function Apply(r: Ring, c: Change): Ring {
    match c
    case Join(s) => Add(r, s)
    case Leave(s) => Remove(r, s)
  }

  function ApplyAll(r: Ring, changes: seq<Change>): Ring {
    if changes == [] then r else Apply(ApplyAll(r, changes[..|changes| - 1]), changes[|changes| - 1])
  }

  function Mentioned(changes: seq<Change>): set<int> {
    set i | 0 <= i < |changes| :: changes[i].server
  }

  /** Whether the last change that names the server lets it join. */
  predicate JoinedLast(changes: seq<Change>, server: int) {
    changes != [] &&
    var last := changes[|changes| - 1];
    if last.server == server then last.Join? else JoinedLast(changes[..|changes| - 1], server)
  }

  /** After any history the ring is well formed, and exactly those who joined last are active. */
  lemma {:induction false} EveryHistoryIsWellFormed(vnodes: int, changes: seq<Change>)
    ensures var r := ApplyAll(EmptyRing(vnodes), changes);
            WellFormed(r) && r.vnodes == vnodes && forall s :: s in r.active <==> JoinedLast(changes, s)
  {
    if changes != [] {
      var front, last := changes[..|changes| - 1], changes[|changes| - 1];
      EveryHistoryIsWellFormed(vnodes, front);
      var r := ApplyAll(EmptyRing(vnodes), front);
      AddKeepsWellFormed(r, last.server);
      RemoveKeepsWellFormed(r, last.server);
    }
  }

  /** A canonical ring does not hold the positions of a server that collides with no active one. */
  lemma ApartFromActive(r: Ring, server: int)
    requires WellFormed(r)
    requires forall s | s in r.active && s != server :: Positions(r.vnodes, server) !! Positions(r.vnodes, s)
    ensures HoldsItsPositions(r, server)
    ensures server !in r.active ==> Positions(r.vnodes, server) !! r.slots.Keys
  {}

  /** Without collisions every history leaves the canonical ring. */
  lemma {:induction false} EveryHistoryIsCanonical(vnodes: int, changes: seq<Change>, servers: set<int>)
    requires Mentioned(changes) <= servers && CollisionFree(vnodes, servers)
    ensures var r := ApplyAll(EmptyRing(vnodes), changes);
            Canonical(r) && forall s | s in r.active :: s in servers
  {
    if changes != [] {
      var front, last := changes[..|changes| - 1], changes[|changes| - 1];
      assert Mentioned(front) <= Mentioned(changes) && last.server in Mentioned(changes);
      EveryHistoryIsCanonical(vnodes, front, servers);
      EveryHistoryIsWellFormed(vnodes, front);
      var r := ApplyAll(EmptyRing(vnodes), front);
      ApartFromActive(r, last.server);
      if last.Leave? {
        RemoveKeepsCanonical(r, last.server);
      } else if last.server !in r.active {
        AddKeepsCanonical(r, last.server);
      }
    }
  }

  /** Two collision-free histories that end with the same active servers route every key alike. */
  lemma HistoryIndependence(vnodes: int, one: seq<Change>, two: seq<Change>)
    requires CollisionFree(vnodes, Mentioned(one) + Mentioned(two))
    requires forall s :: JoinedLast(one, s) <==> JoinedLast(two, s)
    ensures var a, b := ApplyAll(EmptyRing(vnodes), one), ApplyAll(EmptyRing(vnodes), two);
            a.slots == b.slots && forall key :: Lookup(a, key) == Lookup(b, key)
  {
    var servers := Mentioned(one) + Mentioned(two);
    EveryHistoryIsCanonical(vnodes, one, servers);
    EveryHistoryIsCanonical(vnodes, two, servers);
    EveryHistoryIsWellFormed(vnodes, one);
    EveryHistoryIsWellFormed(vnodes, two);
    CanonicalIsUnique(ApplyAll(EmptyRing(vnodes), one), ApplyAll(EmptyRing(vnodes), two));
  }

  lemma PaintAndErase(slots: map<Word, int>, mine: set<Word>, server: int)
    ensures (slots + map p | p in mine :: server) - mine == slots - mine
    ensures mine !! slots.Keys ==> slots - mine == slots
  {}

  /** Adding a new server and removing it again gives the old ring back exactly when it hit no taken position. */
  lemma AddThenRemove(r: Ring, server: int)
    requires WellFormed(r) && server !in r.active
    ensures Remove(Add(r, server), server) == r <==> Positions(r.vnodes, server) !! r.slots.Keys
  {
    var mine := Positions(r.vnodes, server);
    WithoutOne(r.active, server, []);
    assert r.active + [server] + [] == r.active + [server] && r.active + [] == r.active;
    PaintAndErase(r.slots, mine, server);
    if p :| p in mine && p in r.slots {
      assert p !in Remove(Add(r, server), server).slots;
    }
  }

  lemma EraseAndPaint(slots: map<Word, int>, mine: set<Word>, server: int)
    requires forall p | p in slots && slots[p] == server :: p in mine
    ensures (slots - mine) + (map p | p in mine :: server) == slots
       <==> forall p | p in mine :: p in slots && slots[p] == server
  {
    var back := (slots - mine) + map p | p in mine :: server;
    if p :| p in mine && !(p in slots && slots[p] == server) {
      assert p in back && back[p] == server;
    } else {
      assert back.Keys == slots.Keys;
    }
  }

  /** Removing an active server and adding it again restores the index exactly when it owned all its positions. */
  lemma RemoveThenAdd(r: Ring, server: int)
    requires WellFormed(r) && server in r.active
    ensures Add(Remove(r, server), server).slots == r.slots <==> OwnsAll(r, server)
  {
    EraseAndPaint(r.slots, Positions(r.vnodes, server), server);
    assert server !in Remove(r, server).active;
  }

  // ---------------------------------------------------------------------------------------
  // Virtual-node keys
  // ---------------------------------------------------------------------------------------

  lemma PrintedHasNoUnderscore(n: int)
    ensures Free(IntToString(n), '_')
  {
    assert AllDigits(NatToString(if n < 0 then -n else n));
  }

  lemma VnodeKeyCut(server: int, i: int)
    ensures VnodeKey(server, i)[..7] == "server_"
    ensures VnodeKey(server, i)[7..] == IntToString(server) + ['_'] + ("vnode_" + IntToString(i))
  {
    assert "_vnode_" == ['_'] + "vnode_";
    assert VnodeKey(server, i) == "server_" + (IntToString(server) + ['_'] + ("vnode_" + IntToString(i)));
  }

  /** The key of a virtual node, written out. */
  lemma VnodeKeyFormat()
    ensures VnodeKey(3, 12) == "server_3_vnode_12"
  {
    assert NatToString(3) == "3" && NatToString(12) == "12";
  }

  /** Different virtual nodes have different key strings. */
  lemma VnodeKeyInjective(s: int, i: int, t: int, j: int)
    requires VnodeKey(s, i) == VnodeKey(t, j)
    ensures s == t && i == j
  {
    VnodeKeyCut(s, i);
    VnodeKeyCut(t, j);
    PrintedHasNoUnderscore(s);
    PrintedHasNoUnderscore(t);
    var x, y := "vnode_" + IntToString(i), "vnode_" + IntToString(j);
    CutAtFirst(IntToString(s), IntToString(t), '_', x, y);
    IntToStringInjective(s, t);
    assert IntToString(i) == x[6..] && IntToString(j) == y[6..];
    IntToStringInjective(i, j);
  }

  lemma Glue(key: string, head: string, tail: string)
    requires |key| >= 7 && key[..7] == head && key[7..] == tail
    ensures key == head + tail
  {}

  lemma OneDigitKey(server: int, i: int, tail: string)
    requires 0 <= server < 10 && tail == ['_'] + ("vnode_" + IntToString(i))
    ensures VnodeKey(server, i) == "server_" + ([DigitChar(server)] + tail)
  {
    VnodeKeyCut(server, i);
    assert IntToString(server) == [DigitChar(server)];
    assert [DigitChar(server)] + ['_'] + ("vnode_" + IntToString(i)) == [DigitChar(server)] + tail;
    Glue(VnodeKey(server, i), "server_", [DigitChar(server)] + tail);
  }

  lemma OneCharacterApart(pre: string, c: char, d: char, tail: string)
    requires c != d
    ensures Hash(pre + ([c] + tail)) != Hash(pre + ([d] + tail))
  {
    OneDifferenceNeverCollides(pre + ([c] + tail), pre + ([d] + tail), |pre|);
  }

  /** The same virtual node of two one-digit servers never collides. */
  lemma SameIndexNeverCollides(s: int, t: int, i: int)
    requires 0 <= s < 10 && 0 <= t < 10 && s != t
    ensures VnodeHash(s, i) != VnodeHash(t, i)
  {
    var tail := ['_'] + ("vnode_" + IntToString(i));
    OneDigitKey(s, i, tail);
    OneDigitKey(t, i, tail);
    OneCharacterApart("server_", DigitChar(s), DigitChar(t), tail);
  }

  lemma OnePosition(server: int)
    ensures Positions(1, server) == {VnodeHash(server, 0)}
  {}
}
