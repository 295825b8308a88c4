/** Backend servers: their online flag and their request counters. */
module Backends {
  import opened FiveTuples

  type Counts = map<string, nat>

  datatype Backend = Backend(id: int, online: bool, counts: Counts, total: nat)

  /** What a backend answers: its error when offline, or the running number of the request for this key. */
  datatype Reply = Offline(id: int) | Handled(id: int, number: nat)

  function CountOf(counts: Counts, key: string): nat {
    if key in counts then counts[key] else 0
  }

  function Process(b: Backend, key: string): (Backend, Reply) {
    if !b.online then (b, Offline(b.id))
    else
      var n := CountOf(b.counts, key) + 1;
      (b.(counts := b.counts[key := n], total := b.total + 1), Handled(b.id, n))
  }

  // ---------------------------------------------------------------------------------------
  // Sums of counters
  // ---------------------------------------------------------------------------------------

  ghost function SumCounts(counts: Counts): nat
    decreases |counts|
  {
    if counts == map[] then 0
    else
      var key :| key in counts;
      counts[key] + SumCounts(counts - {key})
  }

  lemma {:induction false} SumWithout(counts: Counts, key: string)
    requires key in counts
    ensures SumCounts(counts) == counts[key] + SumCounts(counts - {key})
    decreases |counts|
  {
    var k :| k in counts && SumCounts(counts) == counts[k] + SumCounts(counts - {k});
    if k != key {
      SumWithout(counts - {k}, key);
      SumWithout(counts - {key}, k);
      assert counts - {k} - {key} == counts - {key} - {k};
    }
  }

  lemma SumAfterUpdate(counts: Counts, key: string, n: nat)
    ensures SumCounts(counts[key := n]) == SumCounts(counts) - CountOf(counts, key) + n
  {
    SumWithout(counts[key := n], key);
    assert counts[key := n] - {key} == counts - {key};
    if key in counts {
      SumWithout(counts, key);
    } else {
      assert counts - {key} == counts;
    }
  }

  /** How often all backends together have served a key. */
  function Served(bs: seq<Backend>, key: string): nat {
    if bs == [] then 0 else Served(bs[..|bs| - 1], key) + CountOf(bs[|bs| - 1].counts, key)
  }

  lemma {:induction false} ServedAfterUpdate(bs: seq<Backend>, i: nat, b: Backend, key: string)
    requires i < |bs|
    ensures Served(bs[i := b], key) == Served(bs, key) - CountOf(bs[i].counts, key) + CountOf(b.counts, key)
  {
    var front := bs[..|bs| - 1];
    if i == |bs| - 1 {
      assert bs[i := b][..|bs| - 1] == front;
    } else {
      assert bs[i := b][..|bs| - 1] == front[i := b];
      ServedAfterUpdate(front, i, b, key);
    }
  }

  /** A key that is counted on one backend only. */
  lemma {:induction false} ServedAtOne(bs: seq<Backend>, i: nat, key: string)
    requires i < |bs| && forall j | 0 <= j < |bs| && j != i :: CountOf(bs[j].counts, key) == 0
    ensures Served(bs, key) == CountOf(bs[i].counts, key)
  {
    if i == |bs| - 1 {
      ServedNowhere(bs[..|bs| - 1], key);
    } else {
      ServedAtOne(bs[..|bs| - 1], i, key);
    }
  }

  lemma {:induction false} ServedNowhere(bs: seq<Backend>, key: string)
    requires forall j | 0 <= j < |bs| :: CountOf(bs[j].counts, key) == 0
    ensures Served(bs, key) == 0
  {
    if bs != [] { ServedNowhere(bs[..|bs| - 1], key); }
  }

  class RequestHandler {
    const id: int
    var online: bool
    var localData: Counts
    var totalRequests: nat

    ghost function State(): Backend
      reads this
    {
      Backend(id, online, localData, totalRequests)
    }

    constructor (id: int)
      ensures State() == Backend(id, true, map[], 0)
    {
      this.id := id;
      online := true;
      localData := map[];
      totalRequests := 0;
    }

    method ProcessRequest(ft: FiveTuple) returns (reply: Reply)
      modifies this
      ensures (State(), reply) == Process(old(State()), ToKey(ft))
    {
      if !online { return Offline(id); }
      var key := ToKey(ft);
      totalRequests := totalRequests + 1;
      if key !in localData { localData := localData[key := 0]; }
      localData := localData[key := localData[key] + 1];
      assert localData == old(localData)[key := CountOf(old(localData), key) + 1];
      return Handled(id, localData[key]);
    }

    method Start()
      modifies this
      ensures State() == old(State()).(online := true)
    {
      online := true;
    }

    method Stop()
      modifies this
      ensures State() == old(State()).(online := false)
    {
      online := false;
    }
  }
}
