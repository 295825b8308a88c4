/**
 Deques of timestamped records that drop old records from the front, measured against full
 logs that never forget. The rate limiter and the spoof check both keep one deque per key.
 */
module SlidingWindow {
  import opened Config

  type Queue<T> = seq<Timed<T>>
  type Store<T> = map<string, Queue<T>>

  /** Pop records off the front while they are older than the window. */
  function Evict<T>(q: Queue<T>, now: Time, window: int): Queue<T> {
    if q != [] && now - q[0].now > window then Evict(q[1..], now, window) else q
  }

  /** The eviction loop. */
  method PopExpired<T>(queue: Queue<T>, now: Time, window: int) returns (q: Queue<T>)
    ensures q == Evict(queue, now, window)
  {
    q := queue;
    while q != [] && now - q[0].now > window
      invariant Evict(q, now, window) == Evict(queue, now, window)
      decreases |q|
    {
      q := q[1..];
    }
  }

  /** The records of a log whose age at `now` is at most the window. */
  function Within<T>(log: Queue<T>, now: Time, window: int): Queue<T> {
    if log == [] then []
    else
      var front, last := Within(log[..|log| - 1], now, window), log[|log| - 1];
      if now - last.now <= window then front + [last] else front
  }

  /** The queue of a key; a key that was never seen has an empty one. */
  function QueueOf<T>(store: Store<T>, key: string): Queue<T> {
    if key in store then store[key] else []
  }

  lemma {:induction false} WithinPrepend<T>(x: Timed<T>, q: Queue<T>, now: Time, window: int)
    ensures Within([x] + q, now, window) == (if now - x.now <= window then [x] else []) + Within(q, now, window)
  {
    if q == [] {
      assert [x] + q == [x] && [x][..0] == [];
    } else {
      var front := q[..|q| - 1];
      assert ([x] + q)[..|q|] == [x] + front;
      WithinPrepend(x, front, now, window);
    }
  }

  lemma {:induction false} AllWithin<T>(q: Queue<T>, now: Time, window: int)
    requires forall i | 0 <= i < |q| :: now - q[i].now <= window
    ensures Within(q, now, window) == q
  {
    if q != [] {
      AllWithin(q[..|q| - 1], now, window);
      assert q == q[..|q| - 1] + [q[|q| - 1]];
    }
  }

  /** Popping from the front of a time-ordered deque leaves exactly the records within the window. */
  lemma {:induction false} EvictIsWithin<T>(q: Queue<T>, now: Time, window: int)
    requires ClockRuns(q)
    ensures Evict(q, now, window) == Within(q, now, window)
  {
    if q != [] {
      if now - q[0].now > window {
        assert q == [q[0]] + q[1..];
        WithinPrepend(q[0], q[1..], now, window);
        EvictIsWithin(q[1..], now, window);
      } else {
        AllWithin(q, now, window);
      }
    }
  }

  /** Forgetting what is already too old does not change what a later look finds. */
  lemma {:induction false} WithinLater<T>(log: Queue<T>, now: Time, later: Time, window: int)
    requires now <= later
    ensures Within(Within(log, now, window), later, window) == Within(log, later, window)
  {
    if log != [] {
      var front, last := log[..|log| - 1], log[|log| - 1];
      WithinLater(front, now, later, window);
      if now - last.now <= window {
        assert (Within(front, now, window) + [last])[..|Within(front, now, window)|] == Within(front, now, window);
      }
    }
  }

  lemma WithinAppend<T>(log: Queue<T>, x: Timed<T>, now: Time, window: int)
    ensures Within(log + [x], now, window)
         == Within(log, now, window) + if now - x.now <= window then [x] else []
  {
    assert (log + [x])[..|log|] == log;
  }

  lemma {:induction false} EvictKeepsOrder<T>(q: Queue<T>, now: Time, window: int)
    requires ClockRuns(q) && UpTo(q, now)
    ensures ClockRuns(Evict(q, now, window)) && UpTo(Evict(q, now, window), now)
  {
    if q != [] && now - q[0].now > window {
      EvictKeepsOrder(q[1..], now, window);
    }
  }

  /** At time `last` an evicting queue still holds whatever of its full log is within the window. */
  ghost predicate Mirrors<T(!new)>(q: Queue<T>, log: Queue<T>, last: Time, window: int) {
    ClockRuns(q) && UpTo(q, last) && Within(q, last, window) == Within(log, last, window)
  }

  ghost predicate Tracks<T(!new)>(store: Store<T>, log: Store<T>, last: Time, window: int) {
    forall key :: Mirrors(QueueOf(store, key), QueueOf(log, key), last, window)
  }

  /** While the store tracks the log, evicting finds just what a search of the whole log would. */
  lemma EvictFindsTheLog<T(!new)>(store: Store<T>, log: Store<T>, key: string, last: Time, now: Time, window: int)
    requires Tracks(store, log, last, window) && last <= now
    ensures Evict(QueueOf(store, key), now, window) == Within(QueueOf(log, key), now, window)
  {
    assert Mirrors(QueueOf(store, key), QueueOf(log, key), last, window);
    EvictIsWithin(QueueOf(store, key), now, window);
    WithinLater(QueueOf(store, key), last, now, window);
    WithinLater(QueueOf(log, key), last, now, window);
  }

  lemma MirrorsLater<T(!new)>(q: Queue<T>, log: Queue<T>, last: Time, later: Time, window: int)
    requires Mirrors(q, log, last, window) && last <= later
    ensures Mirrors(q, log, later, window)
  {
    WithinLater(q, last, later, window);
    WithinLater(log, last, later, window);
  }

  lemma TracksLater<T(!new)>(store: Store<T>, log: Store<T>, last: Time, later: Time, window: int)
    requires Tracks(store, log, last, window) && last <= later
    ensures Tracks(store, log, later, window)
  {
    forall k ensures Mirrors(QueueOf(store, k), QueueOf(log, k), later, window) {
      MirrorsLater(QueueOf(store, k), QueueOf(log, k), last, later, window);
    }
  }

  lemma MirrorsAfterPush<T(!new)>(q: Queue<T>, log: Queue<T>, x: Timed<T>, window: int)
    requires Mirrors(q, log, x.now, window)
    ensures Mirrors(Evict(q, x.now, window) + [x], log + [x], x.now, window)
  {
    EvictKeepsOrder(q, x.now, window);
    EvictIsWithin(q, x.now, window);
    WithinAppend(Evict(q, x.now, window), x, x.now, window);
    WithinAppend(log, x, x.now, window);
    WithinLater(q, x.now, x.now, window);
  }

  /** Recording one event, with eviction on one side only, keeps the store tracking the log. */
  lemma TracksAfterPush<T(!new)>(store: Store<T>, log: Store<T>, key: string, x: Timed<T>, last: Time, window: int)
    requires Tracks(store, log, last, window) && last <= x.now
    ensures Tracks(store[key := Evict(QueueOf(store, key), x.now, window) + [x]],
                   log[key := QueueOf(log, key) + [x]], x.now, window)
  {
    TracksLater(store, log, last, x.now, window);
    MirrorsAfterPush(QueueOf(store, key), QueueOf(log, key), x, window);
    var store' := store[key := Evict(QueueOf(store, key), x.now, window) + [x]];
    var log' := log[key := QueueOf(log, key) + [x]];
    forall k ensures Mirrors(QueueOf(store', k), QueueOf(log', k), x.now, window) {
      assert Mirrors(QueueOf(store, k), QueueOf(log, k), x.now, window);
    }
  }
}
