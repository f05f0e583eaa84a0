/**
 * The priority queue each slot owns (`queuelib.PriorityQueue`, which
 * `PriorityAsTupleQueue` extends): one inner queue per priority value, created
 * by the factory `qfactory`, and `curprio`, the priority served next.  Lower
 * priority values are served first.  The inner queues are FIFO or LIFO as the
 * factory makes them.
 */
module PriorityQueues {
  import opened Wrappers
  import opened Dicts
  import opened Orders

  /** The order an inner queue serves the entries it holds. */
  datatype Discipline = Fifo | Lifo

  /** `qfactory`: the backend that creates the inner queue behind each priority. */
  datatype Factory = Factory(discipline: Discipline)

  /** `queues` maps each priority to its inner queue, in insertion order. */
  datatype PriorityQueue<K(==), R> = PriorityQueue(qfactory: Factory, queues: Dict<K, seq<R>>, curprio: Option<K>)

  function QueueLength<R>(q: seq<R>): nat { |q| }

  /** `__len__`: the entries of all inner queues together. */
  function Len<K, R>(pq: PriorityQueue<K, R>): nat
  {
    Total(pq.queues, QueueLength)
  }

  /**
   * What holds of every queue the operations build: `curprio` is a priority
   * of the map and no non-empty inner queue has a smaller one; without
   * `curprio`, every inner queue is empty.
   */
  ghost predicate Shape<K(!new), R>(pq: PriorityQueue<K, R>, lt: (K, K) -> bool) {
    && Dicts.Valid(pq.queues)
    && (pq.curprio.Some? ==>
          && pq.curprio.value in pq.queues.entries
          && forall k :: k in pq.queues.entries && pq.queues.entries[k] != [] ==> !lt(k, pq.curprio.value))
    && (pq.curprio.None? ==> forall k :: k in pq.queues.entries ==> pq.queues.entries[k] == [])
  }

  /** In addition, no inner queue is empty: a priority is present exactly while it has entries. */
  ghost predicate Valid<K(!new), R>(pq: PriorityQueue<K, R>, lt: (K, K) -> bool) {
    && Shape(pq, lt)
    && forall k :: k in pq.queues.entries ==> pq.queues.entries[k] != []
  }

  /** The priorities whose inner queue holds something, in the order of `keys`. */
  function Active<K, R>(keys: seq<K>, entries: map<K, seq<R>>): (r: seq<K>)
    ensures forall k :: k in r ==> k in keys && k in entries && entries[k] != []
    ensures forall k :: k in keys && k in entries && entries[k] != [] ==> k in r
  {
    if keys == [] then []
    else if keys[0] in entries && entries[keys[0]] != [] then [keys[0]] + Active(keys[1..], entries)
    else Active(keys[1..], entries)
  }

  /** `PriorityQueue(qfactory)`: no priorities yet. */
  function Empty<K, R>(qfactory: Factory): (pq: PriorityQueue<K, R>)
  {
    PriorityQueue(qfactory, Dicts.Empty(), None)
  }

  /** `push(obj, priority)`: append to the inner queue of `priority`, creating it if needed. */
  function Push<K, R>(pq: PriorityQueue<K, R>, x: R, priority: K, lt: (K, K) -> bool): PriorityQueue<K, R>
    requires Dicts.Valid(pq.queues)
  {
    var q := if priority in pq.queues.entries then pq.queues.entries[priority] else [];
    PriorityQueue(pq.qfactory, Set(pq.queues, priority, q + [x]),
                  if pq.curprio.None? || lt(priority, pq.curprio.value) then Some(priority) else pq.curprio)
  }

  /** The inner queue's own `pop`: nothing from an empty queue. */
  function Take<R>(q: seq<R>, discipline: Discipline): (r: (Option<R>, seq<R>))
    ensures q == [] ==> r == (None, [])
    ensures q != [] ==> r.0.Some? && |r.1| + 1 == |q| && multiset(q) == multiset(r.1) + multiset{r.0.value}
    ensures q != [] && discipline == Fifo ==> r.0.value == q[0]
    ensures q != [] && discipline == Lifo ==> r.0.value == q[|q| - 1]
  {
    assert q != [] ==> q == [q[0]] + q[1..] && q == q[..|q| - 1] + [q[|q| - 1]];
    if q == [] then (None, [])
    else match discipline
      case Fifo => (Some(q[0]), q[1..])
      case Lifo => (Some(q[|q| - 1]), q[..|q| - 1])
  }

  /**
   * `pop()`: one entry from the inner queue of `curprio`; a queue left empty
   * is deleted and `curprio` becomes the smallest priority still holding entries.
   */
  function Pop<K(!new), R>(pq: PriorityQueue<K, R>, lt: (K, K) -> bool): (Option<R>, PriorityQueue<K, R>)
    requires Shape(pq, lt)
  {
    if pq.curprio.None? then (None, pq)
    else
      var c := pq.curprio.value;
      var (m, rest) := Take(pq.queues.entries[c], pq.qfactory.discipline);
      if rest == [] then
        var queues := Del(pq.queues, c);
        var prios := Active(queues.keys, queues.entries);
        (m, PriorityQueue(pq.qfactory, queues, if prios == [] then None else Some(MinOf(prios, lt))))
      else
        (m, PriorityQueue(pq.qfactory, Set(pq.queues, c, rest), pq.curprio))
  }

  /** `close()`: the priorities that still hold entries, in insertion order. */
  function Close<K, R>(pq: PriorityQueue<K, R>): seq<K>
  {
    Active(pq.queues.keys, pq.queues.entries)
  }

  /** What `qfactory(p)` finds behind priority `p` when a queue is reopened. */
  function Stored<K, R>(onDisk: map<K, seq<R>>, p: K): seq<R>
  {
    if p in onDisk then onDisk[p] else []
  }

  /** `self.queues[p] = self.qfactory(p)` for each `p` of `startprios` in turn. */
  function SeedQueues<K, R>(startprios: seq<K>, onDisk: map<K, seq<R>>): (d: Dict<K, seq<R>>)
    ensures Dicts.Valid(d)
  {
    if startprios == [] then Dicts.Empty()
    else
      var p := startprios[|startprios| - 1];
      Set(SeedQueues(startprios[..|startprios| - 1], onDisk), p, Stored(onDisk, p))
  }

  /** The queue `PriorityAsTupleQueue(qfactory, startprios)` builds. */
  function Reseed<K, R>(qfactory: Factory, startprios: seq<K>, onDisk: map<K, seq<R>>, lt: (K, K) -> bool): PriorityQueue<K, R>
  {
    PriorityQueue(qfactory, SeedQueues(startprios, onDisk),
                  if startprios == [] then None else Some(MinOf(startprios, lt)))
  }

  /**
   * `PriorityAsTupleQueue.__init__`: reopen one inner queue per start
   * priority and start at the smallest of them.  (The persisted priorities
   * are already keys here; see the README on `tuple(x)`.)
   */
  method ReseedQueue<K, R>(qfactory: Factory, startprios: seq<K>, onDisk: map<K, seq<R>>, lt: (K, K) -> bool)
    returns (pq: PriorityQueue<K, R>)
    ensures pq == Reseed(qfactory, startprios, onDisk, lt)
  {
    var queues: Dict<K, seq<R>> := Dicts.Empty();
    var i := 0;
    while i < |startprios|
      invariant 0 <= i <= |startprios|
      invariant queues == SeedQueues(startprios[..i], onDisk)
    {
      var p := startprios[i];
      assert startprios[..i + 1][..i] == startprios[..i];
      queues := Set(queues, p, Stored(onDisk, p));
      i := i + 1;
    }
    assert startprios[..i] == startprios;
    var curprio := if startprios == [] then None else Some(MinOf(startprios, lt));
    pq := PriorityQueue(qfactory, queues, curprio);
  }

  /** The reopened queue holds, for each start priority, exactly what `qfactory` found behind it. */
  lemma {:induction false} SeedQueuesContents<K, R>(startprios: seq<K>, onDisk: map<K, seq<R>>)
    ensures var d := SeedQueues(startprios, onDisk);
            && (forall p :: p in d.entries ==> p in startprios)
            && (forall p :: p in startprios ==> p in d.entries && d.entries[p] == Stored(onDisk, p))
  {
    if startprios != [] {
      var init := startprios[..|startprios| - 1];
      var last := startprios[|startprios| - 1];
      SeedQueuesContents(init, onDisk);
      var d0 := SeedQueues(init, onDisk);
      assert SeedQueues(startprios, onDisk).entries == d0.entries[last := Stored(onDisk, last)];
      assert forall p :: p in startprios ==> p in init || p == last;
      assert forall p :: p in init ==> p in startprios;
    }
  }

  /** Start priorities without repeats keep their order as the queue's keys. */
  lemma {:induction false} SeedQueuesKeys<K, R>(startprios: seq<K>, onDisk: map<K, seq<R>>)
    requires Distinct(startprios)
    ensures SeedQueues(startprios, onDisk).keys == startprios
  {
    if startprios != [] {
      var init := startprios[..|startprios| - 1];
      var last := startprios[|startprios| - 1];
      assert Distinct(init);
      SeedQueuesKeys(init, onDisk);
      SeedQueuesContents(init, onDisk);
      assert last !in init by {
        forall j | 0 <= j < |init| ensures init[j] != last {
          assert init[j] == startprios[j];
        }
      }
      assert last !in SeedQueues(init, onDisk).entries;
      assert SeedQueues(startprios, onDisk) == Set(SeedQueues(init, onDisk), last, Stored(onDisk, last));
      assert startprios == init + [last];
    }
  }

  /** `PriorityAsTupleQueue(qfactory, startprios)` is well formed, and valid when every start priority still has entries. */
  lemma ReseedShape<K(!new), R>(qfactory: Factory, startprios: seq<K>, onDisk: map<K, seq<R>>, lt: (K, K) -> bool)
    requires StrictOrder(lt)
    ensures Shape(Reseed(qfactory, startprios, onDisk, lt), lt)
    ensures (forall p :: p in startprios ==> Stored(onDisk, p) != []) ==> Valid(Reseed(qfactory, startprios, onDisk, lt), lt)
    ensures forall p :: p in Reseed(qfactory, startprios, onDisk, lt).queues.entries <==> p in startprios
  {
    SeedQueuesContents(startprios, onDisk);
    if startprios != [] {
      MinOfIsMinimal(startprios, lt);
    }
  }

  /** A push keeps the queue well formed (and valid). */
  lemma PushShape<K(!new), R>(pq: PriorityQueue<K, R>, x: R, priority: K, lt: (K, K) -> bool)
    requires StrictOrder(lt) && Shape(pq, lt)
    ensures Shape(Push(pq, x, priority, lt), lt)
    ensures Valid(pq, lt) ==> Valid(Push(pq, x, priority, lt), lt)
  {
  }

  /**
   * A push adds one entry, at the end of the inner queue of `priority`, and
   * changes no other inner queue.
   */
  lemma PushLen<K, R>(pq: PriorityQueue<K, R>, x: R, priority: K, lt: (K, K) -> bool)
    requires Dicts.Valid(pq.queues)
    ensures Len(Push(pq, x, priority, lt)) == Len(pq) + 1
    ensures Push(pq, x, priority, lt).queues.entries
         == pq.queues.entries[priority := (if priority in pq.queues.entries then pq.queues.entries[priority] else []) + [x]]
  {
    var q := if priority in pq.queues.entries then pq.queues.entries[priority] else [];
    TotalSet(pq.queues, priority, q + [x], QueueLength);
  }

  /** A pop keeps the queue well formed (and valid). */
  lemma PopShape<K(!new), R>(pq: PriorityQueue<K, R>, lt: (K, K) -> bool)
    requires StrictOrder(lt) && Shape(pq, lt)
    ensures Shape(Pop(pq, lt).1, lt)
    ensures Valid(pq, lt) ==> Valid(Pop(pq, lt).1, lt)
  {
    if pq.curprio.Some? {
      var c := pq.curprio.value;
      var (m, rest) := Take(pq.queues.entries[c], pq.qfactory.discipline);
      if rest == [] {
        var queues := Del(pq.queues, c);
        var prios := Active(queues.keys, queues.entries);
        if prios != [] {
          MinOfIsMinimal(prios, lt);
        }
      }
    }
  }

  /** A valid queue is empty exactly when it has no `curprio`. */
  lemma LenZero<K(!new), R>(pq: PriorityQueue<K, R>, lt: (K, K) -> bool)
    requires Valid(pq, lt)
    ensures Len(pq) == 0 <==> pq.curprio.None?
  {
    TotalZero(pq.queues, QueueLength);
  }

  /** A pop on a valid, non-empty queue returns an entry and removes exactly one entry. */
  lemma PopLen<K(!new), R>(pq: PriorityQueue<K, R>, lt: (K, K) -> bool)
    requires Valid(pq, lt) && Len(pq) > 0
    ensures Pop(pq, lt).0.Some?
    ensures Dicts.Valid(Pop(pq, lt).1.queues) && Len(Pop(pq, lt).1) + 1 == Len(pq)
  {
    LenZero(pq, lt);
    var c := pq.curprio.value;
    var q := pq.queues.entries[c];
    var (m, rest) := Take(q, pq.qfactory.discipline);
    if rest == [] {
      TotalDel(pq.queues, c, QueueLength);
    } else {
      TotalSet(pq.queues, c, rest, QueueLength);
    }
  }

  /**
   * A pop serves the inner queue of `curprio`, the smallest priority holding
   * entries, from its head (FIFO) or its tail (LIFO).
   */
  lemma PopServesMinimum<K(!new), R>(pq: PriorityQueue<K, R>, lt: (K, K) -> bool)
    requires Valid(pq, lt) && pq.curprio.Some?
    ensures var c := pq.curprio.value;
            && c in pq.queues.entries
            && (forall k :: k in pq.queues.entries ==> !lt(k, c))
            && Pop(pq, lt).0 == Take(pq.queues.entries[c], pq.qfactory.discipline).0
  {
  }

  /**
   * Between pushes, successive pops serve non-decreasing priorities: the
   * priority served next is never smaller than the one just served.
   */
  lemma PopNonDecreasing<K(!new), R>(pq: PriorityQueue<K, R>, lt: (K, K) -> bool)
    requires Shape(pq, lt) && pq.curprio.Some?
    ensures Pop(pq, lt).1.curprio.Some? ==> !lt(Pop(pq, lt).1.curprio.value, pq.curprio.value)
  {
    var c := pq.curprio.value;
    var (m, rest) := Take(pq.queues.entries[c], pq.qfactory.discipline);
    if rest == [] {
      var queues := Del(pq.queues, c);
      var prios := Active(queues.keys, queues.entries);
      if prios != [] {
        assert MinOf(prios, lt) in prios;
      }
    }
  }

  lemma {:induction false} ActiveDistinct<K, R>(keys: seq<K>, entries: map<K, seq<R>>)
    requires Distinct(keys)
    ensures Distinct(Active(keys, entries))
  {
    if keys != [] {
      DistinctTail(keys);
      ActiveDistinct(keys[1..], entries);
      var t := Active(keys[1..], entries);
      if keys[0] in entries && entries[keys[0]] != [] {
        forall i, j | 0 <= i < j < |[keys[0]] + t| ensures ([keys[0]] + t)[i] != ([keys[0]] + t)[j] {
          if i == 0 {
            assert ([keys[0]] + t)[j] == t[j - 1];
          } else {
            assert ([keys[0]] + t)[i] == t[i - 1] && ([keys[0]] + t)[j] == t[j - 1];
          }
        }
      }
    }
  }

  lemma {:induction false} ActiveAll<K, R>(keys: seq<K>, entries: map<K, seq<R>>)
    requires forall k :: k in keys ==> k in entries && entries[k] != []
    ensures Active(keys, entries) == keys
  {
    if keys != [] {
      ActiveAll(keys[1..], entries);
    }
  }

  /**
   * `close()` lists each priority that still holds entries exactly once,
   * in insertion order; for a valid queue that is every priority.
   */
  lemma CloseActive<K(!new), R>(pq: PriorityQueue<K, R>, lt: (K, K) -> bool)
    requires Shape(pq, lt)
    ensures Distinct(Close(pq))
    ensures forall k :: k in Close(pq) <==> k in pq.queues.entries && pq.queues.entries[k] != []
    ensures Valid(pq, lt) ==> Close(pq) == pq.queues.keys
  {
    ActiveDistinct(pq.queues.keys, pq.queues.entries);
    if Valid(pq, lt) {
      ActiveAll(pq.queues.keys, pq.queues.entries);
    }
  }

  /**
   * Persistence round trip: reopening with the priorities `close()` returned,
   * over the inner queues it left behind, rebuilds the same queue.
   */
  lemma CloseReseed<K(!new), R>(pq: PriorityQueue<K, R>, onDisk: map<K, seq<R>>, lt: (K, K) -> bool)
    requires TotalOrder(lt) && Valid(pq, lt)
    requires forall k :: k in pq.queues.entries ==> k in onDisk && onDisk[k] == pq.queues.entries[k]
    ensures Reseed(pq.qfactory, Close(pq), onDisk, lt) == pq
  {
    CloseActive(pq, lt);
    var keys := Close(pq);
    SeedQueuesContents(keys, onDisk);
    SeedQueuesKeys(keys, onDisk);
    var seeded := SeedQueues(keys, onDisk);
    assert seeded.entries == pq.queues.entries;
    if keys == [] {
      LenZero(pq, lt);
      assert pq.queues.entries == map[];
    } else {
      MinimalIsUnique(keys, lt, pq.curprio.value);
    }
  }
}
