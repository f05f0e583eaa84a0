/**
 * The round-robin machine both `RoundRobinQueue` classes run, stated on
 * values: `slots` is the rotation (the `_slots` deque, head first) and
 * `pqueues` maps each slot to its priority queue, in the dict's insertion
 * order.  The classes promise that each of their methods moves their fields
 * from one `State` to the next exactly as the functions here do; what the
 * machine guarantees is proved here once.
 */
module RoundRobin {
  import opened Wrappers
  import opened Dicts
  import opened Orders
  import PQ = PriorityQueues
  import opened Requests

  datatype State<K(==), R> = State(slots: seq<string>, pqueues: Dict<string, PQ.PriorityQueue<K, R>>)

  /** The persisted priorities: for each slot, the priorities its queue still holds. */
  type Snapshot<K(==)> = Dict<string, seq<K>>

  /**
   * The rotation lists every slot that has a queue, once; every queue is
   * well formed.
   */
  ghost predicate Shape<K(!new), R>(st: State<K, R>, lt: (K, K) -> bool) {
    && Distinct(st.slots)
    && Dicts.Valid(st.pqueues)
    && (forall s :: s in st.slots ==> s in st.pqueues.entries)
    && (forall s :: s in st.pqueues.entries ==> s in st.slots)
    && (forall s :: s in st.pqueues.entries ==> PQ.Shape(st.pqueues.entries[s], lt))
  }

  /** In addition, every slot's queue is valid and non-empty: a slot is active exactly while it has requests. */
  ghost predicate Valid<K(!new), R>(st: State<K, R>, lt: (K, K) -> bool) {
    && Shape(st, lt)
    && (forall s :: s in st.pqueues.entries ==> PQ.Valid(st.pqueues.entries[s], lt) && PQ.Len(st.pqueues.entries[s]) > 0)
  }

  function QueueSize<K, R>(pq: PQ.PriorityQueue<K, R>): nat { PQ.Len(pq) }

  /** `__len__`: the requests of all slots together, 0 when there are no slots. */
  function Size<K, R>(st: State<K, R>): nat
  {
    Total(st.pqueues, QueueSize)
  }

  /** The state of a fresh queue. */
  function Empty<K, R>(): State<K, R>
  {
    State([], Dicts.Empty())
  }

  /**
   * `push(request, priority)` once the slot and the priority key are known:
   * a slot without a queue gets an empty one and joins the rotation at its
   * tail; the request goes into that slot's queue under `key`.
   */
  function Push<K(!new), R>(st: State<K, R>, slot: string, key: K, x: R, qfactory: PQ.Factory, lt: (K, K) -> bool): State<K, R>
    requires Shape(st, lt)
  {
    var isNew := slot !in st.pqueues.entries;
    var pq := if isNew then PQ.Empty(qfactory) else st.pqueues.entries[slot];
    State(if isNew then st.slots + [slot] else st.slots, Set(st.pqueues, slot, PQ.Push(pq, x, key, lt)))
  }

  /**
   * `pop()`: nothing on an empty rotation; otherwise the head slot serves one
   * request and goes back to the tail if its queue still holds requests, or
   * loses its queue if not.
   */
  function Pop<K(!new), R>(st: State<K, R>, lt: (K, K) -> bool): (Option<R>, State<K, R>)
    requires Shape(st, lt)
  {
    if st.slots == [] then (None, st)
    else
      var slot := st.slots[0];
      var (request, queue) := PQ.Pop(st.pqueues.entries[slot], lt);
      if PQ.Len(queue) > 0 then (request, State(st.slots[1..] + [slot], Set(st.pqueues, slot, queue)))
      else (request, State(st.slots[1..], Del(st.pqueues, slot)))
  }

  /** The priorities each slot still holds, keyed and ordered as `pqueues`. */
  function SnapshotOf<K, R>(keys: seq<string>, pqueues: map<string, PQ.PriorityQueue<K, R>>): Snapshot<K>
  {
    MapValues(keys, pqueues, PQ.Close)
  }

  /** What `close()` returns. */
  function Close<K, R>(st: State<K, R>): Snapshot<K>
  {
    SnapshotOf(st.pqueues.keys, st.pqueues.entries)
  }

  /** `PriorityAsTupleQueue(qfactory, prios)` as a function of `prios`. */
  function Reseeder<K, R>(qfactory: PQ.Factory, onDisk: map<K, seq<R>>, lt: (K, K) -> bool): seq<K> -> PQ.PriorityQueue<K, R>
  {
    prios => PQ.Reseed(qfactory, prios, onDisk, lt)
  }

  /** The queues `__init__` builds from a snapshot: one reopened priority queue per slot. */
  function ReopenedQueues<K, R>(qfactory: PQ.Factory, keys: seq<string>, startprios: map<string, seq<K>>,
                                onDisk: map<K, seq<R>>, lt: (K, K) -> bool): Dict<string, PQ.PriorityQueue<K, R>>
  {
    MapValues(keys, startprios, Reseeder(qfactory, onDisk, lt))
  }

  /** The state `__init__` builds from a snapshot: the rotation follows the snapshot's order. */
  function Reopen<K, R>(qfactory: PQ.Factory, startprios: Snapshot<K>, onDisk: map<K, seq<R>>, lt: (K, K) -> bool): State<K, R>
  {
    State(startprios.keys, ReopenedQueues(qfactory, startprios.keys, startprios.entries, onDisk, lt))
  }

  /**
   * What `__init__` may be given as `startprios`: a dict from slot to the
   * priorities `close()` returned for it, or a value of any other type
   * (such as the flat list of priorities a plain priority queue persists),
   * given by its truth value.
   */
  datatype StartPrios<K(==)> = Mapping(d: Snapshot<K>) | NotAMapping(truthy: bool)

  /**
   * The check `__init__` makes before reopening: a false value reopens
   * nothing, a true value that is not a dict is refused with `ValueError`,
   * and a dict is reopened as it is.
   */
  function CheckStartPrios<K>(startprios: StartPrios<K>, malformed: string): (r: Result<Snapshot<K>, Error>)
    ensures r.Failure? <==> startprios.NotAMapping? && startprios.truthy
    ensures r.Success? && startprios.NotAMapping? ==> r.value.keys == []
    ensures r.Success? && startprios.Mapping? ==> r.value == startprios.d
  {
    match startprios
    case NotAMapping(truthy) => if truthy then Failure(ValueError(malformed)) else Success(Dicts.Empty())
    case Mapping(d) => Success(d)
  }

  /** The slot the next pop serves. */
  function Next<K, R>(st: State<K, R>): Option<string>
  {
    if st.slots == [] then None else Some(st.slots[0])
  }

  /** The slots served by `n` successive pops, in order. */
  function ServedSlots<K(!new), R>(st: State<K, R>, n: nat, lt: (K, K) -> bool): seq<string>
    requires StrictOrder(lt) && Shape(st, lt)
    decreases n
  {
    if n == 0 || st.slots == [] then []
    else
      PopShape(st, lt);
      [st.slots[0]] + ServedSlots(Pop(st, lt).1, n - 1, lt)
  }

  // ------------------------------------------------------------------ lemmas

  /** The effect of a push on the rotation, on the queues and on the size. */
  lemma PushEffect<K(!new), R>(st: State<K, R>, slot: string, key: K, x: R, qfactory: PQ.Factory, lt: (K, K) -> bool)
    requires Shape(st, lt)
    ensures var st' := Push(st, slot, key, x, qfactory, lt);
            && (slot !in st.slots ==> st'.slots == st.slots + [slot])
            && (slot in st.slots ==> st'.slots == st.slots)
            && st'.pqueues.entries.Keys == st.pqueues.entries.Keys + {slot}
            && (forall s :: s in st.pqueues.entries && s != slot ==> st'.pqueues.entries[s] == st.pqueues.entries[s])
            && PQ.Len(st'.pqueues.entries[slot]) == (if slot in st.pqueues.entries then PQ.Len(st.pqueues.entries[slot]) else 0) + 1
            && Size(st') == Size(st) + 1
  {
    var isNew := slot !in st.pqueues.entries;
    var pq := if isNew then PQ.Empty(qfactory) else st.pqueues.entries[slot];
    PQ.PushLen(pq, x, key, lt);
    TotalSet(st.pqueues, slot, PQ.Push(pq, x, key, lt), QueueSize);
    if isNew {
      assert PQ.Len(pq) == 0;
    }
  }

  /** A push keeps the rotation and the queues consistent. */
  lemma PushShape<K(!new), R>(st: State<K, R>, slot: string, key: K, x: R, qfactory: PQ.Factory, lt: (K, K) -> bool)
    requires StrictOrder(lt) && Shape(st, lt)
    ensures Shape(Push(st, slot, key, x, qfactory, lt), lt)
    ensures Valid(st, lt) ==> Valid(Push(st, slot, key, x, qfactory, lt), lt)
  {
    var isNew := slot !in st.pqueues.entries;
    var pq: PQ.PriorityQueue<K, R> := if isNew then PQ.Empty(qfactory) else st.pqueues.entries[slot];
    PQ.PushShape(pq, x, key, lt);
    PQ.PushLen(pq, x, key, lt);
    if isNew {
      assert slot !in st.slots;
      var slots' := st.slots + [slot];
      forall i, j | 0 <= i < j < |slots'| ensures slots'[i] != slots'[j] {
        assert slots'[i] == st.slots[i];
      }
    }
  }

  /** Pops on an empty rotation return nothing and change nothing. */
  lemma PopEmpty<K(!new), R>(st: State<K, R>, lt: (K, K) -> bool)
    requires Shape(st, lt) && st.slots == []
    ensures Pop(st, lt) == (None, st)
    ensures st.pqueues.entries == map[] && Size(st) == 0
  {
    TotalZero(st.pqueues, QueueSize);
  }

  /**
   * The effect of a pop on a non-empty rotation: the head slot leaves the
   * head; it returns to the tail exactly when its queue still holds requests,
   * and otherwise its queue is deleted.  No other slot's queue changes.
   */
  lemma PopEffect<K(!new), R>(st: State<K, R>, lt: (K, K) -> bool)
    requires Shape(st, lt) && st.slots != []
    ensures var h := st.slots[0];
            var (r, st') := Pop(st, lt);
            && r == PQ.Pop(st.pqueues.entries[h], lt).0
            && (PQ.Len(PQ.Pop(st.pqueues.entries[h], lt).1) > 0 ==>
                  st'.slots == st.slots[1..] + [h] && st'.pqueues.entries == st.pqueues.entries[h := PQ.Pop(st.pqueues.entries[h], lt).1])
            && (PQ.Len(PQ.Pop(st.pqueues.entries[h], lt).1) == 0 ==>
                  st'.slots == st.slots[1..] && st'.pqueues.entries == st.pqueues.entries - {h})
  {
  }

  /** Sending the head of a rotation to its tail, or dropping it, keeps it free of repeats. */
  lemma RotateHead(slots: seq<string>)
    requires Distinct(slots) && slots != []
    ensures Distinct(slots[1..]) && slots[0] !in slots[1..]
    ensures Distinct(slots[1..] + [slots[0]])
    ensures forall s :: s in slots ==> s == slots[0] || s in slots[1..]
  {
    DistinctTail(slots);
    var rotated := slots[1..] + [slots[0]];
    forall i, j | 0 <= i < j < |rotated| ensures rotated[i] != rotated[j] {
      assert rotated[i] == slots[1..][i];
      if j < |rotated| - 1 {
        assert rotated[j] == slots[1..][j];
      }
    }
  }

  /** A pop keeps the rotation and the queues consistent. */
  lemma PopShape<K(!new), R>(st: State<K, R>, lt: (K, K) -> bool)
    requires StrictOrder(lt) && Shape(st, lt)
    ensures Shape(Pop(st, lt).1, lt)
  {
    if st.slots != [] {
      var h := st.slots[0];
      RotateHead(st.slots);
      PQ.PopShape(st.pqueues.entries[h], lt);
    }
  }

  /** A pop keeps every slot active. */
  lemma PopValid<K(!new), R>(st: State<K, R>, lt: (K, K) -> bool)
    requires StrictOrder(lt) && Valid(st, lt)
    ensures Valid(Pop(st, lt).1, lt)
  {
    PopShape(st, lt);
    if st.slots != [] {
      var h := st.slots[0];
      PQ.PopShape(st.pqueues.entries[h], lt);
      PopEffect(st, lt);
      var st' := Pop(st, lt).1;
      forall s | s in st'.pqueues.entries
        ensures PQ.Valid(st'.pqueues.entries[s], lt) && PQ.Len(st'.pqueues.entries[s]) > 0
      {
        if s != h {
          assert st'.pqueues.entries[s] == st.pqueues.entries[s];
        }
      }
    }
  }

  /** With every slot active, the queue is empty exactly when the rotation is. */
  lemma SizeZero<K(!new), R>(st: State<K, R>, lt: (K, K) -> bool)
    requires Valid(st, lt)
    ensures Size(st) == 0 <==> st.slots == []
  {
    TotalZero(st.pqueues, QueueSize);
    if st.slots != [] {
      assert st.slots[0] in st.pqueues.entries;
    }
  }

  /** A pop on a non-empty queue returns a request and lowers the size by exactly one. */
  lemma PopSize<K(!new), R>(st: State<K, R>, lt: (K, K) -> bool)
    requires StrictOrder(lt) && Valid(st, lt) && Size(st) > 0
    ensures Pop(st, lt).0.Some?
    ensures Size(Pop(st, lt).1) + 1 == Size(st)
  {
    SizeZero(st, lt);
    var h := st.slots[0];
    var pq := st.pqueues.entries[h];
    PQ.PopLen(pq, lt);
    var queue := PQ.Pop(pq, lt).1;
    if PQ.Len(queue) > 0 {
      TotalSet(st.pqueues, h, queue, QueueSize);
    } else {
      TotalDel(st.pqueues, h, QueueSize);
    }
  }

  /** After a pop, the rotation begins with the slots that followed the served one, in order. */
  lemma PopRotation<K(!new), R>(st: State<K, R>, lt: (K, K) -> bool)
    requires Shape(st, lt) && st.slots != []
    ensures |Pop(st, lt).1.slots| >= |st.slots| - 1
    ensures Pop(st, lt).1.slots[..|st.slots| - 1] == st.slots[1..]
  {
  }

  /**
   * Round-robin fairness: as many pops as there are slots in the rotation
   * serve those slots in rotation order, each once.
   */
  lemma ServedSlotsFollowRotation<K(!new), R>(st: State<K, R>, n: nat, lt: (K, K) -> bool)
    requires StrictOrder(lt) && Shape(st, lt) && n <= |st.slots|
    ensures ServedSlots(st, n, lt) == st.slots[..n]
    ensures Distinct(ServedSlots(st, n, lt))
  {
    ServedSlotsPrefix(st, n, lt);
    DistinctPrefix(st.slots, n);
  }

  lemma {:induction false} ServedSlotsPrefix<K(!new), R>(st: State<K, R>, n: nat, lt: (K, K) -> bool)
    requires StrictOrder(lt) && Shape(st, lt) && n <= |st.slots|
    ensures ServedSlots(st, n, lt) == st.slots[..n]
    decreases n
  {
    if n > 0 {
      PopShape(st, lt);
      PopRotation(st, lt);
      ServedSlotsPrefix(Pop(st, lt).1, n - 1, lt);
      ServedSlotsCombine(st, n, lt);
    }
  }

  /** The induction step: the rest of the rotation served after the head gives the first `n` slots. */
  lemma ServedSlotsCombine<K(!new), R>(st: State<K, R>, n: nat, lt: (K, K) -> bool)
    requires StrictOrder(lt) && Shape(st, lt) && 0 < n <= |st.slots|
    requires Shape(Pop(st, lt).1, lt) && n - 1 <= |Pop(st, lt).1.slots|
    requires ServedSlots(Pop(st, lt).1, n - 1, lt) == Pop(st, lt).1.slots[..n - 1]
    ensures ServedSlots(st, n, lt) == st.slots[..n]
  {
    ServedSlotsStep(st, n, lt);
    var st' := Pop(st, lt).1;
    PrefixShift(st.slots, st'.slots, ServedSlots(st', n - 1, lt), ServedSlots(st, n, lt), n);
  }

  /** One step of `ServedSlots`: the head is served, and the rest follows from the popped state, whose rotation starts with the old tail. */
  lemma ServedSlotsStep<K(!new), R>(st: State<K, R>, n: nat, lt: (K, K) -> bool)
    requires StrictOrder(lt) && Shape(st, lt) && n > 0 && st.slots != []
    ensures Shape(Pop(st, lt).1, lt)
    ensures |Pop(st, lt).1.slots| >= |st.slots| - 1
    ensures Pop(st, lt).1.slots[..|st.slots| - 1] == st.slots[1..]
    ensures ServedSlots(st, n, lt) == [st.slots[0]] + ServedSlots(Pop(st, lt).1, n - 1, lt)
  {
    PopShape(st, lt);
    PopRotation(st, lt);
  }

  /** If `b` starts with the tail of `a`, then `a`'s head followed by `b`'s first `n - 1` elements is `a`'s first `n`. */
  lemma PrefixShift<T>(a: seq<T>, b: seq<T>, rest: seq<T>, served: seq<T>, n: nat)
    requires 0 < n <= |a| && |b| >= |a| - 1 && b[..|a| - 1] == a[1..]
    requires rest == b[..n - 1] && served == [a[0]] + rest
    ensures served == a[..n]
  {
    assert b[..n - 1] == b[..|a| - 1][..n - 1];
  }

  lemma DistinctPrefix<T>(s: seq<T>, n: nat)
    requires Distinct(s) && n <= |s|
    ensures Distinct(s[..n])
  {
    forall i, j | 0 <= i < j < n ensures s[..n][i] != s[..n][j] {
    }
  }

  /** Two successive pops from a rotation of at least two slots serve different slots. */
  lemma ConsecutivePopsDiffer<K(!new), R>(st: State<K, R>, lt: (K, K) -> bool)
    requires StrictOrder(lt) && Shape(st, lt) && |st.slots| >= 2
    ensures Next(st).Some? && Next(Pop(st, lt).1).Some? && Next(st) != Next(Pop(st, lt).1)
  {
    PopShape(st, lt);
    ServedSlotsFollowRotation(st, 2, lt);
    assert ServedSlots(Pop(st, lt).1, 1, lt) == [Pop(st, lt).1.slots[0]];
  }

  /** `close()` returns one entry per slot with a queue, in the dict's order, holding the priorities that queue still holds. */
  lemma CloseSnapshot<K(!new), R>(st: State<K, R>, lt: (K, K) -> bool)
    requires Shape(st, lt)
    ensures Dicts.Valid(Close(st))
    ensures Close(st).keys == st.pqueues.keys
    ensures forall s :: s in Close(st).entries <==> s in st.slots
    ensures forall s :: s in st.pqueues.entries ==> Close(st).entries[s] == PQ.Close(st.pqueues.entries[s])
    ensures Valid(st, lt) ==> forall s :: s in Close(st).entries ==> Close(st).entries[s] != []
  {
    forall s | s in st.pqueues.entries ensures Valid(st, lt) ==> PQ.Close(st.pqueues.entries[s]) != [] {
      var pq := st.pqueues.entries[s];
      PQ.CloseActive(pq, lt);
      if Valid(st, lt) {
        PQ.LenZero(pq, lt);
        assert pq.curprio.value in PQ.Close(pq);
      }
    }
  }

  /**
   * `__init__` from a snapshot: the rotation and the queues follow the
   * snapshot's keys in order, each slot's queue reopened from its priorities.
   */
  lemma ReopenShape<K(!new), R>(qfactory: PQ.Factory, startprios: Snapshot<K>, onDisk: map<K, seq<R>>, lt: (K, K) -> bool)
    requires StrictOrder(lt) && Dicts.Valid(startprios)
    ensures Shape(Reopen(qfactory, startprios, onDisk, lt), lt)
    ensures Reopen(qfactory, startprios, onDisk, lt).slots == startprios.keys
    ensures Reopen(qfactory, startprios, onDisk, lt).pqueues.keys == startprios.keys
  {
    forall s | s in startprios.entries ensures PQ.Shape(PQ.Reseed(qfactory, startprios.entries[s], onDisk, lt), lt) {
      PQ.ReseedShape(qfactory, startprios.entries[s], onDisk, lt);
    }
  }

  /** Reopening from an empty snapshot gives the state of a fresh queue. */
  lemma ReopenEmpty<K(!new), R>(qfactory: PQ.Factory, onDisk: map<K, seq<R>>, lt: (K, K) -> bool)
    ensures Reopen(qfactory, Dicts.Empty(), onDisk, lt) == Empty()
  {
    assert ReopenedQueues(qfactory, [], map[], onDisk, lt).entries == map[];
  }

  /** Everything the queues of `st` hold, by priority key. */
  ghost predicate StoredIn<K, R>(st: State<K, R>, onDisk: map<K, seq<R>>) {
    forall s, k :: s in st.pqueues.entries && k in st.pqueues.entries[s].queues.entries ==>
      k in onDisk && onDisk[k] == st.pqueues.entries[s].queues.entries[k]
  }

  /**
   * Persistence round trip: reopening from what `close()` returned, over the
   * inner queues it left behind, gives every slot back its queue unchanged.
   * The rotation restarts in the order the slots' queues were created.
   */
  lemma CloseReopen<K(!new), R>(st: State<K, R>, qfactory: PQ.Factory, onDisk: map<K, seq<R>>, lt: (K, K) -> bool)
    requires TotalOrder(lt) && Valid(st, lt)
    requires forall s :: s in st.pqueues.entries ==> st.pqueues.entries[s].qfactory == qfactory
    requires StoredIn(st, onDisk)
    ensures Reopen(qfactory, Close(st), onDisk, lt) == State(st.pqueues.keys, st.pqueues)
  {
    ReopenedEntries(st, qfactory, onDisk, lt);
  }

  lemma ReopenedEntries<K(!new), R>(st: State<K, R>, qfactory: PQ.Factory, onDisk: map<K, seq<R>>, lt: (K, K) -> bool)
    requires TotalOrder(lt) && Valid(st, lt)
    requires forall s :: s in st.pqueues.entries ==> st.pqueues.entries[s].qfactory == qfactory
    requires StoredIn(st, onDisk)
    ensures ReopenedQueues(qfactory, st.pqueues.keys, Close(st).entries, onDisk, lt).entries == st.pqueues.entries
  {
    forall s | s in st.pqueues.entries ensures PQ.Reseed(qfactory, PQ.Close(st.pqueues.entries[s]), onDisk, lt) == st.pqueues.entries[s] {
      ReopenOne(st, s, qfactory, onDisk, lt);
    }
    ReopenSnapshot(qfactory, st.pqueues.keys, st.pqueues.entries, onDisk, lt);
  }

  /** Reopening every queue from its own `close()` output, when that gives it back, gives back the whole map. */
  lemma ReopenSnapshot<K, R>(qfactory: PQ.Factory, keys: seq<string>, m: map<string, PQ.PriorityQueue<K, R>>,
                             onDisk: map<K, seq<R>>, lt: (K, K) -> bool)
    requires forall s :: s in m ==> s in keys
    requires forall s :: s in m ==> PQ.Reseed(qfactory, PQ.Close(m[s]), onDisk, lt) == m[s]
    ensures ReopenedQueues(qfactory, keys, SnapshotOf(keys, m).entries, onDisk, lt).entries == m
  {
    var reopened := ReopenedQueues(qfactory, keys, SnapshotOf(keys, m).entries, onDisk, lt).entries;
    assert reopened.Keys == m.Keys;
  }

  lemma ReopenOne<K(!new), R>(st: State<K, R>, s: string, qfactory: PQ.Factory, onDisk: map<K, seq<R>>, lt: (K, K) -> bool)
    requires TotalOrder(lt) && Valid(st, lt)
    requires s in st.pqueues.entries && st.pqueues.entries[s].qfactory == qfactory
    requires StoredIn(st, onDisk)
    ensures PQ.Reseed(qfactory, PQ.Close(st.pqueues.entries[s]), onDisk, lt) == st.pqueues.entries[s]
  {
    var pq := st.pqueues.entries[s];
    assert forall k :: k in pq.queues.entries ==> k in onDisk && onDisk[k] == pq.queues.entries[k];
    PQ.CloseReseed(pq, onDisk, lt);
  }
}
