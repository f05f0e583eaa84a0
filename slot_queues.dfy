/**
 * `scrapy/pqueues.py`: the slot-fair queue the scheduler uses.  Requests are
 * grouped by their download slot; each slot has its own priority queue,
 * keyed by `(priority, path of the slot)`, and pops take turns over the
 * slots.
 */
module SlotQueues {
  import opened Wrappers
  import opened Dicts
  import opened Orders
  import opened PyText
  import opened Requests
  import PQ = PriorityQueues
  import RoundRobin

  /** The `meta` key that names a request's download slot. */
  const SchedulerSlotMetaKey: string := "download_slot"

  const MalformedPriorities: string :=
    "Looks like your priorities file malforfemed. Possible reason: You run scrapy with previous version. Interrupted it. Updated scrapy. And run again."

  // ------------------------------------------------------ slot resolution

  /**
   * `_get_from_request(request, key, default)`: a dict's entry or a
   * `Request`'s attribute (`field`), or `default` when it has none; any other
   * object is refused with `ValueError`.
   */
  function GetFromRequest<V>(kind: RequestKind, field: Option<V>, default: V): (r: Result<V, Error>)
    ensures r.Failure? <==> kind.OtherObject?
    ensures r.Success? && field.Some? ==> r.value == field.value
    ensures r.Success? && field.None? ==> r.value == default
  {
    match kind
    case DictRequest => Success(field.GetOr(default))
    case ScrapyRequest => Success(field.GetOr(default))
    case OtherObject(className) => Failure(ValueError("Bad type of request \"<class '" + className + "'>\""))
  }

  /** `meta.get(SCHEDULER_SLOT_META_KEY, None)`. */
  function StoredSlot(meta: map<string, Value>): Value
  {
    if SchedulerSlotMetaKey in meta then meta[SchedulerSlotMetaKey] else NoneValue
  }

  /** `urlparse(url).hostname or ''`. */
  function HostSlot(rt: Runtime, url: Value): string
  {
    match rt.hostname(url)
    case None => ""
    case Some(host) => host
  }

  /**
   * The slot `scheduler_slot` returns for a request of this kind, `meta` and
   * `url`: `str` of the slot stored in `meta` when there is one that is not
   * `None`, the URL's host otherwise; `ValueError` for an object that is
   * neither a dict nor a `Request`.
   */
  function ResolveSlot(rt: Runtime, kind: RequestKind, meta: Option<map<string, Value>>, url: Option<Value>): (r: Result<string, Error>)
  {
    match GetFromRequest(kind, meta, map[])
    case Failure(e) => Failure(e)
    case Success(m) =>
      var stored := StoredSlot(m);
      if stored != NoneValue then Success(PyStr(stored)) else Success(HostSlot(rt, url.GetOr(NoneValue)))
  }

  /**
   * The request's `meta` after `scheduler_slot`: a host it fell back to is
   * written into `meta`.  A `Request` creates its `meta` dict when it is
   * first read, so one without `meta` ends up holding just the host.  A dict
   * without a `meta` key only had the temporary default dict written to, so
   * it keeps having none.
   */
  function MetaAfter(rt: Runtime, kind: RequestKind, meta: Option<map<string, Value>>, url: Option<Value>): Option<map<string, Value>>
  {
    var m := meta.GetOr(map[]);
    if kind.OtherObject? || (kind.DictRequest? && meta.None?) || StoredSlot(m) != NoneValue then meta
    else Some(m[SchedulerSlotMetaKey := StrValue(HostSlot(rt, url.GetOr(NoneValue)))])
  }

  /** `scheduler_slot(request)`. */
  method SchedulerSlot(rt: Runtime, request: Request) returns (r: Result<string, Error>)
    modifies request
    ensures r == ResolveSlot(rt, request.kind, old(request.meta), request.url)
    ensures request.meta == MetaAfter(rt, request.kind, old(request.meta), request.url)
  {
    var meta := GetFromRequest(request.kind, request.meta, map[]);
    if meta.Failure? {
      return Failure(meta.error);
    }
    var slot := StoredSlot(meta.value);
    if slot == NoneValue {
      var url := GetFromRequest(request.kind, request.url, NoneValue);
      slot := StrValue(HostSlot(rt, url.value));
      if request.meta.Some? || request.kind.ScrapyRequest? {
        request.meta := Some(meta.value[SchedulerSlotMetaKey := slot]);
      }
    }
    return Success(PyStr(slot));
  }

  /**
   * Slot resolution only fails for objects that are not requests, and it is
   * idempotent: after one call `meta` holds the slot it returned (for a
   * `Request`, and for a dict that has a `meta`), a second call returns the same slot and writes
   * nothing more, and a slot already stored is returned as its `str` and
   * left alone.
   */
  lemma SchedulerSlotIdempotent(rt: Runtime, kind: RequestKind, meta: Option<map<string, Value>>, url: Option<Value>)
    ensures ResolveSlot(rt, kind, meta, url).Failure? <==> kind.OtherObject?
    ensures var meta' := MetaAfter(rt, kind, meta, url);
            && ResolveSlot(rt, kind, meta', url) == ResolveSlot(rt, kind, meta, url)
            && MetaAfter(rt, kind, meta', url) == meta'
            && (kind.ScrapyRequest? || (kind.DictRequest? && meta.Some?) ==>
                  StoredSlot(meta'.value) != NoneValue && ResolveSlot(rt, kind, meta, url) == Success(PyStr(StoredSlot(meta'.value))))
    ensures meta.Some? && StoredSlot(meta.value) != NoneValue ==>
              MetaAfter(rt, kind, meta, url) == meta &&
              (!kind.OtherObject? ==> ResolveSlot(rt, kind, meta, url) == Success(PyStr(StoredSlot(meta.value))))
  {
  }

  // ------------------------------------------------------------ slot paths

  /** `_slot_as_path(slot)`: the sanitised slot, `-`, and the md5 hex digest of the slot. */
  function SlotAsPath(rt: Runtime, slot: string): (r: string)
  {
    Pathable(rt, slot) + "-" + rt.md5hex(slot)
  }

  /**
   * A slot path is the sanitised slot (as long as the slot, each character
   * kept if it may stand in a path and `_` otherwise), then `-`, then the
   * 32-digit digest; so it is path safe as a whole.
   */
  lemma SlotAsPathShape(rt: Runtime, slot: string)
    requires rt.Valid()
    ensures var r := SlotAsPath(rt, slot);
            && |r| == |slot| + 33
            && r[..|slot|] == Pathable(rt, slot)
            && (forall i :: 0 <= i < |slot| ==> r[i] == if PathChar(rt, slot[i]) then slot[i] else '_')
            && r[|slot|] == '-'
            && r[|slot| + 1..] == rt.md5hex(slot)
            && PathSafe(rt, r)
  {
    var r := SlotAsPath(rt, slot);
    PathableChars(rt, slot);
    DigestPathSafe(rt, slot);
    assert PathSafe(rt, "-");
    PathSafeConcat(rt, Pathable(rt, slot), "-");
    PathSafeConcat(rt, Pathable(rt, slot) + "-", rt.md5hex(slot));
    assert r[|slot| + 1..] == rt.md5hex(slot);
  }

  /**
   * When the two slots' digests do not collide, different slots have
   * different paths, whatever sanitising merges.
   */
  lemma SlotAsPathInjective(rt: Runtime, a: string, b: string)
    requires rt.Valid()
    requires rt.md5hex(a) == rt.md5hex(b) ==> a == b
    requires SlotAsPath(rt, a) == SlotAsPath(rt, b)
    ensures a == b
  {
    SlotAsPathShape(rt, a);
    SlotAsPathShape(rt, b);
    assert |a| == |b|;
    assert rt.md5hex(a) == rt.md5hex(b);
  }

  // ------------------------------------------------------------ priority keys

  /** The key a request is pushed under: `(priority, _slot_as_path(slot))`. */
  datatype Key = Key(priority: int, path: string)

  /** Python's tuple order: by priority, then by path. */
  function KeyLess(a: Key, b: Key): bool
  {
    a.priority < b.priority || (a.priority == b.priority && StrLess(a.path, b.path))
  }

  function PushKey(rt: Runtime, slot: string, priority: int): Key
  {
    Key(priority, SlotAsPath(rt, slot))
  }

  /** Tuple order is a total order, so the inner queues serve a single smallest key. */
  lemma KeyLessIsTotal()
    ensures TotalOrder(KeyLess)
  {
    forall a | true ensures !KeyLess(a, a) {
      StrLessIrreflexive(a.path);
    }
    forall a, b, c | KeyLess(a, b) && KeyLess(b, c) ensures KeyLess(a, c) {
      if a.priority == b.priority == c.priority {
        StrLessTransitive(a.path, b.path, c.path);
      }
    }
    forall a, b | a != b ensures KeyLess(a, b) || KeyLess(b, a) {
      if a.priority == b.priority {
        StrLessConnected(a.path, b.path);
      }
    }
  }

  /** Within one slot the path part is fixed, so the key order is the priority order. */
  lemma SameSlotFollowsPriority(rt: Runtime, slot: string, p1: int, p2: int)
    ensures KeyLess(PushKey(rt, slot, p1), PushKey(rt, slot, p2)) <==> p1 < p2
    ensures PushKey(rt, slot, p1) == PushKey(rt, slot, p2) <==> p1 == p2
  {
    StrLessIrreflexive(SlotAsPath(rt, slot));
  }

  /**
   * A slot's queue holds only keys with that slot's path, so the request it
   * serves next has the lowest priority in the slot.
   */
  lemma PopServesLowestPriority(rt: Runtime, slot: string, pq: PQ.PriorityQueue<Key, Request>)
    requires PQ.Valid(pq, KeyLess) && pq.curprio.Some?
    requires forall k :: k in pq.queues.entries ==> k.path == SlotAsPath(rt, slot)
    ensures forall k :: k in pq.queues.entries ==> pq.curprio.value.priority <= k.priority
    ensures PQ.Pop(pq, KeyLess).0 == PQ.Take(pq.queues.entries[pq.curprio.value], pq.qfactory.discipline).0
  {
    PQ.PopServesMinimum(pq, KeyLess);
  }

  // ------------------------------------------------------------ the queue

  class RoundRobinQueue {
    /** `_slots`: the rotation, head first. */
    var slots: seq<string>
    /** `pqueues`: slot -> that slot's priority queue, in insertion order. */
    var pqueues: Dict<string, PQ.PriorityQueue<Key, Request>>
    /** The factory for the inner queues. */
    const qfactory: PQ.Factory
    /** The libraries slot resolution and slot paths call. */
    const rt: Runtime

    ghost function State(): RoundRobin.State<Key, Request>
      reads this
    {
      RoundRobin.State(slots, pqueues)
    }

    /** The rotation lists every slot with a queue once, and every queue is well formed. */
    ghost predicate Valid()
      reads this
    {
      RoundRobin.Shape(State(), KeyLess)
    }

    /** `RoundRobinQueue(qfactory)`: no slots, no queues. */
    constructor(qfactory: PQ.Factory, rt: Runtime)
      ensures Valid() && State() == RoundRobin.Empty()
      ensures this.qfactory == qfactory && this.rt == rt
    {
      slots := [];
      pqueues := Dicts.Empty();
      this.qfactory := qfactory;
      this.rt := rt;
    }

    /**
     * `RoundRobinQueue(qfactory, startprios)`: refuses a true non-dict;
     * otherwise adds each slot of the dict, in order, to the rotation and
     * gives it a priority queue reopened from its priorities over what the
     * disk queues hold (`onDisk`).
     */
    static method Open(qfactory: PQ.Factory, rt: Runtime, startprios: RoundRobin.StartPrios<Key>, onDisk: map<Key, seq<Request>>)
      returns (r: Result<RoundRobinQueue, Error>)
      requires startprios.Mapping? ==> Dicts.Valid(startprios.d)
      ensures r.Failure? <==> RoundRobin.CheckStartPrios(startprios, MalformedPriorities).Failure?
      ensures r.Failure? ==> r.error == RoundRobin.CheckStartPrios(startprios, MalformedPriorities).error
      ensures r.Success? ==> fresh(r.value) && r.value.Valid() && r.value.qfactory == qfactory && r.value.rt == rt
      ensures r.Success? ==> r.value.State() == RoundRobin.Reopen(qfactory, RoundRobin.CheckStartPrios(startprios, MalformedPriorities).value, onDisk, KeyLess)
    {
      KeyLessIsTotal();
      var q := new RoundRobinQueue(qfactory, rt);
      if startprios.NotAMapping? && !startprios.truthy {
        RoundRobin.ReopenEmpty(qfactory, onDisk, KeyLess);
        return Success(q);
      }
      if startprios.NotAMapping? {
        return Failure(ValueError(MalformedPriorities));
      }
      var keys := startprios.d.keys;
      var entries := startprios.d.entries;
      if keys == [] {
        assert startprios.d == Dicts.Empty();
        RoundRobin.ReopenEmpty(qfactory, onDisk, KeyLess);
        return Success(q);
      }
      var i := 0;
      while i < |keys|
        invariant 0 <= i <= |keys|
        invariant q.slots == keys[..i]
        invariant q.pqueues == RoundRobin.ReopenedQueues(qfactory, keys[..i], entries, onDisk, KeyLess)
        invariant q.qfactory == qfactory && q.rt == rt
        modifies q
      {
        var slot := keys[i];
        q.slots := q.slots + [slot];
        var pq := PQ.ReseedQueue(qfactory, entries[slot], onDisk, KeyLess);
        MapValuesStep(keys, entries, RoundRobin.Reseeder(qfactory, onDisk, KeyLess), i);
        q.pqueues := Set(q.pqueues, slot, pq);
        assert keys[..i + 1] == keys[..i] + [slot];
        i := i + 1;
      }
      assert keys[..i] == keys;
      RoundRobin.ReopenShape(qfactory, startprios.d, onDisk, KeyLess);
      return Success(q);
    }

    /**
     * `push(request, priority)`: resolves the request's slot (which may
     * write it into `meta`), gives an unseen slot a queue and a place at the
     * rotation's tail, and pushes the request under `(priority, slot path)`.
     * An object that is not a request is refused and nothing changes.
     */
    method Push(request: Request, priority: int) returns (r: Result<(), Error>)
      requires Valid()
      modifies this, request
      ensures Valid()
      ensures r.Failure? <==> request.kind.OtherObject?
      ensures request.meta == MetaAfter(rt, request.kind, old(request.meta), request.url)
      ensures var slot := ResolveSlot(rt, request.kind, old(request.meta), request.url);
              && (slot.Failure? ==> r == Failure(slot.error) && State() == old(State()))
              && (slot.Success? ==>
                    State() == RoundRobin.Push(old(State()), slot.value, PushKey(rt, slot.value, priority), request, qfactory, KeyLess))
    {
      KeyLessIsTotal();
      var slot := SchedulerSlot(rt, request);
      if slot.Failure? {
        return Failure(slot.error);
      }
      var s := slot.value;
      var key := PushKey(rt, s, priority);
      ghost var before := State();
      RoundRobin.PushShape(before, s, key, request, qfactory, KeyLess);
      var pq := PQ.Empty(qfactory);
      if s in pqueues.entries {
        pq := pqueues.entries[s];
      } else {
        slots := slots + [s];
      }
      pqueues := Set(pqueues, s, PQ.Push(pq, request, key, KeyLess));
      assert State() == RoundRobin.Push(before, s, key, request, qfactory, KeyLess);
      return Success(());
    }

    /**
     * `pop()`: `None` on an empty rotation; otherwise one request from the
     * head slot, which goes back to the tail if its queue still holds
     * requests and loses its queue if not.
     */
    method Pop() returns (r: Option<Request>)
      requires Valid()
      modifies this
      ensures Valid()
      ensures (r, State()) == RoundRobin.Pop(old(State()), KeyLess)
    {
      KeyLessIsTotal();
      RoundRobin.PopShape(State(), KeyLess);
      if slots == [] {
        return None;
      }
      var slot := slots[0];
      slots := slots[1..];
      var popped := PQ.Pop(pqueues.entries[slot], KeyLess);
      if PQ.Len(popped.1) > 0 {
        slots := slots + [slot];
        pqueues := Set(pqueues, slot, popped.1);
      } else {
        pqueues := Del(pqueues, slot);
      }
      return popped.0;
    }

    /**
     * `close()`: for each slot in the dict's order, the priorities its queue
     * still holds; afterwards there are no slots and no queues.
     */
    method Close() returns (startprios: RoundRobin.Snapshot<Key>)
      requires Valid()
      modifies this
      ensures startprios == RoundRobin.Close(old(State()))
      ensures Valid() && State() == RoundRobin.Empty()
    {
      startprios := Dicts.Empty();
      var keys := pqueues.keys;
      var i := 0;
      while i < |keys|
        invariant 0 <= i <= |keys|
        invariant startprios == RoundRobin.SnapshotOf(keys[..i], pqueues.entries)
        modifies {}
      {
        var slot := keys[i];
        var prios := PQ.Close(pqueues.entries[slot]);
        MapValuesStep(keys, pqueues.entries, PQ.Close, i);
        startprios := Set(startprios, slot, prios);
        i := i + 1;
      }
      assert keys[..i] == keys;
      pqueues := Dicts.Empty();
      slots := [];
    }

    /** `len(queue)`: the number of requests in all slots' queues. */
    method Len() returns (n: nat)
      requires Valid()
      ensures n == RoundRobin.Size(State())
    {
      if pqueues.keys == [] {
        return 0;
      }
      n := 0;
      var i := 0;
      while i < |pqueues.keys|
        invariant 0 <= i <= |pqueues.keys|
        invariant n == SumOver(pqueues.keys[..i], pqueues.entries, RoundRobin.QueueSize)
      {
        var slot := pqueues.keys[i];
        SumOverAppend(pqueues.keys[..i], slot, pqueues.entries, RoundRobin.QueueSize);
        assert pqueues.keys[..i + 1] == pqueues.keys[..i] + [slot];
        n := n + PQ.Len(pqueues.entries[slot]);
        i := i + 1;
      }
      assert pqueues.keys[..i] == pqueues.keys;
    }
  }
}
