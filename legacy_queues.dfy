/**
 * `scrapy/core/queues.py`: the earlier copy of the slot-fair queue.  It runs
 * the same round-robin machine, but reads the slot without writing anything
 * back, and encodes slot and priority into one string key for a plain
 * priority queue.
 */
module LegacyQueues {
  import opened Wrappers
  import opened Dicts
  import opened Orders
  import opened PyText
  import opened Requests
  import PQ = PriorityQueues
  import RoundRobin
  import SlotQueues

  /** The `meta` key that names a request's download slot. */
  const SchedulerSlotMetaKey: string := "downloader_slot"

  /** `_VERY_BIG`, 2**32. */
  const VeryBig: int := 0x1_0000_0000

  /** The number of digits the priority part is padded to in the corrected key. */
  const PriorityWidth: nat := 10

  const MalformedPriorities: string :=
    "Looks like your priorities file malforfemed. Possible reason: You run scrapy with previous version. Interrupted it. Updated scrapy. And run again."

  /**
   * `scheduler_slot(request)`: `str` of the request's `meta` slot, and
   * `"None"` when there is none or the request has no `meta`.  It only
   * reads the request.
   */
  function SchedulerSlot(request: Request): (r: string)
    reads request
    ensures request.meta.Some? && SchedulerSlotMetaKey in request.meta.value ==>
              r == PyStr(request.meta.value[SchedulerSlotMetaKey])
    ensures request.meta.None? || SchedulerSlotMetaKey !in request.meta.value ==> r == "None"
  {
    // a dict's `get('meta', dict())` and any other object's
    // `getattr(request, 'meta', dict())` find the same thing here
    var meta := request.meta.GetOr(map[]);
    PyStr(if SchedulerSlotMetaKey in meta then meta[SchedulerSlotMetaKey] else NoneValue)
  }

  // ------------------------------------------------------------ priority keys

  /** `_get_priority(slot, priority)` as written: `str(2**32 + priority)`, `-`, the sanitised slot, `-`, the digest. */
  function GetPriority(rt: Runtime, slot: string, priority: int): string
  {
    IntToDecimal(VeryBig + priority) + "-" + Pathable(rt, slot) + "-" + rt.md5hex(slot)
  }

  /**
   * The key is the priority part, `-`, and exactly the path the newer queue
   * gives the slot; it is path safe.
   */
  lemma GetPriorityShape(rt: Runtime, slot: string, priority: int)
    requires rt.Valid()
    ensures GetPriority(rt, slot, priority) == IntToDecimal(VeryBig + priority) + "-" + SlotQueues.SlotAsPath(rt, slot)
    ensures PathSafe(rt, GetPriority(rt, slot, priority))
  {
    var part := IntToDecimal(VeryBig + priority);
    var v := VeryBig + priority;
    if v < 0 {
      assert part[1..] == NatToDecimal(-v);
    }
    DecimalPathSafe(rt, part);
    SlotQueues.SlotAsPathShape(rt, slot);
    assert PathSafe(rt, "-");
    PathSafeConcat(rt, part, "-");
    PathSafeConcat(rt, part + "-", SlotQueues.SlotAsPath(rt, slot));
    assert GetPriority(rt, slot, priority) == part + "-" + SlotQueues.SlotAsPath(rt, slot);
  }

  /**
   * The order claim holds where its reasoning does: for one slot, and two
   * priorities whose offset values `2**32 + p` are non-negative and have the
   * same number of digits, the keys compare as the priorities do.
   */
  lemma GetPriorityOrder(rt: Runtime, slot: string, p1: int, p2: int)
    requires VeryBig + p1 >= 0 && VeryBig + p2 >= 0
    requires |NatToDecimal(VeryBig + p1)| == |NatToDecimal(VeryBig + p2)|
    ensures StrLess(GetPriority(rt, slot, p1), GetPriority(rt, slot, p2)) <==> p1 < p2
  {
    var a := NatToDecimal(VeryBig + p1);
    var b := NatToDecimal(VeryBig + p2);
    var rest := "-" + Pathable(rt, slot) + "-" + rt.md5hex(slot);
    assert GetPriority(rt, slot, p1) == a + rest;
    assert GetPriority(rt, slot, p2) == b + rest;
    NatToDecimalValue(VeryBig + p1);
    NatToDecimalValue(VeryBig + p2);
    DigitsOrder(a, b);
    if p1 == p2 {
      StrLessIrreflexive(a + rest);
    } else {
      StrLessDecidedByPrefix(a, rest, b, rest);
    }
  }

  /**
   * The order claim fails when the digit counts differ: the priority
   * `9 - 2**32` is lower than `10 - 2**32`, but its key `"9-…"` sorts after
   * `"10-…"`, so the higher one is served first.
   */
  lemma GetPriorityOrderBreaks(rt: Runtime, slot: string)
    ensures 9 - VeryBig < 10 - VeryBig
    ensures StrLess(GetPriority(rt, slot, 10 - VeryBig), GetPriority(rt, slot, 9 - VeryBig))
  {
    var rest := "-" + Pathable(rt, slot) + "-" + rt.md5hex(slot);
    assert IntToDecimal(9) == "9";
    assert NatToDecimal(10) == NatToDecimal(1) + [DigitChar(0)];
    assert IntToDecimal(10) == "10";
    assert GetPriority(rt, slot, 10 - VeryBig) == "10" + rest;
    assert GetPriority(rt, slot, 9 - VeryBig) == "9" + rest;
    assert ("10" + rest)[0] == '1' && ("9" + rest)[0] == '9';
  }

  /**
   * The key as written tells slots and priorities apart: when the two
   * slots' digests do not collide, keys are equal exactly when slot and
   * priority are.  The digest closes the key, so equal keys have equal
   * digests, hence equal slots; what precedes the common rest is then
   * `str` of the offset priorities.
   */
  lemma GetPriorityInjective(rt: Runtime, s1: string, p1: int, s2: string, p2: int)
    requires rt.Valid()
    requires rt.md5hex(s1) == rt.md5hex(s2) ==> s1 == s2
    ensures GetPriority(rt, s1, p1) == GetPriority(rt, s2, p2) <==> s1 == s2 && p1 == p2
  {
    if GetPriority(rt, s1, p1) == GetPriority(rt, s2, p2) {
      GetPriorityDigest(rt, s1, p1, s2, p2);
      GetPriorityOffset(rt, s1, p1, p2);
    }
  }

  /** Equal keys end in equal digests. */
  lemma GetPriorityDigest(rt: Runtime, s1: string, p1: int, s2: string, p2: int)
    requires rt.Valid()
    requires GetPriority(rt, s1, p1) == GetPriority(rt, s2, p2)
    ensures rt.md5hex(s1) == rt.md5hex(s2)
  {
    var a := IntToDecimal(VeryBig + p1) + "-" + Pathable(rt, s1) + "-";
    var b := IntToDecimal(VeryBig + p2) + "-" + Pathable(rt, s2) + "-";
    assert |rt.md5hex(s1)| == 32 && |rt.md5hex(s2)| == 32;
    SplitEqual(a, rt.md5hex(s1), b, rt.md5hex(s2));
  }

  /** For one slot, equal keys have equal priorities. */
  lemma GetPriorityOffset(rt: Runtime, slot: string, p1: int, p2: int)
    requires GetPriority(rt, slot, p1) == GetPriority(rt, slot, p2)
    ensures p1 == p2
  {
    var rest := "-" + Pathable(rt, slot) + "-" + rt.md5hex(slot);
    assert GetPriority(rt, slot, p1) == IntToDecimal(VeryBig + p1) + rest;
    assert GetPriority(rt, slot, p2) == IntToDecimal(VeryBig + p2) + rest;
    SplitEqual(IntToDecimal(VeryBig + p1), rest, IntToDecimal(VeryBig + p2), rest);
    IntToDecimalInjective(VeryBig + p1, VeryBig + p2);
  }

  /**
   * The priority part as intended: `str(2**32 + priority)` zero-filled to
   * ten digits, so that every offset value below `10**10` has as many digits
   * as every other.
   */
  function CorrectedPriorityPart(priority: int): string
  {
    var v := VeryBig + priority;
    if v < 0 then IntToDecimal(v) else ZFill(NatToDecimal(v), PriorityWidth)
  }

  /** The key the queue below pushes under: the corrected priority part, `-`, the sanitised slot, `-`, the digest. */
  function PriorityKey(rt: Runtime, slot: string, priority: int): string
  {
    CorrectedPriorityPart(priority) + "-" + Pathable(rt, slot) + "-" + rt.md5hex(slot)
  }

  /** The priorities the padded part is exact for: offsets from 0 to `10**10 - 1`, which includes every priority of magnitude up to 2**32. */
  predicate InKeyRange(priority: int)
  {
    0 <= VeryBig + priority < Pow10(PriorityWidth)
  }

  lemma CorrectedPartDigits(priority: int)
    requires InKeyRange(priority)
    ensures var part := CorrectedPriorityPart(priority);
            |part| == PriorityWidth && AllDigits(part) && DigitsValue(part) == VeryBig + priority
  {
    ZFillDecimal(VeryBig + priority, PriorityWidth);
  }

  /** For one slot and priorities in range, the corrected keys compare as the priorities do. */
  lemma PriorityKeyOrder(rt: Runtime, slot: string, p1: int, p2: int)
    requires InKeyRange(p1) && InKeyRange(p2)
    ensures StrLess(PriorityKey(rt, slot, p1), PriorityKey(rt, slot, p2)) <==> p1 < p2
  {
    var a := CorrectedPriorityPart(p1);
    var b := CorrectedPriorityPart(p2);
    var rest := "-" + Pathable(rt, slot) + "-" + rt.md5hex(slot);
    assert PriorityKey(rt, slot, p1) == a + rest;
    assert PriorityKey(rt, slot, p2) == b + rest;
    CorrectedPartDigits(p1);
    CorrectedPartDigits(p2);
    DigitsOrder(a, b);
    if p1 == p2 {
      StrLessIrreflexive(a + rest);
    } else {
      StrLessDecidedByPrefix(a, rest, b, rest);
    }
  }

  /** Two equal strings cut at the same place give equal pieces. */
  lemma SplitEqual(a: string, x: string, b: string, y: string)
    requires |a| == |b| && a + x == b + y
    ensures a == b && x == y
  {
    assert a == (a + x)[..|a|] && b == (b + y)[..|b|];
    assert x == (a + x)[|a|..] && y == (b + y)[|b|..];
  }

  /**
   * When the two slots' digests do not collide, keys in range are different
   * for different slots or different priorities.
   */
  lemma PriorityKeyInjective(rt: Runtime, s1: string, p1: int, s2: string, p2: int)
    requires rt.Valid()
    requires rt.md5hex(s1) == rt.md5hex(s2) ==> s1 == s2
    requires InKeyRange(p1) && InKeyRange(p2)
    ensures PriorityKey(rt, s1, p1) == PriorityKey(rt, s2, p2) <==> s1 == s2 && p1 == p2
  {
    var a := CorrectedPriorityPart(p1);
    var b := CorrectedPriorityPart(p2);
    CorrectedPartDigits(p1);
    CorrectedPartDigits(p2);
    var x := "-" + SlotQueues.SlotAsPath(rt, s1);
    var y := "-" + SlotQueues.SlotAsPath(rt, s2);
    assert PriorityKey(rt, s1, p1) == a + x;
    assert PriorityKey(rt, s2, p2) == b + y;
    if a + x == b + y {
      SplitEqual(a, x, b, y);
      DigitsOrder(a, b);
      SplitEqual("-", SlotQueues.SlotAsPath(rt, s1), "-", SlotQueues.SlotAsPath(rt, s2));
      SlotQueues.SlotAsPathInjective(rt, s1, s2);
    }
  }

  /** Every corrected key is path safe. */
  lemma PriorityKeyPathSafe(rt: Runtime, slot: string, priority: int)
    requires rt.Valid()
    ensures PathSafe(rt, PriorityKey(rt, slot, priority))
  {
    var part := CorrectedPriorityPart(priority);
    var v := VeryBig + priority;
    if v < 0 {
      assert part[1..] == NatToDecimal(-v);
    } else if |NatToDecimal(v)| < PriorityWidth {
      assert AllDigits(Zeros(PriorityWidth - |NatToDecimal(v)|) + NatToDecimal(v));
    }
    DecimalPathSafe(rt, part);
    SlotQueues.SlotAsPathShape(rt, slot);
    assert PathSafe(rt, "-");
    PathSafeConcat(rt, part, "-");
    PathSafeConcat(rt, part + "-", SlotQueues.SlotAsPath(rt, slot));
    assert PriorityKey(rt, slot, priority) == part + "-" + SlotQueues.SlotAsPath(rt, slot);
  }

  /** Where the original key already had ten digits, the corrected key is the original key. */
  lemma PriorityKeyAgrees(rt: Runtime, slot: string, priority: int)
    requires VeryBig + priority >= 0 && |NatToDecimal(VeryBig + priority)| == PriorityWidth
    ensures PriorityKey(rt, slot, priority) == GetPriority(rt, slot, priority)
  {
  }

  // ------------------------------------------------------------ the queue

  class RoundRobinQueue {
    /** `_slots`: the rotation, head first. */
    var slots: seq<string>
    /** `pqueues`: slot -> that slot's priority queue, in insertion order. */
    var pqueues: Dict<string, PQ.PriorityQueue<string, Request>>
    /** The factory for the inner queues. */
    const qfactory: PQ.Factory
    /** The libraries the slot keys call. */
    const rt: Runtime

    ghost function State(): RoundRobin.State<string, Request>
      reads this
    {
      RoundRobin.State(slots, pqueues)
    }

    /** The rotation lists every slot with a queue once, and every queue is well formed. */
    ghost predicate Valid()
      reads this
    {
      RoundRobin.Shape(State(), StrLess)
    }

    /** `RoundRobinQueue(qfactory)`: no slots, no queues. */
    constructor(qfactory: PQ.Factory, rt: Runtime)
      ensures Valid() && State() == RoundRobin.Empty()
      ensures this.qfactory == qfactory && this.rt == rt
    {
      slots := [];
      pqueues := Dicts.Empty();
      this.qfactory := qfactory;
      this.rt := rt;
    }

    /**
     * `RoundRobinQueue(qfactory, startprios)`: refuses a true non-dict;
     * otherwise adds each slot of the dict, in order, to the rotation and
     * gives it a priority queue reopened from its keys over what the disk
     * queues hold (`onDisk`).
     */
    static method Open(qfactory: PQ.Factory, rt: Runtime, startprios: RoundRobin.StartPrios<string>, onDisk: map<string, seq<Request>>)
      returns (r: Result<RoundRobinQueue, Error>)
      requires startprios.Mapping? ==> Dicts.Valid(startprios.d)
      ensures r.Failure? <==> RoundRobin.CheckStartPrios(startprios, MalformedPriorities).Failure?
      ensures r.Failure? ==> r.error == RoundRobin.CheckStartPrios(startprios, MalformedPriorities).error
      ensures r.Success? ==> fresh(r.value) && r.value.Valid() && r.value.qfactory == qfactory && r.value.rt == rt
      ensures r.Success? ==> r.value.State() == RoundRobin.Reopen(qfactory, RoundRobin.CheckStartPrios(startprios, MalformedPriorities).value, onDisk, StrLess)
    {
      StrLessIsTotal();
      var q := new RoundRobinQueue(qfactory, rt);
      if startprios.NotAMapping? && !startprios.truthy {
        RoundRobin.ReopenEmpty(qfactory, onDisk, StrLess);
        return Success(q);
      }
      if startprios.NotAMapping? {
        return Failure(ValueError(MalformedPriorities));
      }
      var keys := startprios.d.keys;
      var entries := startprios.d.entries;
      if keys == [] {
        assert startprios.d == Dicts.Empty();
        RoundRobin.ReopenEmpty(qfactory, onDisk, StrLess);
        return Success(q);
      }
      var i := 0;
      while i < |keys|
        invariant 0 <= i <= |keys|
        invariant q.slots == keys[..i]
        invariant q.pqueues == RoundRobin.ReopenedQueues(qfactory, keys[..i], entries, onDisk, StrLess)
        invariant q.qfactory == qfactory && q.rt == rt
        modifies q
      {
        var slot := keys[i];
        q.slots := q.slots + [slot];
        var pq := PQ.ReseedQueue(qfactory, entries[slot], onDisk, StrLess);
        MapValuesStep(keys, entries, RoundRobin.Reseeder(qfactory, onDisk, StrLess), i);
        q.pqueues := Set(q.pqueues, slot, pq);
        assert keys[..i + 1] == keys[..i] + [slot];
        i := i + 1;
      }
      assert keys[..i] == keys;
      RoundRobin.ReopenShape(qfactory, startprios.d, onDisk, StrLess);
      return Success(q);
    }

    /**
     * `push(request, priority)`: gives an unseen slot a queue and a place at
     * the rotation's tail, and pushes the request under `_get_priority(slot,
     * priority)`, unpadded as written.  The request is not changed.
     */
    method Push(request: Request, priority: int)
      requires Valid()
      modifies this
      ensures Valid()
      ensures var slot := SchedulerSlot(request);
              State() == RoundRobin.Push(old(State()), slot, GetPriority(rt, slot, priority), request, qfactory, StrLess)
    {
      StrLessIsTotal();
      var s := SchedulerSlot(request);
      var key := GetPriority(rt, s, priority);
      ghost var before := State();
      RoundRobin.PushShape(before, s, key, request, qfactory, StrLess);
      var pq := PQ.Empty(qfactory);
      if s in pqueues.entries {
        pq := pqueues.entries[s];
      } else {
        slots := slots + [s];
      }
      pqueues := Set(pqueues, s, PQ.Push(pq, request, key, StrLess));
      assert State() == RoundRobin.Push(before, s, key, request, qfactory, StrLess);
    }

    /**
     * `pop()`: `None` on an empty rotation; otherwise one request from the
     * head slot, which goes back to the tail if its queue still holds
     * requests and loses its queue if not.
     */
    method Pop() returns (r: Option<Request>)
      requires Valid()
      modifies this
      ensures Valid()
      ensures (r, State()) == RoundRobin.Pop(old(State()), StrLess)
    {
      StrLessIsTotal();
      RoundRobin.PopShape(State(), StrLess);
      if slots == [] {
        return None;
      }
      var slot := slots[0];
      slots := slots[1..];
      var popped := PQ.Pop(pqueues.entries[slot], StrLess);
      if PQ.Len(popped.1) > 0 {
        slots := slots + [slot];
        pqueues := Set(pqueues, slot, popped.1);
      } else {
        pqueues := Del(pqueues, slot);
      }
      return popped.0;
    }

    /**
     * `close()`: for each slot in the dict's order, the keys its queue still
     * holds; afterwards there are no slots and no queues.
     */
    method Close() returns (startprios: RoundRobin.Snapshot<string>)
      requires Valid()
      modifies this
      ensures startprios == RoundRobin.Close(old(State()))
      ensures Valid() && State() == RoundRobin.Empty()
    {
      startprios := Dicts.Empty();
      var keys := pqueues.keys;
      var i := 0;
      while i < |keys|
        invariant 0 <= i <= |keys|
        invariant startprios == RoundRobin.SnapshotOf(keys[..i], pqueues.entries)
        modifies {}
      {
        var slot := keys[i];
        var prios := PQ.Close(pqueues.entries[slot]);
        MapValuesStep(keys, pqueues.entries, PQ.Close, i);
        startprios := Set(startprios, slot, prios);
        i := i + 1;
      }
      assert keys[..i] == keys;
      pqueues := Dicts.Empty();
      slots := [];
    }

    /** `len(queue)`: the number of requests in all slots' queues. */
    method Len() returns (n: nat)
      requires Valid()
      ensures n == RoundRobin.Size(State())
    {
      if pqueues.keys == [] {
        return 0;
      }
      n := 0;
      var i := 0;
      while i < |pqueues.keys|
        invariant 0 <= i <= |pqueues.keys|
        invariant n == SumOver(pqueues.keys[..i], pqueues.entries, RoundRobin.QueueSize)
      {
        var slot := pqueues.keys[i];
        SumOverAppend(pqueues.keys[..i], slot, pqueues.entries, RoundRobin.QueueSize);
        assert pqueues.keys[..i + 1] == pqueues.keys[..i] + [slot];
        n := n + PQ.Len(pqueues.entries[slot]);
        i := i + 1;
      }
      assert pqueues.keys[..i] == pqueues.keys;
    }
  }
}
