# Slot-fair request queues of the Scrapy scheduler, in Dafny

This project models the round-robin queue that Scrapy's scheduler keeps its
pending requests in, and proves what it promises.

Each request belongs to a *download slot* (normally the host of its URL). Each
slot gets its own priority queue, and the slots form a rotation (`_slots`).
`push` files a request in its slot's queue. A slot seen for the first time
joins the rotation at its tail. `pop` serves the slot at the head of the
rotation. That slot goes back to the tail while it still has requests, and it
loses its queue once it has none. `close` returns, for each slot, the
priorities its queue still holds. The constructor rebuilds the queue from such
a snapshot.

Two versions are modelled:

- `scrapy/pqueues.py` (module `SlotQueues`) keys each request by the tuple
  `(priority, slot path)`. It resolves the slot from `meta` and, when no slot
  is stored there, from the URL's host, writing that host back into `meta`.
- `scrapy/core/queues.py` (module `LegacyQueues`) only reads the slot. It
  encodes slot and priority into one string key.

Shared modules:

- `RoundRobin` states the round-robin machine on values: rotation, queues,
  push, pop, close, reopen and size. Both classes promise that each method
  moves their fields exactly as these functions do. The machine's properties
  are proved there once: the rotation invariant, the fairness of the rotation,
  the size bookkeeping and the close/reopen round trip.
- `PriorityQueues` models the priority queue each slot owns
  (`queuelib.PriorityQueue`, which `PriorityAsTupleQueue` extends). It has one
  inner queue per priority and a current priority `curprio`. A pop serves the
  inner queue of `curprio`, the smallest priority still holding entries. The
  inner queues are FIFO or LIFO, as the factory makes them.
- `Dicts` models Python's insertion-ordered `dict`. The order matters: `close`
  lists slots in dict order, and reopening rebuilds the rotation in that order.
- `PyText` holds `str()`, `str.zfill`, the path sanitiser and the foreign
  library calls.
- `Requests` holds the request objects. A request's `meta` can be written.

The constructor's loops, `close`, `__len__` and `PriorityAsTupleQueue.__init__`
are methods with loop invariants. Their contracts tie their results to the
value-level functions.

## Model

| member | source | states |
|---|---|---|
| `SlotQueues.GetFromRequest` | scrapy/pqueues.py:18-25 | It fails with `ValueError` exactly for objects that are neither a dict nor a `Request`. Otherwise it returns the field when present and the default when absent. |
| `SlotQueues.SchedulerSlot` | scrapy/pqueues.py:28-37 | It returns the slot the request resolves to. When no slot is stored, the host fallback is written into `meta`: into the `Request`'s own `meta` (created empty if it had none) or into a dict's `meta` entry. A dict without `meta` keeps having none, and a stored slot leaves `meta` as it was. |
| `SlotQueues.SchedulerSlotIdempotent` | scrapy/pqueues.py:28-37 | Resolution fails only for non-requests. A second resolution returns the same slot and writes nothing. After one call, a `Request` (even one that had no `meta`) or a dict with `meta` holds a non-`None` slot whose `str` is the result. A slot already stored is returned as its `str` and left untouched. |
| `SlotQueues.SlotAsPathShape` | scrapy/pqueues.py:40-49 | The path is the sanitised slot, then `-`, then the 32-digit digest, `|slot| + 33` characters in all. Each slot character is kept if alphanumeric or in `-._` and becomes `_` otherwise. The whole path is path safe. |
| `SlotQueues.SlotAsPathInjective` | scrapy/pqueues.py:43-47 | When two slots' digests do not collide, two slots with the same path are the same slot, even where sanitising merged their characters. |
| `SlotQueues.KeyLessIsTotal` | scrapy/pqueues.py:89 | The `(priority, path)` tuple order is irreflexive, transitive and total, so every queue has a single smallest key. |
| `SlotQueues.SameSlotFollowsPriority` | scrapy/pqueues.py:89 | Within one slot, key order is exactly priority order, and equal keys mean equal priorities. |
| `SlotQueues.PopServesLowestPriority` | scrapy/pqueues.py:60 | In a slot's queue, the priority served next is the lowest the slot holds, and the pop takes its entry from that priority's inner queue. |
| `SlotQueues.RoundRobinQueue.constructor` | scrapy/pqueues.py:65-68 | A new queue has no slots and no queues and satisfies the rotation invariant. |
| `SlotQueues.RoundRobinQueue.Open` | scrapy/pqueues.py:65-81 | It fails with `ValueError` exactly for a true non-dict. A false value gives an empty queue. A dict gives one rotation entry and one reopened queue per key, in the dict's order, and the invariant holds. |
| `SlotQueues.RoundRobinQueue.Push` | scrapy/pqueues.py:83-89 | A non-request fails with nothing changed. Otherwise the state moves as `RoundRobin.Push` with key `(priority, slot path)`, `meta` changes as slot resolution says, and the invariant is kept. |
| `SlotQueues.RoundRobinQueue.Pop` | scrapy/pqueues.py:91-102 | The result and the new state are those of `RoundRobin.Pop`, and the invariant is kept. |
| `SlotQueues.RoundRobinQueue.Close` | scrapy/pqueues.py:104-111 | It returns `RoundRobin.Close` of the state before the call and leaves no slots and no queues. |
| `SlotQueues.RoundRobinQueue.Len` | scrapy/pqueues.py:113-114 | It returns the total number of requests over all slots' queues. |
| `LegacyQueues.SchedulerSlot` | scrapy/core/queues.py:14-22 | It returns `str` of `meta['downloader_slot']`, or `"None"` when the request has no `meta` or no such key. It only reads the request. |
| `LegacyQueues.GetPriorityShape` | scrapy/core/queues.py:43-56 | The key is `str(2**32 + priority)`, `-`, and exactly the slot path of the newer version. It contains only alphanumerics and `-._`. |
| `LegacyQueues.GetPriorityOrder` | scrapy/core/queues.py:26-43 | For one slot, if both offset values are non-negative with equal digit counts, key order is priority order in both directions. |
| `LegacyQueues.GetPriorityInjective` | scrapy/core/queues.py:25-56 | For the key the legacy queue pushes under, as written: when the two slots' digests do not collide, keys are equal exactly when slot and priority are both equal, for every priority. |
| `PyText.IntToDecimalInjective` | scrapy/core/queues.py:43 | `str` of an integer determines the integer: equal strings exactly for equal integers, negative ones included. |
| `LegacyQueues.GetPriorityOrderBreaks` | scrapy/core/queues.py:39-43 | The order claim fails when digit counts differ: priority `9 - 2**32` is lower than `10 - 2**32`, yet its key sorts after. |
| `LegacyQueues.PriorityKeyOrder` | scrapy/core/queues.py:39-43 | With the priority part zero-filled to ten digits, key order is priority order for every priority from `-2**32` to `10**10 - 2**32 - 1`. |
| `LegacyQueues.PriorityKeyInjective` | scrapy/core/queues.py:26-56 | When the two slots' digests do not collide, in-range keys are equal exactly when slot and priority are both equal. |
| `LegacyQueues.PriorityKeyPathSafe` | scrapy/core/queues.py:36-56 | Every corrected key contains only alphanumerics and `-._`. |
| `LegacyQueues.PriorityKeyAgrees` | scrapy/core/queues.py:43 | Where `str(2**32 + priority)` already has ten digits, the corrected key equals the original key. |
| `LegacyQueues.RoundRobinQueue.constructor` | scrapy/core/queues.py:62-65 | A new queue has no slots and no queues and satisfies the rotation invariant. |
| `LegacyQueues.RoundRobinQueue.Open` | scrapy/core/queues.py:62-78 | It fails with `ValueError` exactly for a true non-dict. A false value gives an empty queue. A dict gives one rotation entry and one reopened queue per key, in order, and the invariant holds. |
| `LegacyQueues.RoundRobinQueue.Push` | scrapy/core/queues.py:80-86 | The state moves as `RoundRobin.Push` with the slot read from `meta` and the key `_get_priority` builds, unpadded as written. The request is not modified, and the invariant is kept. |
| `LegacyQueues.RoundRobinQueue.Pop` | scrapy/core/queues.py:88-99 | The result and the new state are those of `RoundRobin.Pop`, and the invariant is kept. |
| `LegacyQueues.RoundRobinQueue.Close` | scrapy/core/queues.py:101-108 | It returns `RoundRobin.Close` of the state before the call and leaves no slots and no queues. |
| `LegacyQueues.RoundRobinQueue.Len` | scrapy/core/queues.py:110-111 | It returns the total number of requests over all slots' queues. |
| `RoundRobin.CheckStartPrios` | scrapy/pqueues.py:70-77 | A true non-dict is refused. A false one reopens nothing. A dict is reopened as given. |
| `RoundRobin.ReopenEmpty` | scrapy/pqueues.py:70-71 | Reopening from nothing gives the state of a fresh queue. |
| `RoundRobin.ReopenShape` | scrapy/pqueues.py:79-81 | A reopened state satisfies the rotation invariant. Its rotation and its dict order are both the snapshot's key order. |
| `RoundRobin.PushEffect` | scrapy/pqueues.py:83-89 | An unseen slot is appended to the rotation's tail. A known slot leaves the rotation unchanged. The queue map gains only that slot, no other slot's queue changes, that slot's queue grows by one, and the total size grows by one. |
| `RoundRobin.PushShape` | scrapy/pqueues.py:83-89 | A push keeps the rotation free of repeats and equal, as a set, to the slots that have queues. It also keeps every slot active. |
| `RoundRobin.PopEmpty` | scrapy/pqueues.py:91-93 | On an empty rotation a pop returns nothing and changes nothing, and the queue is empty. |
| `RoundRobin.PopEffect` | scrapy/pqueues.py:94-102 | The head slot serves one request from its queue. It returns to the tail exactly when its queue still holds requests, and its queue is deleted otherwise. No other slot's queue changes. |
| `RoundRobin.PopShape` | scrapy/pqueues.py:91-102 | A pop keeps the rotation free of repeats and equal, as a set, to the slots that have queues. |
| `RoundRobin.PopValid` | scrapy/pqueues.py:95-101 | A pop keeps every remaining slot's queue non-empty. |
| `RoundRobin.SizeZero` | scrapy/pqueues.py:113-114 | When every slot is active, the size is 0 exactly when the rotation is empty. |
| `RoundRobin.PopSize` | scrapy/pqueues.py:96-101 | A pop on a non-empty queue returns a request and lowers the size by exactly one. |
| `RoundRobin.PopRotation` | scrapy/pqueues.py:94-99 | After a pop, the rotation starts with the slots that followed the served one, in their order. |
| `RoundRobin.ServedSlotsFollowRotation` | scrapy/pqueues.py:94-99 | As many pops as there are slots serve exactly the rotation, in order, each slot once. |
| `RoundRobin.ConsecutivePopsDiffer` | tests/test_scheduler.py:161-172 | While at least two slots are in the rotation, two successive pops serve different slots. |
| `RoundRobin.CloseSnapshot` | scrapy/pqueues.py:104-111 | The snapshot's keys are exactly the slots, in dict order. Each slot maps to the priorities its queue still holds, and with every slot active none of those lists is empty. |
| `RoundRobin.CloseReopen` | scrapy/pqueues.py:104-111 | Reopening from `close`'s result, over the inner queues it left behind, gives every slot its queue back unchanged. The rotation restarts in dict order. |
| `PriorityQueues.ReseedQueue` | scrapy/pqueues.py:54-60 | The loop builds the queue `Reseed` describes: one inner queue per start priority and `curprio` at their minimum. |
| `PriorityQueues.ReseedShape` | scrapy/pqueues.py:54-60 | The reopened queue is well formed. Its priorities are exactly the start priorities. It is valid when each of them still has entries. |
| `PriorityQueues.SeedQueuesContents` | scrapy/pqueues.py:58-59 | Each start priority gets exactly what the factory finds behind it, and no other priority is added. |
| `PriorityQueues.SeedQueuesKeys` | scrapy/pqueues.py:58-59 | Distinct start priorities keep their order as the dict's order. |
| `PriorityQueues.CloseReseed` | scrapy/pqueues.py:54-60 | Reopening from a valid queue's `close()` output, over its inner queues, gives the same queue back, `curprio` included. |
| `PriorityQueues.PopServesMinimum` | scrapy/pqueues.py:60 | A pop serves `curprio`, no held priority is smaller, and the entry comes from that priority's inner queue. |
| `PriorityQueues.PopNonDecreasing` | scrapy/pqueues.py:96 | Between pushes, the next priority served is never smaller than the one just served. |
| `PriorityQueues.PushLen` | scrapy/pqueues.py:89 | A push appends the request to the end of its priority's inner queue, changes no other inner queue and adds one to the length. |
| `PriorityQueues.PopLen` | scrapy/pqueues.py:96 | A pop on a non-empty valid queue returns an entry and removes exactly one. |
| `PriorityQueues.LenZero` | scrapy/pqueues.py:98 | A valid queue is empty exactly when it has no `curprio`. |
| `PriorityQueues.CloseActive` | scrapy/pqueues.py:107 | `close()` lists each priority still holding entries exactly once, in insertion order. For a valid queue that is every priority. |
| `PriorityQueues.Take` | scrapy/pqueues.py:96 | An inner queue's pop removes one entry (multiset conservation): the head for FIFO, the tail for LIFO, and nothing from an empty queue. |
| `PyText.PathableChars` | scrapy/pqueues.py:41 | The sanitised slot has the slot's length. Each character is kept if alphanumeric or in `-._` and becomes `_` otherwise. The result is path safe. |
| `PyText.PathableIdempotent` | scrapy/core/queues.py:48 | Sanitising leaves a path-safe string unchanged, so sanitising twice is the same as once. |

## Left out

- md5, `str.isalnum` and `urlparse(url).hostname` are foreign library code. They are fields of `PyText.Runtime`, passed in as parameters. The model assumes only what `Runtime.Valid` states: `isalnum` agrees with ASCII letters and digits on ASCII characters, and a digest is 32 lower-case hex digits. A digest of 32 hex digits cannot be collision-free on all strings. So the lemmas that need distinct digests (`SlotAsPathInjective`, `GetPriorityInjective`, `PriorityKeyInjective`) assume it only for the two slots they compare.
- `queuelib.PriorityQueue` and the memory and disk queue backends are not part of this model. The priority queue is modelled on values from its behaviour: one inner queue per priority, FIFO or LIFO, `curprio` at the smallest priority still holding entries, and an emptied priority deleted. An inner queue created by a push starts empty; leftover files a disk factory might find there are not modelled.
- Disk persistence: what the disk queues hold at reopening is the parameter `onDisk`. Serialisation, the JSON file of priorities, file layout and the inner queues' own `close()` are not modelled.
- `tuple(x)` in `PriorityAsTupleQueue.__init__`: the persisted priorities are already keys in the model, so the conversion is the identity. Persisted entries that are not pairs are not modelled.
- `SCHEDULER_SLOT_META_KEY` in `scrapy/pqueues.py` is `Downloader.DOWNLOAD_SLOT`. `scrapy/core/downloader` is not part of this model, so its value is taken to be `"download_slot"`.
- A `meta` that is not a dict, and request attributes other than `meta` and `url`, are not modelled. A request is a `dict`, a `Request`, or an object of another class named by its class name. A `Request` whose `meta` is `None` in the model has not yet created its `meta` dict, and reading it creates an empty one.
- The scheduler that calls these queues (it pushes `-request.priority`), `DownloaderAwarePriorityQueue`, the unique-path wrapper, signals and logging are not part of this model. The lowest key is served first.
- The `ValueError` of `scrapy/core/queues.py:71-74` is raised with four string arguments. The model keeps only the kind of error and one message string.
- `SlotQueues.RoundRobinQueue.Push`: the source stores a new slot's priority queue with one dict assignment and then pushes into that queue object in place. The model replaces the in-place update of the inner queue with a value update under `Set`. This keeps the dict order, since the slot keeps its place.
- The legacy queue keeps the as-written key `_get_priority`, order fault included. The zero-filled key `PriorityKey` under Findings is a corrected reference that no queue uses. The two keys agree wherever `2**32 + priority` has ten digits (`PriorityKeyAgrees`).

## Findings

| source | as written | input that shows it | evidently intended | confidence | as-written member | corrected member |
|---|---|---|---|---|---|---|
| scrapy/core/queues.py:43 | The priority part is `str(2**32 + priority)` without padding, and keys compare as strings, so a shorter number sorts by its first digit. | Priorities `9 - 2**32` and `10 - 2**32` in one slot: the keys start `"9-"` and `"10-"`, so the higher priority is served first. | Keys keep priority order for every priority the offset was meant for, as the function's own comment requires. Zero-filling the part to ten digits does this. | medium; not executed | `LegacyQueues.GetPriorityOrderBreaks` | `LegacyQueues.PriorityKeyOrder` |
