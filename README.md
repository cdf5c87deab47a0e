# FastHugeStorage routing model

A Dafny model of the cache façade `FastHugeStorage` of the HugestFastestStorage
Android library. The façade stores tickets (an id, a status and a serialized
payload) in two tiers: a bounded in-memory LRU tier (`FastLruCacheAssistant`)
and a disk tier (`DiskCacheHelper`). It decides where a ticket goes on `put`,
where it comes back from on `popTicket`, and which status it ends up with when
the memory tier evicts it to disk (`onMoveToDisk`).

Layout:

- `wrappers.dfy` — `Option`, standing for a possibly-null reference.
- `ticket_status.dfy` — the five status codes of `TicketStatus` as a datatype, with
  their int encoding and its inverse.
- `routing.dfy` — the façade's state as a value (`Tiers`: the two tier fields,
  `None` for a null field, each tier an index from id to ticket) and one function
  per operation, with the round-trip and destructiveness lemmas.
- `storage.dfy` — the class `FastHugeStorage`, whose methods update the two tier
  fields in place and are proved to do exactly what the `Routing` functions say.
- `trace.dfy` — arbitrary runs of `init`, `put`, `popTicket`, evictions and
  `clear`; proves by induction over the run that a key is popped successfully at
  most once, as long as the id generator does not issue it again, and that it
  stays poppable, while a disk tier exists, through any steps that do not pop,
  clear or re-initialize it, with its payload unless an eviction of it failed to
  write.

Modelling choices:

- `put` and `popTicket` run under the façade's lock. `init` runs on the caller's
  thread, and the `onMoveToDisk` and `clear` tasks on worker threads; none of
  these three takes the lock. The model runs every operation to completion, one
  at a time (see "Left out" for what that hides).
- The tiers' answers are parameters: whether the memory tier and the disk tier
  accept a `put`, and how the disk tier's `save` ends (true, false, or an
  IOException, `SaveOutcome`).
- The id generator is a supplied key that no tier currently holds.
- An eviction (`Routing.Evict`) is the memory tier dropping the entry and then
  calling `onMoveToDisk` with it. The runs in `trace.dfy` reach `onMoveToDisk`
  only this way, since the memory tier's overflow callback is its only caller.
  `onMoveToDisk` is nonetheless public (it implements `OnFulledListener`), and a
  direct call with a ticket the memory tier still holds puts its id in both tiers,
  after which two pops both succeed (`Routing.HandoffOfHeldTicketPopsTwice`). The
  at-most-once results assume no such call, just as they assume one ticket object
  is not put twice.
- `put` dereferences the tier fields on the caller's thread, so a null field
  there throws to the caller; the model requires the fields `put` uses to be
  set. In `onMoveToDisk` and `clear` the dereference happens on a worker thread:
  the task dies and the caller carries on. The model says what is left behind:
  a handoff with a null disk field changes nothing (so an evicted ticket is lost,
  `Trace.EvictWithoutDiskLoses`), and `clear` stops at the first null field.
  `popTicket` checks for null, and the model does too.
- `put` does not set a status in the source (only the id); the model follows the code.
- A popped disk entry is the ticket in the disk index, with whatever status the
  handoff gave it (`ONDISK` or `WAS_LOST`).

## Model

| member | source | states |
|---|---|---|
| TicketStatus.Code | libandroidyuancache/src/main/java/com/androidyuan/libcache/core/TicketStatus.java:5-9 | the codes lie in -1..3; the code is negative exactly for WAS_LOST and 0 exactly for ON_CACHING |
| TicketStatus.Decode | libandroidyuancache/src/main/java/com/androidyuan/libcache/core/TicketStatus.java:5-9 | decoding is defined exactly on -1..3, and yields a status exactly when that status encodes to the int |
| TicketStatus.CodeInjective | libandroidyuancache/src/main/java/com/androidyuan/libcache/core/TicketStatus.java:5-9 | the five codes are pairwise distinct |
| TicketStatus.DecodeCode | libandroidyuancache/src/main/java/com/androidyuan/libcache/core/TicketStatus.java:5-9 | decoding the code of a status gives the status back |
| TicketStatus.CodeDecode | libandroidyuancache/src/main/java/com/androidyuan/libcache/core/TicketStatus.java:5-9 | encoding the decoded status of any int in -1..3 gives the int back |
| Routing.StatusAfterSave | libandroidyuancache/src/main/java/com/androidyuan/libcache/FastHugeStorage.java:122-130 | the handoff status is ONDISK or WAS_LOST, and ONDISK exactly when save returned true |
| Routing.Init | libandroidyuancache/src/main/java/com/androidyuan/libcache/FastHugeStorage.java:49-57 | afterwards the memory tier exists and is empty; the disk tier is empty too unless building it failed, in which case the old disk field is kept; the invariant is kept |
| Routing.Put | libandroidyuancache/src/main/java/com/androidyuan/libcache/FastHugeStorage.java:63-74 | returns the fresh key exactly when one tier accepts; memory acceptance makes memory the old memory plus the stamped ticket and leaves disk alone; otherwise disk acceptance makes disk the old disk plus the stamped ticket and leaves memory alone; with both refusing nothing changes; the invariant is kept |
| Routing.Pop | libandroidyuancache/src/main/java/com/androidyuan/libcache/FastHugeStorage.java:83-97 | a ticket comes back exactly when some tier holds the id; memory wins and disk is untouched then; otherwise the disk entry is returned and removed; a miss (or null tiers) changes nothing; with the invariant, the id is gone afterwards |
| Routing.MoveToDisk | libandroidyuancache/src/main/java/com/androidyuan/libcache/FastHugeStorage.java:116-137 | a null ticket, or a null disk field (the worker task throws), changes nothing; otherwise the ticket, with status ONDISK or WAS_LOST after the save outcome, is in the disk index whatever the outcome; memory and other disk entries are untouched |
| Routing.Evict | libandroidyuancache/src/main/java/com/androidyuan/libcache/FastHugeStorage.java:116-137 | after an eviction memory is the old memory without the id; with a disk tier the disk index is the old one with the evicted ticket registered under its id with the handoff status, and every other disk entry is kept; with a null disk field the ticket is gone from both tiers; the invariant is kept |
| Routing.Clear | libandroidyuancache/src/main/java/com/androidyuan/libcache/FastHugeStorage.java:142-150 | with a memory tier, afterwards no tier holds any id and the disk field stays null or set as before; with a null memory field nothing changes |
| Routing.PutThenPop | libandroidyuancache/src/main/java/com/androidyuan/libcache/FastHugeStorage.java:63-97 | a successful put followed by a pop of its key returns the stamped ticket and restores the tiers exactly |
| Routing.PopTwice | libandroidyuancache/src/main/java/com/androidyuan/libcache/FastHugeStorage.java:76-97 | pop is destructive: a second pop of the same id returns null |
| Routing.HandoffOfHeldTicketPopsTwice | libandroidyuancache/src/main/java/com/androidyuan/libcache/FastHugeStorage.java:115-137 | handing over a ticket that memory still holds lets two pops of its id both return a ticket |
| Routing.MoveToDiskThenPop | libandroidyuancache/src/main/java/com/androidyuan/libcache/FastHugeStorage.java:116-137 | after the handoff a pop of the id (no longer in memory) returns the ticket with its new status |
| Routing.ClearThenPop | libandroidyuancache/src/main/java/com/androidyuan/libcache/FastHugeStorage.java:139-150 | after clear (with a memory tier) a pop of any id returns null and changes nothing |
| Storage.FastHugeStorage.constructor | libandroidyuancache/src/main/java/com/androidyuan/libcache/FastHugeStorage.java:34-35 | both tier fields start null |
| Storage.FastHugeStorage.Init | libandroidyuancache/src/main/java/com/androidyuan/libcache/FastHugeStorage.java:49-57 | the fields become what Routing.Init gives |
| Storage.FastHugeStorage.Put | libandroidyuancache/src/main/java/com/androidyuan/libcache/FastHugeStorage.java:63-74 | the fields and the returned key are what Routing.Put gives |
| Storage.FastHugeStorage.PopTicket | libandroidyuancache/src/main/java/com/androidyuan/libcache/FastHugeStorage.java:83-97 | the fields and the returned ticket are what Routing.Pop gives |
| Storage.FastHugeStorage.OnMoveToDisk | libandroidyuancache/src/main/java/com/androidyuan/libcache/FastHugeStorage.java:116-137 | the fields become what Routing.MoveToDisk gives |
| Storage.FastHugeStorage.Clear | libandroidyuancache/src/main/java/com/androidyuan/libcache/FastHugeStorage.java:142-150 | the fields become what Routing.Clear gives, stopping at the first null field |
| Trace.HeldAtMostOnce | libandroidyuancache/src/main/java/com/androidyuan/libcache/FastHugeStorage.java:83-97 | in a well-formed state at most one tier holds an id |
| Trace.StepKeepsCount | libandroidyuancache/src/main/java/com/androidyuan/libcache/FastHugeStorage.java:63-150 | every step keeps the invariant, and no step other than a put of the id raises the number of tiers holding it; a successful pop of it lowers that number |
| Trace.PopsBounded | libandroidyuancache/src/main/java/com/androidyuan/libcache/FastHugeStorage.java:76-97 | along any run, successful pops of an id plus the tiers still holding it never exceed the tiers holding it at the start |
| Trace.AtMostOnce | libandroidyuancache/src/main/java/com/androidyuan/libcache/FastHugeStorage.java:76-97 | along any run that does not issue the key again, at most one pop of it returns a ticket |
| Trace.StepKeepsTicket | libandroidyuancache/src/main/java/com/androidyuan/libcache/FastHugeStorage.java:63-150 | with a disk tier, a step that is not a pop of the key, clear, init or a put of the key leaves the key poppable with the same id; an eviction of it sets the handoff status; the payload is kept unless that eviction failed to write |
| Trace.RunKeepsTicket | libandroidyuancache/src/main/java/com/androidyuan/libcache/FastHugeStorage.java:63-150 | along any run of such steps the key stays poppable with the same id, and with the same payload if no eviction of it failed to write |
| Trace.EvictWithoutDiskLoses | libandroidyuancache/src/main/java/com/androidyuan/libcache/FastHugeStorage.java:116-137 | an eviction while the disk field is null loses the ticket: it is in neither tier afterwards |
| Trace.PutThenRunThenPop | libandroidyuancache/src/main/java/com/androidyuan/libcache/FastHugeStorage.java:63-137 | with a disk tier, after a successful put, other puts, pops of other keys and evictions (of this key too) still leave a pop of the key returning a ticket with that key, carrying the put payload if no eviction of it failed to write |
| Trace.PutKeyPoppedAtMostOnce | libandroidyuancache/src/main/java/com/androidyuan/libcache/FastHugeStorage.java:63-97 | a key returned by put is popped successfully at most once afterwards, as long as the key is not issued again |

## Left out

- The worker pool and the main-looper `Handler` (FastHugeStorage.java:26, 30): `onMoveToDisk` and `clear` are modelled as running to completion at once, and no operation interleaves with another. Not modelled therefore: the moment during an eviction when the id is in neither tier; a handoff queued before `clear` or `init` whose `onlyPut` runs afterwards and registers the evicted ticket in the emptied or the new disk tier; and `clear` returning before either tier is emptied. `Routing.Clear` and `Routing.ClearThenPop` describe the state once the clear task has run, not the state when `clear` returns.
- The listener overload `popTicket(String, OnPopCompleteListener)` (FastHugeStorage.java:99-112): it runs the synchronous pop on a worker thread and posts the result; its effect is `PopTicket`'s.
- The singleton `getInstance`: the model builds the object directly.
- `init`'s configuration values (memory size, directory, disk size) are not modelled. The memory tier's constructor is taken never to throw, and the disk tier's may throw (`diskOk`).
- `UUIDHexGenerator` is not part of this model: a supplied key that no tier holds stands for it.
- `FastLruCacheAssistant` and `DiskCacheHelper` are not part of this model: LRU order, byte-size accounting, files and serialization are left out. Each tier is an index from id to ticket, and the byte array handed to `onMoveToDisk` is not modelled.
- `getMemCacheUsage` and `getDiskCacheUsage`: one reads an unmodelled statistics object, the other is a stub returning 0.
- Tickets are values, not shared objects. In the source `setUuid` and `setStatus` also change the caller's object; for instance a `put` that returns null still leaves the new id on the caller's ticket. That aliasing is not modelled.
- Trace.Run stops at the first step whose needs are not met (a `put` whose tier field is null, which throws to the caller, or whose key is still live), instead of modelling the exception.
- Routing.MoveToDisk: a WAS_LOST entry in the disk index still carries the ticket's payload, because the disk tier's files are not modelled; what `DiskCacheHelper.pop` returns for an entry whose bytes were never written is not part of this model. The payload promises of `Trace.StepKeepsTicket`, `Trace.RunKeepsTicket` and `Trace.PutThenRunThenPop` are therefore stated only for runs with no failed write of the key.
- `SerializableActivity` is demo UI code with nothing to model.
