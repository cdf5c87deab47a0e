/**
 * The two-tier routing of the cache facade (FastHugeStorage.java) on values.
 *
 * The facade owns a memory tier and a disk tier. Either field may still be
 * null (before `init`, or when building the disk tier threw), which is `None`
 * here. Each tier is abstracted to a map from ticket id to ticket: the memory
 * tier's LRU bookkeeping and the disk tier's files are not part of this model.
 * Whether a tier accepts a ticket, and how a disk write ends, are parameters.
 */
module Routing {
  import opened Wrappers
  import opened TicketStatus

  type Id = string

  /** The ticket's payload in serialized form; the facade never looks inside it. */
  type Payload = seq<bv8>

  datatype Ticket = Ticket(id: Id, status: Status, payload: Payload)

  /** One tier: its index from id to ticket. */
  type Tier = map<Id, Ticket>

  /** The facade's two tier fields; `None` is a null field. */
  datatype Tiers = Tiers(mem: Option<Tier>, disk: Option<Tier>)

  /** How `DiskCacheHelper.save` ends: it returns true, returns false, or throws IOException. */
  datatype SaveOutcome = Saved | NotSaved | SaveThrew

  datatype PutResult = PutResult(state: Tiers, key: Option<Id>)

  datatype PopResult = PopResult(state: Tiers, ticket: Option<Ticket>)

  predicate InMemory(s: Tiers, id: Id) {
    s.mem.Some? && id in s.mem.value
  }

  predicate OnDiskIndex(s: Tiers, id: Id) {
    s.disk.Some? && id in s.disk.value
  }

  /** The id is held by one of the tiers, so a pop of it would succeed. */
  predicate Live(s: Tiers, id: Id) {
    InMemory(s, id) || OnDiskIndex(s, id)
  }

  predicate Initialized(s: Tiers) {
    s.mem.Some? && s.disk.Some?
  }

  /** Every ticket is filed under its own id. */
  predicate KeyedById(t: Tier) {
    forall k :: k in t ==> t[k].id == k
  }

  /**
   * The invariant the facade keeps: tickets are filed under their ids and no
   * id is held by both tiers at once.
   */
  predicate Wellformed(s: Tiers) {
    && (s.mem.Some? ==> KeyedById(s.mem.value))
    && (s.disk.Some? ==> KeyedById(s.disk.value))
    && (Initialized(s) ==> s.mem.value.Keys !! s.disk.value.Keys)
  }

  /** The status `onMoveToDisk` gives a ticket after the disk write ends with `outcome`. */
  function StatusAfterSave(outcome: SaveOutcome): (st: Status)
    ensures st == OnDisk || st == WasLost
    ensures st == OnDisk <==> outcome == Saved
  {
    if outcome == Saved then OnDisk else WasLost
  }

  /**
   * `init`: a fresh, empty memory tier; a fresh, empty disk tier unless building
   * it threw (`diskOk` false), in which case the old disk field is kept.
   */
  function Init(s: Tiers, diskOk: bool): (s': Tiers)
    ensures s'.mem.Some? && forall id :: !InMemory(s', id)
    ensures diskOk ==> Initialized(s') && forall id :: !Live(s', id)
    ensures !diskOk ==> s'.disk == s.disk
    ensures Wellformed(s) ==> Wellformed(s')
  {
    Tiers(Some(map[]), if diskOk then Some(map[]) else s.disk)
  }

  /**
   * `put`: stamp `key` on the ticket, offer it to the memory tier, and fall back
   * to the disk tier only if memory refuses. The key comes from the id
   * generator, which never hands out an id that is live.
   */
  function Put(s: Tiers, t: Ticket, key: Id, memAccepts: bool, diskAccepts: bool): (r: PutResult)
    requires s.mem.Some? && (memAccepts || s.disk.Some?)
    requires !Live(s, key)
    ensures r.key.Some? <==> memAccepts || diskAccepts
    ensures r.key.Some? ==> r.key.value == key
    ensures memAccepts ==>
      r.state.mem == Some(s.mem.value[key := t.(id := key)]) && r.state.disk == s.disk
    ensures !memAccepts && diskAccepts ==>
      r.state.disk == Some(s.disk.value[key := t.(id := key)]) && r.state.mem == s.mem
    ensures r.key.None? ==> r.state == s && !Live(r.state, key)
    ensures forall id :: id != key ==>
      (InMemory(r.state, id) <==> InMemory(s, id)) && (OnDiskIndex(r.state, id) <==> OnDiskIndex(s, id))
    ensures Wellformed(s) ==> Wellformed(r.state)
  {
    var stamped := t.(id := key);
    if memAccepts then
      PutResult(s.(mem := Some(s.mem.value[key := stamped])), Some(key))
    else if diskAccepts then
      PutResult(s.(disk := Some(s.disk.value[key := stamped])), Some(key))
    else
      PutResult(s, None)
  }

  /**
   * `popTicket`: a destructive read. The memory tier is asked first, the disk
   * tier second; a null tier is skipped.
   */
  function Pop(s: Tiers, id: Id): (r: PopResult)
    ensures r.ticket.Some? <==> Live(s, id)
    ensures InMemory(s, id) ==>
      && r.ticket == Some(s.mem.value[id])
      && r.state.mem == Some(s.mem.value - {id})
      && r.state.disk == s.disk
    ensures !InMemory(s, id) && OnDiskIndex(s, id) ==>
      && r.ticket == Some(s.disk.value[id])
      && r.state.disk == Some(s.disk.value - {id})
      && r.state.mem == s.mem
    ensures !Live(s, id) ==> r.state == s
    ensures Wellformed(s) ==> Wellformed(r.state) && !Live(r.state, id)
  {
    if InMemory(s, id) then
      PopResult(s.(mem := Some(s.mem.value - {id})), Some(s.mem.value[id]))
    else if OnDiskIndex(s, id) then
      PopResult(s.(disk := Some(s.disk.value - {id})), Some(s.disk.value[id]))
    else
      PopResult(s, None)
  }

  /**
   * `onMoveToDisk`: the handoff of a ticket the memory tier evicted. Nothing
   * happens for a null ticket; otherwise the status follows the disk write and
   * the ticket is registered in the disk index (`onlyPut`) whatever the write did.
   * With a null disk field the worker task dies on its first dereference, before
   * any status is set, so nothing changes then either.
   */
  function MoveToDisk(s: Tiers, value: Option<Ticket>, outcome: SaveOutcome): (s': Tiers)
    ensures value.None? || s.disk.None? ==> s' == s
    ensures value.Some? && s.disk.Some? ==>
      && OnDiskIndex(s', value.value.id)
      && s'.disk.value[value.value.id] == value.value.(status := StatusAfterSave(outcome))
    ensures s'.mem == s.mem
    ensures value.Some? ==> forall id :: id != value.value.id ==>
      (OnDiskIndex(s', id) <==> OnDiskIndex(s, id)) && (OnDiskIndex(s, id) ==> s'.disk.value[id] == s.disk.value[id])
  {
    match value
    case None => s
    case Some(t) =>
      if s.disk.None? then s
      else
        var updated := t.(status := StatusAfterSave(outcome));
        s.(disk := Some(s.disk.value[t.id := updated]))
  }

  /**
   * The eviction path as a whole: the memory tier drops the entry and then
   * hands it to `onMoveToDisk`. With a null disk field the ticket is lost.
   */
  function Evict(s: Tiers, id: Id, outcome: SaveOutcome): (s': Tiers)
    requires InMemory(s, id)
    ensures !InMemory(s', id)
    ensures s'.mem == Some(s.mem.value - {id})
    ensures s.disk.None? ==> s'.disk.None? && !Live(s', id)
    ensures s.disk.Some? ==> var t := s.mem.value[id];
      s'.disk == Some(s.disk.value[t.id := t.(status := StatusAfterSave(outcome))])
    ensures Wellformed(s) ==> Wellformed(s')
    ensures Wellformed(s) && s.disk.Some? ==>
      OnDiskIndex(s', id) && s'.disk.value[id] == s.mem.value[id].(status := StatusAfterSave(outcome))
    ensures Wellformed(s) ==> forall k :: k != id && OnDiskIndex(s, k) ==>
      OnDiskIndex(s', k) && s'.disk.value[k] == s.disk.value[k]
  {
    MoveToDisk(s.(mem := Some(s.mem.value - {id})), Some(s.mem.value[id]), outcome)
  }

  /**
   * `clear`: the memory tier is emptied, then the disk tier. The worker task
   * dies at the first null field it dereferences: with a null memory field
   * nothing changes, with a null disk field only memory is emptied.
   */
  function Clear(s: Tiers): (s': Tiers)
    ensures s.mem.None? ==> s' == s
    ensures s.mem.Some? ==> s'.mem.Some? && s'.disk.Some? == s.disk.Some? && forall id :: !Live(s', id)
  {
    if s.mem.None? then s
    else Tiers(Some(map[]), if s.disk.Some? then Some(map[]) else None)
  }

  /** A successful `put` followed by a pop of its key returns the stamped ticket and restores the tiers. */
  lemma PutThenPop(s: Tiers, t: Ticket, key: Id, memAccepts: bool, diskAccepts: bool)
    requires s.mem.Some? && (memAccepts || s.disk.Some?)
    requires !Live(s, key)
    requires memAccepts || diskAccepts
    ensures Pop(Put(s, t, key, memAccepts, diskAccepts).state, key) == PopResult(s, Some(t.(id := key)))
  {
    var s1 := Put(s, t, key, memAccepts, diskAccepts).state;
    if memAccepts {
      assert s1.mem.value - {key} == s.mem.value;
    } else {
      assert s1.disk.value - {key} == s.disk.value;
    }
  }

  /** Pop is destructive: a second pop of the same id finds nothing. */
  lemma PopTwice(s: Tiers, id: Id)
    requires Wellformed(s)
    ensures Pop(Pop(s, id).state, id).ticket == None
  {
  }

  /**
   * Why the handoff must only follow an eviction: handing over a ticket the
   * memory tier still holds leaves its id in both tiers, and two pops of it
   * then both return a ticket.
   */
  lemma HandoffOfHeldTicketPopsTwice(t: Ticket, outcome: SaveOutcome)
    ensures var s := MoveToDisk(Tiers(Some(map[t.id := t]), Some(map[])), Some(t), outcome);
      Pop(s, t.id).ticket == Some(t) && Pop(Pop(s, t.id).state, t.id).ticket.Some?
  {
  }

  /** After the handoff the ticket can be popped from disk, carrying its new status. */
  lemma MoveToDiskThenPop(s: Tiers, t: Ticket, outcome: SaveOutcome)
    requires s.disk.Some?
    requires !InMemory(s, t.id)
    ensures Pop(MoveToDisk(s, Some(t), outcome), t.id).ticket == Some(t.(status := StatusAfterSave(outcome)))
  {
  }

  /** After `clear` no pop finds anything. */
  lemma ClearThenPop(s: Tiers, id: Id)
    requires s.mem.Some?
    ensures Pop(Clear(s), id) == PopResult(Clear(s), None)
  {
  }
}
