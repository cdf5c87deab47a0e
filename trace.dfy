/**
 * Runs of the facade: any sequence of `init`, `put`, `popTicket`, evictions
 * and `clear`, each run to completion before the next starts. The property
 * proved here is that a key is popped successfully at most once, however the
 * tiers answer and however the disk writes end, as long as the id generator
 * does not hand the key out again. It also proves the other half of the round
 * trip: while a disk tier exists, a key stays poppable through any steps that
 * do not pop, clear or re-initialize it, with its payload unless an eviction
 * of it failed to write.
 */
module Trace {
  import opened Routing

  datatype Step =
    | InitStep(diskOk: bool)
    | PutStep(ticket: Ticket, key: Id, memAccepts: bool, diskAccepts: bool)
    | PopStep(id: Id)
    | EvictStep(id: Id, outcome: SaveOutcome)
    | ClearStep

  /**
   * What a step needs: `put` needs the tier fields it dereferences on the
   * caller's thread and a fresh key; an eviction needs the memory tier to hold
   * the id.
   */
  predicate Enabled(s: Tiers, step: Step) {
    match step
    case InitStep(_) => true
    case PutStep(_, key, memAccepts, _) => s.mem.Some? && (memAccepts || s.disk.Some?) && !Live(s, key)
    case PopStep(_) => true
    case EvictStep(id, _) => InMemory(s, id)
    case ClearStep => true
  }

  function Apply(s: Tiers, step: Step): Tiers
    requires Enabled(s, step)
  {
    match step
    case InitStep(diskOk) => Init(s, diskOk)
    case PutStep(t, key, memAccepts, diskAccepts) => Put(s, t, key, memAccepts, diskAccepts).state
    case PopStep(id) => Pop(s, id).state
    case EvictStep(id, outcome) => Evict(s, id, outcome)
    case ClearStep => Clear(s)
  }

  /** The state after the steps; a run stops at the first step whose needs are not met (a `put` that would throw). */
  function Run(s: Tiers, steps: seq<Step>): Tiers
    decreases |steps|
  {
    if steps == [] || !Enabled(s, steps[0]) then s
    else Run(Apply(s, steps[0]), steps[1..])
  }

  /** How many pops of `id` along the run return a ticket. */
  function PopsOf(s: Tiers, steps: seq<Step>, id: Id): nat
    decreases |steps|
  {
    if steps == [] || !Enabled(s, steps[0]) then 0
    else
      var hit := if steps[0] == PopStep(id) && Pop(s, id).ticket.Some? then 1 else 0;
      hit + PopsOf(Apply(s, steps[0]), steps[1..], id)
  }

  /** How many tiers hold `id`. */
  function LiveCount(s: Tiers, id: Id): nat {
    (if InMemory(s, id) then 1 else 0) + (if OnDiskIndex(s, id) then 1 else 0)
  }

  /** In a well-formed state at most one tier holds an id. */
  lemma HeldAtMostOnce(s: Tiers, id: Id)
    requires Wellformed(s)
    ensures LiveCount(s, id) <= 1
  {
  }

  /** No `put` in the steps is stamped with `id`. */
  predicate NeverIssued(steps: seq<Step>, id: Id) {
    forall i :: 0 <= i < |steps| && steps[i].PutStep? ==> steps[i].key != id
  }

  /** One step keeps the invariant, and never raises the number of tiers holding `id` unless it puts `id`. */
  lemma StepKeepsCount(s: Tiers, step: Step, id: Id)
    requires Wellformed(s) && Enabled(s, step)
    requires step.PutStep? ==> step.key != id
    ensures Wellformed(Apply(s, step))
    ensures (if step == PopStep(id) && Pop(s, id).ticket.Some? then 1 else 0) + LiveCount(Apply(s, step), id)
      <= LiveCount(s, id)
  {
  }

  /** Along a run, successful pops of `id` plus the tiers still holding it never exceed the tiers holding it at the start. */
  lemma {:induction false} PopsBounded(s: Tiers, steps: seq<Step>, id: Id)
    requires Wellformed(s)
    requires NeverIssued(steps, id)
    ensures Wellformed(Run(s, steps))
    ensures PopsOf(s, steps, id) + LiveCount(Run(s, steps), id) <= LiveCount(s, id)
    decreases |steps|
  {
    if steps == [] || !Enabled(s, steps[0]) {
      return;
    }
    StepKeepsCount(s, steps[0], id);
    assert NeverIssued(steps[1..], id) by {
      forall i | 0 <= i < |steps[1..]| && steps[1..][i].PutStep?
        ensures steps[1..][i].key != id
      {
        assert steps[1..][i] == steps[i + 1];
      }
    }
    PopsBounded(Apply(s, steps[0]), steps[1..], id);
  }

  /** At most one pop of a key ever returns a ticket. */
  lemma AtMostOnce(s: Tiers, steps: seq<Step>, id: Id)
    requires Wellformed(s)
    requires NeverIssued(steps, id)
    ensures PopsOf(s, steps, id) <= 1
  {
    PopsBounded(s, steps, id);
    HeldAtMostOnce(s, id);
  }

  /** The step can neither remove `key` nor replace its ticket: not a pop of it, `clear`, `init`, or a put of it. */
  predicate KeepsKey(step: Step, key: Id) {
    && step != PopStep(key)
    && !step.ClearStep?
    && !step.InitStep?
    && (step.PutStep? ==> step.key != key)
  }

  /** The step is not an eviction of `key` whose disk write failed. */
  predicate SavedIfEvicted(step: Step, key: Id) {
    step.EvictStep? && step.id == key ==> step.outcome == Saved
  }

  /**
   * With a disk tier present, a step that keeps `key` leaves it poppable with
   * the same id. An eviction of it sets the handoff status; the payload stays
   * the one put unless that eviction's disk write failed.
   */
  lemma StepKeepsTicket(s: Tiers, step: Step, key: Id)
    requires Wellformed(s) && Enabled(s, step) && KeepsKey(step, key)
    requires Live(s, key) && s.disk.Some?
    ensures Apply(s, step).disk.Some? && Live(Apply(s, step), key)
    ensures Pop(Apply(s, step), key).ticket.value.id == Pop(s, key).ticket.value.id
    ensures step.EvictStep? && step.id == key ==>
      Pop(Apply(s, step), key).ticket.value.status == StatusAfterSave(step.outcome)
    ensures SavedIfEvicted(step, key) ==>
      Pop(Apply(s, step), key).ticket.value.payload == Pop(s, key).ticket.value.payload
  {
  }

  /** Along a run of steps that keep `key`, it stays poppable with the same id, and with the same payload if no eviction of it failed. */
  lemma {:induction false} RunKeepsTicket(s: Tiers, steps: seq<Step>, key: Id)
    requires Wellformed(s) && Live(s, key) && s.disk.Some?
    requires forall i :: 0 <= i < |steps| ==> KeepsKey(steps[i], key)
    ensures Wellformed(Run(s, steps)) && Run(s, steps).disk.Some? && Live(Run(s, steps), key)
    ensures Pop(Run(s, steps), key).ticket.value.id == Pop(s, key).ticket.value.id
    ensures (forall i :: 0 <= i < |steps| ==> SavedIfEvicted(steps[i], key)) ==>
      Pop(Run(s, steps), key).ticket.value.payload == Pop(s, key).ticket.value.payload
    decreases |steps|
  {
    if steps == [] || !Enabled(s, steps[0]) {
      return;
    }
    StepKeepsTicket(s, steps[0], key);
    assert forall i :: 0 <= i < |steps[1..]| ==> steps[1..][i] == steps[i + 1];
    RunKeepsTicket(Apply(s, steps[0]), steps[1..], key);
  }

  /** With a null disk field, an eviction loses the ticket: no later pop finds it. */
  lemma EvictWithoutDiskLoses(s: Tiers, key: Id, outcome: SaveOutcome)
    requires Wellformed(s) && InMemory(s, key) && s.disk.None?
    ensures !Live(Apply(s, EvictStep(key, outcome)), key)
  {
  }

  /**
   * The round trip across a run: with a disk tier present, after a successful
   * `put`, other puts, pops of other keys and evictions (of this key too) leave
   * a later pop of the key returning a ticket with that key, carrying the
   * payload put unless an eviction of it failed to write.
   */
  lemma PutThenRunThenPop(s: Tiers, t: Ticket, key: Id, memAccepts: bool, diskAccepts: bool, steps: seq<Step>)
    requires Wellformed(s)
    requires s.mem.Some? && (memAccepts || s.disk.Some?) && !Live(s, key)
    requires memAccepts || diskAccepts
    requires forall i :: 0 <= i < |steps| ==> KeepsKey(steps[i], key)
    ensures var found := Pop(Run(Put(s, t, key, memAccepts, diskAccepts).state, steps), key).ticket;
      s.disk.Some? ==> found.Some? && found.value.id == key
    ensures var found := Pop(Run(Put(s, t, key, memAccepts, diskAccepts).state, steps), key).ticket;
      s.disk.Some? && (forall i :: 0 <= i < |steps| ==> SavedIfEvicted(steps[i], key)) ==>
        found.value.payload == t.payload
  {
    var s1 := Put(s, t, key, memAccepts, diskAccepts).state;
    PutThenPop(s, t, key, memAccepts, diskAccepts);
    if s.disk.Some? {
      RunKeepsTicket(s1, steps, key);
    }
  }

  /** A key that `put` returned is popped successfully at most once in whatever follows. */
  lemma PutKeyPoppedAtMostOnce(s: Tiers, t: Ticket, key: Id, memAccepts: bool, diskAccepts: bool, steps: seq<Step>)
    requires Wellformed(s)
    requires s.mem.Some? && (memAccepts || s.disk.Some?) && !Live(s, key)
    requires NeverIssued(steps, key)
    ensures PopsOf(Put(s, t, key, memAccepts, diskAccepts).state, steps, key) <= 1
  {
    AtMostOnce(Put(s, t, key, memAccepts, diskAccepts).state, steps, key);
  }
}
