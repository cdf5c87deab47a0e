/**
 * The cache facade itself (FastHugeStorage.java) as a class whose two tier
 * fields the methods update in place. `put` and `popTicket` run under the
 * facade's lock; `init` runs on the caller's thread and the `onMoveToDisk` and
 * `clear` tasks on worker threads, none of them locked. The model runs each
 * operation to completion, one at a time. Each method is proved to move the
 * fields exactly as the corresponding function of `Routing` says.
 */
module Storage {
  import opened Wrappers
  import opened TicketStatus
  import opened Routing

  class FastHugeStorage {
    var memory: Option<Tier>   // fastLruCacheAssistant
    var disk: Option<Tier>     // diskCacheHelper

    /** The tier fields as a value. */
    function State(): Tiers
      reads this
    {
      Tiers(memory, disk)
    }

    /** The private constructor: both tier fields are still null. */
    constructor ()
      ensures State() == Tiers(None, None)
    {
      memory := None;
      disk := None;
    }

    /** `init`: build fresh tiers; `diskOk` false is the disk tier's constructor throwing. */
    method Init(diskOk: bool)
      modifies this
      ensures State() == Routing.Init(old(State()), diskOk)
    {
      memory := Some(map[]);
      if diskOk {
        disk := Some(map[]);
      }
    }

    /**
     * `put`: `key` is what the id generator hands out; `memAccepts` and
     * `diskAccepts` are what the two tiers' `put` return.
     */
    method Put(ticket: Ticket, key: Id, memAccepts: bool, diskAccepts: bool) returns (r: Option<Id>)
      requires memory.Some? && (memAccepts || disk.Some?)
      requires !Live(State(), key)
      modifies this
      ensures PutResult(State(), r) == Routing.Put(old(State()), ticket, key, memAccepts, diskAccepts)
    {
      var stamped := ticket.(id := key);
      if memAccepts {
        memory := Some(memory.value[stamped.id := stamped]);
        return Some(stamped.id);
      }
      if diskAccepts {
        disk := Some(disk.value[stamped.id := stamped]);
        return Some(stamped.id);
      }
      return None;
    }

    /** `popTicket(String)`: memory first, then disk; `None` when neither holds the id. */
    method PopTicket(id: Id) returns (result: Option<Ticket>)
      modifies this
      ensures PopResult(State(), result) == Routing.Pop(old(State()), id)
    {
      result := None;
      if memory.Some? && id in memory.value {
        result := Some(memory.value[id]);
        memory := Some(memory.value - {id});
        return;
      }
      if disk.Some? && id in disk.value {
        result := Some(disk.value[id]);
        disk := Some(disk.value - {id});
        return;
      }
    }

    /** `onMoveToDisk`: `outcome` is how the disk tier's `save` ended. */
    method OnMoveToDisk(value: Option<Ticket>, outcome: SaveOutcome)
      modifies this
      ensures State() == Routing.MoveToDisk(old(State()), value, outcome)
    {
      if value.None? {
        return;
      }
      if disk.None? {
        return;  // the worker task throws at `diskCacheHelper.save`
      }
      var t := value.value;
      var status: Status;
      match outcome {
        case Saved => status := OnDisk;
        case NotSaved => status := WasLost;
        case SaveThrew => status := WasLost;
      }
      t := t.(status := status);
      disk := Some(disk.value[t.id := t]);
    }

    /** `clear`: empty the memory tier, then the disk tier; the worker task stops at a null field. */
    method Clear()
      modifies this
      ensures State() == Routing.Clear(old(State()))
    {
      if memory.None? {
        return;
      }
      memory := Some(map[]);
      if disk.None? {
        return;
      }
      disk := Some(map[]);
    }
  }
}
