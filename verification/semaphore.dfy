/** The System V semaphore that guards the metadata file. */
module SemaphoreLock {
  import opened Bytes

  class Semaphore {
    var value: int
    var undo: map<nat, int>      // what SEM_UNDO will add back when a process ends
    ghost var holder: Option<nat>

    // The value and the adjustments always tell the same story: free, or one holder.
    ghost predicate Valid()
      reads this
    {
      && value == (if holder.None? then 1 else 0)
      && (holder.Some? ==> holder.value in undo)
      && forall p :: p in undo ==> undo[p] == if holder == Some(p) then 1 else 0
    }

    // semget and set_semvalue.
    constructor ()
      ensures Valid() && holder == None
    {
      value, undo := 1, map[];
      holder := None;
    }

    // semaphore_get_lock. False stands for a caller that semop puts to sleep.
    method GetLock(p: nat) returns (entered: bool)
      requires Valid()
      modifies this
      ensures Valid()
      ensures entered <==> old(holder) == None
      ensures holder == if entered then Some(p) else old(holder)
    {
      if value == 0 {
        return false;
      }
      value := value - 1;
      undo := undo[p := (if p in undo then undo[p] else 0) + 1];
      holder := Some(p);
      entered := true;
    }

    // semaphore_release_lock; only the process that has the lock calls it.
    method ReleaseLock(p: nat)
      requires Valid() && holder == Some(p)
      modifies this
      ensures Valid() && holder == None
    {
      value := value + 1;
      undo := undo[p := undo[p] - 1];
      holder := None;
    }

    // The end of a process, however it comes: the kernel adds its adjustment back.
    method ProcessEnds(p: nat)
      requires Valid()
      modifies this
      ensures Valid()
      ensures holder == if old(holder) == Some(p) then None else old(holder)
    {
      if p in undo {
        value := value + undo[p];
        undo := undo - {p};
      }
      holder := if holder == Some(p) then None else holder;
    }
  }
}
