/** The recursive mutex with priority inheritance on the heap. */
module Mutexes {
  import opened Base
  import opened WaitQueue
  import opened Tasks
  import MutexSpec

  class Mutex {
    var owner: Task?
    var lockCount: uint32
    const waiters: WaitList

    ghost predicate Valid(table: seq<Task>)
      reads this, waiters, waiters.members`waitNext
    {
      waiters.Valid() && OfTable(waiters.nodes, table) && (owner != null ==> Listed(owner, table))
    }

    ghost function View(table: seq<Task>): MutexSpec.View
      reads this, waiters, table
    {
      MutexSpec.View(Snap(table), MutexSpec.MutexVal(IdOf(owner), lockCount), Ids(waiters.nodes))
    }

    /** `rtos_mutex_init`. */
    constructor (ghost table: seq<Task>)
      requires IsTable(table)
      ensures Valid(table) && fresh(waiters) && owner == null && lockCount == 0 && waiters.members == {}
    {
      owner := null;
      lockCount := 0;
      waiters := new WaitList();
    }

    /** The owner inherits the priority of the task about to block, if that is higher. */
    method Boost(current: Task, ghost table: seq<Task>)
      requires Valid(table) && owner != null && Listed(current, table)
      modifies owner`block
      ensures Valid(table)
      ensures Snap(table) == Put(old(Snap(table)), owner.id,
                old(owner.block).(priority := MutexSpec.Max(old(current.block.priority), old(owner.block.priority))))
    {
      ghost var ts := Snap(table);
      if current.block.priority > owner.block.priority {
        owner.block := owner.block.(priority := current.block.priority);
      }
      Wrote(table, ts, owner.id);
    }

    /** First region of `rtos_mutex_lock_timeout`. */
    method TryLock(current: Task, timeout: uint32, ghost table: seq<Task>) returns (o: Outcome)
      requires Valid(table) && Listed(current, table) && current !in waiters.members
      modifies this, (if owner == null then {} else {owner})`block, waiters, current, waiters.members`waitNext
      ensures Valid(table)
      ensures (View(table), o) == MutexSpec.Lock(old(View(table)), current.id, timeout)
    {
      if owner == null {
        owner := current;
        lockCount := 1;
        SameBlocks(table);
        o := Returns(Ok);
      } else if owner == current {
        lockCount := (lockCount + 1) % 0x1_0000_0000;
        SameBlocks(table);
        o := Returns(Ok);
      } else if timeout == 0 {
        o := Returns(Timeout);
      } else {
        Boost(current, table);
        waiters.Join(current, Park(current.block, WaitType.WaitMutex, timeout), table);
        o := Parks;
      }
    }

    /** The scan of `recompute_owner_priority`. */
    method HighestWaiter(floor: uint32, ghost table: seq<Task>) returns (priority: uint32)
      requires Valid(table)
      ensures priority == MutexSpec.TopPriority(Snap(table), Ids(waiters.nodes), floor)
    {
      ghost var k, ts, l := 0, Snap(table), Ids(waiters.nodes);
      priority := floor;
      var scan := waiters.head;
      assert l[0..] == l;
      while scan != null
        invariant k <= |l| && scan == At(waiters.nodes, k)
        invariant MutexSpec.TopPriority(ts, l[k..], priority) == MutexSpec.TopPriority(ts, l, floor)
        decreases |l| - k
      {
        LinkedBlocks(table, waiters.nodes);
        assert l[k..][1..] == l[k + 1..];
        if IsValidWaiter(scan.block) && scan.block.priority > priority {
          priority := scan.block.priority;
        }
        scan := scan.waitNext;
        k := k + 1;
      }
    }

    /** `recompute_owner_priority`. */
    method Recompute(ghost table: seq<Task>)
      requires Valid(table)
      modifies (if owner == null then {} else {owner})`block
      ensures Valid(table)
      ensures Snap(table) == MutexSpec.Recompute(old(Snap(table)), MutexSpec.MutexVal(IdOf(owner), lockCount), Ids(waiters.nodes))
    {
      if owner != null {
        ghost var ts := Snap(table);
        var priority := HighestWaiter(owner.block.basePriority, table);
        owner.block := owner.block.(priority := priority);
        Wrote(table, ts, owner.id);
      }
    }

    /** Second region: a timed-out waiter leaves, and the owner is lowered again. */
    method EndLock(current: Task, ghost table: seq<Task>) returns (o: Outcome)
      requires Valid(table) && Listed(current, table)
      modifies waiters, waiters.members`waitNext, current`block, (if owner == null then {} else {owner})`block
      ensures Valid(table)
      ensures (View(table), o) == MutexSpec.Resume(old(View(table)), current.id)
    {
      if current.block.result == Timeout {
        waiters.Leave(current, table);
        Recompute(table);
        o := Returns(Timeout);
      } else {
        o := Retries;
      }
    }

    /** `rtos_mutex_unlock`. */
    method Unlock(current: Task, ghost table: seq<Task>) returns (status: Status)
      requires Valid(table) && Listed(current, table)
      modifies this, current`block, waiters, waiters.members
      ensures Valid(table)
      ensures (View(table), status) == MutexSpec.Unlock(old(View(table)), current.id)
    {
      if owner != current || lockCount == 0 {
        return Invalid;
      }
      status := Status.Ok;
      lockCount := lockCount - 1;
      if lockCount != 0 {
        SameBlocks(table);
      } else {
        var woken: bool;
        ghost var ts;
        woken, ts := Release(table);
      }
    }

    /** The last unlock: the owner falls back to its base priority and a waiter is released. */
    method Release(ghost table: seq<Task>) returns (woken: bool, ghost ts: seq<Tcb>)
      requires Valid(table) && owner != null
      modifies this`owner, owner`block, waiters, waiters.members
      ensures Valid(table) && owner == null
      ensures ts == Put(old(Snap(table)), old(owner.id), old(owner.block).(priority := old(owner.block.basePriority)))
      ensures Snap(table) == WakeFirst(ts, old(Ids(waiters.nodes))) && Ids(waiters.nodes) == PopRest(ts, old(Ids(waiters.nodes)))
    {
      Lower(table);
      ts := Snap(table);
      owner := null;
      woken := waiters.Wake(table);
    }

    method Lower(ghost table: seq<Task>)
      requires Valid(table) && owner != null
      modifies owner`block
      ensures Valid(table)
      ensures Snap(table) == Put(old(Snap(table)), owner.id, old(owner.block).(priority := old(owner.block.basePriority)))
    {
      ghost var ts := Snap(table);
      owner.block := owner.block.(priority := owner.block.basePriority);
      Wrote(table, ts, owner.id);
    }
  }
}
