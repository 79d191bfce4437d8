/** The counting semaphore on the heap. */
module Sems {
  import opened Base
  import opened WaitQueue
  import opened Tasks
  import SemSpec

  class Sem {
    var count: uint32
    const maxCount: uint32
    const waiters: WaitList

    ghost predicate Valid()
      reads this, waiters, waiters.members`waitNext
    {
      waiters.Valid() && count <= maxCount
    }

    ghost function View(table: seq<Task>): SemSpec.View
      reads this, waiters, table
    {
      SemSpec.View(Snap(table), SemSpec.SemVal(count, maxCount), Ids(waiters.nodes))
    }

    /** `rtos_sem_init` with counts it accepts. */
    constructor (initial: uint32, maxCount: uint32)
      requires maxCount != 0 && initial <= maxCount
      ensures Valid() && fresh(waiters) && count == initial && this.maxCount == maxCount && waiters.members == {}
    {
      count := initial;
      this.maxCount := maxCount;
      waiters := new WaitList();
    }

    /** First region of `rtos_sem_wait_timeout`. */
    method TryWait(current: Task, timeout: uint32, ghost table: seq<Task>) returns (o: Outcome)
      requires Valid() && OfTable(waiters.nodes, table) && Listed(current, table) && current !in waiters.members
      modifies this, waiters, current, waiters.members`waitNext
      ensures Valid() && OfTable(waiters.nodes, table)
      ensures (View(table), o) == SemSpec.Wait(old(View(table)), current.id, timeout)
    {
      if count > 0 {
        count := count - 1;
        SameBlocks(table);
        o := Returns(Ok);
      } else if timeout == 0 {
        o := Returns(Timeout);
      } else {
        waiters.Join(current, Park(current.block, WaitSem, timeout), table);
        o := Parks;
      }
    }

    /** Second region. */
    method EndWait(current: Task, ghost table: seq<Task>) returns (status: Status)
      requires Valid() && OfTable(waiters.nodes, table) && Listed(current, table)
      modifies waiters, waiters.members`waitNext, current`block
      ensures Valid() && OfTable(waiters.nodes, table)
      ensures (Snap(table), Ids(waiters.nodes), status) == SemSpec.Resume(old(Snap(table)), old(Ids(waiters.nodes)), current.id)
    {
      if current.block.result == Timeout {
        waiters.Leave(current, table);
        status := Timeout;
      } else {
        status := Status.Ok;
      }
    }

    /** `post_common`. */
    method Post(ghost table: seq<Task>) returns (status: Status)
      requires Valid() && OfTable(waiters.nodes, table)
      modifies this, waiters, waiters.members
      ensures Valid() && OfTable(waiters.nodes, table)
      ensures (View(table), status) == SemSpec.Post(old(View(table)))
    {
      var woken := waiters.Wake(table);
      status := Status.Ok;
      if !woken {
        if count < maxCount {
          count := count + 1;
          SameBlocks(table);
        } else {
          status := Invalid;
        }
      }
    }
  }
}
