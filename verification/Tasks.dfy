/** Task control blocks on the heap, and the wait list threaded through them. */
module Tasks {
  import opened Base
  import opened WaitQueue

  /** A control block with its two links. `id` is its index in the static task table. */
  class Task {
    const id: Tid
    var block: Tcb
    var waitNext: Task?
    var next: Task?

    constructor (id: Tid, block: Tcb)
      ensures this.id == id && this.block == block && waitNext == null && next == null
    {
      this.id := id;
      this.block := block;
      waitNext := null;
      next := null;
    }
  }

  ghost predicate IsTable(table: seq<Task>) {
    forall i :: 0 <= i < |table| ==> table[i].id == i
  }

  /** The values of the control blocks of the table. */
  ghost function Snap(table: seq<Task>): (r: seq<Tcb>)
    reads table
    ensures |r| == |table| && forall i :: 0 <= i < |table| ==> r[i] == table[i].block
  {
    seq(|table|, i requires 0 <= i < |table| reads table => table[i].block)
  }

  /** `wait_pop` clears the wait type of the task it returns. */
  function NotWaiting(c: Tcb): Tcb {
    c.(waitType := WaitNone)
  }

  /** Links alone were written. */
  twostate lemma SameBlocks(table: seq<Task>)
    requires forall i :: 0 <= i < |table| ==> table[i].block == old(table[i].block)
    ensures Snap(table) == old(Snap(table))
  {
  }

  ghost function Ids(nodes: seq<Task>): (r: seq<Tid>)
    ensures |r| == |nodes| && forall i :: 0 <= i < |nodes| ==> r[i] == nodes[i].id
  {
    seq(|nodes|, i requires 0 <= i < |nodes| => nodes[i].id)
  }

  /** `t` is an entry of the table. */
  ghost predicate Listed(t: Task, table: seq<Task>) {
    t.id < |table| && table[t.id] == t
  }

  ghost predicate OfTable(nodes: seq<Task>, table: seq<Task>) {
    IsTable(table) && forall i :: 0 <= i < |nodes| ==> Listed(nodes[i], table)
  }

  /** The node at a position of a list, null outside it. */
  function At(nodes: seq<Task>, i: int): Task? {
    if 0 <= i < |nodes| then nodes[i] else null
  }

  /** The first valid waiter of the list released with an object. */
  function HandFirst(ts: seq<Tcb>, l: seq<Tid>, item: nat): seq<Tcb> {
    match PopTask(ts, l)
    case None => ts
    case Some(w) => Put(ts, w, Released(Get(ts, w)).(objectResult := item))
  }

  function IdOf(t: Task?): Option<Tid> {
    if t == null then None else Some(t.id)
  }

  /** The set of a sequence's elements. */
  ghost predicate Holds(m: set<Task>, s: seq<Task>) {
    (forall i :: 0 <= i < |s| ==> s[i] in m) && (forall n :: n in m ==> n in s)
  }

  lemma HoldsInserted(m: set<Task>, s: seq<Task>, k: nat, task: Task)
    requires Holds(m, s) && k <= |s|
    ensures Holds(m + {task}, s[..k] + [task] + s[k..])
  {
  }

  lemma HoldsRemoved(m: set<Task>, s: seq<Task>, k: nat)
    requires Holds(m, s) && NoDup(s) && k < |s|
    ensures Holds(m - {s[k]}, s[..k] + s[k + 1..])
  {
  }

  /** `wait_head` and `wait_tail` of one blocking object. */
  class WaitList {
    var head: Task?
    var tail: Task?
    ghost var nodes: seq<Task>
    ghost var members: set<Task>

    /** The chain of `waitNext` links visits `nodes` in order and the tail is the last one. */
    ghost predicate Valid()
      reads this, members`waitNext
    {
      && NoDup(nodes) && head == At(nodes, 0) && tail == At(nodes, |nodes| - 1)
      && Holds(members, nodes)
      && forall i :: 0 <= i < |nodes| ==> nodes[i] in members && nodes[i].waitNext == At(nodes, i + 1)
    }

    constructor ()
      ensures Valid() && nodes == [] && members == {}
    {
      head, tail, nodes, members := null, null, [], {};
    }

    /** The scan of `wait_push`: past every waiter of at least the newcomer's priority. */
    method FindPlace(priority: uint32) returns (prev: Task?, scan: Task?, ghost k: nat)
      requires Valid()
      ensures k <= |nodes| && prev == At(nodes, k - 1) && scan == At(nodes, k)
      ensures forall i :: 0 <= i < k ==> nodes[i].block.priority >= priority
      ensures scan != null ==> scan.block.priority < priority
    {
      prev := null;
      scan := head;
      k := 0;
      while scan != null && scan.block.priority >= priority
        invariant k <= |nodes| && scan == At(nodes, k) && prev == At(nodes, k - 1)
        invariant forall i :: 0 <= i < k ==> nodes[i].block.priority >= priority
        decreases |nodes| - k
      {
        prev := scan;
        scan := scan.waitNext;
        k := k + 1;
      }
    }

    /** The relinking of `wait_push`. */
    method LinkAfter(prev: Task?, scan: Task?, task: Task, ghost k: nat)
      requires Valid() && task !in members && k <= |nodes| && prev == At(nodes, k - 1) && scan == At(nodes, k)
      modifies this, task`waitNext, members`waitNext
      ensures Valid() && nodes == old(nodes)[..k] + [task] + old(nodes)[k..] && members == old(members) + {task}
    {
      ghost var was := nodes;
      HoldsInserted(members, nodes, k, task);
      task.waitNext := scan;
      if prev == null {
        head := task;
        if tail == null {
          tail := task;
        }
      } else {
        prev.waitNext := task;
        if scan == null {
          tail := task;
        }
      }
      nodes := was[..k] + [task] + was[k..];
      members := members + {task};
      Linked(was, k, task);
    }

    lemma Linked(was: seq<Task>, k: nat, task: Task)
      requires k <= |was| && nodes == was[..k] + [task] + was[k..] && NoDup(was) && task !in was
      requires Holds(members, nodes)
      requires head == if k == 0 then task else At(was, 0)
      requires tail == if k == |was| then task else At(was, |was| - 1)
      requires task.waitNext == At(was, k)
      requires forall i :: 0 <= i < |was| && was[i] != At(was, k - 1) ==> was[i].waitNext == At(was, i + 1)
      requires k > 0 ==> was[k - 1].waitNext == task
      ensures Valid()
    {
      InsertMembers(was, k, task);
      assert IsInserted(nodes, was, k, task) by { InsertIndices(was, k, task); }
      InsertedChain(nodes, was, k, task);
    }

    /** `wait_push`. */
    method Push(task: Task, ghost table: seq<Task>)
      requires Valid() && OfTable(nodes, table) && Listed(task, table) && task !in members
      modifies this, task`waitNext, members`waitNext
      ensures Valid() && OfTable(nodes, table) && members == old(members) + {task}
      ensures Ids(nodes) == WaitQueue.Push(Snap(table), old(Ids(nodes)), task.id) && Snap(table) == old(Snap(table))
    {
      var prev, scan, k := FindPlace(task.block.priority);
      InsertedIds(table, nodes[..k] + [task] + nodes[k..], nodes, k, task);
      LinkAfter(prev, scan, task, k);
      SameBlocks(table);
    }

    /** What a blocking call does to the current task: its new block, and its place in the list. */
    method Join(task: Task, block: Tcb, ghost table: seq<Task>)
      requires Valid() && OfTable(nodes, table) && Listed(task, table) && task !in members
      modifies this, task, members`waitNext
      ensures Valid() && OfTable(nodes, table) && members == old(members) + {task}
      ensures Snap(table) == Put(old(Snap(table)), task.id, block)
      ensures Ids(nodes) == WaitQueue.Push(Snap(table), old(Ids(nodes)), task.id)
    {
      ghost var ts := Snap(table);
      task.block := block;
      Wrote(table, ts, task.id);
      Push(task, table);
    }

    /** The search of `wait_remove`; `k` is the length when the task is not linked. */
    method FindTask(task: Task) returns (prev: Task?, scan: Task?, ghost k: nat)
      requires Valid()
      ensures k <= |nodes| && prev == At(nodes, k - 1) && scan == At(nodes, k)
      ensures forall i :: 0 <= i < k ==> nodes[i] != task
      ensures scan == null || scan == task
    {
      prev := null;
      scan := head;
      k := 0;
      while scan != null && scan != task
        invariant k <= |nodes| && scan == At(nodes, k) && prev == At(nodes, k - 1)
        invariant forall i :: 0 <= i < k ==> nodes[i] != task
        decreases |nodes| - k
      {
        prev := scan;
        scan := scan.waitNext;
        k := k + 1;
      }
    }

    /** The unlinking of `wait_remove` behind a predecessor. */
    method UnlinkAfter(prev: Task, scan: Task, ghost k: nat)
      requires Valid() && 0 < k < |nodes| && prev == nodes[k - 1] && scan == nodes[k]
      modifies this, members`waitNext
      ensures Valid() && nodes == old(nodes)[..k] + old(nodes)[k + 1..] && members == old(members) - {scan}
    {
      ghost var was, m := nodes, members - {scan};
      HoldsRemoved(members, nodes, k);
      prev.waitNext := scan.waitNext;
      if tail == scan {
        tail := prev;
      }
      scan.waitNext := null;
      nodes := was[..k] + was[k + 1..];
      members := m;
      Unlinked(was, k);
    }

    /** Unlinks the node at position `k`, wherever it stands. */
    method Cut(prev: Task?, scan: Task, ghost k: nat)
      requires Valid() && k < |nodes| && prev == At(nodes, k - 1) && scan == nodes[k]
      modifies this, members`waitNext
      ensures Valid() && nodes == old(nodes)[..k] + old(nodes)[k + 1..] && members == old(members) - {scan}
    {
      if prev == null {
        var _ := TakeHead();
      } else {
        UnlinkAfter(prev, scan, k);
      }
    }

    /** Unlinks the node at position `k` and gives it a new block. */
    method CutAndRelease(prev: Task?, scan: Task, block: Tcb, ghost k: nat, ghost table: seq<Task>)
      requires Valid() && OfTable(nodes, table) && k < |nodes| && prev == At(nodes, k - 1) && scan == nodes[k]
      modifies this, members
      ensures Valid() && nodes == old(nodes)[..k] + old(nodes)[k + 1..] && members <= old(members)
      ensures Snap(table) == Put(old(Snap(table)), scan.id, block)
    {
      ghost var ts := Snap(table);
      Cut(prev, scan, k);
      scan.block := block;
      Wrote(table, ts, scan.id);
    }

    /** `wait_remove`. */
    method Remove(task: Task, ghost table: seq<Task>)
      requires Valid() && OfTable(nodes, table) && Listed(task, table)
      modifies this, members`waitNext
      ensures Valid() && OfTable(nodes, table) && members <= old(members)
      ensures Ids(nodes) == WaitQueue.Remove(old(Ids(nodes)), task.id) && Snap(table) == old(Snap(table))
    {
      var prev, scan, k := FindTask(task);
      ghost var was := nodes;
      if scan != null {
        Cut(prev, scan, k);
      }
      SameBlocks(table);
      RemovedIds(table, was, k, task, nodes);
    }

    lemma Unlinked(was: seq<Task>, k: nat)
      requires k < |was| && nodes == was[..k] + was[k + 1..] && NoDup(was)
      requires Holds(members, nodes)
      requires head == if k == 0 then At(was, 1) else At(was, 0)
      requires tail == if k == |was| - 1 then At(was, k - 1) else At(was, |was| - 1)
      requires forall i :: 0 <= i < |was| && was[i] != was[k] && was[i] != At(was, k - 1) ==> was[i].waitNext == At(was, i + 1)
      requires k > 0 ==> was[k - 1].waitNext == At(was, k + 1)
      ensures Valid()
    {
      RemovedIndices(was, k);
      RemovedChain(nodes, was, k);
    }

    /** Unlinks the first waiter, as `wait_pop` does in each round. */
    method TakeHead() returns (task: Task)
      requires Valid() && nodes != []
      modifies this, members`waitNext
      ensures Valid() && task == old(nodes)[0] && nodes == old(nodes)[1..] && members == old(members) - {task}
    {
      task := head;
      head := task.waitNext;
      if head == null {
        tail := null;
      }
      task.waitNext := null;
      ghost var was := nodes;
      HoldsRemoved(members, was, 0);
      nodes := was[..0] + was[1..];
      members := members - {task};
      Unlinked(was, 0);
    }

    /** One round of `wait_pop`: the head is unlinked and examined. */
    method TakeNext(ghost table: seq<Task>) returns (first: Task, valid: bool)
      requires Valid() && OfTable(nodes, table) && nodes != []
      modifies this, members`waitNext
      ensures Valid() && OfTable(nodes, table) && members <= old(members) && first in old(members) && first !in members
      ensures Snap(table) == old(Snap(table)) && Listed(first, table) && first.block == Get(Snap(table), first.id)
      ensures old(Ids(nodes)) == [first.id] + Ids(nodes) && valid == IsValidWaiter(first.block)
    {
      ghost var was := nodes;
      first := TakeHead();
      valid := IsValidWaiter(first.block);
      SameBlocks(table);
      TailOfTable(was, table);
    }

    /** The loop of `wait_pop`: stale waiters are unlinked on the way to the first valid one. */
    method TakeValid(ghost table: seq<Task>, ghost ts: seq<Tcb>) returns (task: Task?)
      requires Valid() && OfTable(nodes, table) && ts == Snap(table)
      modifies this, members`waitNext
      ensures Valid() && OfTable(nodes, table) && members <= old(members) && Snap(table) == ts
      ensures Ids(nodes) == PopRest(ts, old(Ids(nodes))) && PopTask(ts, old(Ids(nodes))) == IdOf(task)
      ensures task != null ==> task in old(members) && task !in members && Listed(task, table)
    {
      ghost var l := Ids(nodes);
      while head != null
        invariant Valid() && OfTable(nodes, table) && members <= old(members) && Snap(table) == ts
        invariant PopRest(ts, Ids(nodes)) == PopRest(ts, l) && PopTask(ts, Ids(nodes)) == PopTask(ts, l)
        decreases |nodes|
      {
        PopStep(ts, Ids(nodes));
        var first, valid := TakeNext(table);
        if valid {
          return first;
        }
      }
      task := null;
    }

    /** `wait_pop`. */
    method Pop(ghost table: seq<Task>) returns (task: Task?)
      requires Valid() && OfTable(nodes, table)
      modifies this, members
      ensures Valid() && OfTable(nodes, table) && members <= old(members)
      ensures Ids(nodes) == PopRest(old(Snap(table)), old(Ids(nodes)))
      ensures PopTask(old(Snap(table)), old(Ids(nodes))) == IdOf(task)
      ensures task == null ==> Snap(table) == old(Snap(table))
      ensures task != null ==>
                task in old(members) && task !in members && Listed(task, table) && task.block == NotWaiting(old(task.block))
      ensures task != null ==> Snap(table) == Put(old(Snap(table)), task.id, NotWaiting(old(task.block)))
    {
      ghost var ts := Snap(table);
      task := TakeValid(table, ts);
      if task != null {
        task.block := NotWaiting(task.block);
        Wrote(table, ts, task.id);
      }
    }

    /** A pop, and the release every waker performs on the task it got. */
    method Wake(ghost table: seq<Task>) returns (woken: bool)
      requires Valid() && OfTable(nodes, table)
      modifies this, members
      ensures Valid() && OfTable(nodes, table) && members <= old(members)
      ensures Ids(nodes) == PopRest(old(Snap(table)), old(Ids(nodes)))
      ensures Snap(table) == WakeFirst(old(Snap(table)), old(Ids(nodes)))
      ensures woken == PopTask(old(Snap(table)), old(Ids(nodes))).Some?
    {
      var task := Pop(table);
      woken := task != null;
      if task != null {
        ghost var ts := Snap(table);
        task.block := Released(task.block);
        Wrote(table, ts, task.id);
      }
    }

    /** A pop that hands `item` to the task it releases. */
    method Hand(item: nat, ghost table: seq<Task>) returns (woken: bool)
      requires Valid() && OfTable(nodes, table)
      modifies this, members
      ensures Valid() && OfTable(nodes, table) && members <= old(members)
      ensures Ids(nodes) == PopRest(old(Snap(table)), old(Ids(nodes)))
      ensures woken == PopTask(old(Snap(table)), old(Ids(nodes))).Some?
      ensures Snap(table) == HandFirst(old(Snap(table)), old(Ids(nodes)), item)
    {
      var task := Pop(table);
      woken := task != null;
      if task != null {
        ghost var ts := Snap(table);
        task.block := Released(task.block).(objectResult := item);
        Wrote(table, ts, task.id);
      }
    }

    /** What a timed-out call does: out of the list, and no longer waiting. */
    method Leave(task: Task, ghost table: seq<Task>)
      requires Valid() && OfTable(nodes, table) && Listed(task, table)
      modifies this, members`waitNext, task`block
      ensures Valid() && OfTable(nodes, table) && members <= old(members)
      ensures Snap(table) == Put(old(Snap(table)), task.id, NotWaiting(old(task.block)))
      ensures Ids(nodes) == WaitQueue.Remove(old(Ids(nodes)), task.id)
    {
      Remove(task, table);
      ghost var ts := Snap(table);
      task.block := NotWaiting(task.block);
      Wrote(table, ts, task.id);
    }
  }

  /** `p` is `was` with `task` put at position `k`. */
  ghost predicate IsInserted(p: seq<Task>, was: seq<Task>, k: nat, task: Task) {
    && k <= |was| && |p| == |was| + 1
    && forall i: int {:trigger At(p, i)} :: At(p, i) == if i < k then At(was, i) else if i == k then task else At(was, i - 1)
  }

  lemma InsertedChain(p: seq<Task>, was: seq<Task>, k: nat, task: Task)
    requires IsInserted(p, was, k, task) && task.waitNext == At(was, k)
    requires forall i :: 0 <= i < |was| ==> was[i].waitNext == if i == k - 1 then task else At(was, i + 1)
    ensures forall i :: 0 <= i < |p| ==> p[i].waitNext == At(p, i + 1)
    ensures At(p, 0) == (if k == 0 then task else At(was, 0))
    ensures At(p, |p| - 1) == if k == |was| then task else At(was, |was| - 1)
  {
    forall i | 0 <= i < |p| ensures p[i].waitNext == At(p, i + 1) {
      assert At(p, i) == p[i] && At(p, i + 1) == if i + 1 < k then At(was, i + 1) else if i + 1 == k then task else At(was, i);
      if i < k { assert p[i] == was[i]; } else if i > k { assert p[i] == was[i - 1]; }
    }
  }

  /** `p` is `was` without the entry at position `k`. */
  ghost predicate IsRemoved(p: seq<Task>, was: seq<Task>, k: nat) {
    && k < |was| && |p| == |was| - 1
    && forall i: int {:trigger At(p, i)} :: At(p, i) == if i < k then At(was, i) else At(was, i + 1)
  }

  lemma RemovedIndices(was: seq<Task>, k: nat)
    requires k < |was| && NoDup(was)
    ensures IsRemoved(was[..k] + was[k + 1..], was, k) && NoDup(was[..k] + was[k + 1..])
  {
  }

  lemma OfTableCut(was: seq<Task>, k: nat, table: seq<Task>)
    requires OfTable(was, table) && k < |was|
    ensures OfTable(was[..k] + was[k + 1..], table)
  {
  }

  lemma RemovedChain(p: seq<Task>, was: seq<Task>, k: nat)
    requires IsRemoved(p, was, k)
    requires forall i :: 0 <= i < |was| && i != k && i != k - 1 ==> was[i].waitNext == At(was, i + 1)
    requires k > 0 ==> was[k - 1].waitNext == At(was, k + 1)
    ensures forall i :: 0 <= i < |p| ==> p[i].waitNext == At(p, i + 1)
    ensures At(p, 0) == (if k == 0 then At(was, 1) else At(was, 0))
    ensures At(p, |p| - 1) == if k == |was| - 1 then At(was, k - 1) else At(was, |was| - 1)
  {
    forall i | 0 <= i < |p| ensures p[i].waitNext == At(p, i + 1) {
      assert At(p, i) == p[i] && At(p, i + 1) == if i + 1 < k then At(was, i + 1) else At(was, i + 2);
      if i < k { assert p[i] == was[i]; } else { assert p[i] == was[i + 1]; }
    }
  }

  lemma InsertedIds(table: seq<Task>, p: seq<Task>, was: seq<Task>, k: nat, task: Task)
    requires OfTable(was, table) && Listed(task, table) && k <= |was| && p == was[..k] + [task] + was[k..]
    requires forall i :: 0 <= i < k ==> was[i].block.priority >= task.block.priority
    requires k < |was| ==> was[k].block.priority < task.block.priority
    ensures OfTable(p, table) && Ids(p) == WaitQueue.Push(Snap(table), Ids(was), task.id)
  {
  }

  lemma {:induction false} RemoveAt(l: seq<Tid>, k: nat, t: Tid)
    requires k <= |l| && (forall i :: 0 <= i < k ==> l[i] != t) && (k < |l| ==> l[k] == t)
    ensures WaitQueue.Remove(l, t) == if k < |l| then l[..k] + l[k + 1..] else l
  {
    if l != [] && l[0] != t {
      RemoveAt(l[1..], k - 1, t);
      assert l == [l[0]] + l[1..];
      assert k < |l| ==> l[..k] + l[k + 1..] == [l[0]] + (l[1..][..k - 1] + l[1..][k..]);
    }
  }

  lemma RemovedIds(table: seq<Task>, was: seq<Task>, k: nat, task: Task, p: seq<Task>)
    requires OfTable(was, table) && Listed(task, table) && k <= |was|
    requires (forall i :: 0 <= i < k ==> was[i] != task) && (k < |was| ==> was[k] == task)
    requires p == if k < |was| then was[..k] + was[k + 1..] else was
    ensures OfTable(p, table) && Ids(p) == WaitQueue.Remove(Ids(was), task.id)
  {
    RemoveAt(Ids(was), k, task.id);
    if k < |was| {
      OfTableCut(was, k, table);
      IdsCut(was, k);
    }
  }

  lemma IdsCut(was: seq<Task>, k: nat)
    requires k < |was|
    ensures Ids(was[..k] + was[k + 1..]) == Ids(was)[..k] + Ids(was)[k + 1..]
  {
  }

  lemma TailOfTable(nodes: seq<Task>, table: seq<Task>)
    requires OfTable(nodes, table) && nodes != []
    ensures OfTable(nodes[1..], table) && Ids(nodes) == [nodes[0].id] + Ids(nodes[1..]) && Listed(nodes[0], table)
  {
  }

  /** A pop takes the head if it is valid, and otherwise goes on without it. */
  lemma PopStep(ts: seq<Tcb>, l: seq<Tid>)
    requires l != []
    ensures IsValidWaiter(Get(ts, l[0])) ==> PopTask(ts, l) == Some(l[0]) && PopRest(ts, l) == l[1..]
    ensures !IsValidWaiter(Get(ts, l[0])) ==> PopTask(ts, l) == PopTask(ts, l[1..]) && PopRest(ts, l) == PopRest(ts, l[1..])
  {
  }

  /** Reading a linked task through the table. */
  lemma LinkedBlocks(table: seq<Task>, nodes: seq<Task>)
    requires OfTable(nodes, table)
    ensures forall i :: 0 <= i < |nodes| ==> Get(Snap(table), Ids(nodes)[i]) == nodes[i].block
  {
  }

  /** Writing one task. */
  lemma Wrote(table: seq<Task>, ts: seq<Tcb>, t: Tid)
    requires IsTable(table) && t < |table| == |ts|
    requires forall i :: 0 <= i < |table| && i != t ==> table[i].block == ts[i]
    ensures Snap(table) == Put(ts, t, table[t].block)
  {
  }
}
