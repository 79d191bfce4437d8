/** The static task table, the scheduler ring threaded through it, and the operations that
    read and write them in place. */
module TaskTables {
  import opened Base
  import opened WaitQueue
  import opened Tasks
  import NotifySpec
  import SchedSpec
  import TaskSpec

  /** The successor position in a ring of `n`. */
  function Succ(i: nat, n: nat): nat
    requires i < n
  {
    if i + 1 < n then i + 1 else 0
  }

  class TaskTable {
    const slots: array<Task>
    var count: nat
    var current: Task?
    var lockCount: uint32
    var pending: bool
    ghost var ring: seq<Task>

    /** The slots in use. */
    ghost function Table(): seq<Task>
      requires count <= slots.Length
      reads this, slots
    {
      slots[..count]
    }

    /** The `next` links are one cycle over exactly the slots in use. */
    ghost predicate Valid()
      reads this, slots, ring`next
    {
      && count <= slots.Length && (forall i :: 0 <= i < slots.Length ==> slots[i].id == i)
      && NoDup(ring) && |ring| == count && OfTable(ring, Table())
      && (forall i :: 0 <= i < |ring| ==> ring[i].next == ring[Succ(i, |ring|)])
      && (if count == 0 then current == null else current != null && current in ring)
    }

    /** `rtos_task_tick`. */
    method Tick()
      requires Valid()
      modifies slots[..count]`block
      ensures Valid()
      ensures Snap(Table()) == TaskSpec.Tick(old(Snap(Table())))
    {
      ghost var table, ts := Table(), Snap(Table());
      for i := 0 to count
        invariant Valid() && Table() == table
        invariant forall j :: 0 <= j < count ==> table[j].block == if j < i then TaskSpec.TickOne(ts[j]) else ts[j]
      {
        var task := slots[i];
        if task.block.state == Blocked && task.block.delay > 0 {
          task.block := task.block.(delay := task.block.delay - 1);
          if task.block.delay == 0 {
            task.block := task.block.(result := Timeout, state := Ready);
          }
        }
      }
    }

    /** `find_task_slot`. */
    method FindSlot() returns (slot: nat, isNew: bool, ok: bool)
      requires Valid()
      modifies this`count
      ensures isNew == (old(count) < slots.Length) && count == (if isNew then old(count) + 1 else old(count))
      ensures isNew ==> ok && slot == old(count)
      ensures !isNew ==> slot == TaskSpec.StoppedSlot(old(Snap(Table()))) && ok == (slot < count)
    {
      if count < slots.Length {
        slot, isNew, ok := count, true, true;
        count := count + 1;
        return;
      }
      isNew := false;
      ghost var ts := Snap(Table());
      slot := 0;
      while slot < count
        invariant slot <= count == old(count)
        invariant forall j :: 0 <= j < slot ==> ts[j].state != Stopped
      {
        if slots[slot].block.state == Stopped {
          return slot, false, true;
        }
        slot := slot + 1;
      }
      ok := false;
    }

    /** A freshly taken slot, the last one in use, is not in the ring yet. */
    ghost predicate Joining(task: Task)
      reads this, slots, ring`next
    {
      && 0 < count <= slots.Length && (forall i :: 0 <= i < slots.Length ==> slots[i].id == i)
      && NoDup(ring) && |ring| == count - 1 && OfTable(ring, slots[..count - 1]) && task == slots[count - 1]
      && (forall i :: 0 <= i < |ring| ==> ring[i].next == ring[Succ(i, |ring|)])
      && if count == 1 then current == null else current != null && current in ring
    }

    /** It is linked behind the current task. */
    method LinkBehind(task: Task)
      requires Joining(task) && count > 1
      modifies this`ring, task`next, ring`next
      ensures Valid()
      ensures Ids(ring) == TaskSpec.RingInsert(old(Ids(ring)), current.id, task.id)
    {
      ghost var was := ring;
      ghost var p :| 0 <= p < |was| && was[p] == current;
      InsertIds(was, p, task, slots[..count - 1]);
      InsertNew(was, p + 1, task, slots[..count - 1], slots[..count]);
      task.next := current.next;
      current.next := task;
      ring := was[..p + 1] + [task] + was[p + 1..];
      InsertedNext(was, p, task);
    }

    method LinkInRing(task: Task)
      requires Joining(task)
      modifies this`current, this`ring, task`next, ring`next
      ensures Valid() && current == (if count == 1 then task else old(current))
      ensures Snap(Table()) == old(Snap(slots[..count - 1])) + [task.block]
      ensures Ids(ring) == if count == 1 then [0] else TaskSpec.RingInsert(old(Ids(ring)), current.id, task.id)
    {
      if count == 1 {
        task.next := task;
        current := task;
        ring := [task];
      } else {
        LinkBehind(task);
      }
      assert Table() == slots[..count - 1] + [task];
    }

    method FillNew(task: Task, priority: uint32)
      requires Joining(task)
      modifies this`current, this`ring, task, ring`next
      ensures Valid() && current == (if count == 1 then task else old(current))
      ensures Snap(Table()) == old(Snap(slots[..count - 1])) + [TaskSpec.NewTcb(priority)]
      ensures Ids(ring) == if count == 1 then [0] else TaskSpec.RingInsert(old(Ids(ring)), current.id, task.id)
    {
      ghost var before := slots[..count - 1];
      Reset(task, priority);
      SameBlocks(before);
      LinkInRing(task);
    }

    /** The fields a creation sets up. */
    method Reset(task: Task, priority: uint32)
      modifies task`block, task`waitNext
      ensures task.block == TaskSpec.NewTcb(priority) && task.waitNext == null
    {
      task.block := TaskSpec.NewTcb(priority);
      task.waitNext := null;
    }

    method FillStopped(task: Task, priority: uint32)
      requires Valid() && Listed(task, Table())
      modifies task`block, task`waitNext
      ensures Valid() && Snap(Table()) == Put(old(Snap(Table())), task.id, TaskSpec.NewTcb(priority))
    {
      ghost var ts := Snap(Table());
      Reset(task, priority);
      Wrote(Table(), ts, task.id);
    }

    lemma InsertedNext(was: seq<Task>, p: nat, task: Task)
      requires p < |was| && ring == was[..p + 1] + [task] + was[p + 1..]
      requires task.next == was[Succ(p, |was|)] && was[p].next == task
      requires forall i :: 0 <= i < |was| && was[i] != was[p] ==> was[i].next == was[Succ(i, |was|)]
      requires NoDup(was)
      ensures forall i :: 0 <= i < |ring| ==> ring[i].next == ring[Succ(i, |ring|)]
    {
    }

    /** `rtos_task_create_named_handle`: a fresh slot joins the ring, a stopped one is in it. */
    method Create(priority: uint32) returns (task: Task?)
      requires Valid()
      modifies this`count, this`current, this`ring, slots[..]
      ensures Valid()
      ensures old(count) < slots.Length ==>
                && task == slots[old(count)] && count == old(count) + 1
                && Snap(Table()) == old(Snap(Table())) + [TaskSpec.NewTcb(priority)]
                && current == (if old(count) == 0 then task else old(current))
                && Ids(ring) == if count == 1 then [0] else TaskSpec.RingInsert(old(Ids(ring)), current.id, old(count))
      ensures old(count) == slots.Length ==>
                && count == old(count) && ring == old(ring) && current == old(current)
                && var i := TaskSpec.StoppedSlot(old(Snap(Table())));
                && task == (if i < count then slots[i] else null)
                && Snap(Table()) == Put(old(Snap(Table())), i, TaskSpec.NewTcb(priority))
    {
      ghost var table := Table();
      var slot, isNew, ok := FindSlot();
      if !ok {
        SameBlocks(table);
        return null;
      }
      task := slots[slot];
      if isNew {
        assert slots[..count - 1] == table;
        FillNew(task, priority);
      } else {
        FillStopped(task, priority);
      }
    }

    // ---------- The scheduler ----------

    ghost function View(): SchedSpec.View
      requires count <= slots.Length && current != null
      reads this, slots, Table()
    {
      SchedSpec.View(Snap(Table()), current.id, Ids(ring), lockCount, pending)
    }

    /** One round of the scan. */
    method Better(best: Task?, scan: Task, ghost ts: seq<Tcb>, ghost a: seq<Tid>) returns (better: Task?)
      requires count <= slots.Length && Snap(Table()) == ts && Listed(scan, Table()) && (best != null ==> Listed(best, Table()))
      requires IdOf(best) == SchedSpec.Pick(ts, a)
      ensures IdOf(better) == SchedSpec.Pick(ts, a + [scan.id])
      ensures better == best || better == scan
    {
      PickSnoc(ts, a, scan.id);
      better := best;
      if scan.block.state == Ready {
        if best == null || scan.block.priority > best.block.priority {
          better := scan;
        }
      }
    }

    /** The tasks of the ring in the order of the scan. */
    lemma Order() returns (order: seq<Task>)
      requires Valid() && current != null
      ensures order != [] && current.next == order[0] && Ids(order) == SchedSpec.ScanOrder(Ids(ring), current.id)
      ensures forall i :: 0 <= i < |order| ==> order[i] in ring && Listed(order[i], Table())
      ensures forall i :: 0 <= i < |order| ==> order[i].next == order[Succ(i, |order|)]
      ensures forall i :: 0 < i < |order| ==> order[i] != order[0]
    {
      var p :| 0 <= p < |ring| && ring[p] == current;
      order := Round(ring, p, Table());
    }

    /** The do-while scan of `rtos_schedule_next`, which visits the tasks in `order`. */
    method Scan(ghost order: seq<Task>) returns (best: Task?, ghost spot: nat)
      requires count <= slots.Length && current != null && order != [] && current.next == order[0]
      requires forall i :: 0 <= i < |order| ==> Listed(order[i], Table()) && order[i].next == order[Succ(i, |order|)]
      requires forall i :: 0 < i < |order| ==> order[i] != order[0]
      ensures IdOf(best) == SchedSpec.Pick(Snap(Table()), Ids(order))
      ensures best != null ==> spot < |order| && best == order[spot]
    {
      ghost var ts, k := Snap(Table()), 0;
      ghost var seen: seq<Tid> := [];
      var first := current.next;
      var scan := first;
      best := null;
      spot := 0;
      while true
        invariant k < |order| && scan == order[k]
        invariant |seen| == k && (forall i :: 0 <= i < k ==> seen[i] == order[i].id)
        invariant IdOf(best) == SchedSpec.Pick(ts, seen)
        invariant best != null ==> spot < |order| && best == order[spot]
        decreases |order| - k
      {
        ghost var was := best;
        best := Better(best, scan, ts, seen);
        seen := seen + [scan.id];
        spot := if best == was then spot else k;
        k := k + 1;
        scan := scan.next;
        if scan == first {
          break;
        }
      }
      assert seen == Ids(order);
    }

    /** The choice. */
    method Choose() returns (best: Task?)
      requires Valid() && current != null
      ensures best != null ==> best in ring && Listed(best, Table())
      ensures IdOf(best) == SchedSpec.Pick(Snap(Table()), SchedSpec.ScanOrder(Ids(ring), current.id))
    {
      ghost var order := Order();
      ghost var i;
      best, i := Scan(order);
    }

    /** `rtos_schedule_next`; false when the assertion that some task is ready fails. */
    method ScheduleNext() returns (ok: bool)
      requires Valid() && current != null
      modifies this`current, this`pending, slots[..count]`block
      ensures Valid() && current != null && View() == SchedSpec.ScheduleNext(old(View()))
      ensures ok <==> current.block.state == Running
    {
      if lockCount != 0 && current.block.state == Running {
        pending := true;
        return true;
      }
      ghost var v := View();
      CurrentListed();
      ok := Reschedule(v);
      CurrentListed();
      MovedRuns(v.(ts := SchedSpec.Scanned(v)));
    }

    /** The current task is in the table. */
    lemma CurrentListed()
      requires Valid() && current != null
      ensures Listed(current, Table()) && Get(Snap(Table()), current.id) == current.block
    {
      var p :| 0 <= p < |ring| && ring[p] == current;
    }

    method Reschedule(ghost v: SchedSpec.View) returns (ok: bool)
      requires Valid() && current != null && v == View()
      modifies this`current, this`pending, slots[..count]`block
      ensures Valid() && current != null
      ensures View() == SchedSpec.Moved(v.(ts := SchedSpec.Scanned(v)), SchedSpec.Pick(SchedSpec.Scanned(v), SchedSpec.ScanOrder(v.ring, v.current)))
      ensures ok == SchedSpec.Pick(SchedSpec.Scanned(v), SchedSpec.ScanOrder(v.ring, v.current)).Some?
    {
      MakeReady();
      ok := Elect(View());
    }

    method Elect(ghost v: SchedSpec.View) returns (ok: bool)
      requires Valid() && current != null && v == View()
      modifies this`current, this`pending, slots[..count]`block
      ensures Valid() && current != null
      ensures View() == SchedSpec.Moved(v, SchedSpec.Pick(v.ts, SchedSpec.ScanOrder(v.ring, v.current)))
      ensures ok == SchedSpec.Pick(v.ts, SchedSpec.ScanOrder(v.ring, v.current)).Some?
    {
      var best := Choose();
      MoveTo(best);
      ok := best != null;
    }

    method MoveTo(best: Task?)
      requires Valid() && current != null && (best != null ==> best in ring && Listed(best, Table()))
      modifies this`current, this`pending, (if best == null then {} else {best})`block
      ensures Valid() && current != null && View() == SchedSpec.Moved(old(View()), IdOf(best))
    {
      pending := false;
      if best != null {
        Run(best);
      }
    }

    method MakeReady()
      requires Valid() && current != null
      modifies current`block
      ensures Valid()
      ensures View() == old(View()).(ts := SchedSpec.Scanned(old(View())))
    {
      ghost var ts := Snap(Table());
      if current.block.state == Running {
        current.block := current.block.(state := Ready);
      }
      Wrote(Table(), ts, current.id);
    }

    method Run(best: Task)
      requires Valid() && current != null && best in ring && Listed(best, Table())
      modifies best`block, this`current
      ensures Valid() && current == best
      ensures var ts := old(Snap(Table()));
              View() == old(View()).(ts := Put(ts, best.id, Get(ts, best.id).(state := Running)), current := best.id)
    {
      ghost var ts := Snap(Table());
      best.block := best.block.(state := Running);
      Wrote(Table(), ts, best.id);
      current := best;
    }

    /** `rtos_sched_lock`. */
    method SchedLock()
      modifies this`lockCount
      ensures SchedSpec.Lock(lockCount, pending) == SchedSpec.Locked(SchedSpec.Lock(old(lockCount), old(pending)))
    {
      lockCount := (lockCount + 1) % 0x1_0000_0000;
    }

    /** `rtos_sched_unlock`; the result says whether a context switch is requested. */
    method SchedUnlock() returns (wants: bool)
      modifies this`lockCount, this`pending
      ensures (SchedSpec.Lock(lockCount, pending), wants) == SchedSpec.Unlocked(SchedSpec.Lock(old(lockCount), old(pending)))
    {
      wants := false;
      if lockCount != 0 {
        lockCount := lockCount - 1;
        if lockCount == 0 && pending {
          pending := false;
          wants := true;
        }
      }
    }

    // ---------- Regions of the current task ----------

    /** `rtos_sleep`; false for a mere yield. */
    method Sleep(ms: uint32) returns (blocks: bool)
      requires Valid() && current != null
      modifies current`block
      ensures Valid() && blocks == (ms != 0)
      ensures Snap(Table()) == if ms == 0 then old(Snap(Table()))
                               else Put(old(Snap(Table())), current.id, Park(old(current.block), WaitSleep, ms))
    {
      ghost var ts := Snap(Table());
      blocks := ms != 0;
      if blocks {
        current.block := Park(current.block, WaitSleep, ms);
      }
      Wrote(Table(), ts, current.id);
    }

    /** `rtos_task_delete_self`, up to the yield. */
    method DeleteSelf()
      requires Valid() && current != null
      modifies current`block
      ensures Valid() && Snap(Table()) == Put(old(Snap(Table())), current.id, TaskSpec.Exited(old(current.block)))
    {
      ghost var ts := Snap(Table());
      current.block := TaskSpec.Exited(current.block);
      Wrote(Table(), ts, current.id);
    }

    /** `notify_common`. */
    method Notify(task: Task, value: Flags) returns (status: Status)
      requires Valid() && Listed(task, Table())
      modifies task`block
      ensures Valid()
      ensures var (c, st) := NotifySpec.Notify(old(task.block), value);
              Snap(Table()) == Put(old(Snap(Table())), task.id, c) && status == st
    {
      ghost var ts := Snap(Table());
      if value == {} {
        Wrote(Table(), ts, task.id);
        return Invalid;
      }
      task.block := task.block.(notifyValue := task.block.notifyValue + value, notifyPending := true);
      if task.block.state == Blocked && task.block.waitType == WaitNotification && task.block.result == Status.Ok {
        task.block := task.block.(delay := 0, result := Status.Ok, state := Ready);
      }
      Wrote(Table(), ts, task.id);
      status := Status.Ok;
    }

    /** First region of `rtos_task_notify_wait`. */
    method TryNotifyWait(clearEntry: Flags, clearExit: Flags, timeout: uint32) returns (value: Flags, o: Outcome)
      requires Valid() && current != null
      modifies current`block
      ensures Valid()
      ensures var (c, bits, end) := NotifySpec.Wait(old(current.block), clearEntry, clearExit, timeout);
              Snap(Table()) == Put(old(Snap(Table())), current.id, c) && value == bits && o == end
    {
      ghost var ts := Snap(Table());
      var c := current.block.(notifyValue := current.block.notifyValue - clearEntry);
      value := {};
      if c.notifyPending {
        value := c.notifyValue;
        c := c.(notifyValue := c.notifyValue - clearExit);
        if c.notifyValue == {} {
          c := c.(notifyPending := false);
        }
        o := Returns(Status.Ok);
      } else if timeout == 0 {
        o := Returns(Timeout);
      } else {
        c := Park(c, WaitNotification, timeout);
        o := Parks;
      }
      current.block := c;
      Wrote(Table(), ts, current.id);
    }

    /** Second region. */
    method EndNotifyWait(clearExit: Flags) returns (value: Flags, status: Status)
      requires Valid() && current != null
      modifies current`block
      ensures Valid()
      ensures var (c, bits, st) := NotifySpec.Resume(old(current.block), clearExit);
              Snap(Table()) == Put(old(Snap(Table())), current.id, c) && value == bits && status == st
    {
      ghost var ts := Snap(Table());
      var c := current.block;
      value := {};
      if c.result == Timeout {
        status := Timeout;
      } else {
        value := c.notifyValue;
        c := c.(notifyValue := c.notifyValue - clearExit);
        if c.notifyValue == {} {
          c := c.(notifyPending := false);
        }
        status := Status.Ok;
      }
      current.block := c.(waitType := WaitNone);
      Wrote(Table(), ts, current.id);
    }
  }

  /** After the choice a task runs exactly if one was chosen. */
  lemma MovedRuns(v: SchedSpec.View)
    requires Get(v.ts, v.current).state != Running
    ensures var b := SchedSpec.Pick(v.ts, SchedSpec.ScanOrder(v.ring, v.current)); var r := SchedSpec.Moved(v, b);
            Get(r.ts, r.current).state == Running <==> b.Some?
  {
  }

  /** Where the `i`-th task of the scan stands in a ring of `n`, starting behind position `p`. */
  function Turn(p: nat, i: nat, n: nat): nat
    requires p < n && i < n
  {
    if p + 1 + i < n then p + 1 + i else p + 1 + i - n
  }

  /** `o` is the ring in the order of the scan from position `p`. */
  ghost predicate IsOrder(o: seq<Task>, ring: seq<Task>, p: nat) {
    p < |ring| == |o| && forall i :: 0 <= i < |o| ==> o[i] == ring[Turn(p, i, |ring|)]
  }

  /** The ring in the order of the scan from position `p`, and what the scan needs of it. */
  lemma Round(ring: seq<Task>, p: nat, table: seq<Task>) returns (o: seq<Task>)
    requires p < |ring| && NoDup(ring) && OfTable(ring, table)
    requires forall i :: 0 <= i < |ring| ==> ring[i].next == ring[Succ(i, |ring|)]
    ensures o != [] && ring[p].next == o[0] && Ids(o) == SchedSpec.ScanOrder(Ids(ring), ring[p].id)
    ensures forall i :: 0 <= i < |o| ==> o[i] in ring && Listed(o[i], table)
    ensures forall i :: 0 <= i < |o| ==> o[i].next == o[Succ(i, |o|)]
    ensures forall i :: 0 < i < |o| ==> o[i] != o[0]
  {
    o := RoundFrom(ring, p);
    OrderNext(o, ring, p);
    OrderOnce(o, ring, p);
    OrderIds(o, ring, p, table);
  }

  ghost function RoundFrom(ring: seq<Task>, p: nat): (o: seq<Task>)
    requires p < |ring|
    ensures IsOrder(o, ring, p) && forall i :: 0 <= i < |o| ==> o[i] in ring
  {
    seq(|ring|, i requires 0 <= i < |ring| => ring[Turn(p, i, |ring|)])
  }

  lemma OrderNext(o: seq<Task>, ring: seq<Task>, p: nat)
    requires IsOrder(o, ring, p) && NoDup(ring)
    requires forall i :: 0 <= i < |ring| ==> ring[i].next == ring[Succ(i, |ring|)]
    ensures ring[p].next == o[0] && forall i :: 0 <= i < |o| ==> o[i].next == o[Succ(i, |o|)]
  {
  }

  /** The scan comes back to its first task only at the end. */
  lemma OrderOnce(o: seq<Task>, ring: seq<Task>, p: nat)
    requires IsOrder(o, ring, p) && NoDup(ring)
    ensures forall i :: 0 < i < |o| ==> o[i] != o[0]
  {
  }

  lemma OrderIds(o: seq<Task>, ring: seq<Task>, p: nat, table: seq<Task>)
    requires IsOrder(o, ring, p) && NoDup(ring) && OfTable(ring, table)
    ensures Ids(o) == SchedSpec.ScanOrder(Ids(ring), ring[p].id)
  {
    PositionOf(ring, p, table);
    assert Ids(o) == Ids(ring)[p + 1..] + Ids(ring)[..p + 1];
  }

  lemma PositionOf(ring: seq<Task>, p: nat, table: seq<Task>)
    requires p < |ring| && NoDup(ring) && OfTable(ring, table)
    ensures SchedSpec.Position(Ids(ring), ring[p].id) == p
  {
  }

  /** The choice after one more task. */
  lemma {:induction false} PickSnoc(ts: seq<Tcb>, a: seq<Tid>, x: Tid)
    ensures var b := SchedSpec.Pick(ts, a);
            SchedSpec.Pick(ts, a + [x]) ==
              if Get(ts, x).state == Ready && (b.None? || Get(ts, x).priority > Get(ts, b.value).priority) then Some(x) else b
  {
    if a == [] {
      assert a + [x] == [x];
    } else {
      PickSnoc(ts, a[1..], x);
      assert (a + [x])[1..] == a[1..] + [x];
    }
  }

  lemma InsertIds(ring: seq<Task>, p: nat, task: Task, table: seq<Task>)
    requires p < |ring| && NoDup(ring) && OfTable(ring, table)
    ensures Ids(ring[..p + 1] + [task] + ring[p + 1..]) == TaskSpec.RingInsert(Ids(ring), ring[p].id, task.id)
  {
  }

  lemma InsertNew(ring: seq<Task>, k: nat, task: Task, before: seq<Task>, table: seq<Task>)
    requires k <= |ring| && NoDup(ring) && OfTable(ring, before) && table == before + [task] && IsTable(table)
    ensures var p := ring[..k] + [task] + ring[k..]; NoDup(p) && OfTable(p, table) && |p| == |ring| + 1
  {
    InsertMembers(ring, k, task);
    InsertIndices(ring, k, task);
    assert table[|before|] == task;
  }
}
