/** The wait lists of all objects on one heap: what is done to one of them leaves the links and
    the tails of the others intact. */
module Heaps {
  import opened Base
  import opened WaitQueue
  import opened Tasks
  import EventSpec
  import Events

  ghost function Linked(lists: set<WaitList>): set<Task>
    reads lists
  {
    set w, n | w in lists && n in w.members :: n
  }

  /** Every list is a chain over tasks of the table, and no task is linked in two of them. */
  ghost predicate Separate(lists: set<WaitList>, table: seq<Task>)
    reads lists, Linked(lists)
  {
    && (forall w :: w in lists ==> w.Valid() && OfTable(w.nodes, table))
    && (forall w, v :: w in lists && v in lists && w != v ==> w.members !! v.members)
  }

  ghost predicate Unlinked(lists: set<WaitList>, task: Task)
    reads lists
  {
    forall w :: w in lists ==> task !in w.members
  }

  /** One of the lists and the others. */
  ghost predicate Beside(others: set<WaitList>, w: WaitList, table: seq<Task>)
    reads w, w.members`waitNext, others, Linked(others)
  {
    && w.Valid() && OfTable(w.nodes, table) && w !in others
    && Separate(others, table) && forall o :: o in others ==> w.members !! o.members
  }

  lemma SeparateIffBeside(lists: set<WaitList>, w: WaitList, table: seq<Task>)
    requires w in lists
    ensures Separate(lists, table) <==> Beside(lists - {w}, w, table)
  {
  }

  /** `wait_push`. */
  method Push(others: set<WaitList>, w: WaitList, task: Task, ghost table: seq<Task>)
    requires Beside(others, w, table) && Listed(task, table) && task !in w.members && Unlinked(others, task)
    modifies w, task`waitNext, w.members`waitNext
    ensures Beside(others, w, table)
    ensures forall o :: o in others ==> Ids(o.nodes) == old(Ids(o.nodes))
    ensures Ids(w.nodes) == WaitQueue.Push(Snap(table), old(Ids(w.nodes)), task.id) && Snap(table) == old(Snap(table))
  {
    w.Push(task, table);
    assert forall o :: o in others ==> o.Valid();
  }

  /** `wait_pop`. */
  method Pop(others: set<WaitList>, w: WaitList, ghost table: seq<Task>) returns (task: Task?)
    requires Beside(others, w, table)
    modifies w, w.members
    ensures Beside(others, w, table) && (task != null ==> task !in w.members && Unlinked(others, task))
    ensures forall o :: o in others ==> Ids(o.nodes) == old(Ids(o.nodes))
    ensures Ids(w.nodes) == PopRest(old(Snap(table)), old(Ids(w.nodes)))
    ensures PopTask(old(Snap(table)), old(Ids(w.nodes))) == IdOf(task)
  {
    task := w.Pop(table);
  }

  /** `wait_remove`. */
  method Remove(others: set<WaitList>, w: WaitList, task: Task, ghost table: seq<Task>)
    requires Beside(others, w, table) && Listed(task, table)
    modifies w, w.members`waitNext
    ensures Beside(others, w, table)
    ensures forall o :: o in others ==> Ids(o.nodes) == old(Ids(o.nodes))
    ensures Ids(w.nodes) == WaitQueue.Remove(old(Ids(w.nodes)), task.id) && Snap(table) == old(Snap(table))
  {
    w.Remove(task, table);
  }

  /** `set_common`. */
  method SetFlags(others: set<WaitList>, group: Events.EventFlags, bits: Flags, ghost table: seq<Task>)
    requires Beside(others, group.waiters, table)
    modifies group, group.waiters, group.waiters.members
    ensures Beside(others, group.waiters, table)
    ensures forall o :: o in others ==> Ids(o.nodes) == old(Ids(o.nodes))
    ensures group.View(table) == EventSpec.Set(old(group.View(table)), bits).0
  {
    var _ := group.Set(bits, table);
  }
}
