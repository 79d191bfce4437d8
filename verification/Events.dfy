/** The event flags group on the heap; setting flags walks the waiters in place. */
module Events {
  import opened Base
  import opened WaitQueue
  import opened Tasks
  import EventSpec

  /** `flags_match`. */
  method FlagsMatch(current: Flags, flags: Flags, all: bool) returns (ok: bool, matched: Flags)
    ensures ok == EventSpec.Matches(current, flags, all)
    ensures matched == if ok then current * flags else {}
  {
    var selected := current * flags;
    if all {
      if selected == flags {
        return true, selected;
      }
    } else if selected != {} {
      return true, selected;
    }
    return false, {};
  }

  class EventFlags {
    var flags: Flags
    const waiters: WaitList

    ghost predicate Valid(table: seq<Task>)
      reads this, waiters, waiters.members`waitNext
    {
      waiters.Valid() && OfTable(waiters.nodes, table)
    }

    ghost function View(table: seq<Task>): EventSpec.View
      reads this, waiters, table
    {
      EventSpec.View(Snap(table), flags, Ids(waiters.nodes))
    }

    /** What is left to walk from position `k`. */
    ghost function Ahead(table: seq<Task>, k: nat): EventSpec.View
      reads this, waiters, table
      requires k <= |waiters.nodes|
    {
      EventSpec.View(Snap(table), flags, Ids(waiters.nodes)[k..])
    }

    /** `rtos_event_flags_init`. */
    constructor (ghost table: seq<Task>)
      requires IsTable(table)
      ensures Valid(table) && fresh(waiters) && flags == {} && waiters.members == {}
    {
      flags := {};
      waiters := new WaitList();
    }

    /** The waiter at position `k` is unlinked and released with what it matched. */
    method Grant(prev: Task?, scan: Task, matched: Flags, ghost k: nat, ghost table: seq<Task>)
      requires Valid(table) && k < |waiters.nodes| && prev == At(waiters.nodes, k - 1) && scan == waiters.nodes[k]
      modifies this, waiters, waiters.members
      ensures Valid(table) && waiters.members <= old(waiters.members)
      ensures waiters.nodes == old(waiters.nodes)[..k] + old(waiters.nodes)[k + 1..]
      ensures Snap(table) == Put(old(Snap(table)), scan.id, EventSpec.Granted(old(scan.block), matched))
      ensures flags == if old(scan.block).waitClear then old(flags) - matched else old(flags)
    {
      OfTableCut(waiters.nodes, k, table);
      waiters.CutAndRelease(prev, scan, EventSpec.Granted(scan.block, matched), k, table);
      if scan.block.waitClear {
        flags := flags - matched;
      }
    }

    /** One round of the walk: the waiter at position `k` is released and unlinked, or kept. */
    method Visit(prev: Task?, scan: Task, ghost k: nat, ghost table: seq<Task>) returns (hit: bool)
      requires Valid(table) && k < |waiters.nodes| && prev == At(waiters.nodes, k - 1) && scan == waiters.nodes[k]
      modifies this, waiters, waiters.members
      ensures Valid(table) && waiters.members <= old(waiters.members)
      ensures waiters.nodes == if hit then old(waiters.nodes)[..k] + old(waiters.nodes)[k + 1..] else old(waiters.nodes)
      ensures hit == EventSpec.Hit(old(Ahead(table, k)))
      ensures View(table).(waiters := []) == EventSpec.Rest(old(Ahead(table, k))).(waiters := [])
    {
      LinkedBlocks(table, waiters.nodes);
      assert Ahead(table, k).waiters[0] == scan.id;
      hit := false;
      if IsValidWaiter(scan.block) {
        var matched;
        hit, matched := FlagsMatch(flags, scan.block.waitFlags, scan.block.waitAll);
        if hit {
          Grant(prev, scan, matched, k, table);
        }
      }
    }

    /** One round, and the pointers for the next one. */
    method Round(prev: Task?, scan: Task, ghost k: nat, ghost table: seq<Task>) returns (behind: Task?, next: Task?, ghost n: nat)
      requires Valid(table) && k < |waiters.nodes| && prev == At(waiters.nodes, k - 1) && scan == waiters.nodes[k]
      modifies this, waiters, waiters.members
      ensures Valid(table) && waiters.members <= old(waiters.members)
      ensures k <= n <= |waiters.nodes| && behind == At(waiters.nodes, n - 1) && next == At(waiters.nodes, n)
      ensures |waiters.nodes| - n < |old(waiters.nodes)| - k
      ensures Ahead(table, n) == EventSpec.Rest(old(Ahead(table, k)))
      ensures Ids(waiters.nodes)[..n] == Kept(old(Ids(waiters.nodes))[..k], old(Ahead(table, k)))
    {
      ghost var was := waiters.nodes;
      next := scan.waitNext;
      var hit := Visit(prev, scan, k, table);
      behind := if hit then prev else scan;
      n := if hit then k else k + 1;
      RoundNodes(was, k, hit, waiters.nodes, n);
    }

    /** The walk of `set_common`. */
    method Walk(ghost table: seq<Task>)
      requires Valid(table)
      modifies this, waiters, waiters.members
      ensures Valid(table) && waiters.members <= old(waiters.members)
      ensures View(table) == EventSpec.Walk(old(View(table))).0
    {
      var prev: Task? := null;
      var scan := waiters.head;
      ghost var k, goal := 0, EventSpec.Walk(View(table)).0;
      FinishStart(View(table));
      assert Ids(waiters.nodes)[..0] == [] && Ahead(table, 0) == View(table);
      while scan != null
        invariant Valid(table) && waiters.members <= old(waiters.members)
        invariant k <= |waiters.nodes| && prev == At(waiters.nodes, k - 1) && scan == At(waiters.nodes, k)
        invariant Finish(Ids(waiters.nodes)[..k], Ahead(table, k)) == goal
        decreases |waiters.nodes| - k
      {
        FinishRest(Ids(waiters.nodes)[..k], Ahead(table, k));
        prev, scan, k := Round(prev, scan, k, table);
      }
      assert Ids(waiters.nodes)[..k] == Ids(waiters.nodes);
      FinishEnd(Ids(waiters.nodes), Ahead(table, k));
    }

    /** `set_common`. */
    method Set(bits: Flags, ghost table: seq<Task>) returns (status: Status)
      requires Valid(table)
      modifies this, waiters, waiters.members
      ensures Valid(table) && waiters.members <= old(waiters.members)
      ensures (View(table), status) == EventSpec.Set(old(View(table)), bits)
    {
      if bits == {} {
        return Invalid;
      }
      flags := flags + bits;
      SameBlocks(table);
      Walk(table);
      status := Status.Ok;
    }

    /** `rtos_event_flags_clear`. */
    method Clear(bits: Flags)
      modifies this`flags
      ensures flags == old(flags) - bits
    {
      flags := flags - bits;
    }

    /** First region of `rtos_event_flags_wait`. */
    method TryWait(current: Task, bits: Flags, all: bool, clear: bool, timeout: uint32, ghost table: seq<Task>)
      returns (matched: Flags, o: Outcome)
      requires Valid(table) && Listed(current, table) && current !in waiters.members
      modifies this, waiters, current, waiters.members`waitNext
      ensures Valid(table)
      ensures (View(table), matched, o) == EventSpec.Wait(old(View(table)), current.id, bits, all, clear, timeout)
    {
      if bits == {} {
        return {}, Returns(Invalid);
      }
      var ok;
      ok, matched := FlagsMatch(flags, bits, all);
      if ok {
        if clear {
          flags := flags - matched;
        }
        SameBlocks(table);
        o := Returns(Status.Ok);
      } else if timeout == 0 {
        o := Returns(Timeout);
      } else {
        var block := Park(current.block, WaitEvent, timeout)
                     .(waitFlags := bits, flagsResult := {}, waitAll := all, waitClear := clear);
        waiters.Join(current, block, table);
        o := Parks;
      }
    }

    /** Second region. */
    method EndWait(current: Task, ghost table: seq<Task>) returns (matched: Flags, status: Status)
      requires Valid(table) && Listed(current, table)
      modifies waiters, waiters.members`waitNext, current`block
      ensures Valid(table)
      ensures (Snap(table), Ids(waiters.nodes), matched, status) ==
                EventSpec.Resume(old(Snap(table)), old(Ids(waiters.nodes)), current.id)
    {
      if current.block.result == Timeout {
        waiters.Leave(current, table);
        return {}, Timeout;
      }
      matched := current.block.flagsResult;
      status := Status.Ok;
    }
  }

  /** The waiters passed and kept, after the next one. */
  function Kept(kept: seq<Tid>, v: EventSpec.View): seq<Tid>
    requires v.waiters != []
  {
    if EventSpec.Hit(v) then kept else kept + [v.waiters[0]]
  }

  /** The nodes after a round, seen from the next position. */
  lemma RoundNodes(was: seq<Task>, k: nat, hit: bool, p: seq<Task>, n: nat)
    requires k < |was| && NoDup(was)
    requires p == (if hit then was[..k] + was[k + 1..] else was) && n == if hit then k else k + 1
    ensures n <= |p| && |p| - n == |was| - k - 1
    ensures At(p, n) == At(was, k + 1) && At(p, n - 1) == if hit then At(was, k - 1) else was[k]
    ensures Ids(p)[n..] == Ids(was)[k..][1..]
    ensures Ids(p)[..n] == if hit then Ids(was)[..k] else Ids(was)[..k] + [was[k].id]
  {
  }

  /** The result of the walk when `kept` is behind it and `v` ahead. */
  function Finish(kept: seq<Tid>, v: EventSpec.View): EventSpec.View {
    var r := EventSpec.Walk(v).0;
    r.(waiters := kept + r.waiters)
  }

  lemma FinishStart(v: EventSpec.View)
    ensures Finish([], v) == EventSpec.Walk(v).0
  {
  }

  lemma FinishEnd(kept: seq<Tid>, v: EventSpec.View)
    requires v.waiters == []
    ensures Finish(kept, v) == v.(waiters := kept)
  {
  }

  lemma FinishRest(kept: seq<Tid>, v: EventSpec.View)
    requires v.waiters != []
    ensures Finish(kept, v) == Finish(Kept(kept, v), EventSpec.Rest(v))
  {
  }
}
