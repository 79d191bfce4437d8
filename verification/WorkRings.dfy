/** The ring of deferred work items, updated in place. */
module WorkRings {
  import opened Base
  import opened WorkRuns
  import Rings

  class WorkRing {
    const items: array<Item>
    var head: nat
    var tail: nat
    var pendingItems: nat
    var dropCount: uint32

    ghost predicate Valid()
      reads this
    {
      && items.Length > 0 && head < items.Length && pendingItems <= items.Length
      && tail == Rings.Wrap(head + pendingItems, items.Length)
    }

    /** The items waiting, oldest first. */
    ghost function Contents(): seq<Item>
      requires Valid()
      reads this, items
    {
      Rings.Window(items[..], head, pendingItems)
    }

    constructor (items: array<Item>)
      requires items.Length > 0
      ensures Valid() && Contents() == [] && dropCount == 0 && this.items == items
    {
      this.items := items;
      head, tail, pendingItems, dropCount := 0, 0, 0, 0;
    }

    /** The critical region of `submit_common` for a handler that is not null. */
    method Enqueue(item: Item) returns (status: Status)
      requires Valid()
      modifies this`tail, this`pendingItems, this`dropCount, items
      ensures Valid()
      ensures status == if |old(Contents())| < items.Length then Status.Ok else Full
      ensures Contents() == old(Contents()) + if status == Status.Ok then [item] else []
      ensures dropCount == if status == Status.Ok then old(dropCount) else (old(dropCount) + 1) % 0x1_0000_0000
    {
      if pendingItems >= items.Length {
        dropCount := (dropCount + 1) % 0x1_0000_0000;
        return Full;
      }
      Rings.PushBack(items[..], head, pendingItems, item);
      Rings.WrapIsModulo(tail + 1, items.Length);
      items[tail] := item;
      tail := (tail + 1) % items.Length;
      pendingItems := pendingItems + 1;
      status := Status.Ok;
    }

    /** `pop_work`. */
    method Dequeue() returns (item: Option<Item>)
      requires Valid()
      modifies this`head, this`pendingItems
      ensures Valid()
      ensures match item
              case None => old(Contents()) == [] && Contents() == []
              case Some(x) => old(Contents()) == [x] + Contents()
    {
      if pendingItems == 0 {
        return None;
      }
      Rings.PopFront(items[..], head, pendingItems);
      Rings.WrapIsModulo(head + 1, items.Length);
      item := Some(items[head]);
      head := (head + 1) % items.Length;
      pendingItems := pendingItems - 1;
    }

    /** What interrupts and other tasks submit while the worker is outside its critical region. */
    method Offer(batch: seq<Item>)
      requires Valid()
      modifies this`tail, this`pendingItems, this`dropCount, items
      ensures Valid() && Contents() == old(Contents()) + Fitting(old(Contents()), items.Length, batch)
    {
      for i := 0 to |batch|
        invariant Valid() && Contents() == old(Contents()) + Fitting(old(Contents()), items.Length, batch[..i])
      {
        assert batch[..i + 1] == batch[..i] + [batch[i]];
        FittingGrows(old(Contents()), items.Length, batch[..i], batch[i]);
        var _ := Enqueue(batch[i]);
      }
      assert batch[..|batch|] == batch;
    }

    /** The inner loop of the worker; `arrivals[i]` is submitted while its item number `i` runs.
        It runs what was in the ring and all that was accepted meanwhile, once and in order. */
    method Drain(arrivals: seq<seq<Item>>) returns (ran: seq<Item>)
      requires Valid()
      modifies this`head, this`tail, this`pendingItems, this`dropCount, items
      ensures Valid() && Contents() == []
      ensures ran == old(Contents()) + Accepted(old(Contents()), items.Length, arrivals)
    {
      ran := [];
      var i := 0;
      while true
        invariant Valid() && i <= |arrivals|
        invariant ran + Contents() + Accepted(Contents(), items.Length, arrivals[i..]) ==
                    old(Contents()) + Accepted(old(Contents()), items.Length, arrivals)
        decreases |arrivals| - i, pendingItems
      {
        ghost var c := Contents();
        var item := Dequeue();
        if item == None {
          break;
        }
        AcceptedNext(ran, c, items.Length, arrivals[i..]);
        ran := ran + [item.value];
        if i < |arrivals| {
          Offer(arrivals[i]);
          i := i + 1;
        }
      }
    }
  }

  /** The items of a batch for which there is room behind `c`. */
  function Fitting(c: seq<Item>, length: nat, batch: seq<Item>): seq<Item> {
    if |c| + |batch| <= length then batch else if |c| <= length then batch[..length - |c|] else []
  }

  lemma FittingGrows(c: seq<Item>, length: nat, batch: seq<Item>, item: Item)
    ensures var fit := Fitting(c, length, batch);
            Fitting(c, length, batch + [item]) == fit + if |c + fit| < length then [item] else []
  {
  }

  /** What is accepted while the ring, now holding `c`, is emptied one item at a time. */
  function Accepted(c: seq<Item>, length: nat, arrivals: seq<seq<Item>>): seq<Item>
    decreases |arrivals|
  {
    if c == [] || arrivals == [] then []
    else
      var fit := Fitting(c[1..], length, arrivals[0]);
      fit + Accepted(c[1..] + fit, length, arrivals[1..])
  }

  lemma AcceptedNext(ran: seq<Item>, c: seq<Item>, length: nat, arrivals: seq<seq<Item>>)
    requires c != []
    ensures var fit := if arrivals == [] then [] else Fitting(c[1..], length, arrivals[0]);
            ran + c + Accepted(c, length, arrivals) ==
              ran + [c[0]] + (c[1..] + fit) + if arrivals == [] then [] else Accepted(c[1..] + fit, length, arrivals[1..])
  {
    assert c == [c[0]] + c[1..];
  }
}
