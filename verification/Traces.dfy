/** The trace ring: new entries overwrite the oldest. */
module Traces {
  import opened Base
  import Rings

  datatype Entry = Entry(tick: uint32, event: uint32, arg0: uint32, arg1: uint32)

  /** The last `n` entries of a history, all of it when it is shorter. */
  function Last(history: seq<Entry>, n: nat): seq<Entry> {
    if |history| <= n then history else history[|history| - n..]
  }

  class Trace {
    const entries: array<Entry>
    var writeIndex: nat
    var count: nat
    var totalCount: uint32
    /** Every entry ever recorded. */
    ghost var history: seq<Entry>

    /** An entry of the history, if it is among the last ones, is in its slot of the ring;
        the total wraps like the counter it is. */
    ghost predicate Valid()
      reads this, entries
    {
      && entries.Length > 0 && writeIndex == Rings.Slot(|history|, entries.Length)
      && count == (if |history| < entries.Length then |history| else entries.Length)
      && totalCount == |history| % 0x1_0000_0000
      && forall i :: 0 <= i < |history| && |history| - entries.Length <= i ==> entries[Rings.Slot(i, entries.Length)] == history[i]
    }

    constructor (entries: array<Entry>)
      requires entries.Length > 0
      ensures Valid() && history == [] && this.entries == entries
    {
      this.entries := entries;
      writeIndex, count, totalCount, history := 0, 0, 0, [];
    }

    /** `record_common`; event 0 is RTOS_TRACE_NONE. */
    method Record(e: Entry)
      requires Valid()
      modifies this, entries
      ensures Valid() && history == if e.event == 0 then old(history) else old(history) + [e]
    {
      if e.event == 0 {
        return;
      }
      ghost var n, was := entries.Length, history;
      forall i | 0 <= i < |was| && |was| + 1 - n <= i ensures Rings.Slot(i, n) != Rings.Slot(|was|, n) {
        Rings.SlotsDiffer(i, |was|, n);
      }
      Rings.WrapIsModulo(writeIndex + 1, n);
      entries[writeIndex] := e;
      history := history + [e];
      writeIndex := (writeIndex + 1) % entries.Length;
      if count < entries.Length {
        count := count + 1;
      }
      totalCount := (totalCount + 1) % 0x1_0000_0000;
    }

    /** Read from the oldest slot on, the ring holds the last entries in order. */
    lemma HoldsTheLast(i: nat)
      requires Valid() && i < count
      ensures |Last(history, entries.Length)| == count
      ensures Last(history, entries.Length)[i] == entries[(|history| - count + i) % entries.Length]
    {
      Rings.SlotIsModulo(|history| - count + i, entries.Length);
    }
  }
}
