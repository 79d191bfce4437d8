/** The fixed-block memory pool on the heap. The free list is threaded through the first
    word of each free block; memory is an array of words and 0 is the null pointer. */
module Pools {
  import opened Base
  import opened WaitQueue
  import opened Tasks
  import PoolSpec

  /** `align_word` on a `uint32_t`. */
  function AlignWord(value: uint32): uint32 {
    (value + 3) % 0x1_0000_0000 / 4 * 4
  }

  /** Rounding up to words, precisely while the sum does not wrap. */
  lemma AlignWordIff(value: uint32)
    ensures AlignWord(value) >= value <==> value <= 0xFFFF_FFFC
    ensures AlignWord(value) % 4 == 0 && (value <= 0xFFFF_FFFC ==> AlignWord(value) < value + 4)
  {
  }

  /** Words that a block of `size` bytes takes. */
  function Stride(size: nat): nat {
    (size + 3) / 4
  }

  /** In storage of a 32-bit address space that holds a block, the sum does not wrap. */
  lemma AlignedStride(size: uint32, count: nat, length: nat)
    requires size >= 4 && count > 0 && count * Stride(size) <= length && 4 * length < 0x1_0000_0000
    ensures AlignWord(size) == 4 * Stride(size) && Stride(size) > 0
  {
    assert count * Stride(size) == (count - 1) * Stride(size) + Stride(size);
    assert (count - 1) * Stride(size) >= 0;
    AlignWordIff(size);
  }

  /** The entry of a list of addresses, null outside it. */
  function AddressAt(s: seq<nat>, i: int): nat {
    if 0 <= i < |s| then s[i] else 0
  }

  /** Where block number `i` lies. */
  function BlockAddress(base: nat, blockWords: nat, i: nat): nat {
    base + i * blockWords
  }

  lemma BlockInStorage(base: nat, w: nat, count: nat, i: nat, length: nat)
    requires w > 0 && i < count && count * w <= length
    ensures BlockAddress(base, w, i) - base + w <= length
  {
    assert (i + 1) * w <= count * w;
    assert (i + 1) * w == i * w + w;
  }

  /** Blocks do not overlap. */
  lemma {:induction false} BlocksApart(base: nat, w: nat, i: nat, j: nat)
    requires i < j
    ensures BlockAddress(base, w, i) + w <= BlockAddress(base, w, j)
  {
    assert j * w == (j - 1) * w + w;
    if i < j - 1 {
      BlocksApart(base, w, i, j - 1);
    }
  }

  class Pool {
    const words: array<nat>
    const base: nat
    const blockWords: nat
    const blockCount: nat
    var freeList: nat
    var freeCount: nat
    const waiters: WaitList
    ghost var free: seq<nat>

    /** The address of a block of this pool, all of it in the storage. */
    ghost predicate IsBlock(b: nat) {
      && base <= b && b - base + blockWords <= words.Length
      && exists n: nat :: n < blockCount && b == BlockAddress(base, blockWords, n)
    }

    /** The chain of first words visits `free`: acyclic, in the storage, `freeCount` long. */
    ghost predicate FreeOk()
      reads this, words
    {
      && base > 0 && blockWords > 0 && freeCount == |free| && NoDup(free)
      && freeList == AddressAt(free, 0)
      && forall i :: 0 <= i < |free| ==> IsBlock(free[i]) && words[free[i] - base] == AddressAt(free, i + 1)
    }

    ghost predicate Valid(table: seq<Task>)
      reads this, words, waiters, waiters.members`waitNext
    {
      FreeOk() && waiters.Valid() && OfTable(waiters.nodes, table)
    }

    ghost function View(table: seq<Task>): PoolSpec.View
      reads this, waiters, table
    {
      PoolSpec.View(Snap(table), free, Ids(waiters.nodes))
    }

    /** `rtos_mempool_init` with a size and a count it accepts, on storage that holds the blocks:
        the stride is the size rounded up to words, and all are free, the last one first. */
    constructor (words: array<nat>, base: nat, blockSize: uint32, blockCount: nat, ghost table: seq<Task>)
      requires base > 0 && blockSize >= 4 && blockCount > 0 && IsTable(table)
      requires blockCount * Stride(blockSize) <= words.Length && 4 * words.Length < 0x1_0000_0000
      modifies words
      ensures Valid(table) && fresh(waiters) && waiters.members == {} && waiters.nodes == []
      ensures this.words == words && this.base == base && blockWords == Stride(blockSize) && this.blockCount == blockCount
      ensures Filled(blockCount)
    {
      AlignedStride(blockSize, blockCount, words.Length);
      this.words := words;
      this.base := base;
      this.blockWords := AlignWord(blockSize) / 4;
      this.blockCount := blockCount;
      freeList, freeCount := 0, 0;
      waiters := new WaitList();
      free := [];
      new;
      for i := 0 to blockCount
        invariant FreeOk() && Filled(i)
        invariant waiters.Valid() && waiters.members == {} && waiters.nodes == []
      {
        AddBlock(i);
      }
    }

    /** The first `i` blocks are free, the latest first. */
    ghost predicate Filled(i: nat)
      reads this
    {
      |free| == i && forall j :: 0 <= j < i ==> free[j] == BlockAddress(base, blockWords, i - 1 - j)
    }

    /** One round of the initialisation. */
    method AddBlock(i: nat)
      requires FreeOk() && Filled(i) && i < blockCount && blockCount * blockWords <= words.Length
      modifies words, this`freeList, this`freeCount, this`free
      ensures FreeOk() && Filled(i + 1)
    {
      BlockInStorage(base, blockWords, blockCount, i, words.Length);
      forall j | 0 <= j < i ensures free[j] != BlockAddress(base, blockWords, i) {
        BlocksApart(base, blockWords, i - 1 - j, i);
      }
      PushFree(BlockAddress(base, blockWords, i));
    }

    /** `pop_free_block`. */
    method PopFree() returns (block: nat)
      requires FreeOk()
      modifies this`freeList, this`freeCount, this`free
      ensures FreeOk() && block == AddressAt(old(free), 0)
      ensures free == if old(free) == [] then [] else old(free)[1..]
    {
      block := freeList;
      if block != 0 {
        freeList := words[block - base];
        freeCount := freeCount - 1;
        free := free[1..];
      }
    }

    /** `push_free_block`. */
    method PushFree(block: nat)
      requires FreeOk() && IsBlock(block) && block !in free
      modifies words, this`freeList, this`freeCount, this`free
      ensures FreeOk() && free == [block] + old(free)
    {
      words[block - base] := freeList;
      freeList := block;
      freeCount := freeCount + 1;
      ghost var was := free;
      free := [block] + was;
      Pushed(was, block);
    }

    lemma Pushed(was: seq<nat>, block: nat)
      requires base > 0 && blockWords > 0 && freeCount == |was| + 1 && NoDup(was) && block !in was
      requires free == [block] + was && freeList == block && IsBlock(block) && words[block - base] == AddressAt(was, 0)
      requires forall i :: 0 <= i < |was| ==> IsBlock(was[i]) && words[was[i] - base] == AddressAt(was, i + 1)
      ensures FreeOk()
    {
      forall i | 0 <= i < |free| ensures IsBlock(free[i]) && words[free[i] - base] == AddressAt(free, i + 1) {
        if i > 0 {
          assert free[i] == was[i - 1] && AddressAt(free, i + 1) == AddressAt(was, i);
          assert words[was[i - 1] - base] == AddressAt(was, i - 1 + 1);
        } else {
          assert AddressAt(free, 1) == AddressAt(was, 0);
        }
      }
    }

    lemma Disjoint(b: nat, c: nat, offset: nat)
      requires IsBlock(b) && IsBlock(c) && b != c && offset < blockWords
      ensures b != c + offset
    {
      var n: nat, m: nat :| b == BlockAddress(base, blockWords, n) && c == BlockAddress(base, blockWords, m);
      if n < m { BlocksApart(base, blockWords, n, m); } else { BlocksApart(base, blockWords, m, n); }
    }

    /** A caller may write anything into a block it holds: the free list is not touched. */
    method WriteHeld(block: nat, offset: nat, value: nat)
      requires FreeOk() && IsBlock(block) && block !in free && offset < blockWords
      modifies words
      ensures FreeOk()
      ensures forall i :: 0 <= i < words.Length && i != block - base + offset ==> words[i] == old(words[i])
    {
      forall i | 0 <= i < |free| ensures free[i] != block + offset {
        Disjoint(free[i], block, offset);
      }
      words[block - base + offset] := value;
    }

    /** First region of `rtos_mempool_alloc_timeout`. */
    method TryAlloc(current: Task, timeout: uint32, ghost table: seq<Task>) returns (block: nat, o: Outcome)
      requires Valid(table) && Listed(current, table) && current !in waiters.members
      modifies this`freeList, this`freeCount, this`free, waiters, current, waiters.members`waitNext
      ensures Valid(table)
      ensures (View(table), block, o) == PoolSpec.Alloc(old(View(table)), current.id, timeout)
    {
      block := PopFree();
      SameBlocks(table);
      if block != 0 {
        o := Returns(Ok);
      } else if timeout == 0 {
        o := Returns(Timeout);
      } else {
        waiters.Join(current, Park(current.block, WaitMempool, timeout).(objectResult := 0), table);
        o := Parks;
      }
    }

    /** Second region. */
    method EndAlloc(current: Task, ghost table: seq<Task>) returns (block: nat, o: Outcome)
      requires Valid(table) && Listed(current, table)
      modifies waiters, waiters.members`waitNext, current`block
      ensures Valid(table)
      ensures (Snap(table), Ids(waiters.nodes), block, o) == PoolSpec.Resume(old(Snap(table)), old(Ids(waiters.nodes)), current.id)
    {
      if current.block.result == Timeout {
        waiters.Leave(current, table);
        return 0, Returns(Timeout);
      }
      ghost var ts := Snap(table);
      block := current.block.objectResult;
      current.block := current.block.(objectResult := 0);
      Wrote(table, ts, current.id);
      o := if block != 0 then Returns(Ok) else Retries;
    }

    /** `rtos_mempool_free` of a block that a caller holds. */
    method Free(block: nat, ghost table: seq<Task>)
      requires Valid(table) && IsBlock(block) && block !in free
      modifies this`freeList, this`freeCount, this`free, words, waiters, waiters.members
      ensures Valid(table)
      ensures View(table) == PoolSpec.Free(old(View(table)), block)
    {
      var woken := waiters.Hand(block, table);
      if !woken {
        PopNone(old(Snap(table)), old(Ids(waiters.nodes)));
        PushFree(block);
        SameBlocks(table);
      }
    }
  }

  lemma PopNone(ts: seq<Tcb>, l: seq<Tid>)
    requires PopTask(ts, l) == None
    ensures PopRest(ts, l) == []
  {
  }
}
