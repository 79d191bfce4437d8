/** What setting event flags does to the waiters: the walk of `set_common`
    characterised independently of how it is computed. */
module EventWalk {
  import opened Base
  import opened WaitQueue
  import opened EventSpec

  /** Fewer flags never satisfy more: what the walk and the invariant rest on. */
  lemma MatchesMonotone(low: Flags, high: Flags, flags: Flags, all: bool)
    requires low <= high && Matches(low, flags, all)
    ensures Matches(high, flags, all)
  {
  }

  // ---------- Which waiters change, and how ----------

  lemma {:induction false} WalkMembers(v: View)
    requires NoDup(v.waiters)
    ensures NoDup(Walk(v).0.waiters)
    ensures forall x :: x in Walk(v).0.waiters ==> x in v.waiters
    decreases |v.waiters|
  {
    if v.waiters != [] {
      var x, r := v.waiters[0], Walk(Rest(v)).0.waiters;
      assert v.waiters == [x] + v.waiters[1..];
      WalkMembers(Rest(v));
      forall i | 0 <= i < |r| ensures r[i] != x {
        assert r[i] in v.waiters[1..];
      }
    }
  }

  /** The walk changes a control block exactly when it releases the task, and it
      releases valid waiters only. */
  lemma {:induction false} WalkFrame(v: View, x: Tid)
    requires NoDup(v.waiters)
    ensures var r := Walk(v).0;
            if x !in v.waiters || x in r.waiters then Get(r.ts, x) == Get(v.ts, x)
            else IsValidWaiter(Get(v.ts, x)) && Get(r.ts, x) == Granted(Get(v.ts, x), Get(r.ts, x).flagsResult)
    decreases |v.waiters|
  {
    if v.waiters != [] {
      assert v.waiters == [v.waiters[0]] + v.waiters[1..];
      WalkMembers(Rest(v));
      WalkFrame(Rest(v), x);
    }
  }

  // ---------- The bits handed out ----------

  /** Bits taken away by the clear-on-exit waiters of a release list. */
  function Cleared(ts: seq<Tcb>, woken: seq<(Tid, Flags)>): Flags {
    if woken == [] then {}
    else (if Get(ts, woken[0].0).waitClear then woken[0].1 else {}) + Cleared(ts, woken[1..])
  }

  /** Releasing a task leaves every waiter's request as it was. */
  lemma RestKeepsRequests(v: View, x: Tid)
    requires v.waiters != []
    ensures var c, d := Get(v.ts, x), Get(Rest(v).ts, x);
            && d.waitClear == c.waitClear && d.waitAll == c.waitAll && d.waitFlags == c.waitFlags
            && (x != v.waiters[0] ==> d == c)
  {
  }

  lemma {:induction false} ClearedFrame(v: View, woken: seq<(Tid, Flags)>)
    requires v.waiters != []
    ensures Cleared(Rest(v).ts, woken) == Cleared(v.ts, woken)
    decreases |woken|
  {
    if woken != [] {
      RestKeepsRequests(v, woken[0].0);
      ClearedFrame(v, woken[1..]);
    }
  }

  /** The flags left are the flags set minus exactly the bits of the clearing waiters. */
  lemma {:induction false} FinalFlags(v: View)
    ensures Walk(v).0.flags == v.flags - Cleared(v.ts, Walk(v).1)
    decreases |v.waiters|
  {
    if v.waiters != [] {
      var woken := Walk(Rest(v)).1;
      FinalFlags(Rest(v));
      ClearedFrame(v, woken);
      if Hit(v) {
        assert Walk(v).1[1..] == woken;
      }
    }
  }

  /** A release record is sound: its task is a valid waiter of the list and its bits
      are taken from what is set and from what was asked, all of it for wait-all. */
  predicate SoundGrant(v: View, g: (Tid, Flags)) {
    var c := Get(v.ts, g.0);
    && g.0 in v.waiters && IsValidWaiter(c)
    && g.1 <= c.waitFlags && g.1 <= v.flags && (c.waitAll ==> g.1 == c.waitFlags)
    && (c.waitFlags != {} ==> g.1 != {})
  }

  /** Every release record is sound, and the bits reach the task's control block. */
  lemma {:induction false} GrantIsSound(v: View, i: nat)
    requires NoDup(v.waiters) && i < |Walk(v).1|
    ensures SoundGrant(v, Walk(v).1[i])
    ensures var g := Walk(v).1[i];
            g.0 !in Walk(v).0.waiters && Get(Walk(v).0.ts, g.0).flagsResult == g.1
    decreases |v.waiters|
  {
    var x := v.waiters[0];
    var c := Get(v.ts, x);
    assert v.waiters == [x] + v.waiters[1..];
    WalkMembers(Rest(v));
    if Hit(v) && i == 0 {
      WalkFrame(Rest(v), x);
    } else {
      var j := if Hit(v) then i - 1 else i;
      var g := Walk(Rest(v)).1[j];
      assert Walk(v).1[i] == g;
      GrantIsSound(Rest(v), j);
      RestKeepsRequests(v, g.0);
    }
  }

  /** Clear-on-exit waiters released by one call get pairwise disjoint bits, and no
      later waiter of any kind sees a bit an earlier one cleared. */
  lemma {:induction false} ClearedBitsAreDisjoint(v: View, i: nat, j: nat)
    requires NoDup(v.waiters) && i < j < |Walk(v).1| && Get(v.ts, Walk(v).1[i].0).waitClear
    ensures Walk(v).1[i].1 !! Walk(v).1[j].1
    decreases |v.waiters|
  {
    var u := Rest(v);
    if Hit(v) && i == 0 {
      assert Walk(v).1[j] == Walk(u).1[j - 1];
      assert NoDup(u.waiters);
      GrantIsSound(u, j - 1);
    } else {
      var d := if Hit(v) then 1 else 0;
      assert Walk(v).1[i] == Walk(u).1[i - d] && Walk(v).1[j] == Walk(u).1[j - d];
      RestKeepsRequests(v, Walk(v).1[i].0);
      ClearedBitsAreDisjoint(u, i - d, j - d);
    }
  }

  // ---------- Who is released ----------

  /** After the walk no valid waiter is left whose condition holds. */
  lemma {:induction false} NobodySatisfiedIsLeft(v: View, x: Tid)
    requires NoDup(v.waiters) && x in Walk(v).0.waiters && IsValidWaiter(Get(v.ts, x))
    ensures !Satisfied(Walk(v).0.flags, Get(v.ts, x))
    decreases |v.waiters|
  {
    var h := v.waiters[0];
    assert v.waiters == [h] + v.waiters[1..];
    WalkMembers(Rest(v));
    if x == h {
      FinalFlags(v);
      var c := Get(v.ts, x);
      if Satisfied(Walk(v).0.flags, c) {
        MatchesMonotone(Walk(v).0.flags, v.flags, c.waitFlags, c.waitAll);
      }
    } else {
      RestKeepsRequests(v, x);
      NobodySatisfiedIsLeft(Rest(v), x);
    }
  }

  /** The view the walk has reached after `n` waiters. */
  function After(v: View, n: nat): (r: View)
    requires n <= |v.waiters|
    ensures r.waiters == v.waiters[n..]
  {
    if n == 0 then v else Rest(After(v, n - 1))
  }

  lemma {:induction false} AfterRest(v: View, n: nat)
    requires 0 < n <= |v.waiters|
    ensures After(v, n) == After(Rest(v), n - 1)
  {
    if n > 1 {
      AfterRest(v, n - 1);
    }
  }

  lemma {:induction false} AfterFrame(v: View, n: nat)
    requires NoDup(v.waiters) && n < |v.waiters|
    ensures forall i :: n <= i < |v.waiters| ==> Get(After(v, n).ts, v.waiters[i]) == Get(v.ts, v.waiters[i])
    ensures After(v, n).flags <= v.flags
  {
    if n > 0 {
      AfterFrame(v, n - 1);
    }
  }

  /** A waiter is released exactly when the flags its predecessors left satisfy it. */
  lemma {:induction false} ReleasedIff(v: View, n: nat)
    requires NoDup(v.waiters) && n < |v.waiters|
    ensures v.waiters[n] !in Walk(v).0.waiters <==> Hit(After(v, n))
    decreases n
  {
    WalkMembers(Rest(v));
    assert v.waiters == [v.waiters[0]] + v.waiters[1..];
    if n > 0 {
      AfterRest(v, n);
      assert v.waiters[1..][n - 1] == v.waiters[n];
      ReleasedIff(Rest(v), n - 1);
    } else {
      assert v.waiters[0] !in v.waiters[1..];
    }
  }

  lemma {:induction false} ReleasedWith(v: View, n: nat)
    requires NoDup(v.waiters) && n < |v.waiters| && Hit(After(v, n))
    ensures Get(Walk(v).0.ts, v.waiters[n]).flagsResult == Bits(After(v, n))
    decreases n
  {
    assert v.waiters == [v.waiters[0]] + v.waiters[1..];
    if n > 0 {
      AfterRest(v, n);
      assert v.waiters[1..][n - 1] == v.waiters[n];
      ReleasedWith(Rest(v), n - 1);
    } else {
      assert v.waiters[0] !in v.waiters[1..];
      WalkFrame(Rest(v), v.waiters[0]);
    }
  }

  /** The bits that released clear-on-exit waiters among the first `n` report. */
  ghost function TakenBefore(v: View, n: nat): Flags
    requires n <= |v.waiters|
  {
    if n == 0 then {}
    else
      var x := v.waiters[n - 1];
      TakenBefore(v, n - 1) + if x !in Walk(v).0.waiters && Get(v.ts, x).waitClear then Get(Walk(v).0.ts, x).flagsResult else {}
  }

  lemma {:induction false} FlagsLeft(v: View, n: nat)
    requires NoDup(v.waiters) && n <= |v.waiters|
    ensures After(v, n).flags == v.flags - TakenBefore(v, n)
  {
    if n > 0 {
      FlagsLeft(v, n - 1);
      AfterFrame(v, n - 1);
      ReleasedIff(v, n - 1);
      if Hit(After(v, n - 1)) { ReleasedWith(v, n - 1); }
    }
  }

  /** A released waiter reports every bit it asked for that is set and was not taken by a
      clearing waiter ahead of it. */
  lemma ReleasedGetsAll(v: View, n: nat)
    requires NoDup(v.waiters) && n < |v.waiters| && v.waiters[n] !in Walk(v).0.waiters
    ensures Get(Walk(v).0.ts, v.waiters[n]).flagsResult == Get(v.ts, v.waiters[n]).waitFlags * (v.flags - TakenBefore(v, n))
  {
    ReleasedIff(v, n);
    ReleasedWith(v, n);
    FlagsLeft(v, n);
    AfterFrame(v, n);
  }

  /** Waiter `i` is valid and the flags set satisfy it. */
  predicate Eligible(v: View, i: nat)
    requires i < |v.waiters|
  {
    IsValidWaiter(Get(v.ts, v.waiters[i])) && Satisfied(v.flags, Get(v.ts, v.waiters[i]))
  }

  /** What docs/architecture.md promises: every waiter whose condition is satisfied wakes. */
  ghost predicate WakesEveryEligible(v: View) {
    forall i :: 0 <= i < |v.waiters| && Eligible(v, i) ==> v.waiters[i] !in Walk(v).0.waiters
  }

  /** Bits asked for by the eligible clear-on-exit waiters among the first `n`. */
  function ClaimedBefore(v: View, n: nat): Flags
    requires n <= |v.waiters|
  {
    if n == 0 then {}
    else
      var c := Get(v.ts, v.waiters[n - 1]);
      ClaimedBefore(v, n - 1) + if Eligible(v, n - 1) && c.waitClear then c.waitFlags else {}
  }

  /** Readable off the state before the walk: every eligible waiter could do without
      the bits that clearing waiters ahead of it ask for. */
  ghost predicate NoConflict(v: View) {
    forall i :: 0 <= i < |v.waiters| && Eligible(v, i) ==>
      Satisfied(v.flags - ClaimedBefore(v, i), Get(v.ts, v.waiters[i]))
  }

  lemma {:induction false} FlagsReaching(v: View, n: nat)
    requires NoDup(v.waiters) && n <= |v.waiters|
    requires forall i :: 0 <= i < n && Eligible(v, i) ==> Hit(After(v, i))
    ensures After(v, n).flags == v.flags - ClaimedBefore(v, n)
  {
    if n > 0 {
      FlagsReaching(v, n - 1);
      AfterFrame(v, n - 1);
      var c := Get(v.ts, v.waiters[n - 1]);
      if Hit(After(v, n - 1)) {
        MatchesMonotone(After(v, n - 1).flags, v.flags, c.waitFlags, c.waitAll);
      }
    }
  }

  lemma {:induction false} NoConflictHits(v: View, n: nat)
    requires NoDup(v.waiters) && NoConflict(v) && n <= |v.waiters|
    ensures forall i :: 0 <= i < n && Eligible(v, i) ==> Hit(After(v, i))
  {
    if n > 0 {
      NoConflictHits(v, n - 1);
      FlagsReaching(v, n - 1);
      AfterFrame(v, n - 1);
    }
  }

  /** The docs' sentence holds for a call exactly when no clearing waiter takes a bit
      that a later eligible one needs. */
  lemma WakesEveryEligibleIff(v: View)
    requires NoDup(v.waiters)
    ensures WakesEveryEligible(v) <==> NoConflict(v)
  {
    forall n | 0 <= n < |v.waiters| ensures v.waiters[n] !in Walk(v).0.waiters <==> Hit(After(v, n)) {
      ReleasedIff(v, n);
    }
    if NoConflict(v) {
      NoConflictHits(v, |v.waiters|);
    }
    if WakesEveryEligible(v) {
      forall i | 0 <= i < |v.waiters| && Eligible(v, i)
        ensures Satisfied(v.flags - ClaimedBefore(v, i), Get(v.ts, v.waiters[i]))
      {
        FlagsReaching(v, i);
        AfterFrame(v, i);
      }
    }
  }

  /** Two tasks wait for the bit that is set, and the first one clears it. */
  lemma ClearingFirst(ts: seq<Tcb>)
    requires |ts| >= 2 && forall i :: 0 <= i < 2 ==> IsValidWaiter(ts[i]) && ts[i].waitFlags == {0} && !ts[i].waitAll
    requires ts[0].waitClear
    ensures Set(View(ts, {}, [0, 1]), {0}).0 == View(Put(ts, 0, Granted(ts[0], {0})), {}, [1])
  {
    var one: Flags := {0};
    var v := View(ts, one, [0, 1]);
    assert one * one == one && 0 in one && one - one == {};
    assert Hit(v) && Bits(v) == one;
    var w := Rest(v);
    assert w == View(Put(ts, 0, Granted(ts[0], one)), {}, [1]);
    assert Get(w.ts, 1) == ts[1] && !Hit(w);
    assert w.waiters[1..] == [] && Rest(w) == w.(waiters := []);
    assert Walk(Rest(w)).0 == Rest(w);
    assert Walk(w).0 == w;
    assert Walk(v).0 == w;
    assert {} + one == one;
  }

  /** An input on which it fails: flags 0, two waiters for bit 0, the first one clearing. Bit 0
      is set; both conditions hold then, and the second waiter stays linked and blocked. */
  lemma DocsSentenceFails()
    ensures var first := NoTask.(state := Blocked, waitFlags := {0}, waitClear := true);
            var second := NoTask.(state := Blocked, waitFlags := {0});
            var r := Set(View([first, second], {}, [0, 1]), {0}).0;
            && Satisfied({0}, first) && Satisfied({0}, second)
            && r.waiters == [1] && IsValidWaiter(Get(r.ts, 1)) && r.flags == {}
  {
    var first := NoTask.(state := Blocked, waitFlags := {0}, waitClear := true);
    var second := NoTask.(state := Blocked, waitFlags := {0});
    ClearingFirst([first, second]);
    var one: Flags := {0};
    assert 0 in one * one;
  }
}
