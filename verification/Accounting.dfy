/** The entries of the timestamps in every state of every run: counts, order, addresses, lists. */
module Accounting {
  import opened AbaTypes
  import opened Protocol
  import opened Invariant
  import opened Entries
  import opened Windows
  import opened Storages
  import opened Refinement
  import opened Planning
  import opened Simulation
  import opened Coupling
  import opened RealRefinement
  import opened Runs

  /** Timestamp t is not finished: some thread still has to check in for it, or has seen its count drop to
      zero and has not cleared the usage bit yet. */
  ghost predicate Pending(th: map<Tid, Thread>, t: nat) {
    Owe(th, t) != {} || exists i :: i in th && SweepAt(th[i], t)
  }

  lemma LiveIsPending(th: map<Tid, Thread>, m: Mem, ts: nat, t: nat)
    requires MemOk(th, m, ts) && 1 <= t <= ts
    ensures Live(m, t) <==> Pending(th, t)
  {
    assert EntryOk(th, m, t);
    if i :| i in th && SweepAt(th[i], t) { assert HandOk(th, m, i, th[i]); }
  }

  lemma MemHolds(c: Real, m: Mem)
    requires Joint(c, m)
    ensures CurOk(c.sh) && MemOk(c.th, m, W(c.sh).ts) && Matches(m, c.ss, W(c.sh))
  {
  }

  /* ---- retain counts ---- */

  lemma CountIs(th: map<Tid, Thread>, m: Mem, ts: nat, t: nat)
    requires MemOk(th, m, ts) && 1 <= t <= ts
    ensures Counts(th, m.entries[t].rc, t)
  {
    assert EntryOk(th, m, t);
    forall a | a in th && AddingAt(th[a], t) ensures t in m.adder && m.adder[t] == a { assert HandOk(th, m, a, th[a]); }
  }

  /** How the slot of a timestamp counts the threads that owe it. */
  ghost predicate Counts(th: map<Tid, Thread>, rc: int, t: nat) {
    && (forall a :: a in th && AddingAt(th[a], t) ==> rc + 1 + th[a].pc.stage.s.world.n == |Owe(th, t)|)
    && ((forall a :: a in th ==> !AddingAt(th[a], t)) ==> rc + 1 == |Owe(th, t)|)
  }

  lemma CountHolds(c: Real, m: Mem, t: nat)
    requires Joint(c, m) && CurOk(c.sh) && 1 <= t <= W(c.sh).ts && Reaches(c.ss, W(c.sh).win, t)
    ensures Counts(c.th, SlotAt(c.ss, W(c.sh).win, t).rc, t)
  {
    MemHolds(c, m);
    CountIs(c.th, m, W(c.sh).ts, t);
  }

  /** The biased retain count in the slot of a timestamp, plus one, plus the number of threads its creator
      still has to add, is the number of registered threads that have not decremented it. */
  lemma RetainCount(r: Run, i: nat, t: nat)
    requires IsRun(r) && i <= |r.turns| && CurOk(r.At(i).sh) && 1 <= t <= W(r.At(i).sh).ts
    requires Reaches(r.At(i).ss, W(r.At(i).sh).win, t)
    ensures Counts(r.At(i).th, SlotAt(r.At(i).ss, W(r.At(i).sh).win, t).rc, t)
  {
    hide *;
    var ms := TracksExists(r);
    RunJoint(r, ms, i);
    CountHolds(r.At(i), MemAt(ms, i), t);
  }

  /* ---- order and addresses ---- */

  lemma PendingFacts(c: Real, m: Mem, t: nat, t': nat)
    requires Joint(c, m) && 1 <= t <= t' && Pending(c.th, t)
    ensures CurOk(c.sh)
    ensures t' <= W(c.sh).ts ==> Pending(c.th, t') && Used(c.ss, W(c.sh).win, t')
  {
    MemHolds(c, m);
    if t' <= W(c.sh).ts {
      SuffixHolds(Abstract(c, m));
      LiveIsPending(c.th, m, W(c.sh).ts, t);
      LiveIsPending(c.th, m, W(c.sh).ts, t');
      assert Live(m, t');
      assert InWindow(W(c.sh).win, t');
      Reach(m, c.ss, W(c.sh), t');
    }
  }

  /** Timestamps finish in ascending order: from the first unfinished one on, none is finished, all of
      them are in the window of the current world, and their usage bits are set. */
  lemma UnfinishedAreSuffix(r: Run, i: nat, t: nat, t': nat)
    requires IsRun(r) && i <= |r.turns| && CurOk(r.At(i).sh)
    requires 1 <= t <= t' <= W(r.At(i).sh).ts && Pending(r.At(i).th, t)
    ensures Pending(r.At(i).th, t') && Used(r.At(i).ss, W(r.At(i).sh).win, t')
  {
    hide *;
    var ms := TracksExists(r);
    RunJoint(r, ms, i);
    PendingFacts(r.At(i), MemAt(ms, i), t, t');
  }

  lemma FinishedFacts(c: Real, m: Mem, t: nat)
    requires Joint(c, m) && CurOk(c.sh) && Reaches(c.ss, W(c.sh).win, t) && (1 <= t <= W(c.sh).ts ==> !Pending(c.th, t))
    ensures SlotAt(c.ss, W(c.sh).win, t) == PRISTINE
  {
    MemHolds(c, m);
    FinishedHolds(Abstract(c, m));
    if 1 <= t <= W(c.sh).ts { LiveIsPending(c.th, m, W(c.sh).ts, t); }
  }

  /** The slot of a finished timestamp, and of one still to come, is as good as new. */
  lemma OthersArePristine(r: Run, i: nat, t: nat)
    requires IsRun(r) && i <= |r.turns| && CurOk(r.At(i).sh)
    requires Reaches(r.At(i).ss, W(r.At(i).sh).win, t)
    requires t < 1 || t > W(r.At(i).sh).ts || !Pending(r.At(i).th, t)
    ensures SlotAt(r.At(i).ss, W(r.At(i).sh).win, t) == PRISTINE
  {
    hide *;
    var ms := TracksExists(r);
    RunJoint(r, ms, i);
    FinishedFacts(r.At(i), MemAt(ms, i), t);
  }

  lemma WalkedFacts(c: Real, m: Mem, j: Tid, t: nat)
    requires Joint(c, m) && j in c.th && c.Th(j).pc.Walk? && Owes(c.Th(j), t) && 1 <= t <= c.Th(j).pc.upto
    ensures CurOk(c.sh) && Reaches(c.ss, c.Th(j).pc.s.world.win, t) && InWindow(W(c.sh).win, t)
    ensures StoreOf(c.Th(j).pc.s.world.win, t) == StoreOf(W(c.sh).win, t)
  {
    var x := c.Th(j);
    assert ThreadOk(c.sh, j, x);
    assert x.pc.s in Seens(x) && SeenOk(c.sh, x.pc.s) && SeenFresh(c.sh, Limit(x), x.pc.s);
    MemHolds(c, m);
    assert EntryOk(c.th, m, t);
    LiveOwed(c.th, m, j, t);
    SeenReaches(c.sh, m, x, x.pc.s, t);
    Addressable(m, c.ss, W(c.sh), x.pc.s.world.win, t);
  }

  /** Every timestamp a thread still has to check in for is in the window of the current world; and when
      it walks, in the window it walks through, where it finds the same entry. */
  lemma OwedIsAddressable(r: Run, i: nat, j: Tid, t: nat)
    requires IsRun(r) && i <= |r.turns| && j in r.At(i).th && Owes(r.At(i).Th(j), t) && CurOk(r.At(i).sh)
    requires 1 <= t <= W(r.At(i).sh).ts
    ensures Reaches(r.At(i).ss, W(r.At(i).sh).win, t)
    ensures var x := r.At(i).Th(j);
      x.pc.Walk? && t <= x.pc.upto ==>
        Reaches(r.At(i).ss, x.pc.s.world.win, t)
        && StoreOf(x.pc.s.world.win, t) == StoreOf(W(r.At(i).sh).win, t)
  {
    hide StepAt, Joint, RealStep, Tracks, Coupled;
    var ms := TracksExists(r);
    RunJoint(r, ms, i);
    assert j in Owe(r.At(i).th, t);
    PendingFacts(r.At(i), MemAt(ms, i), t, t);
    if r.At(i).Th(j).pc.Walk? && t <= r.At(i).Th(j).pc.upto { WalkedFacts(r.At(i), MemAt(ms, i), j, t); }
  }

  /* ---- reorganising ---- */

  lemma DeadIsFinished(c: Real, m: Mem, s: World, k: nat, t: nat)
    requires Joint(c, m) && Dead(m, s, k) && 1 <= t <= s.ts && Pending(c.th, t) && CurOk(c.sh) && s.ts <= W(c.sh).ts
    ensures s.win.offset + k * N <= t
  {
    MemHolds(c, m);
    LiveIsPending(c.th, m, W(c.sh).ts, t);
  }

  lemma PlannedHolds(c: Real, m: Mem, j: Tid)
    requires Joint(c, m) && j in c.th && c.Th(j).pc.Free? && c.Th(j).pc.stage.Planning?
    ensures CurOk(c.sh) && PlanBase(c.sh, c.Th(j))
    ensures PlanOk(m, c.ss, c.Th(j).pc.stage.s.at.w == c.sh.cur.w, c.Th(j).pc.stage.s.world, c.Th(j).pc.stage.plan)
  {
    hide StepOf, StoreStep, OpOf, NextMem;
    assert ThreadOk(c.sh, j, c.Th(j)) && Windowed(W(c.sh).win, c.Th(j)) && Planned(c.sh.cur, m, c.ss, c.Th(j));
    PlanBaseHolds(c.sh, j, c.Th(j));
  }

  lemma ReorganisedHolds(c: Real, m: Mem, j: Tid)
    requires Joint(c, m) && j in c.th && c.Th(j).pc.Free? && c.Th(j).pc.stage.Planning?
    requires c.Th(j).pc.stage.plan.Ready? && c.Th(j).pc.stage.plan.reused > 0
    ensures Reorganised(c.th, c.Th(j).pc.stage.s.world, c.Th(j).pc.stage.plan)
  {
    hide Joint;
    PlannedHolds(c, m, j);
    var w, plan := c.Th(j).pc.stage.s.world, c.Th(j).pc.stage.plan;
    forall t | 1 <= t <= w.ts && Pending(c.th, t) ensures w.win.offset + plan.reused * N <= t {
      DeadIsFinished(c, m, w, plan.reused, t);
    }
  }

  ghost predicate Reorganised(th: map<Tid, Thread>, w: World, plan: Plan)
    requires plan.Ready?
  {
    && plan.reused <= |w.win.stores| && plan.win == RotateBy(w.win, plan.reused)
    && plan.reused <= CurrentRow(w)
    && InWindow(plan.win, w.ts + 1)
    && forall t :: 1 <= t <= w.ts && Pending(th, t) ==> w.win.offset + plan.reused * N <= t
  }

  /** A free that has reorganised its copy of the world has rotated away only storages in which nothing is
      unfinished, never the one of the current timestamp, and the next timestamp has room. */
  lemma ReorganiseIsSafe(r: Run, i: nat, j: Tid)
    requires IsRun(r) && i <= |r.turns| && j in r.At(i).th
    requires var x := r.At(i).Th(j);
      x.pc.Free? && x.pc.stage.Planning? && x.pc.stage.plan.Ready? && x.pc.stage.plan.reused > 0
    ensures Reorganised(r.At(i).th, r.At(i).Th(j).pc.stage.s.world, r.At(i).Th(j).pc.stage.plan)
  {
    hide *;
    var ms := TracksExists(r);
    RunJoint(r, ms, i);
    ReorganisedHolds(r.At(i), MemAt(ms, i), j);
  }
}
