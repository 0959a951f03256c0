/** The guarantee the library is for: a callback runs only after every thread that could still hold the
    pointer has checked in or is gone. */
module GracePeriod {
  import opened AbaTypes
  import opened Protocol
  import opened Invariant
  import opened Entries
  import opened Machine
  import opened Storages
  import opened Runs
  import opened ExactlyOnce
  import opened Slots
  import opened Progress

  /* ---- the list of a pointer ---- */

  /** What a turn does to the list of the k-th pointer. */
  lemma TurnSlots(r: Run, ms: seq<Mem>, i: nat, k: nat)
    requires IsRun(r) && Tracks(r, ms) && i < |r.turns|
    ensures CurOk(r.At(i).sh) && r.TurnAt(i).tid in r.At(i).th && r.TurnAt(i).tid in r.At(i + 1).th
    ensures SlotFate(r.TurnAt(i).act, r.At(i).sh, r.At(i).Th(r.TurnAt(i).tid),
              r.At(i + 1).sh, r.At(i + 1).Th(r.TurnAt(i).tid), k)
    ensures r.At(i + 1).th == r.At(i).th[r.TurnAt(i).tid := r.At(i + 1).Th(r.TurnAt(i).tid)]
  {
    hide StepOf, StoreStep, OpOf, NextMem;
    assert StepAt(r, i);
    RunOldOnly(r, i);
    RunInv(r, ms, i);
    CurHolds(r.At(i), MemAt(ms, i));
    StepSlots(r.TurnAt(i).act, r.At(i).sh, r.TurnAt(i).tid, r.At(i).Th(r.TurnAt(i).tid),
      r.At(i + 1).sh, r.At(i + 1).Th(r.TurnAt(i).tid), k);
  }

  lemma CurHolds(c: Real, m: Mem)
    requires Inv(Abstract(c, m))
    ensures CurOk(c.sh)
  {
  }

  lemma CalledUnslotted(c: Real, m: Mem, tid: Tid, act: Act, c': Real, k: nat)
    requires Inv(Abstract(c, m)) && RealStep(c, tid, act, c') && act == CallFree(k)
    ensures User(k) !in c.sh.slot
  {
    hide StepOf, StoreStep;
    FreeShape(act, c.sh, tid, c.Th(tid), c'.sh, c'.Th(tid));
    NewPointerUnslotted(c.sh, k);
  }

  lemma CallUnslotted(r: Run, ms: seq<Mem>, i: nat, k: nat)
    requires IsRun(r) && Tracks(r, ms) && i < |r.turns| && r.TurnAt(i).act == CallFree(k)
    ensures User(k) !in r.At(i).sh.slot
  {
    hide StepOf, StoreStep;
    assert StepAt(r, i);
    RunInv(r, ms, i);
    CalledUnslotted(r.At(i), MemAt(ms, i), r.TurnAt(i).tid, r.TurnAt(i).act, r.At(i + 1), k);
  }

  lemma OneUnfixed(r: Run, ms: seq<Mem>, i: nat, j1: Tid, j2: Tid, k: nat)
    requires IsRun(r) && Tracks(r, ms) && i <= |r.turns| && j1 in r.At(i).th && j2 in r.At(i).th
    requires Unfixed(r.At(i).Th(j1), User(k)) && Unfixed(r.At(i).Th(j2), User(k))
    ensures j1 == j2
  {
    hide StepAt, RealStep, Step, Tracks, Inv;
    RunInv(r, ms, i);
    UnfixedApart(Meant(r, ms, i), j1, j2, k);
  }

  /** No list is recorded before it is fixed. */
  lemma {:induction false} UnfixedUnslotted(r: Run, ms: seq<Mem>, i: nat, j: Tid, k: nat)
    requires IsRun(r) && Tracks(r, ms) && i <= |r.turns|
    requires j in r.At(i).th && Unfixed(r.At(i).Th(j), User(k))
    ensures User(k) !in r.At(i).sh.slot
  {
    hide StepAt, RealStep, Step, Tracks, Inv;
    if i > 0 {
      TurnSlots(r, ms, i - 1, k);
      if j == r.TurnAt(i - 1).tid && r.TurnAt(i - 1).act == CallFree(k) {
        CallUnslotted(r, ms, i - 1, k);
      } else {
        UnfixedUnslotted(r, ms, i - 1, j, k);
        if Unfixed(r.At(i - 1).Th(r.TurnAt(i - 1).tid), User(k)) {
          OneUnfixed(r, ms, i - 1, r.TurnAt(i - 1).tid, j, k);
        }
      }
    }
  }

  /** Once fixed, the list stays the same. */
  lemma {:induction false} SlotStays(r: Run, ms: seq<Mem>, i: nat, j: nat, k: nat, t: nat)
    requires IsRun(r) && Tracks(r, ms) && i <= j <= |r.turns| && Slotted(r.At(i).sh, User(k), t)
    ensures Slotted(r.At(j).sh, User(k), t)
  {
    hide StepAt, RealStep, Step, Tracks, Inv;
    if i < j {
      SlotStays(r, ms, i, j - 1, k, t);
      TurnSlots(r, ms, j - 1, k);
      if Unfixed(r.At(j - 1).Th(r.TurnAt(j - 1).tid), User(k)) {
        UnfixedUnslotted(r, ms, j - 1, r.TurnAt(j - 1).tid, k);
      }
    }
  }

  /** In turn i the list of the k-th pointer is fixed to that of timestamp t. */
  ghost predicate FixedAt(r: Run, i: nat, k: nat, t: nat) {
    && CurOk(r.At(i).sh)
    && Fixes(r.TurnAt(i).act, r.At(i).sh, r.At(i).Th(r.TurnAt(i).tid), k, t)
    && Slotted(r.At(i + 1).sh, User(k), t)
  }

  /** A pointer that has a list got it in some earlier turn. */
  lemma {:induction false} WasFixed(r: Run, ms: seq<Mem>, j: nat, k: nat, t: nat) returns (i: nat)
    requires IsRun(r) && Tracks(r, ms) && j <= |r.turns| && Slotted(r.At(j).sh, User(k), t)
    ensures i < j && FixedAt(r, i, k, t)
  {
    hide StepAt, RealStep, Step, Tracks, Inv;
    assert j > 0;
    i := j - 1;
    TurnSlots(r, ms, j - 1, k);
    if User(k) in r.At(j - 1).sh.slot {
      SlotStays(r, ms, j - 1, j, k, r.At(j - 1).sh.slot[User(k)]);
      i := WasFixed(r, ms, j - 1, k, t);
    }
  }

  /* ---- the promise of a thread ---- */

  /** In turn i thread g gives its word for timestamp t: it sets the bit or finds it set inside a checkin
      for timestamps up to t or further; or it leaves. */
  ghost predicate GivesUp(r: Run, i: nat, g: Tid, t: nat) {
    && r.TurnAt(i).tid == g
    && g in r.At(i).th
    && (Leaves(r.TurnAt(i).act)
        || (Commits(r.TurnAt(i).act)
            && (var pc := r.At(i).Th(g).pc; (pc.Marking? || pc.Copying?) && t <= pc.upto)))
  }

  lemma TurnAdvance(r: Run, ms: seq<Mem>, i: nat, g: Tid)
    requires IsRun(r) && Tracks(r, ms) && i < |r.turns| && g in r.At(i).th
    ensures g in r.At(i + 1).th
    ensures r.TurnAt(i).tid != g ==> r.At(i + 1).Th(g) == r.At(i).Th(g)
    ensures r.TurnAt(i).tid == g ==> Advance(r.TurnAt(i).act, r.At(i).Th(g), r.At(i + 1).Th(g))
  {
    hide StepOf, StoreStep;
    assert StepAt(r, i);
    if r.TurnAt(i).tid == g {
      RunInv(r, ms, i);
      LocalHolds(Meant(r, ms, i), g);
      StepAdvance(r.TurnAt(i).act, r.At(i).sh, g, r.At(i).Th(g), r.At(i + 1).sh, r.At(i + 1).Th(g));
    }
  }

  lemma LocalHolds(s: State, g: Tid)
    requires Inv(s) && g in s.th
    ensures Local(s.Th(g))
  {
    hide StepAt, RealStep, Step;
    assert ThreadOk(s.sh, g, s.Th(g));
  }

  /** A thread that owed timestamp t and no longer does has given it up in between. */
  lemma {:induction false} Crossing(r: Run, ms: seq<Mem>, a: nat, b: nat, g: Tid, t: nat) returns (m: nat)
    requires IsRun(r) && Tracks(r, ms) && a <= b <= |r.turns| && g in r.At(a).th && g in r.At(b).th
    requires Reg(r.At(a).Th(g)) && Limit(r.At(a).Th(g)) <= t
    requires Reg(r.At(b).Th(g)) ==> Limit(r.At(b).Th(g)) > t
    ensures a <= m < b && GivesUp(r, m, g, t)
  {
    hide StepAt, RealStep, Step, Tracks, Inv;
    assert a < b;
    m := b - 1;
    SameThreads(r, a, b - 1, g);
    TurnAdvance(r, ms, b - 1, g);
    if !(Reg(r.At(b - 1).Th(g)) && Limit(r.At(b - 1).Th(g)) <= t) {
      m := Crossing(r, ms, a, b - 1, g, t);
    }
  }

  lemma SameThreads(r: Run, a: nat, b: nat, g: Tid)
    requires IsRun(r) && a <= |r.turns| && b <= |r.turns| && g in r.At(a).th
    ensures g in r.At(b).th
  {
    hide *;
    ThreadsStay(r, a);
    ThreadsStay(r, b);
  }

  /* ---- when the list is fixed, and when the callback runs ---- */

  lemma OwesAtFix(s: State, act: Act, tid: Tid, k: nat, t: nat, g: Tid)
    requires Inv(s) && tid in s.th && g in s.th && Reg(s.Th(g)) && Fixes(act, s.sh, s.Th(tid), k, t)
    requires act.FreeSwap? ==> s.sh.cur == s.Th(tid).pc.stage.s.at
    ensures Limit(s.Th(g)) <= t
  {
    hide StepAt, RealStep, Step;
    assert ThreadOk(s.sh, g, s.Th(g));
    if act.FreeSwap? {
      assert ThreadOk(s.sh, tid, s.Th(tid));
      assert s.Th(tid).pc.stage.s in Seens(s.Th(tid)) && SeenOk(s.sh, s.Th(tid).pc.stage.s);
    }
  }

  lemma SwapMatchesCur(act: Act, sh: Shared, tid: Tid, x: Thread, sh': Shared, x': Thread)
    requires ThreadStep(act, sh, tid, x, sh', x') && act.FreeSwap?
    ensures x.pc.Free? && x.pc.stage.Planning? && sh.cur == x.pc.stage.s.at
  {
    hide StepOf;
    FreeSwapStepShape(act, sh, tid, x, sh', x');
  }

  lemma RunsItem(act: Act, sh: Shared, tid: Tid, x: Thread, sh': Shared, x': Thread)
    requires ThreadStep(act, sh, tid, x, sh', x') && act.RunItem?
    ensures x.pc.Walk? && x.pc.phase.Run? && act.it in x.pc.phase.batch
  {
    hide StepOf;
    WalkShape(act, sh, tid, x, sh', x');
  }

  /** Nobody owes the timestamp whose callbacks run. */
  lemma OwesNotAtRun(s: State, tid: Tid, k: nat, g: Tid)
    requires Inv(s) && tid in s.th && g in s.th
    requires s.Th(tid).pc.Walk? && s.Th(tid).pc.phase.Run? && User(k) in s.Th(tid).pc.phase.batch
    ensures Slotted(s.sh, User(k), s.Th(tid).pc.t)
    ensures Reg(s.Th(g)) ==> Limit(s.Th(g)) > s.Th(tid).pc.t
  {
    hide StepAt, RealStep, Step;
    assert ThreadOk(s.sh, tid, s.Th(tid)) && ThreadOk(s.sh, g, s.Th(g));
    NextLeLimit(s.Th(g));
    if Reg(s.Th(g)) && g != tid { DrainedMeansPassed(s, tid, g); }
  }

  lemma LimitAtFix(r: Run, ms: seq<Mem>, i: nat, k: nat, t: nat, g: Tid)
    requires IsRun(r) && Tracks(r, ms) && i < |r.turns| && FixedAt(r, i, k, t)
    requires g in r.At(i).th && Reg(r.At(i).Th(g))
    ensures Limit(r.At(i).Th(g)) <= t
  {
    hide StepOf, StoreStep;
    assert StepAt(r, i);
    RunInv(r, ms, i);
    if r.TurnAt(i).act.FreeSwap? {
      SwapMatchesCur(r.TurnAt(i).act, r.At(i).sh, r.TurnAt(i).tid, r.At(i).Th(r.TurnAt(i).tid),
        r.At(i + 1).sh, r.At(i + 1).Th(r.TurnAt(i).tid));
    }
    OwesAtFix(Meant(r, ms, i), r.TurnAt(i).act, r.TurnAt(i).tid, k, t, g);
  }

  lemma RunTurn(r: Run, ms: seq<Mem>, j: nat, k: nat)
    requires IsRun(r) && Tracks(r, ms) && j < |r.turns| && r.TurnAt(j).act == RunItem(User(k))
    ensures User(k) in r.At(j).sh.slot
    ensures forall g :: g in r.At(j).th && Reg(r.At(j).Th(g)) ==>
      Limit(r.At(j).Th(g)) > r.At(j).sh.slot[User(k)]
  {
    hide StepOf, StoreStep;
    assert StepAt(r, j);
    RunInv(r, ms, j);
    var tid := r.TurnAt(j).tid;
    RunsItem(r.TurnAt(j).act, r.At(j).sh, tid, r.At(j).Th(tid), r.At(j + 1).sh, r.At(j + 1).Th(tid));
    OwesNotAtRun(Meant(r, ms, j), tid, k, tid);
    forall g | g in r.At(j).th && Reg(r.At(j).Th(g))
      ensures Limit(r.At(j).Th(g)) > r.At(j).sh.slot[User(k)]
    {
      OwesNotAtRun(Meant(r, ms, j), tid, k, g);
    }
  }

  /** Between the turn that fixes the list of a pointer and the turn that runs its callback, every thread
      that was registered at the first has given up the pointer. */
  lemma Grace(r: Run, ms: seq<Mem>, i: nat, j: nat, k: nat, t: nat, g: Tid) returns (m: nat)
    requires IsRun(r) && Tracks(r, ms) && i < j < |r.turns|
    requires FixedAt(r, i, k, t) && r.TurnAt(j).act == RunItem(User(k))
    requires g in r.At(i).th && Reg(r.At(i).Th(g))
    ensures i < m < j && GivesUp(r, m, g, t)
  {
    hide StepAt, RealStep, Step, Tracks, Inv;
    LimitAtFix(r, ms, i, k, t, g);
    SlotStays(r, ms, i + 1, j, k, t);
    RunTurn(r, ms, j, k);
    SameThreads(r, i, j, g);
    m := Crossing(r, ms, i, j, g, t);
    FixingIsNotGiving(r, i, k, t, g);
  }

  lemma FixingIsNotGiving(r: Run, i: nat, k: nat, t: nat, g: Tid)
    requires IsRun(r) && i < |r.turns| && FixedAt(r, i, k, t)
    ensures !GivesUp(r, i, g, t)
  {
    hide StepAt;
  }

  /* ---- the pointers that are freed at once ---- */

  /** In turn i a free finds its thread to be the only one registered. */
  ghost predicate AloneAt(r: Run, i: nat, k: nat) {
    && (r.TurnAt(i).act.FreeRead? || r.TurnAt(i).act.FreeAlone?)
    && Unfixed(r.At(i).Th(r.TurnAt(i).tid), User(k))
    && forall g :: g in r.At(i).th && g != r.TurnAt(i).tid ==> !Reg(r.At(i).Th(g))
  }

  lemma BecomesImmediate(act: Act, sh: Shared, tid: Tid, x: Thread, sh': Shared, x': Thread)
    requires ThreadStep(act, sh, tid, x, sh', x') && x'.pc.Free? && x'.pc.stage.Immediate?
    ensures (act.FreeRead? || act.FreeAlone?) && Unfixed(x, x'.pc.stage.it) && CurOk(sh) && W(sh).n <= 1
  {
    hide StepOf;
    if FreeAct(act) {
      FreeShape(act, sh, tid, x, sh', x');
    } else {
      FreeEnters(act, sh, tid, x, sh', x');
    }
  }

  lemma OnlyOne(s: State, tid: Tid)
    requires Inv(s) && tid in s.th && Reg(s.Th(tid)) && W(s.sh).n <= 1
    ensures forall g :: g in s.th && g != tid ==> !Reg(s.Th(g))
  {
    forall g | g in s.th && g != tid ensures !Reg(s.Th(g)) { RegsCount(s.th, tid, g); }
  }

  lemma FreeingIsRegistered(s: State, tid: Tid, it: Item)
    requires Inv(s) && tid in s.th && Unfixed(s.Th(tid), it)
    ensures Reg(s.Th(tid))
  {
    hide StepAt, RealStep, Step;
    assert ThreadOk(s.sh, tid, s.Th(tid));
  }

  lemma AloneTurn(r: Run, ms: seq<Mem>, i: nat, k: nat)
    requires IsRun(r) && Tracks(r, ms) && i < |r.turns| && r.TurnAt(i).tid in r.At(i + 1).th
    requires var x := r.At(i + 1).Th(r.TurnAt(i).tid); x.pc.Free? && x.pc.stage == Immediate(User(k))
    ensures AloneAt(r, i, k)
  {
    hide StepOf, StoreStep, OpOf, NextMem;
    assert StepAt(r, i);
    var tid := r.TurnAt(i).tid;
    RunInv(r, ms, i);
    BecomesImmediate(r.TurnAt(i).act, r.At(i).sh, tid, r.At(i).Th(tid), r.At(i + 1).sh,
      r.At(i + 1).Th(tid));
    FreeingIsRegistered(Meant(r, ms, i), tid, User(k));
    OnlyOne(Meant(r, ms, i), tid);
  }

  lemma {:induction false} WasAlone(r: Run, ms: seq<Mem>, j: nat, tid: Tid, k: nat) returns (i: nat)
    requires IsRun(r) && Tracks(r, ms) && j <= |r.turns| && tid in r.At(j).th
    requires var x := r.At(j).Th(tid); x.pc.Free? && x.pc.stage == Immediate(User(k))
    ensures i < j && r.TurnAt(i).tid == tid && AloneAt(r, i, k)
  {
    hide StepOf, StoreStep, OpOf, NextMem;
    assert j > 0;
    i := j - 1;
    if r.TurnAt(i).tid == tid {
      AloneTurn(r, ms, i, k);
    } else {
      assert StepAt(r, i);
      i := WasAlone(r, ms, j - 1, tid, k);
    }
  }

  /* ---- the theorem ---- */

  /** Every callback that ever runs in any run: either the freeing thread had found itself alone, or the
      list of the pointer was fixed in an earlier turn, and since then every thread registered at that
      turn has set or seen the bit inside a checkin, or has left. */
  lemma SafeReclamation(r: Run, j: nat, k: nat)
    requires IsRun(r) && j < |r.turns| && FinalAt(r, j, k)
    ensures (exists i: nat :: i < j && AloneAt(r, i, k)) ||
      (exists i: nat, t: nat :: i < j && FixedAt(r, i, k, t) &&
        forall g :: g in r.At(i).th && Reg(r.At(i).Th(g)) ==>
          exists m: nat :: i < m < j && GivesUp(r, m, g, t))
  {
    hide StepAt, RealStep, Step, Tracks, Inv;
    var ms := TracksExists(r);
    assert StepAt(r, j);
    if r.TurnAt(j).act.FreeNow? {
      var i := WasAlone(r, ms, j, r.TurnAt(j).tid, k);
    } else {
      RunTurn(r, ms, j, k);
      var t := r.At(j).sh.slot[User(k)];
      var i := WasFixed(r, ms, j, k, t);
      forall g | g in r.At(i).th && Reg(r.At(i).Th(g))
        ensures exists m: nat :: i < m < j && GivesUp(r, m, g, t)
      {
        var m := Grace(r, ms, i, j, k, t, g);
      }
    }
  }
}
