/** Windows, plans and storages of all threads stay in order, so every run in memory is a run of the
    protocol. */
module RealRefinement {
  import opened AbaTypes
  import opened Protocol
  import opened Invariant
  import opened Entries
  import opened Machine
  import opened Progress
  import opened Induction
  import opened Windows
  import opened Storages
  import opened Refinement
  import opened Planning
  import opened Simulation
  import opened Coupling
  import opened CouplingSteps
  import opened RealSteps
  import opened RealWindows
  import opened RealInduction

  /* ---- the stepping thread ---- */

  /** A thread that has just registered holds no world. */
  lemma NewcomerHoldsNone(act: Act, sh: Shared, tid: Tid, x: Thread, sh': Shared, x': Thread)
    requires Local(x) && ThreadStep(act, sh, tid, x, sh', x') && !Reg(x) && Reg(x')
    ensures Seens(x') == {}
  {
    hide StepOf;
    StepAdvance(act, sh, tid, x, sh', x');
    RegisterShape(act, sh, tid, x, sh', x');
  }

  lemma OwnThrough(sh: Shared, tid: Tid, x: Thread, act: Act, sh': Shared, x': Thread)
    requires Local(x) && CurOk(sh) && Windowed(W(sh).win, x) && Reg(x)
    requires ThreadStep(act, sh, tid, x, sh', x') && WindowStep(sh, act, sh') && !act.RemoveLast?
    requires act.FreeSwap? ==> act.win == W(sh').win
    ensures Windowed(W(sh').win, x')
  {
    hide StepOf;
    var ok := iset v: Window | Extends(v, W(sh').win);
    forall s | s in Seens(x) ensures s.world.win in ok {
      ExtendsTrans(s.world.win, W(sh).win, W(sh').win);
    }
    ExtendsItself(W(sh').win);
    StepThrough(act, sh, tid, x, sh', x', ok);
  }

  lemma OwnWindowed(sh: Shared, tid: Tid, x: Thread, act: Act, sh': Shared, x': Thread)
    requires Local(x) && CurOk(sh) && Windowed(W(sh).win, x)
    requires ThreadStep(act, sh, tid, x, sh', x') && WindowStep(sh, act, sh')
    requires act.FreeSwap? ==> act.win == W(sh').win
    requires act.RemoveLast? ==> !Reg(x')
    ensures Windowed(W(sh').win, x')
  {
    hide StepOf;
    if Reg(x') && !Reg(x) {
      NewcomerHoldsNone(act, sh, tid, x, sh', x');
    } else if Reg(x') {
      OwnThrough(sh, tid, x, act, sh', x');
    }
  }

  lemma OnlyPlans(act: Act, sh: Shared, tid: Tid, x: Thread, sh': Shared, x': Thread)
    requires ThreadStep(act, sh, tid, x, sh', x') && x'.pc.Free? && x'.pc.stage.Planning?
    ensures act.FreePlan?
  {
    hide *;
    if FreeAct(act) {
      FreeShape(act, sh, tid, x, sh', x');
      OnlyPlansFree(act, sh, tid, x, sh', x');
    } else {
      FreeEnters(act, sh, tid, x, sh', x');
    }
  }

  lemma OnlyPlansFree(act: Act, sh: Shared, tid: Tid, x: Thread, sh': Shared, x': Thread)
    requires FreeAct(act) && FreeStep(act, sh, tid, x, sh', x') && x'.pc.Free? && x'.pc.stage.Planning?
    ensures act.FreePlan?
  {
  }

  /** What a free knows of the world it plans for. */
  ghost predicate PlanBase(sh: Shared, x: Thread) {
    x.pc.Free? && (x.pc.stage.Trying? || x.pc.stage.Planning?) ==>
      var s := x.pc.stage.s;
      WorldWinOk(s.world) && Extends(s.world.win, W(sh).win) && s.world.ts <= W(sh).ts
      && s.at.w in sh.heap && (s.at.w == sh.cur.w ==> s.world == W(sh))
  }

  lemma PlanBaseHolds(sh: Shared, tid: Tid, x: Thread)
    requires ThreadOk(sh, tid, x) && HeapWinOk(sh.heap) && Windowed(W(sh).win, x)
    ensures PlanBase(sh, x)
  {
    if x.pc.Free? && (x.pc.stage.Trying? || x.pc.stage.Planning?) {
      var s := x.pc.stage.s;
      assert s in Seens(x) && SeenOk(sh, s) && SeenFresh(sh, Limit(x), s);
    }
  }

  lemma OwnPlans(sh: Shared, x: Thread, m: Mem, ss: Stores, act: Act, sh': Shared, x': Thread, ss': Stores)
    requires CurOk(sh) && PlanBase(sh, x) && Planned(sh.cur, m, ss, x) && Matches(m, ss, W(sh)) && Suffix(m)
    requires act.FreePlan? && DoFreePlan(sh, x, sh', x', act.plan)
    requires PlanStep(x.pc.stage, act.plan, act.op) && StoreStep(ss, act.op, ss')
    ensures Planned(sh'.cur, m, ss', x')
  {
    var s := x.pc.stage.s;
    PlanStepOk(m, ss, W(sh), s.world, x.pc.stage, s.at.w == sh.cur.w, act.plan, act.op, ss');
  }

  lemma PlanOp(act: Act, sh: Shared, x: Thread)
    requires act.FreePlan? && RoomStep(act, x)
    ensures OpOf(act, sh, x) == act.op
  {
  }

  lemma PlanActs(act: Act, sh: Shared, tid: Tid, x: Thread, sh': Shared, x': Thread)
    requires act.FreePlan? && ThreadStep(act, sh, tid, x, sh', x')
    ensures DoFreePlan(sh, x, sh', x', act.plan)
  {
    hide StepOf;
    FreeShape(act, sh, tid, x, sh', x');
  }

  lemma PlanMem(m: Mem, tid: Tid, act: Act, sh: Shared, x: Thread)
    requires act.FreePlan?
    ensures NextMem(m, tid, OpOf(act, sh, x)) == m
  {
  }

  lemma OwnPlanned(s: State, ss: Stores, tid: Tid, act: Act, s': State, ss': Stores)
    requires Inv(s) && Coupled(s.sh, s.th, s.mem, ss) && tid in s.th && tid in s'.th
    requires ThreadStep(act, s.sh, tid, s.Th(tid), s'.sh, s'.Th(tid))
    requires RoomStep(act, s.Th(tid)) && StoreStep(ss, OpOf(act, s.sh, s.Th(tid)), ss')
    requires s'.mem == NextMem(s.mem, tid, OpOf(act, s.sh, s.Th(tid)))
    ensures Planned(s'.sh.cur, s'.mem, ss', s'.Th(tid))
  {
    hide Joint, RealStep, Step, Inv, Coupled, StoreStep, StepOf, OpOf, NextMem;
    var x, x' := s.Th(tid), s'.Th(tid);
    if x'.pc.Free? && x'.pc.stage.Planning? {
      OnlyPlans(act, s.sh, tid, x, s'.sh, x');
      OwnPlansOk(s, ss, tid, act, s', ss');
    }
  }

  lemma OwnPlansOk(s: State, ss: Stores, tid: Tid, act: Act, s': State, ss': Stores)
    requires Inv(s) && Coupled(s.sh, s.th, s.mem, ss) && tid in s.th && tid in s'.th && act.FreePlan?
    requires ThreadStep(act, s.sh, tid, s.Th(tid), s'.sh, s'.Th(tid))
    requires RoomStep(act, s.Th(tid)) && StoreStep(ss, OpOf(act, s.sh, s.Th(tid)), ss')
    requires s'.mem == NextMem(s.mem, tid, OpOf(act, s.sh, s.Th(tid)))
    ensures Planned(s'.sh.cur, s'.mem, ss', s'.Th(tid))
  {
    hide Joint, RealStep, Step, StoreStep, StepOf, OpOf, NextMem;
    var x, x' := s.Th(tid), s'.Th(tid);
    PlanOp(act, s.sh, x);
    PlanMem(s.mem, tid, act, s.sh, x);
    PlanActs(act, s.sh, tid, x, s'.sh, x');
    assert ThreadOk(s.sh, tid, x) && Windowed(W(s.sh).win, x) && Planned(s.sh.cur, s.mem, ss, x);
    PlanBaseHolds(s.sh, tid, x);
    SuffixHolds(s);
    OwnPlans(s.sh, x, s.mem, ss, act, s'.sh, x', ss');
  }

  /* ---- the others ---- */

  lemma OthersWindowed(sh: Shared, act: Act, sh': Shared, y: Thread)
    requires CurOk(sh) && WindowStep(sh, act, sh') && Windowed(W(sh).win, y) && (act.RemoveLast? ==> !Reg(y))
    ensures Windowed(W(sh').win, y)
  {
    if Reg(y) {
      forall s | s in Seens(y) ensures Extends(s.world.win, W(sh').win) {
        ExtendsTrans(s.world.win, W(sh).win, W(sh').win);
      }
    }
  }

  /** No entry at or before the current timestamp comes back to life. */
  lemma NoRevival(m: Mem, tid: Tid, op: Op, ts: nat, t: nat)
    requires Live(NextMem(m, tid, op), t) && t <= ts && (op.Create? ==> op.t > ts)
    ensures Live(m, t)
  {
  }

  lemma OthersPlanned(sh: Shared, m: Mem, ss: Stores, tid: Tid, op: Op, sh': Shared, ss': Stores, j: Tid, y: Thread)
    requires CurOk(sh) && Matches(m, ss, W(sh)) && PlanBase(sh, y) && Planned(sh.cur, m, ss, y)
    requires StoreStep(ss, op, ss') && (op.Unuse? ==> Reaching(m, W(sh), op.win, op.t))
    requires op.Create? ==> op.t == W(sh).ts + 1 && sh'.cur.w !in sh.heap
    requires Rely(sh, sh', j, y) && !op.FreeStores?
    ensures Planned(sh'.cur, NextMem(m, tid, op), ss', y)
  {
    hide StoreStep, NextMem;
    if y.pc.Free? && y.pc.stage.Planning? {
      var s := y.pc.stage.s;
      forall t: nat | Live(NextMem(m, tid, op), t) && t <= s.world.ts ensures Live(m, t) {
        NoRevival(m, tid, op, W(sh).ts, t);
      }
      PlanKept(m, ss, W(sh), op, NextMem(m, tid, op), ss', s.at.w == sh.cur.w, s.at.w == sh'.cur.w,
        s.world, y.pc.stage.plan);
    }
  }

  /** When the last thread leaves, or cleans up, no other is registered. */
  lemma LeavesAlone(s: State, tid: Tid, j: Tid)
    requires Inv(s) && tid in s.th && j in s.th && j != tid
    requires W(s.sh).n == 0 || (W(s.sh).n == 1 && Reg(s.Th(tid)))
    ensures !Reg(s.Th(j))
  {
    RegsCount(s.th, tid, j);
  }

  lemma LastWorld(s: State, tid: Tid, act: Act, s': State)
    requires Inv(s) && Step(s, tid, act, s') && act.RemoveLast?
    ensures CurOk(s.sh) && W(s.sh).n == 1 && Reg(s.Th(tid)) && !Reg(s'.Th(tid))
    ensures s'.Th(tid).pc == Cleaning(s.sh.cur.w, s'.sh.cur.w)
    ensures CurOk(s'.sh) && s'.sh.cur.w !in s.sh.heap && s'.sh.heap == s.sh.heap[s'.sh.cur.w := W(s'.sh)]
  {
    hide Joint, RealStep, Step;
    SwapActs(s, tid, act, s');
    assert ThreadOk(s.sh, tid, s.Th(tid));
    assert s.Th(tid).pc.s in Seens(s.Th(tid)) && SeenOk(s.sh, s.Th(tid).pc.s);
  }

  lemma CleanFacts(sh: Shared, tid: Tid, x: Thread, sh': Shared, x': Thread)
    requires ThreadOk(sh, tid, x) && SharedOk(sh) && DoClean(sh, x, sh', x')
    ensures W(sh).n == 0 && W(sh).ts == 0 && x.pc.b == sh.cur.w && x.pc.a in sh.heap
  {
    assert LockedOk(sh, x);
    assert Old(x.pc.a) in Duties(x) && PlaceIs(sh, Old(x.pc.a), Held(tid));
  }

  lemma CleanWorld(s: State, tid: Tid, act: Act, s': State)
    requires Inv(s) && Step(s, tid, act, s') && act.Clean?
    ensures CurOk(s.sh) && W(s.sh).n == 0 && W(s.sh).ts == 0
    ensures s.Th(tid).pc.Cleaning? && s.Th(tid).pc.b == s.sh.cur.w && s.Th(tid).pc.a in s.sh.heap
  {
    hide Joint, RealStep, Step;
    SwapActs(s, tid, act, s');
    assert ThreadOk(s.sh, tid, s.Th(tid));
    CleanFacts(s.sh, tid, s.Th(tid), s'.sh, s'.Th(tid));
  }

  /** What the operation of a step may be. */
  ghost predicate OpFacts(s: State, act: Act, op: Op, s': State) {
    && (op.Unuse? ==> Reaching(s.mem, W(s.sh), op.win, op.t))
    && (op.Create? ==> op.t == W(s.sh).ts + 1 && s'.sh.cur.w !in s.sh.heap)
    && (op.FreeStores? ==> act.Clean?)
  }

  lemma OpFactsHold(s: State, ss: Stores, tid: Tid, act: Act, s': State, ss': Stores)
    requires Inv(s) && Coupled(s.sh, s.th, s.mem, ss) && Step(s, tid, act, s')
    requires StoreStep(ss, OpOf(act, s.sh, s.Th(tid)), ss')
    ensures OpFacts(s, act, OpOf(act, s.sh, s.Th(tid)), s')
  {
    hide Inv, StepOf, StoreStep, OpOf, NextMem;
    if act.FreeSwap? {
      SwapOpFacts(s, tid, act, s');
    } else if !act.RemoveLast? && !act.Clean? {
      StayOpFacts(s, ss, tid, act, s', ss');
    } else {
      LeavingOpFacts(s, tid, act, s');
    }
  }

  lemma LeavingOpFacts(s: State, tid: Tid, act: Act, s': State)
    requires CurOk(s.sh) && tid in s.th && (act.RemoveLast? || act.Clean?)
    ensures OpFacts(s, act, OpOf(act, s.sh, s.Th(tid)), s')
  {
  }

  lemma StayOpFacts(s: State, ss: Stores, tid: Tid, act: Act, s': State, ss': Stores)
    requires Inv(s) && Coupled(s.sh, s.th, s.mem, ss) && Step(s, tid, act, s')
    requires StoreStep(ss, OpOf(act, s.sh, s.Th(tid)), ss') && !act.FreeSwap? && !act.RemoveLast? && !act.Clean?
    ensures OpFacts(s, act, OpOf(act, s.sh, s.Th(tid)), s')
  {
    hide Inv, StepOf, StoreStep;
    StepKind(act, s.sh, tid, s.Th(tid), s'.sh, s'.Th(tid));
    StayMatches(s, ss, tid, act, s'.sh, s'.Th(tid), ss');
  }

  lemma SwapOpFacts(s: State, tid: Tid, act: Act, s': State)
    requires Inv(s) && Step(s, tid, act, s') && act.FreeSwap?
    ensures OpFacts(s, act, OpOf(act, s.sh, s.Th(tid)), s')
  {
    hide Joint, RealStep, Step, Inv, Coupled, StoreStep, StepOf, OpOf, NextMem;
    SwapActShape(s, tid, act, s');
    SwapActs(s, tid, act, s');
  }

  /** A thread other than the stepping one keeps its windows and its plan in order. */
  lemma OtherCoupled(s: State, ss: Stores, tid: Tid, act: Act, op: Op, s': State, ss': Stores, j: Tid)
    requires Inv(s) && Coupled(s.sh, s.th, s.mem, ss) && j in s.th && j != tid
    requires OpFacts(s, act, op, s') && StoreStep(ss, op, ss') && s'.mem == NextMem(s.mem, tid, op)
    requires WindowStep(s.sh, act, s'.sh) && Rely(s.sh, s'.sh, j, s.Th(j))
    requires act.RemoveLast? || act.Clean? ==> !Reg(s.Th(j))
    ensures Windowed(W(s'.sh).win, s.Th(j)) && Planned(s'.sh.cur, s'.mem, ss', s.Th(j))
  {
    hide Joint, RealStep, Step, StoreStep, StepOf, OpOf, NextMem;
    var y := s.Th(j);
    assert ThreadOk(s.sh, j, y) && Windowed(W(s.sh).win, y) && Planned(s.sh.cur, s.mem, ss, y);
    OthersWindowed(s.sh, act, s'.sh, y);
    if y.pc.Free? {
      assert Local(y);
      PlanBaseHolds(s.sh, j, y);
      OthersPlanned(s.sh, s.mem, ss, tid, op, s'.sh, ss', j, y);
    }
  }

  /* ---- storages ---- */

  /** No world is ever changed where it is. */
  ghost predicate HeapKept(sh: Shared, sh': Shared) {
    forall a :: a in sh.heap && a in sh'.heap ==> sh'.heap[a] == sh.heap[a]
  }

  lemma HeapKeptHolds(s: State, tid: Tid, act: Act, s': State)
    requires Inv(s) && Step(s, tid, act, s') && WindowStep(s.sh, act, s'.sh)
    ensures HeapKept(s.sh, s'.sh)
  {
    hide Joint, RealStep, Step, Inv, Coupled, StoreStep, StepOf, OpOf, NextMem;
    if act.FreeSwap? {
      SwapActShape(s, tid, act, s');
      SwapActs(s, tid, act, s');
    } else if act.RemoveLast? {
      LastWorld(s, tid, act, s');
    }
  }

  /** A thread that cleans up keeps the world it cleans. */
  lemma CleanerHolds(sh: Shared, tid: Tid, x: Thread)
    requires SharedOk(sh) && ThreadOk(sh, tid, x) && x.pc.Cleaning?
    ensures x.pc.a in sh.heap && PlaceIs(sh, Old(sh.cur.w), Held(tid)) && W(sh).n == 0
  {
    assert LockedOk(sh, x);
    assert Old(x.pc.a) in Duties(x) && Old(x.pc.b) in Duties(x);
  }

  lemma OwnerKept(sh: Shared, sh': Shared, i: Tid, y: Thread, sid: Sid)
    requires SharedOk(sh') && ThreadOk(sh', i, y) && Cleans(sh, y, sid)
    requires HeapKept(sh, sh')
    ensures Cleans(sh', y, sid)
  {
    CleanerHolds(sh', i, y);
  }

  lemma CleanerOnlyCleans(act: Act, sh: Shared, tid: Tid, x: Thread, sh': Shared, x': Thread)
    requires ThreadStep(act, sh, tid, x, sh', x') && x.pc.Cleaning?
    ensures act.Clean?
  {
    hide StepOf;
    RegistersOrLeaves(act, sh, tid, x, sh', x');
    if RegisterAct(act) {
      RegisterShape(act, sh, tid, x, sh', x');
    } else {
      UnregisterShape(act, sh, tid, x, sh', x');
    }
  }

  lemma StoreKeys(ss: Stores, op: Op, ss': Stores, sid: Sid)
    requires StoreStep(ss, op, ss') && sid in ss' && sid !in ss
    ensures op.Create? && sid in op.win.stores
  {
  }

  lemma CurrentStoreOwned(s: State, tid: Tid, act: Act, s': State, sid: Sid)
    requires Inv(s) && Step(s, tid, act, s') && WindowStep(s.sh, act, s'.sh) && sid in W(s.sh).win.stores
    ensures Owned(s'.sh, s'.th, sid)
  {
    hide Joint, RealStep, Step, Inv, Coupled;
    if act.RemoveLast? {
      LastWorld(s, tid, act, s');
      assert Cleans(s'.sh, s'.Th(tid), sid);
    }
  }

  lemma CleanedStoreOwned(s: State, tid: Tid, act: Act, s': State, sid: Sid, i: Tid)
    requires Inv(s) && Step(s, tid, act, s') && Inv(s') && WindowStep(s.sh, act, s'.sh)
    requires i in s.th && i != tid && Cleans(s.sh, s.Th(i), sid)
    ensures Owned(s'.sh, s'.th, sid)
  {
    hide Joint, RealStep, Step, Inv, Coupled;
    HeapKeptHolds(s, tid, act, s');
    OtherStays(s, tid, act, s', i);
    ThreadHolds(s', i);
    OwnerKept(s.sh, s'.sh, i, s.Th(i), sid);
    assert Cleans(s'.sh, s'.Th(i), sid);
  }

  lemma FreedStoreGone(sh: Shared, tid: Tid, x: Thread, act: Act, sh': Shared, x': Thread, ss: Stores, ss': Stores,
      sid: Sid)
    requires ThreadStep(act, sh, tid, x, sh', x') && Cleans(sh, x, sid) && StoreStep(ss, OpOf(act, sh, x), ss')
    ensures sid !in ss'
  {
    hide StepOf;
    CleanerOnlyCleans(act, sh, tid, x, sh', x');
    assert sid in Elems(sh.heap[x.pc.a].win.stores);
  }

  /** A storage that was owned still is, unless the thread has just freed it. */
  lemma OldStoreOwned(s: State, ss: Stores, tid: Tid, act: Act, s': State, ss': Stores, sid: Sid)
    requires Inv(s) && Step(s, tid, act, s') && Inv(s') && WindowStep(s.sh, act, s'.sh)
    requires StoreStep(ss, OpOf(act, s.sh, s.Th(tid)), ss') && Owned(s.sh, s.th, sid) && sid in ss'
    ensures Owned(s'.sh, s'.th, sid)
  {
    hide Inv, StepOf, StoreStep, OpOf, NextMem;
    if sid in W(s.sh).win.stores {
      CurrentStoreOwned(s, tid, act, s', sid);
    } else {
      var i :| i in s.th && Cleans(s.sh, s.Th(i), sid);
      if i == tid {
        FreedStoreGone(s.sh, tid, s.Th(tid), act, s'.sh, s'.Th(tid), ss, ss', sid);
      } else {
        CleanedStoreOwned(s, tid, act, s', sid, i);
      }
    }
  }

  lemma StoresStay(s: State, ss: Stores, tid: Tid, act: Act, s': State, ss': Stores)
    requires Inv(s) && Step(s, tid, act, s') && Inv(s') && WindowStep(s.sh, act, s'.sh)
    requires StoreStep(ss, OpOf(act, s.sh, s.Th(tid)), ss') && forall sid :: sid in ss ==> Owned(s.sh, s.th, sid)
    ensures forall sid :: sid in ss' ==> Owned(s'.sh, s'.th, sid)
  {
    hide *;
    forall sid | sid in ss' ensures Owned(s'.sh, s'.th, sid) {
      if sid in ss {
        OldStoreOwned(s, ss, tid, act, s', ss', sid);
      } else {
        StoreKeys(ss, OpOf(act, s.sh, s.Th(tid)), ss', sid);
        NewStoreOwned(s, tid, act, s', sid);
      }
    }
  }

  lemma NewStoreOwned(s: State, tid: Tid, act: Act, s': State, sid: Sid)
    requires Inv(s) && Step(s, tid, act, s')
    requires var op := OpOf(act, s.sh, s.Th(tid)); op.Create? && sid in op.win.stores
    ensures Owned(s'.sh, s'.th, sid)
  {
    hide Joint, RealStep, Step, Inv, Coupled, StoreStep, StepOf, OpOf, NextMem;
    CreateAct(act, s.sh, s.Th(tid));
    SwapActShape(s, tid, act, s');
  }

  lemma CreateAct(act: Act, sh: Shared, x: Thread)
    requires OpOf(act, sh, x).Create?
    ensures act.FreeSwap?
  {
  }

  /* ---- one step ---- */

  /** The protocol's state and invariant, together with the storages it runs on. */
  ghost predicate Joint(c: Real, m: Mem) {
    Inv(State(c.sh, c.th, m)) && Coupled(c.sh, c.th, m, c.ss)
  }

  lemma OwnCoupled(s: State, ss: Stores, tid: Tid, act: Act, s': State, ss': Stores)
    requires Inv(s) && Coupled(s.sh, s.th, s.mem, ss) && Step(s, tid, act, s') && WindowStep(s.sh, act, s'.sh)
    requires RoomStep(act, s.Th(tid)) && StoreStep(ss, OpOf(act, s.sh, s.Th(tid)), ss')
    requires s'.mem == NextMem(s.mem, tid, OpOf(act, s.sh, s.Th(tid)))
    ensures Windowed(W(s'.sh).win, s'.Th(tid)) && Planned(s'.sh.cur, s'.mem, ss', s'.Th(tid))
  {
    hide Inv, StepOf, StoreStep, OpOf;
    OwnPlanned(s, ss, tid, act, s', ss');
    OwnWindow(s, tid, act, s');
  }

  lemma OwnWindow(s: State, tid: Tid, act: Act, s': State)
    requires Inv(s) && Step(s, tid, act, s') && WindowStep(s.sh, act, s'.sh) && Windowed(W(s.sh).win, s.Th(tid))
    ensures Windowed(W(s'.sh).win, s'.Th(tid))
  {
    hide StepOf;
    assert ThreadOk(s.sh, tid, s.Th(tid));
    if act.FreeSwap? { SwapActShape(s, tid, act, s'); }
    if act.RemoveLast? { LastWorld(s, tid, act, s'); }
    OwnWindowed(s.sh, tid, s.Th(tid), act, s'.sh, s'.Th(tid));
  }

  lemma EachOtherCoupled(s: State, ss: Stores, tid: Tid, act: Act, s': State, ss': Stores, j: Tid)
    requires Inv(s) && Coupled(s.sh, s.th, s.mem, ss) && Step(s, tid, act, s') && WindowStep(s.sh, act, s'.sh)
    requires StoreStep(ss, OpOf(act, s.sh, s.Th(tid)), ss') && j in s.th && j != tid
    requires s'.mem == NextMem(s.mem, tid, OpOf(act, s.sh, s.Th(tid)))
    ensures Windowed(W(s'.sh).win, s.Th(j)) && Planned(s'.sh.cur, s'.mem, ss', s.Th(j))
  {
    hide *;
    OpFactsHold(s, ss, tid, act, s', ss');
    ActRely(s, tid, act, s', j);
    GoneAlone(s, tid, act, s', j);
    OtherCoupled(s, ss, tid, act, OpOf(act, s.sh, s.Th(tid)), s', ss', j);
  }

  lemma GoneAlone(s: State, tid: Tid, act: Act, s': State, j: Tid)
    requires Inv(s) && Step(s, tid, act, s') && j in s.th && j != tid
    ensures act.RemoveLast? || act.Clean? ==> !Reg(s.Th(j))
  {
    hide Joint, RealStep, Step, Inv, Coupled;
    if act.RemoveLast? {
      LastWorld(s, tid, act, s');
      LeavesAlone(s, tid, j);
    } else if act.Clean? {
      CleanWorld(s, tid, act, s');
      LeavesAlone(s, tid, j);
    }
  }

  lemma OthersCoupled(s: State, ss: Stores, tid: Tid, act: Act, s': State, ss': Stores)
    requires Inv(s) && Coupled(s.sh, s.th, s.mem, ss) && Step(s, tid, act, s') && WindowStep(s.sh, act, s'.sh)
    requires StoreStep(ss, OpOf(act, s.sh, s.Th(tid)), ss')
    requires s'.mem == NextMem(s.mem, tid, OpOf(act, s.sh, s.Th(tid)))
    ensures forall j :: j in s.th && j != tid ==>
      Windowed(W(s'.sh).win, s.Th(j)) && Planned(s'.sh.cur, s'.mem, ss', s.Th(j))
  {
    hide *;
    forall j | j in s.th && j != tid
      ensures Windowed(W(s'.sh).win, s.Th(j)) && Planned(s'.sh.cur, s'.mem, ss', s.Th(j))
    {
      EachOtherCoupled(s, ss, tid, act, s', ss', j);
    }
  }

  lemma AssembleCoupled(sh: Shared, act: Act, sh': Shared, th: map<Tid, Thread>, tid: Tid, x': Thread, m': Mem,
      ss': Stores)
    requires CurOk(sh) && WindowStep(sh, act, sh') && Matches(m', ss', W(sh'))
    requires forall sid :: sid in ss' ==> Owned(sh', th[tid := x'], sid)
    requires Windowed(W(sh').win, x') && Planned(sh'.cur, m', ss', x')
    requires forall j :: j in th && j != tid ==> Windowed(W(sh').win, th[j]) && Planned(sh'.cur, m', ss', th[j])
    ensures Coupled(sh', th[tid := x'], m', ss')
  {
  }

  lemma StepCoupled(s: State, ss: Stores, tid: Tid, act: Act, s': State, ss': Stores)
    requires Inv(s) && Inv(s') && Coupled(s.sh, s.th, s.mem, ss) && Step(s, tid, act, s')
    requires RoomStep(act, s.Th(tid)) && StoreStep(ss, OpOf(act, s.sh, s.Th(tid)), ss')
    requires s'.mem == NextMem(s.mem, tid, OpOf(act, s.sh, s.Th(tid)))
    ensures Coupled(s'.sh, s'.th, s'.mem, ss')
  {
    hide Matches, Planned, Windowed, Owned, StepOf, StoreStep, OpOf, NextMem;
    NextMatches(s, ss, tid, act, s', ss');
    StoresStay(s, ss, tid, act, s', ss');
    OwnCoupled(s, ss, tid, act, s', ss');
    OthersCoupled(s, ss, tid, act, s', ss');
    AssembleCoupled(s.sh, act, s'.sh, s.th, tid, s'.Th(tid), s'.mem, ss');
  }

  /** A step in memory is a step of the protocol on the entries, and keeps invariant and coupling. */
  lemma RealStepOk(c: Real, m: Mem, tid: Tid, act: Act, c': Real, m': Mem)
    requires Joint(c, m) && RealStep(c, tid, act, c') && m' == NextMem(m, tid, OpOf(act, c.sh, c.Th(tid)))
    ensures Step(State(c.sh, c.th, m), tid, act, State(c'.sh, c'.th, m')) && Joint(c', m')
  {
    hide StepOf, StoreStep, OpOf, NextMem;
    var s, s' := State(c.sh, c.th, m), State(c'.sh, c'.th, m');
    RealIsStep(s, c.ss, tid, act, s', c'.ss);
    StepInv(s, tid, act, s');
    StepCoupled(s, c.ss, tid, act, s', c'.ss);
  }

  lemma RealInitOk(c: Real, m: Mem)
    requires RealInit(c) && m == EMPTY_MEM
    ensures Joint(c, m)
  {
    InitInv(State(c.sh, c.th, m));
  }
}
