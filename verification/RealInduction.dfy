/** The machine that runs on storages in memory refines the protocol, step by step. */
module RealInduction {
  import opened AbaTypes
  import opened Protocol
  import opened Invariant
  import opened Entries
  import opened Machine
  import opened Windows
  import opened Storages
  import opened Refinement
  import opened Planning
  import opened Simulation
  import opened Coupling
  import opened CouplingSteps
  import opened RealSteps
  import opened RealWindows

  /* ---- entries and windows ---- */

  predicate QuietOp(op: Op) { op.Nop? || op.Probe? || op.MarkUse? }

  lemma OpKind(act: Act, sh: Shared, x: Thread)
    requires !WalkOpAct(act) && !AppendOpAct(act) && !act.FreeSwap? && !act.RemoveLast? && !act.Clean?
    ensures QuietOp(OpOf(act, sh, x))
  {
  }

  /** A step that creates no timestamp leaves the storages in order for the world it found. */
  lemma StayMatches(s: State, ss: Stores, tid: Tid, act: Act, sh': Shared, x': Thread, ss': Stores)
    requires Inv(s) && Coupled(s.sh, s.th, s.mem, ss) && tid in s.th
    requires WalkOpAct(act) ==> WalkingStep(act, s.sh, tid, s.Th(tid), sh', x')
    requires AppendOpAct(act) ==> FreeStep(act, s.sh, tid, s.Th(tid), sh', x')
    requires StoreStep(ss, OpOf(act, s.sh, s.Th(tid)), ss') && !act.FreeSwap? && !act.RemoveLast? && !act.Clean?
    ensures Matches(NextMem(s.mem, tid, OpOf(act, s.sh, s.Th(tid))), ss', W(s.sh))
    ensures var op := OpOf(act, s.sh, s.Th(tid));
      (op.Unuse? ==> Reaching(s.mem, W(s.sh), op.win, op.t)) && (QuietOp(op) || SlotOp(op))
  {
    hide StepOf;
    if WalkOpAct(act) || AppendOpAct(act) {
      SlotActSim(s, ss, tid, act, sh', x', ss');
    } else {
      OpKind(act, s.sh, s.Th(tid));
      UseMatches(s.mem, ss, W(s.sh), OpOf(act, s.sh, s.Th(tid)), ss');
    }
  }

  lemma HeapWin(sh: Shared, sh': Shared)
    requires CurOk(sh) && HeapWinOk(sh.heap) && SameWin(sh, sh')
    ensures HeapWinOk(sh'.heap)
  {
  }

  lemma PublishHeapWin(sh: Shared, tid: Tid, a: Addr, w: World, bit: bool, lock: bool)
    requires HeapWinOk(sh.heap) && WorldWinOk(w)
    ensures HeapWinOk(Publish(sh, tid, a, w, bit, lock).heap)
  {
  }

  /** What a step does to the window: nothing, or a later one, or a reset. */
  ghost predicate WindowStep(sh: Shared, act: Act, sh': Shared) {
    && CurOk(sh') && HeapWinOk(sh'.heap)
    && (!act.RemoveLast? ==> Extends(W(sh).win, W(sh').win))
    && (!act.RemoveLast? && !act.FreeSwap? ==> SameWin(sh, sh'))
  }

  lemma StaySame(s: State, tid: Tid, act: Act, s': State)
    requires Inv(s) && Step(s, tid, act, s') && CurOk(s'.sh) && !act.FreeSwap? && !act.RemoveLast?
    ensures SameWin(s.sh, s'.sh)
  {
    hide StepOf;
    StepSame(s.sh, tid, s.Th(tid), act, s'.sh, s'.Th(tid));
  }

  lemma StepSame(sh: Shared, tid: Tid, x: Thread, act: Act, sh': Shared, x': Thread)
    requires ThreadOk(sh, tid, x) && ThreadStep(act, sh, tid, x, sh', x')
    requires CurOk(sh') && !act.FreeSwap? && !act.RemoveLast?
    ensures SameWin(sh, sh')
  {
    hide StepOf;
    if Swaps(act) {
      SwapSameWin(act, sh, tid, x, sh', x');
    } else {
      StaySameWin(act, sh, tid, x, sh', x');
    }
  }

  lemma FreeSwapShape(sh: Shared, tid: Tid, x: Thread, act: Act, sh': Shared, x': Thread)
    requires ThreadOk(sh, tid, x) && act.FreeSwap? && DoFreeSwap(sh, tid, x, sh', x', act.a, act.win)
    ensures x.pc.stage.s.world == W(sh) && x.pc.stage.s.at == sh.cur
    ensures OpOf(act, sh, x) == Create(W(sh).win, act.win, W(sh).ts + 1)
    ensures sh'.heap == sh.heap[act.a := World(W(sh).ts + 1, W(sh).n, act.win)] && sh'.cur.w == act.a
  {
    assert x.pc.stage.s in Seens(x) && SeenOk(sh, x.pc.stage.s);
  }

  lemma FreeSwapMatches(sh: Shared, tid: Tid, m: Mem, ss: Stores, plan: Plan, act: Act, sh': Shared, ss': Stores)
    requires CurOk(sh) && act.FreeSwap?
    requires sh'.heap == sh.heap[act.a := World(W(sh).ts + 1, W(sh).n, act.win)] && sh'.cur.w == act.a
    requires HeapWinOk(sh.heap) && Matches(m, ss, W(sh)) && FinishedIsPristine(m) && PlanOk(m, ss, true, W(sh), plan)
    requires SwapStep(Seen(sh.cur, W(sh)), plan, act.win)
    requires StoreStep(ss, Create(W(sh).win, act.win, W(sh).ts + 1), ss')
    ensures CurOk(sh') && Matches(NextMem(m, tid, Create(W(sh).win, act.win, W(sh).ts + 1)), ss', W(sh'))
    ensures WindowStep(sh, act, sh')
  {
    var op := Create(W(sh).win, act.win, W(sh).ts + 1);
    SwapMatches(m, ss, Seen(sh.cur, W(sh)), plan, act.win, ss', NextMem(m, tid, op), W(sh'));
  }

  lemma LastMatches(sh: Shared, tid: Tid, x: Thread, m: Mem, ss: Stores, act: Act, sh': Shared, x': Thread)
    requires ThreadOk(sh, tid, x) && act.RemoveLast? && DoRemoveLast(sh, tid, x, sh', x', act.a)
    requires HeapWinOk(sh.heap) && Matches(m, ss, W(sh))
    ensures CurOk(sh') && Matches(EMPTY_MEM, ss, W(sh')) && WindowStep(sh, act, sh')
  {
    assert x.pc.s in Seens(x) && SeenOk(sh, x.pc.s);
    ResetMatches(m, ss, W(sh), W(sh'));
    PublishHeapWin(sh, tid, act.a, W(sh'), false, true);
  }

  lemma CleanMatches(sh: Shared, tid: Tid, x: Thread, m: Mem, ss: Stores, sh': Shared, x': Thread, ss': Stores)
    requires ThreadOk(sh, tid, x) && SharedOk(sh) && DoClean(sh, x, sh', x') && Matches(m, ss, W(sh))
    ensures Matches(m, ss', W(sh))
  {
    NoStoresMatches(m, ss, W(sh), ss');
  }

  ghost predicate SwapShape(act: Act, sh: Shared, x: Thread, sh': Shared) {
    && act.FreeSwap? && x.pc.Free? && x.pc.stage.Planning?
    && x.pc.stage.s == Now(sh)
    && OpOf(act, sh, x) == Create(W(sh).win, act.win, W(sh).ts + 1)
    && sh'.heap == sh.heap[act.a := World(W(sh).ts + 1, W(sh).n, act.win)] && sh'.cur.w == act.a
  }

  lemma ShapedSwapMatches(sh: Shared, tid: Tid, x: Thread, m: Mem, ss: Stores, act: Act, sh': Shared, ss': Stores)
    requires CurOk(sh) && SwapShape(act, sh, x, sh') && RoomStep(act, x)
    requires HeapWinOk(sh.heap) && Matches(m, ss, W(sh)) && FinishedIsPristine(m) && Planned(sh.cur, m, ss, x)
    requires StoreStep(ss, OpOf(act, sh, x), ss')
    ensures CurOk(sh') && Matches(NextMem(m, tid, OpOf(act, sh, x)), ss', W(sh')) && WindowStep(sh, act, sh')
  {
    hide StepOf, StoreStep, OpOf, NextMem;
    FreeSwapMatches(sh, tid, m, ss, x.pc.stage.plan, act, sh', ss');
  }

  lemma SwapActShape(s: State, tid: Tid, act: Act, s': State)
    requires Inv(s) && Step(s, tid, act, s') && act.FreeSwap?
    ensures SwapShape(act, s.sh, s.Th(tid), s'.sh)
  {
    hide Inv, StepOf, StoreStep, OpOf, NextMem;
    FreeSwapStepShape(act, s.sh, tid, s.Th(tid), s'.sh, s'.Th(tid));
    ThreadHolds(s, tid);
    FreeSwapShape(s.sh, tid, s.Th(tid), act, s'.sh, s'.Th(tid));
  }

  lemma SwapActs(s: State, tid: Tid, act: Act, s': State)
    requires Step(s, tid, act, s')
    ensures act.FreeSwap? ==> DoFreeSwap(s.sh, tid, s.Th(tid), s'.sh, s'.Th(tid), act.a, act.win)
    ensures act.RemoveLast? ==> DoRemoveLast(s.sh, tid, s.Th(tid), s'.sh, s'.Th(tid), act.a) && s'.mem == EMPTY_MEM
    ensures act.Clean? ==> DoClean(s.sh, s.Th(tid), s'.sh, s'.Th(tid)) && s'.mem == s.mem
  {
    hide StepOf;
    if act.FreeSwap? { FreeSwapStepShape(act, s.sh, tid, s.Th(tid), s'.sh, s'.Th(tid)); }
    if act.RemoveLast? || act.Clean? { UnregisterShape(act, s.sh, tid, s.Th(tid), s'.sh, s'.Th(tid)); }
  }

  lemma SwapActMatches(s: State, ss: Stores, tid: Tid, act: Act, s': State, ss': Stores)
    requires Inv(s) && Coupled(s.sh, s.th, s.mem, ss) && tid in s.th && act.FreeSwap?
    requires SwapShape(act, s.sh, s.Th(tid), s'.sh) && RoomStep(act, s.Th(tid))
    requires StoreStep(ss, OpOf(act, s.sh, s.Th(tid)), ss')
    requires s'.mem == NextMem(s.mem, tid, OpOf(act, s.sh, s.Th(tid)))
    ensures CurOk(s'.sh) && Matches(s'.mem, ss', W(s'.sh)) && WindowStep(s.sh, act, s'.sh)
  {
    hide Inv, StepOf, StoreStep, OpOf, NextMem;
    FinishedHolds(s);
    assert Planned(s.sh.cur, s.mem, ss, s.Th(tid));
    ShapedSwapMatches(s.sh, tid, s.Th(tid), s.mem, ss, act, s'.sh, ss');
  }

  lemma LastActMatches(s: State, ss: Stores, tid: Tid, act: Act, s': State)
    requires Inv(s) && Coupled(s.sh, s.th, s.mem, ss) && tid in s.th && tid in s'.th && act.RemoveLast?
    requires DoRemoveLast(s.sh, tid, s.Th(tid), s'.sh, s'.Th(tid), act.a) && s'.mem == EMPTY_MEM
    ensures CurOk(s'.sh) && Matches(s'.mem, ss, W(s'.sh)) && WindowStep(s.sh, act, s'.sh)
  {
    hide RealStep, Step;
    assert ThreadOk(s.sh, tid, s.Th(tid));
    LastMatches(s.sh, tid, s.Th(tid), s.mem, ss, act, s'.sh, s'.Th(tid));
  }

  lemma CleanActMatches(s: State, ss: Stores, tid: Tid, act: Act, s': State, ss': Stores)
    requires Inv(s) && Coupled(s.sh, s.th, s.mem, ss) && tid in s.th && tid in s'.th && act.Clean?
    requires DoClean(s.sh, s.Th(tid), s'.sh, s'.Th(tid)) && s'.mem == s.mem
    ensures Matches(s'.mem, ss', W(s.sh))
  {
    hide RealStep, Step;
    assert ThreadOk(s.sh, tid, s.Th(tid));
    CleanMatches(s.sh, tid, s.Th(tid), s.mem, ss, s'.sh, s'.Th(tid), ss');
  }

  lemma SameWinStep(sh: Shared, act: Act, sh': Shared, m: Mem, ss: Stores)
    requires CurOk(sh) && HeapWinOk(sh.heap) && SameWin(sh, sh') && Matches(m, ss, W(sh))
    ensures Matches(m, ss, W(sh')) && WindowStep(sh, act, sh')
  {
    HeapWin(sh, sh');
    MatchesSame(m, ss, W(sh), W(sh'));
    ExtendsItself(W(sh).win);
  }

  lemma StayNextMatches(s: State, ss: Stores, tid: Tid, act: Act, s': State, ss': Stores)
    requires Inv(s) && Coupled(s.sh, s.th, s.mem, ss) && Step(s, tid, act, s') && CurOk(s'.sh)
    requires !act.FreeSwap? && !act.RemoveLast? && !act.Clean?
    requires StoreStep(ss, OpOf(act, s.sh, s.Th(tid)), ss')
    requires s'.mem == NextMem(s.mem, tid, OpOf(act, s.sh, s.Th(tid)))
    ensures Matches(s'.mem, ss', W(s.sh))
  {
    hide Inv, StepOf, StoreStep;
    StepKind(act, s.sh, tid, s.Th(tid), s'.sh, s'.Th(tid));
    StayMatches(s, ss, tid, act, s'.sh, s'.Th(tid), ss');
  }

  lemma SwapNextMatches(s: State, ss: Stores, tid: Tid, act: Act, s': State, ss': Stores)
    requires Inv(s) && Coupled(s.sh, s.th, s.mem, ss) && Step(s, tid, act, s') && act.FreeSwap?
    requires RoomStep(act, s.Th(tid)) && StoreStep(ss, OpOf(act, s.sh, s.Th(tid)), ss')
    requires s'.mem == NextMem(s.mem, tid, OpOf(act, s.sh, s.Th(tid)))
    ensures CurOk(s'.sh) && Matches(s'.mem, ss', W(s'.sh)) && WindowStep(s.sh, act, s'.sh)
  {
    hide RealStep, Step, Inv, Coupled, StoreStep, StepOf, OpOf, NextMem;
    SwapActShape(s, tid, act, s');
    SwapActMatches(s, ss, tid, act, s', ss');
  }

  lemma CleanNextMatches(s: State, ss: Stores, tid: Tid, act: Act, s': State, ss': Stores)
    requires Inv(s) && Coupled(s.sh, s.th, s.mem, ss) && Step(s, tid, act, s') && act.Clean?
    ensures Matches(s'.mem, ss', W(s.sh))
  {
    hide RealStep, Step, Inv, Coupled;
    SwapActs(s, tid, act, s');
    CleanActMatches(s, ss, tid, act, s', ss');
  }

  lemma RestNextMatches(s: State, ss: Stores, tid: Tid, act: Act, s': State, ss': Stores)
    requires Inv(s) && Coupled(s.sh, s.th, s.mem, ss) && Step(s, tid, act, s') && CurOk(s'.sh)
    requires !act.FreeSwap? && !act.RemoveLast? && StoreStep(ss, OpOf(act, s.sh, s.Th(tid)), ss')
    requires s'.mem == NextMem(s.mem, tid, OpOf(act, s.sh, s.Th(tid)))
    ensures Matches(s'.mem, ss', W(s.sh))
  {
    hide *;
    if act.Clean? {
      CleanNextMatches(s, ss, tid, act, s', ss');
    } else {
      StayNextMatches(s, ss, tid, act, s', ss');
    }
  }

  lemma RestNextWindow(s: State, tid: Tid, act: Act, s': State, ss': Stores)
    requires Inv(s) && HeapWinOk(s.sh.heap) && Step(s, tid, act, s') && CurOk(s'.sh)
    requires !act.FreeSwap? && !act.RemoveLast? && Matches(s'.mem, ss', W(s.sh))
    ensures WindowStep(s.sh, act, s'.sh) && Matches(s'.mem, ss', W(s'.sh))
  {
    hide RealStep, Step, Inv, Coupled;
    StaySame(s, tid, act, s');
    SameWinStep(s.sh, act, s'.sh, s'.mem, ss');
  }

  lemma ForgetKeeps(act: Act, sh: Shared, x: Thread, ss: Stores, ss': Stores)
    requires act.RemoveLast? && StoreStep(ss, OpOf(act, sh, x), ss')
    ensures ss' == ss
  {
  }

  lemma LastNextMatches(s: State, ss: Stores, tid: Tid, act: Act, s': State)
    requires Inv(s) && Coupled(s.sh, s.th, s.mem, ss) && Step(s, tid, act, s') && act.RemoveLast?
    ensures CurOk(s'.sh) && Matches(s'.mem, ss, W(s'.sh)) && WindowStep(s.sh, act, s'.sh)
  {
    hide RealStep, Step, Inv, Coupled;
    SwapActs(s, tid, act, s');
    LastActMatches(s, ss, tid, act, s');
  }

  /** The storages are in order for the world a step leaves. */
  lemma NextMatches(s: State, ss: Stores, tid: Tid, act: Act, s': State, ss': Stores)
    requires Inv(s) && Coupled(s.sh, s.th, s.mem, ss) && Step(s, tid, act, s') && CurOk(s'.sh)
    requires RoomStep(act, s.Th(tid)) && StoreStep(ss, OpOf(act, s.sh, s.Th(tid)), ss')
    requires s'.mem == NextMem(s.mem, tid, OpOf(act, s.sh, s.Th(tid)))
    ensures Matches(s'.mem, ss', W(s'.sh)) && WindowStep(s.sh, act, s'.sh)
  {
    hide Inv, StepOf, StoreStep, OpOf, NextMem;
    if act.FreeSwap? {
      SwapNextMatches(s, ss, tid, act, s', ss');
    } else if act.RemoveLast? {
      ForgetKeeps(act, s.sh, s.Th(tid), ss, ss');
      LastNextMatches(s, ss, tid, act, s');
    } else {
      RestNextMatches(s, ss, tid, act, s', ss');
      RestNextWindow(s, tid, act, s', ss');
    }
  }
}
