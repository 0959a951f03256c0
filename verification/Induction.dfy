/** The invariant holds in every state the protocol can reach. */
module Induction {
  import opened AbaTypes
  import opened Protocol
  import opened Invariant
  import opened ThreadSteps
  import opened Interference
  import opened Places
  import opened Entries
  import opened Machine
  import opened Preservation
  import opened Bookkeeping
  import opened Counting

  /* ---- the stepping thread ---- */

  lemma ActOwn(s: State, tid: Tid, act: Act, s': State)
    requires Inv(s) && Step(s, tid, act, s')
    ensures Own(s'.sh, tid, s'.Th(tid))
  {
    hide Inv, StepOf, OpOf, NextMem;
    ThreadHolds(s, tid);
    if WalkAct(act) {
      ActWalkOwn(s, tid, act, s');
    } else {
      CountedIn(s, tid);
      OtherOwn(s.sh, tid, s.Th(tid), act, s'.sh, s'.Th(tid));
    }
  }

  lemma CountedIn(s: State, tid: Tid)
    requires Inv(s) && tid in s.th
    ensures Reg(s.Th(tid)) ==> W(s.sh).n > 0
  {
    hide *;
    if Reg(s.Th(tid)) { SomeoneRegistered(s, tid); }
  }

  lemma OtherOwn(sh: Shared, tid: Tid, x: Thread, act: Act, sh': Shared, x': Thread)
    requires SharedOk(sh) && ThreadOk(sh, tid, x) && (Reg(x) ==> W(sh).n > 0)
    requires ThreadStep(act, sh, tid, x, sh', x') && !WalkAct(act)
    ensures Own(sh', tid, x')
  {
    if RegisterAct(act) {
      RegisterShape(act, sh, tid, x, sh', x');
      RegisterOwn(sh, tid, x, act, sh', x');
    } else if FreeAct(act) {
      FreeShape(act, sh, tid, x, sh', x');
      FreeOwn(sh, tid, x, act, sh', x');
    } else if CheckinAct(act) {
      CheckinShape(act, sh, tid, x, sh', x');
      CheckinReg(sh, tid, x, act, sh', x');
      CheckinOwn(sh, tid, x, act, sh', x');
    } else {
      UnregisterShape(act, sh, tid, x, sh', x');
      UnregisterOwn(sh, tid, x, act, sh', x');
    }
  }

  /** Everything on a list was assigned to it. */
  lemma SnipAssigned(sh: Shared, m: Mem, tid: Tid, op: Op, m': Mem)
    requires ListsOk(sh, m) && op.PeekList? && MemStep(m, tid, op, m')
    ensures forall it :: it in op.list ==> Slotted(sh, it, op.t)
  {
  }

  lemma SnipFacts(s: State, tid: Tid, act: Act, s': State)
    requires Inv(s) && Step(s, tid, act, s') && act.SnipList?
    ensures WalkingStep(act, s.sh, tid, s.Th(tid), s'.sh, s'.Th(tid))
    ensures forall it :: it in act.list ==> Slotted(s.sh, it, s.Th(tid).pc.t)
  {
    hide StepOf;
    WalkShape(act, s.sh, tid, s.Th(tid), s'.sh, s'.Th(tid));
    SnipAssigned(s.sh, s.mem, tid, OpOf(act, s.sh, s.Th(tid)), s'.mem);
  }

  lemma WalkFacts(s: State, tid: Tid, act: Act, s': State)
    requires Inv(s) && Step(s, tid, act, s') && WalkAct(act)
    ensures WalkingStep(act, s.sh, tid, s.Th(tid), s'.sh, s'.Th(tid))
    ensures Own(s.sh, tid, s.Th(tid)) && NullListed(s.sh, s.Th(tid))
  {
    hide StepOf, OpOf, NextMem;
    WalkShape(act, s.sh, tid, s.Th(tid), s'.sh, s'.Th(tid));
    NullIsListed(s, tid);
  }

  lemma ActWalkOwn(s: State, tid: Tid, act: Act, s': State)
    requires Inv(s) && Step(s, tid, act, s') && WalkAct(act)
    ensures Own(s'.sh, tid, s'.Th(tid))
  {
    hide *;
    WalkFacts(s, tid, act, s');
    if act.SnipList? { SnipFacts(s, tid, act, s'); }
    WalkingOwn(s.sh, tid, s.Th(tid), act, s'.sh, s'.Th(tid));
  }

  lemma WalkingOwn(sh: Shared, tid: Tid, x: Thread, act: Act, sh': Shared, x': Thread)
    requires Own(sh, tid, x) && WalkAct(act) && WalkingStep(act, sh, tid, x, sh', x') && NullListed(sh, x)
    requires act.SnipList? ==> forall it :: it in act.list ==> Slotted(sh, it, x.pc.t)
    ensures Own(sh', tid, x')
  {
    if act.WipeList? || act.RunItem? || act.WalkDone? {
      WalkOwn(sh, tid, x, act, sh', x');
    } else {
      WalkOnOwn(sh, tid, x, act, sh', x');
    }
  }

  /* ---- the others ---- */

  lemma ActRely(s: State, tid: Tid, act: Act, s': State, j: Tid)
    requires Inv(s) && Step(s, tid, act, s') && j in s.th && j != tid
    ensures Rely(s.sh, s'.sh, j, s.Th(j))
  {
    hide Inv, StepOf, OpOf, NextMem;
    var x, x', y := s.Th(tid), s'.Th(tid), s.Th(j);
    PairHolds(s, tid, j);
    PairRely(s.sh, tid, x, act, s'.sh, x', j, y) by {
      if x.pc.Walk? && x.pc.phase != Dec && Reg(y) { DrainedMeansPassed(s, tid, j); }
    }
  }

  lemma PairRely(sh: Shared, tid: Tid, x: Thread, act: Act, sh': Shared, x': Thread, j: Tid, y: Thread)
    requires Pair(sh, tid, x, j, y) && ThreadStep(act, sh, tid, x, sh', x')
    requires x.pc.Walk? && x.pc.phase != Dec && Reg(y) ==> Next(y) > x.pc.t
    ensures Rely(sh, sh', j, y)
  {
    hide Step;
    if SameShared(act) {
      NothingShared(sh, tid, x, act, sh', x');
      SharedSteps.RelySame(sh, j, y);
    } else if FreeAct(act) {
      FreeShape(act, sh, tid, x, sh', x');
      PairRelyFreeing(sh, tid, x, act, sh', x', j, y);
    } else if CheckinAct(act) {
      CheckinShape(act, sh, tid, x, sh', x');
      CheckinRely(sh, tid, x, act, sh', x', j, y);
    } else if WalkAct(act) {
      WalkShape(act, sh, tid, x, sh', x');
      WalkRely(sh, tid, x, act, sh', x', j, y);
    } else if RegisterAct(act) {
      RegisterShape(act, sh, tid, x, sh', x');
      RegisteringRely(sh, tid, x, act, sh', x', j, y);
    } else {
      UnregisterShape(act, sh, tid, x, sh', x');
      PairRelyLeaving(sh, tid, x, act, sh', x', j, y);
    }
  }

  lemma PairRelyFreeing(sh: Shared, tid: Tid, x: Thread, act: Act, sh': Shared, x': Thread, j: Tid, y: Thread)
    requires Pair(sh, tid, x, j, y) && FreeAct(act) && FreeStep(act, sh, tid, x, sh', x') && !SameShared(act)
    ensures Rely(sh, sh', j, y)
  {
    if act.CallFree? || act.FreeRead? || act.FreeRetry? || act.FreeAlone? {
      FreeRely(sh, tid, x, act, sh', x', j, y);
    } else {
      FreeLaterRely(sh, tid, x, act, sh', x', j, y);
    }
  }

  /** Steps that leave the shared state alone. */
  predicate SameShared(act: Act) {
    || act.CallRegister? || act.RegisterFail? || act.ChainNext? || act.ChainDone? || act.FreePlan? || act.FreeAdd?
    || act.FreeEnter? || act.FreeDone? || act.CallCheckin? || act.MarkSeen? || act.MarkFail? || act.MarkLocked?
    || act.CopyFail? || act.Look? || act.Decrement? || act.SnipList? || act.ClearUse? || act.RunDone? || act.WalkDone?
  }

  lemma FreeSharesNothing(act: Act, sh: Shared, tid: Tid, x: Thread, sh': Shared, x': Thread)
    requires FreeAct(act) && FreeStep(act, sh, tid, x, sh', x') && SameShared(act)
    ensures sh' == sh
  {
  }

  lemma NothingShared(sh: Shared, tid: Tid, x: Thread, act: Act, sh': Shared, x': Thread)
    requires ThreadStep(act, sh, tid, x, sh', x') && SameShared(act)
    ensures sh' == sh
  {
    hide StepOf, FreeStep;
    if RegisterAct(act) {
      RegisterShape(act, sh, tid, x, sh', x');
    } else if FreeAct(act) {
      FreeShape(act, sh, tid, x, sh', x');
      FreeSharesNothing(act, sh, tid, x, sh', x');
    } else if CheckinAct(act) {
      CheckinShape(act, sh, tid, x, sh', x');
    } else {
      WalkShape(act, sh, tid, x, sh', x');
    }
  }

  lemma PairRelyLeaving(sh: Shared, tid: Tid, x: Thread, act: Act, sh': Shared, x': Thread, j: Tid, y: Thread)
    requires Pair(sh, tid, x, j, y) && UnregisterAct(act) && UnregisterStep(act, sh, tid, x, sh', x')
    ensures Rely(sh, sh', j, y)
  {
    hide Step;
    if act.LockOk? || act.UnlockOk? || act.Reopen? {
      UnlockingRely(sh, tid, x, act, sh', x', j, y);
    } else if act.RemoveOk? || act.RemoveLast? || act.Leak? || act.Clean? {
      PairRelyRemoving(sh, tid, x, act, sh', x', j, y);
    } else {
      SharedSteps.RelySame(sh, j, y);
    }
  }

  lemma PairRelyRemoving(sh: Shared, tid: Tid, x: Thread, act: Act, sh': Shared, x': Thread, j: Tid, y: Thread)
    requires Pair(sh, tid, x, j, y) && UnregisterAct(act) && UnregisterStep(act, sh, tid, x, sh', x')
    requires act.RemoveOk? || act.RemoveLast? || act.Leak? || act.Clean?
    ensures Rely(sh, sh', j, y)
  {
    hide *;
    if act.RemoveOk? {
      RemoveOkRely(sh, tid, x, act, sh', x', j, y);
    } else if act.RemoveLast? {
      LastRely(sh, tid, x, act, sh', x', j, y);
    } else {
      LeakingRely(sh, tid, x, act, sh', x', j, y);
    }
  }

  /* ---- places ---- */

  lemma ActMoves(s: State, tid: Tid, act: Act, s': State)
    requires Inv(s) && Step(s, tid, act, s')
    ensures Moves(s.sh, s'.sh, tid, s'.Th(tid), OpOf(act, s.sh, s.Th(tid)))
  {
    hide StepOf, OpOf, NextMem;
    NullIsListed(s, tid);
    OwnerMoves(s.sh, tid, s.Th(tid), act, s'.sh, s'.Th(tid));
  }

  lemma OwnerMoves(sh: Shared, tid: Tid, x: Thread, act: Act, sh': Shared, x': Thread)
    requires Owner(sh, tid, x) && NullListed(sh, x) && ThreadStep(act, sh, tid, x, sh', x')
    ensures Moves(sh, sh', tid, x', OpOf(act, sh, x))
  {
    hide Inv, StepOf, OpOf, NextMem;
    if FreeAct(act) {
      FreeShape(act, sh, tid, x, sh', x');
      OwnerFreeMoves(sh, tid, x, act, sh', x');
    } else if WalkAct(act) {
      WalkShape(act, sh, tid, x, sh', x');
      OwnerWalkMoves(sh, tid, x, act, sh', x');
    } else if UnregisterAct(act) {
      UnregisterShape(act, sh, tid, x, sh', x');
      OwnerUnregisterMoves(sh, tid, x, act, sh', x');
    } else {
      OwnerOtherMoves(sh, tid, x, act, sh', x');
    }
  }

  lemma OwnerOtherMoves(sh: Shared, tid: Tid, x: Thread, act: Act, sh': Shared, x': Thread)
    requires Owner(sh, tid, x) && ThreadStep(act, sh, tid, x, sh', x') && (RegisterAct(act) || CheckinAct(act))
    ensures Moves(sh, sh', tid, x', OpOf(act, sh, x))
  {
    hide StepOf;
    if RegisterAct(act) {
      RegisterShape(act, sh, tid, x, sh', x');
      RegisterMoves(sh, tid, x, act, sh', x');
    } else {
      CheckinShape(act, sh, tid, x, sh', x');
      CheckinMoves(sh, tid, x, act, sh', x');
    }
  }

  lemma OwnerWalkMoves(sh: Shared, tid: Tid, x: Thread, act: Act, sh': Shared, x': Thread)
    requires Owner(sh, tid, x) && NullListed(sh, x) && WalkAct(act) && WalkingStep(act, sh, tid, x, sh', x')
    ensures Moves(sh, sh', tid, x', OpOf(act, sh, x))
  {
    hide *;
    if act.WipeList? || act.RunItem? {
      WalkMoves(sh, tid, x, act, sh', x');
    } else {
      WalkOnMoves(sh, tid, x, act, sh', x');
    }
  }

  lemma OwnerFreeMoves(sh: Shared, tid: Tid, x: Thread, act: Act, sh': Shared, x': Thread)
    requires Owner(sh, tid, x) && FreeAct(act) && FreeStep(act, sh, tid, x, sh', x')
    ensures Moves(sh, sh', tid, x', OpOf(act, sh, x))
  {
    hide StepOf;
    if act.FreeSwap? {
      FreeSwapMoves(sh, tid, x, act.a, act.win, sh', x', OpOf(act, sh, x));
    } else if act.FreeRead? || act.FreeRetry? || act.FreeAlone? {
      ReadMoves(sh, tid, x, act, sh', x');
    } else if act.FreeAppend? || act.FreeAppendOld? {
      AppendMoves(sh, tid, x, act, sh', x');
    } else {
      FreeMoves(sh, tid, x, act, sh', x');
    }
  }

  lemma OwnerUnregisterMoves(sh: Shared, tid: Tid, x: Thread, act: Act, sh': Shared, x': Thread)
    requires Owner(sh, tid, x) && UnregisterAct(act) && UnregisterStep(act, sh, tid, x, sh', x')
    ensures Moves(sh, sh', tid, x', OpOf(act, sh, x))
  {
    hide *;
    if act.RemoveOk? || act.RemoveLast? {
      RemoveMoves(sh, tid, x, act, sh', x');
    } else if act.Leak? || act.Clean? {
      LeakingMoves(sh, tid, x, act, sh', x');
    } else {
      OwnerStayMoves(sh, tid, x, act, sh', x');
    }
  }

  lemma NoOp(act: Act, sh: Shared, x: Thread)
    requires UnregisterAct(act) && !(act.RemoveOk? || act.RemoveLast? || act.Leak? || act.Clean?)
    ensures OpOf(act, sh, x) == Nop
  {
  }

  lemma OwnerStayMoves(sh: Shared, tid: Tid, x: Thread, act: Act, sh': Shared, x': Thread)
    requires Owner(sh, tid, x) && UnregisterAct(act) && UnregisterStep(act, sh, tid, x, sh', x')
    requires !(act.RemoveOk? || act.RemoveLast? || act.Leak? || act.Clean?)
    ensures Moves(sh, sh', tid, x', OpOf(act, sh, x))
  {
    hide Step, StepOf, OpOf, NextMem;
    NoOp(act, sh, x);
    if act.LockOk? || act.UnlockOk? || act.Reopen? {
      LockingMoves(sh, tid, x, act, sh', x');
    } else {
      UnregisterMoves(sh, tid, x, act, sh', x');
    }
  }

  /* ---- entries and counts ---- */

  lemma ActCounted(s: State, tid: Tid, act: Act, s': State)
    requires Inv(s) && Step(s, tid, act, s') && CurOk(s'.sh)
    ensures Counted(s'.sh, s'.th, s'.mem)
  {
    hide Inv, StepOf, OpOf, NextMem;
    EachHolds(s);
    if act.FreeSwap? {
      FreeSwapStepShape(act, s.sh, tid, s.Th(tid), s'.sh, s'.Th(tid));
      NewEntryCounted(s.sh, s.th, s.mem, tid, act, s'.sh, s'.Th(tid), s'.mem);
    } else if act.RemoveLast? {
      UnregisterShape(act, s.sh, tid, s.Th(tid), s'.sh, s'.Th(tid));
      NoEntriesCounted(s.sh, s.th, s.mem, tid, act, s'.sh, s'.Th(tid), s'.mem);
    } else {
      MostCounted(s.sh, s.th, s.mem, tid, act, s'.sh, s'.Th(tid), s'.mem);
    }
  }

  lemma EachHolds(s: State)
    requires Inv(s)
    ensures SharedOk(s.sh) && Counted(s.sh, s.th, s.mem) && forall j :: j in s.th ==> ThreadOk(s.sh, j, s.th[j])
  {
  }

  lemma NewEntryCounted(sh: Shared, th: map<Tid, Thread>, m: Mem, tid: Tid, act: Act, sh': Shared, x': Thread,
      m': Mem)
    requires Counted(sh, th, m) && tid in th && forall j :: j in th ==> ThreadOk(sh, j, th[j])
    requires act.FreeSwap? && DoFreeSwap(sh, tid, th[tid], sh', x', act.a, act.win)
    requires MemStep(m, tid, OpOf(act, sh, th[tid]), m')
    ensures Counted(sh', th[tid := x'], m')
  {
    FreeSwapCounted(sh, th, m, tid, act.a, act.win, sh', x', OpOf(act, sh, th[tid]), m');
  }

  lemma NoEntriesCounted(sh: Shared, th: map<Tid, Thread>, m: Mem, tid: Tid, act: Act, sh': Shared, x': Thread,
      m': Mem)
    requires SharedOk(sh) && Counted(sh, th, m) && tid in th && forall j :: j in th ==> ThreadOk(sh, j, th[j])
    requires act.RemoveLast? && UnregisterStep(act, sh, tid, th[tid], sh', x')
    requires MemStep(m, tid, OpOf(act, sh, th[tid]), m')
    ensures Counted(sh', th[tid := x'], m')
  {
    hide StepOf;
    LastCounted(sh, th, m, tid, act, sh', x', m');
  }

  lemma MostCounted(sh: Shared, th: map<Tid, Thread>, m: Mem, tid: Tid, act: Act, sh': Shared, x': Thread, m': Mem)
    requires Counted(sh, th, m) && tid in th && Own(sh, tid, th[tid]) && CurOk(sh')
    requires ThreadStep(act, sh, tid, th[tid], sh', x') && !act.FreeSwap? && !act.RemoveLast?
    requires MemStep(m, tid, OpOf(act, sh, th[tid]), m')
    ensures Counted(sh', th[tid := x'], m')
  {
    hide *;
    if FreeAct(act) {
      FreeShape(act, sh, tid, th[tid], sh', x');
      FreeingCounted(sh, th, m, tid, act, sh', x', m');
    } else if WalkAct(act) {
      WalkShape(act, sh, tid, th[tid], sh', x');
      WalkingCounted(sh, th, m, tid, act, sh', x', m');
    } else {
      NoEntries(act, sh, th[tid], m, tid, m');
      OtherCounted(sh, th, m, tid, act, sh', x');
    }
  }

  lemma NoEntries(act: Act, sh: Shared, x: Thread, m: Mem, tid: Tid, m': Mem)
    requires MemStep(m, tid, OpOf(act, sh, x), m') && !FreeAct(act) && !WalkAct(act) && !act.RemoveLast?
    ensures m' == m
  {
  }

  lemma AppendingOp(act: Act, sh: Shared, tid: Tid, x: Thread, sh': Shared, x': Thread)
    requires FreeAct(act) && (act.FreeAppend? || act.FreeAppendOld?) && FreeStep(act, sh, tid, x, sh', x')
    ensures x.pc.Free? && (x.pc.stage.Appending? || x.pc.stage.Trailing?)
    ensures OpOf(act, sh, x).Push? && OpOf(act, sh, x).t == x.pc.stage.s.world.ts
  {
  }

  lemma OtherFreeOp(act: Act, sh: Shared, x: Thread, m: Mem, tid: Tid, m': Mem)
    requires FreeAct(act) && !act.FreeSwap? && !act.FreeAdd? && !act.FreeAppend? && !act.FreeAppendOld?
    requires MemStep(m, tid, OpOf(act, sh, x), m')
    ensures m' == m
  {
  }

  lemma FreeingCounted(sh: Shared, th: map<Tid, Thread>, m: Mem, tid: Tid, act: Act, sh': Shared, x': Thread, m': Mem)
    requires Counted(sh, th, m) && tid in th && Own(sh, tid, th[tid]) && CurOk(sh')
    requires FreeAct(act) && !act.FreeSwap? && FreeStep(act, sh, tid, th[tid], sh', x')
    requires MemStep(m, tid, OpOf(act, sh, th[tid]), m')
    ensures Counted(sh', th[tid := x'], m')
  {
    hide Step;
    var op := OpOf(act, sh, th[tid]);
    if act.FreeAdd? {
      FreeAddCounted(sh, th, m, tid, sh', x', op, m');
    } else if act.FreeAppend? || act.FreeAppendOld? {
      AppendingOp(act, sh, tid, th[tid], sh', x');
      AppendCounted(sh, th, m, tid, act, sh', x', op, m');
    } else {
      OtherFreeOp(act, sh, th[tid], m, tid, m');
      FreeCounted(sh, th, m, tid, act, sh', x');
    }
  }

  lemma WalkingCounted(sh: Shared, th: map<Tid, Thread>, m: Mem, tid: Tid, act: Act, sh': Shared, x': Thread, m': Mem)
    requires Counted(sh, th, m) && tid in th && Own(sh, tid, th[tid]) && CurOk(sh')
    requires WalkAct(act) && WalkingStep(act, sh, tid, th[tid], sh', x')
    requires MemStep(m, tid, OpOf(act, sh, th[tid]), m')
    ensures Counted(sh', th[tid := x'], m')
  {
    if act.Decrement? {
      DecrementCounted(sh, th, m, tid, act.prev, sh', x', OpOf(act, sh, th[tid]), m');
    } else if act.SnipList? || act.WipeList? || act.ClearUse? {
      SweepCounted(sh, th, m, tid, act, sh', x', m');
    } else {
      WalkCounted(sh, th, m, tid, act, sh', x');
    }
  }

  lemma OtherCounted(sh: Shared, th: map<Tid, Thread>, m: Mem, tid: Tid, act: Act, sh': Shared, x': Thread)
    requires Counted(sh, th, m) && tid in th && Own(sh, tid, th[tid]) && CurOk(sh')
    requires ThreadStep(act, sh, tid, th[tid], sh', x')
    requires !FreeAct(act) && !WalkAct(act) && !act.RemoveLast?
    ensures Counted(sh', th[tid := x'], m)
  {
    hide Inv, StepOf, OpOf, NextMem;
    if RegisterAct(act) {
      RegisterShape(act, sh, tid, th[tid], sh', x');
      RegisterCounted(sh, th, m, tid, act, sh', x');
    } else if CheckinAct(act) {
      CheckinShape(act, sh, tid, th[tid], sh', x');
      CheckinCounted(sh, th, m, tid, act, sh', x');
    } else if act.RemoveOk? {
      UnregisterShape(act, sh, tid, th[tid], sh', x');
      RemoveCounted(sh, th, m, tid, act.a, sh', x');
    } else {
      UnregisterShape(act, sh, tid, th[tid], sh', x');
      UnregisterCounted(sh, th, m, tid, act, sh', x');
    }
  }

  /* ---- the invariant ---- */

  /** Lists and places change together. */
  lemma ListsStep(sh: Shared, m: Mem, tid: Tid, sh': Shared, x': Thread, op: Op, m': Mem)
    requires ListsOk(sh, m) && Moves(sh, sh', tid, x', op) && MemStep(m, tid, op, m')
    requires ListsSafe(m, op)
    ensures ListsOk(sh', m')
  {
    forall it | it in sh'.place && sh'.place[it].Listed?
      ensures sh'.place[it].ts in m'.entries && it in m'.entries[sh'.place[it].ts].list
    {
      assert MovedOk(sh, sh', tid, op, it);
    }
    forall t, it | t in m'.entries && it in m'.entries[t].list
      ensures PlaceIs(sh', it, Listed(t)) && Slotted(sh', it, t)
    {
      if !(op.Push? && op.t == t && op.it == it) {
        assert PlaceIs(sh, it, Listed(t)) && Slotted(sh, it, t);
      }
    }
  }

  /** A thread that is alone and owes nothing leaves no entry unfinished and no list filled. */
  lemma OnlyOneLeft(th: map<Tid, Thread>, m: Mem, ts: nat, tid: Tid, t: nat)
    requires MemOk(th, m, ts) && tid in th && |Regs(th)| == 1 && t in m.entries
    requires Reg(th[tid]) && Next(th[tid]) > t && !th[tid].pc.Walk?
    requires forall j :: j in th && j != tid ==> Local(th[j])
    ensures m.entries[t].list == {} && !m.entries[t].live
  {
    assert EntryOk(th, m, t);
    forall j | j in th && Reg(th[j]) ensures j == tid {
      if j != tid { RegsCount(th, tid, j); }
    }
    assert Owe(th, t) == {};
  }

  ghost predicate Emptied(m: Mem) { forall t :: t in m.entries ==> m.entries[t].list == {} }

  lemma LeavesLast(sh: Shared, tid: Tid, x: Thread, a: Addr, sh': Shared, x': Thread)
    requires Own(sh, tid, x) && DoRemoveLast(sh, tid, x, sh', x', a)
    ensures W(sh).n == 1 && Reg(x) && !x.pc.Walk? && Next(x) > W(sh).ts
  {
    assert x.pc.s in Seens(x) && SeenOk(sh, x.pc.s);
  }

  lemma OthersLocal(s: State, tid: Tid)
    requires Inv(s)
    ensures forall j :: j in s.th && j != tid ==> Local(s.Th(j))
  {
    hide Step;
    forall j | j in s.th && j != tid ensures Local(s.Th(j)) { assert ThreadOk(s.sh, j, s.Th(j)); }
  }

  lemma EachEmptied(th: map<Tid, Thread>, m: Mem, ts: nat, tid: Tid)
    requires MemOk(th, m, ts) && tid in th && |Regs(th)| == 1
    requires Reg(th[tid]) && Next(th[tid]) > ts && !th[tid].pc.Walk?
    requires forall j :: j in th && j != tid ==> Local(th[j])
    ensures Emptied(m)
  {
    forall t | t in m.entries ensures m.entries[t].list == {} { OnlyOneLeft(th, m, ts, tid, t); }
  }

  lemma ListsDrained(s: State, tid: Tid, a: Addr, sh': Shared, x': Thread)
    requires Inv(s) && tid in s.th && DoRemoveLast(s.sh, tid, s.Th(tid), sh', x', a)
    ensures Emptied(s.mem)
  {
    LeavesLast(s.sh, tid, s.Th(tid), a, sh', x');
    OthersLocal(s, tid);
    EachEmptied(s.th, s.mem, W(s.sh).ts, tid);
  }

  /** An operation that may lose or shadow a list does not: there is nothing on it. */
  ghost predicate ListsSafe(m: Mem, op: Op) {
    && (op.Create? ==> op.t !in m.entries)
    && (op.Forget? ==> Emptied(m))
  }

  lemma SafeOp(act: Act, sh: Shared, x: Thread, m: Mem)
    requires !act.RemoveLast? && !act.FreeSwap?
    ensures ListsSafe(m, OpOf(act, sh, x))
  {
  }

  lemma SwapOp(act: Act, sh: Shared, x: Thread, m: Mem)
    requires act.FreeSwap? && x.pc.Free? && x.pc.stage.Planning? && x.pc.stage.s.world.ts + 1 !in m.entries
    ensures ListsSafe(m, OpOf(act, sh, x))
  {
  }

  lemma LastOp(act: Act, sh: Shared, x: Thread, m: Mem)
    requires act.RemoveLast? && Emptied(m)
    ensures ListsSafe(m, OpOf(act, sh, x))
  {
  }

  lemma SwapListsSafe(s: State, tid: Tid, act: Act, sh': Shared, x': Thread)
    requires Inv(s) && tid in s.th && act.FreeSwap? && DoFreeSwap(s.sh, tid, s.Th(tid), sh', x', act.a, act.win)
    ensures ListsSafe(s.mem, OpOf(act, s.sh, s.Th(tid)))
  {
    SwapsCurrent(s.sh, tid, s.Th(tid), sh', x', act.a, act.win);
    SwapOp(act, s.sh, s.Th(tid), s.mem);
  }

  lemma LastListsSafe(s: State, tid: Tid, act: Act, s': State)
    requires Inv(s) && Step(s, tid, act, s') && act.RemoveLast?
    ensures ListsSafe(s.mem, OpOf(act, s.sh, s.Th(tid)))
  {
    hide Inv, StepOf, OpOf, NextMem;
    RemoveLastStepShape(act, s.sh, tid, s.Th(tid), s'.sh, s'.Th(tid));
    ListsDrained(s, tid, act.a, s'.sh, s'.Th(tid));
    LastOp(act, s.sh, s.Th(tid), s.mem);
  }

  lemma StepListsSafe(s: State, tid: Tid, act: Act, s': State)
    requires Inv(s) && Step(s, tid, act, s')
    ensures ListsSafe(s.mem, OpOf(act, s.sh, s.Th(tid)))
  {
    hide Inv, StepOf, OpOf, NextMem;
    if act.FreeSwap? {
      FreeSwapStepShape(act, s.sh, tid, s.Th(tid), s'.sh, s'.Th(tid));
      SwapListsSafe(s, tid, act, s'.sh, s'.Th(tid));
    } else if act.RemoveLast? {
      LastListsSafe(s, tid, act, s');
    } else {
      SafeOp(act, s.sh, s.Th(tid), s.mem);
    }
  }

  lemma StepLists(s: State, tid: Tid, act: Act, s': State)
    requires Inv(s) && Step(s, tid, act, s')
    requires Moves(s.sh, s'.sh, tid, s'.Th(tid), OpOf(act, s.sh, s.Th(tid)))
    ensures ListsOk(s'.sh, s'.mem)
  {
    hide StepOf, OpOf, NextMem;
    StepListsSafe(s, tid, act, s');
    ListsStep(s.sh, s.mem, tid, s'.sh, s'.Th(tid), OpOf(act, s.sh, s.Th(tid)), s'.mem);
  }

  lemma OthersMine(sh: Shared, sh': Shared, tid: Tid, x': Thread, op: Op, j: Tid, y: Thread)
    requires Moves(sh, sh', tid, x', op) && Mine(sh, j, y) && j != tid
    ensures Mine(sh', j, y)
  {
    forall it | it in sh'.place && sh'.place[it] == Held(j) ensures it in Duties(y) {
      assert MovedOk(sh, sh', tid, op, it);
    }
    forall it | it in sh'.place && sh'.place[it] == Alone(j) ensures y.pc.Free? && y.pc.stage == Immediate(it) {
      assert MovedOk(sh, sh', tid, op, it);
    }
  }

  lemma OtherInv(s: State, tid: Tid, act: Act, s': State, j: Tid)
    requires Inv(s) && Step(s, tid, act, s') && j in s.th && j != tid
    ensures ThreadOk(s'.sh, j, s.Th(j))
  {
    hide Step;
    ActRely(s, tid, act, s', j);
    Stable(s.sh, s'.sh, j, s.Th(j));
  }

  lemma HoldersKnown(sh: Shared, tid: Tid, sh': Shared, x': Thread, op: Op, ids: set<Tid>)
    requires Moves(sh, sh', tid, x', op) && tid in ids && HoldersIn(sh, ids)
    ensures HoldersIn(sh', ids)
  {
    forall it | it in sh'.place && (sh'.place[it].Held? || sh'.place[it].Alone?) ensures sh'.place[it].t in ids {
      assert MovedOk(sh, sh', tid, op, it);
    }
  }

  lemma OthersInv(s: State, tid: Tid, act: Act, s': State)
    requires Inv(s) && Step(s, tid, act, s')
    requires Moves(s.sh, s'.sh, tid, s'.Th(tid), OpOf(act, s.sh, s.Th(tid)))
    ensures forall i :: i in s.th && i != tid ==> ThreadOk(s'.sh, i, s.Th(i)) && Mine(s'.sh, i, s.Th(i))
  {
    hide Step, StepOf, OpOf, NextMem;
    forall i | i in s.th && i != tid ensures ThreadOk(s'.sh, i, s.Th(i)) && Mine(s'.sh, i, s.Th(i)) {
      OtherInv(s, tid, act, s', i);
      OthersMine(s.sh, s'.sh, tid, s'.Th(tid), OpOf(act, s.sh, s.Th(tid)), i, s.Th(i));
    }
  }

  /** The parts of the invariant that are not about the other threads. */
  lemma StepParts(s: State, tid: Tid, act: Act, s': State)
    requires Inv(s) && Step(s, tid, act, s')
    ensures Own(s'.sh, tid, s'.Th(tid)) && Counted(s'.sh, s'.th, s'.mem) && ListsOk(s'.sh, s'.mem)
    ensures Moves(s.sh, s'.sh, tid, s'.Th(tid), OpOf(act, s.sh, s.Th(tid)))
  {
    hide Step, Inv, StepOf, OpOf, NextMem;
    ActOwn(s, tid, act, s');
    ActMoves(s, tid, act, s');
    ActCounted(s, tid, act, s');
    StepLists(s, tid, act, s');
  }

  lemma StepHolders(s: State, tid: Tid, act: Act, s': State)
    requires Inv(s) && Step(s, tid, act, s')
    requires Moves(s.sh, s'.sh, tid, s'.Th(tid), OpOf(act, s.sh, s.Th(tid)))
    ensures HoldersIn(s'.sh, s'.th.Keys)
  {
    hide StepOf, OpOf, NextMem;
    assert s'.th.Keys == s.th.Keys;
    HoldersKnown(s.sh, tid, s'.sh, s'.Th(tid), OpOf(act, s.sh, s.Th(tid)), s.th.Keys);
  }

  lemma Assemble(s: State, tid: Tid)
    requires tid in s.th && Own(s.sh, tid, s.Th(tid)) && Mine(s.sh, tid, s.Th(tid))
    requires forall i :: i in s.th && i != tid ==> ThreadOk(s.sh, i, s.Th(i)) && Mine(s.sh, i, s.Th(i))
    requires HoldersIn(s.sh, s.th.Keys) && ListsOk(s.sh, s.mem) && Counted(s.sh, s.th, s.mem)
    ensures Inv(s)
  {
  }

  lemma AssembleStep(s: State, tid: Tid, act: Act, s': State)
    requires Step(s, tid, act, s')
    requires Moves(s.sh, s'.sh, tid, s'.Th(tid), OpOf(act, s.sh, s.Th(tid))) && Own(s'.sh, tid, s'.Th(tid))
    requires forall i :: i in s.th && i != tid ==> ThreadOk(s'.sh, i, s.Th(i)) && Mine(s'.sh, i, s.Th(i))
    requires HoldersIn(s'.sh, s'.th.Keys) && ListsOk(s'.sh, s'.mem) && Counted(s'.sh, s'.th, s'.mem)
    ensures Inv(s')
  {
    hide StepOf, OpOf, NextMem;
    Assemble(s', tid);
  }

  /** Every step of every thread keeps the invariant. */
  lemma StepInv(s: State, tid: Tid, act: Act, s': State)
    requires Inv(s) && Step(s, tid, act, s')
    ensures Inv(s')
  {
    hide *;
    StepParts(s, tid, act, s');
    OthersInv(s, tid, act, s');
    StepHolders(s, tid, act, s');
    AssembleStep(s, tid, act, s');
  }
}
