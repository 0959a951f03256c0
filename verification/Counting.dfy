/** Every step keeps the entries in step with the threads that owe them, and the thread count exact. */
module Counting {
  import opened AbaTypes
  import opened Protocol
  import opened Invariant
  import opened ThreadSteps
  import opened Entries
  import opened CouplingSteps

  /** Entries and thread count are in order. */
  ghost predicate Counted(sh: Shared, th: map<Tid, Thread>, m: Mem) {
    CurOk(sh) && W(sh).n == |Regs(th)| && MemOk(th, m, W(sh).ts)
  }

  lemma RegsSame(th: map<Tid, Thread>, i: Tid, x': Thread)
    requires i in th && Reg(th[i]) == Reg(x')
    ensures Regs(th[i := x']) == Regs(th)
  {
  }

  lemma RegsMore(th: map<Tid, Thread>, i: Tid, x': Thread)
    requires i in th && !Reg(th[i]) && Reg(x')
    ensures |Regs(th[i := x'])| == |Regs(th)| + 1
  {
    assert Regs(th[i := x']) == Regs(th) + {i};
  }

  lemma RegsLess(th: map<Tid, Thread>, i: Tid, x': Thread)
    requires i in th && Reg(th[i]) && !Reg(x')
    ensures |Regs(th[i := x'])| == |Regs(th)| - 1
  {
    assert Regs(th[i := x']) == Regs(th) - {i};
    assert i in Regs(th);
  }

  /** A step that touches neither the entries nor the set of registered threads. */
  ghost predicate QuietStep(sh: Shared, x: Thread, sh': Shared, x': Thread) {
    SameNumbers(sh, sh') && forall ts: nat :: QuietTurn(x, x', ts)
  }

  predicate SameNumbers(sh: Shared, sh': Shared) {
    CurOk(sh) && CurOk(sh') && W(sh').ts == W(sh).ts && W(sh').n == W(sh).n
  }

  predicate QuietTurn(x: Thread, x': Thread, ts: nat) { Reg(x') == Reg(x) && Quiet(x, x', ts) }

  lemma ShrinksSame(sh: Shared, sh': Shared)
    requires Shrinks(sh, sh') && CurOk(sh')
    ensures SameNumbers(sh, sh')
  {
  }

  lemma QuietCounted(sh: Shared, th: map<Tid, Thread>, m: Mem, i: Tid, sh': Shared, x': Thread)
    requires Counted(sh, th, m) && i in th && QuietStep(sh, th[i], sh', x')
    ensures Counted(sh', th[i := x'], m)
  {
    assert QuietTurn(th[i], x', W(sh).ts);
    RegsSame(th, i, x');
    QuietOk(th, m, W(sh).ts, i, x');
  }

  lemma RegisterQuiet(sh: Shared, i: Tid, x: Thread, act: Act, sh': Shared, x': Thread)
    requires Local(x) && CurOk(sh') && RegisterAct(act) && !act.RegisterOk? && RegisterStep(act, sh, i, x, sh', x')
    ensures QuietStep(sh, x, sh', x')
  {
    RegisterShrinks(act, sh, i, x, sh', x');
    ShrinksSame(sh, sh');
    RegisterQuietTurn(sh, i, x, act, sh', x');
  }

  lemma RegisterQuietTurn(sh: Shared, i: Tid, x: Thread, act: Act, sh': Shared, x': Thread)
    requires Local(x) && RegisterAct(act) && !act.RegisterOk? && RegisterStep(act, sh, i, x, sh', x')
    ensures forall ts: nat :: QuietTurn(x, x', ts)
  {
  }

  lemma RegisterCounted(sh: Shared, th: map<Tid, Thread>, m: Mem, i: Tid, act: Act, sh': Shared, x': Thread)
    requires Counted(sh, th, m) && i in th && Own(sh, i, th[i])
    requires RegisterAct(act) && RegisterStep(act, sh, i, th[i], sh', x')
    ensures Counted(sh', th[i := x'], m)
  {
    if act.RegisterOk? {
      assert th[i].pc.s in Seens(th[i]) && SeenOk(sh, th[i].pc.s);
      RegsMore(th, i, x');
      QuietOk(th, m, W(sh).ts, i, x');
    } else {
      RegisterQuiet(sh, i, th[i], act, sh', x');
      QuietCounted(sh, th, m, i, sh', x');
    }
  }

  lemma CheckinQuiet(sh: Shared, i: Tid, x: Thread, act: Act, sh': Shared, x': Thread)
    requires Own(sh, i, x) && CheckinAct(act) && CheckinStep(act, sh, i, x, sh', x') && CurOk(sh')
    ensures QuietStep(sh, x, sh', x')
  {
    if act.CopyOk? {
      assert x.pc.s in Seens(x) && SeenOk(sh, x.pc.s);
    } else {
      CheckinShrinks(act, sh, i, x, sh', x');
      ShrinksSame(sh, sh');
    }
    CheckinQuietTurn(sh, i, x, act, sh', x');
  }

  lemma CheckinQuietTurn(sh: Shared, i: Tid, x: Thread, act: Act, sh': Shared, x': Thread)
    requires Local(x) && CheckinAct(act) && CheckinStep(act, sh, i, x, sh', x')
    ensures forall ts: nat :: QuietTurn(x, x', ts)
  {
  }

  lemma CheckinCounted(sh: Shared, th: map<Tid, Thread>, m: Mem, i: Tid, act: Act, sh': Shared, x': Thread)
    requires Counted(sh, th, m) && i in th && Own(sh, i, th[i])
    requires CheckinAct(act) && CheckinStep(act, sh, i, th[i], sh', x')
    ensures Counted(sh', th[i := x'], m)
  {
    hide MemOk;
    CheckinQuiet(sh, i, th[i], act, sh', x');
    QuietCounted(sh, th, m, i, sh', x');
  }

  lemma RemoveCounted(sh: Shared, th: map<Tid, Thread>, m: Mem, i: Tid, a: Addr, sh': Shared, x': Thread)
    requires Counted(sh, th, m) && i in th && Own(sh, i, th[i]) && DoRemoveOk(sh, i, th[i], sh', x', a)
    ensures Counted(sh', th[i := x'], m)
  {
    assert th[i].pc.s in Seens(th[i]) && SeenOk(sh, th[i].pc.s);
    RegsLess(th, i, x');
    QuietOk(th, m, W(sh).ts, i, x');
  }

  lemma UnregisterQuiet(sh: Shared, i: Tid, x: Thread, act: Act, sh': Shared, x': Thread)
    requires Local(x) && CurOk(sh') && UnregisterAct(act) && UnregisterStep(act, sh, i, x, sh', x')
    requires !act.RemoveLast? && !act.RemoveOk?
    ensures QuietStep(sh, x, sh', x')
  {
    UnregisterShrinks(act, sh, i, x, sh', x');
    ShrinksSame(sh, sh');
    UnregisterQuietTurn(sh, i, x, act, sh', x');
  }

  lemma UnregisterQuietTurn(sh: Shared, i: Tid, x: Thread, act: Act, sh': Shared, x': Thread)
    requires Local(x) && UnregisterAct(act) && UnregisterStep(act, sh, i, x, sh', x')
    requires !act.RemoveLast? && !act.RemoveOk?
    ensures forall ts: nat :: QuietTurn(x, x', ts)
  {
  }

  lemma UnregisterCounted(sh: Shared, th: map<Tid, Thread>, m: Mem, i: Tid, act: Act, sh': Shared, x': Thread)
    requires Counted(sh, th, m) && i in th && Own(sh, i, th[i])
    requires UnregisterAct(act) && UnregisterStep(act, sh, i, th[i], sh', x') && !act.RemoveLast? && !act.RemoveOk?
    requires CurOk(sh')
    ensures Counted(sh', th[i := x'], m)
  {
    UnregisterQuiet(sh, i, th[i], act, sh', x');
    QuietCounted(sh, th, m, i, sh', x');
  }

  lemma LastWorld(sh: Shared, i: Tid, x: Thread, act: Act, sh': Shared, x': Thread)
    requires Own(sh, i, x) && act.RemoveLast? && UnregisterStep(act, sh, i, x, sh', x')
    ensures W(sh).n == 1 && Reg(x) && !Reg(x') && x'.pc.Cleaning? && CurOk(sh') && W(sh').n == 0 && W(sh').ts == 0
  {
    assert x.pc.s in Seens(x) && SeenOk(sh, x.pc.s);
  }

  lemma NoneLeft(th: map<Tid, Thread>)
    requires Regs(th) == {} && forall j :: j in th ==> (!th[j].pc.Free? && !th[j].pc.Walk?) || Local(th[j])
    ensures MemOk(th, EMPTY_MEM, 0)
  {
    forall j | j in th ensures HandOk(th, EMPTY_MEM, j, th[j]) {
      assert j !in Regs(th);
    }
  }

  /** When the last thread leaves, every entry is finished and forgotten. */
  lemma LastCounted(sh: Shared, th: map<Tid, Thread>, m: Mem, i: Tid, act: Act, sh': Shared, x': Thread, m': Mem)
    requires Counted(sh, th, m) && i in th && SharedOk(sh) && (forall j :: j in th ==> ThreadOk(sh, j, th[j]))
    requires act.RemoveLast? && UnregisterStep(act, sh, i, th[i], sh', x') && MemStep(m, i, Forget, m')
    ensures Counted(sh', th[i := x'], m')
  {
    hide StepOf;
    LastWorld(sh, i, th[i], act, sh', x');
    RegsLess(th, i, x');
    forall j | j in th ensures Local(th[j]) { assert ThreadOk(sh, j, th[j]); }
    NoneLeft(th[i := x']);
  }

  lemma FreeQuiet(sh: Shared, i: Tid, x: Thread, act: Act, sh': Shared, x': Thread)
    requires Local(x) && CurOk(sh') && FreeAct(act) && FreeStep(act, sh, i, x, sh', x')
    requires !(act.FreeSwap? || act.FreeAdd? || act.FreeAppend? || act.FreeAppendOld?)
    ensures QuietStep(sh, x, sh', x')
  {
    FreeShrinks(act, sh, i, x, sh', x');
    ShrinksSame(sh, sh');
    FreeQuietTurn(sh, i, x, act, sh', x');
  }

  lemma FreeQuietTurn(sh: Shared, i: Tid, x: Thread, act: Act, sh': Shared, x': Thread)
    requires Local(x) && FreeAct(act) && FreeStep(act, sh, i, x, sh', x')
    requires !(act.FreeSwap? || act.FreeAdd? || act.FreeAppend? || act.FreeAppendOld?)
    ensures forall ts: nat :: QuietTurn(x, x', ts)
  {
  }

  lemma FreeCounted(sh: Shared, th: map<Tid, Thread>, m: Mem, i: Tid, act: Act, sh': Shared, x': Thread)
    requires Counted(sh, th, m) && i in th && Own(sh, i, th[i])
    requires FreeAct(act) && FreeStep(act, sh, i, th[i], sh', x')
    requires !(act.FreeSwap? || act.FreeAdd? || act.FreeAppend? || act.FreeAppendOld?)
    requires CurOk(sh')
    ensures Counted(sh', th[i := x'], m)
  {
    FreeQuiet(sh, i, th[i], act, sh', x');
    QuietCounted(sh, th, m, i, sh', x');
  }

  lemma FreeSwapCounted(sh: Shared, th: map<Tid, Thread>, m: Mem, i: Tid, a: Addr, win: Window, sh': Shared,
      x': Thread, op: Op, m': Mem)
    requires Counted(sh, th, m) && i in th && (forall j :: j in th ==> ThreadOk(sh, j, th[j]))
    requires DoFreeSwap(sh, i, th[i], sh', x', a, win)
    requires op.Create? && op.t == th[i].pc.stage.s.world.ts + 1 && MemStep(m, i, op, m')
    ensures Counted(sh', th[i := x'], m')
  {
    hide MemOk, NextMem;
    var s := th[i].pc.stage.s;
    assert s in Seens(th[i]) && SeenOk(sh, s);
    RegsSame(th, i, x');
    forall j | j in th && Reg(th[j]) ensures Next(th[j]) <= W(sh).ts + 1 {
      assert ThreadOk(sh, j, th[j]);
    }
    assert Local(th[i]);
    CreateOk(th, m, W(sh).ts, i, x', op, m');
  }

  lemma FreeAddCounted(sh: Shared, th: map<Tid, Thread>, m: Mem, i: Tid, sh': Shared, x': Thread, op: Op, m': Mem)
    requires Counted(sh, th, m) && i in th && DoFreeAdd(sh, th[i], sh', x')
    requires op.FetchAdd? && AddingAt(th[i], op.t) && op.n == th[i].pc.stage.s.world.n && MemStep(m, i, op, m')
    ensures Counted(sh', th[i := x'], m')
  {
    RegsSame(th, i, x');
    AddOk(th, m, W(sh).ts, i, x', op, m');
  }

  /** A thread that appends still owes the timestamp. */
  lemma AppendingOwes(sh: Shared, tid: Tid, x: Thread)
    requires ThreadOk(sh, tid, x) && x.pc.Free? && (x.pc.stage.Appending? || x.pc.stage.Trailing? || x.pc.stage.Adding?)
    ensures Owes(x, x.pc.stage.s.world.ts)
    ensures 1 <= x.pc.stage.s.world.ts <= W(sh).ts
  {
    assert x.pc.stage.s in Seens(x) && SeenFresh(sh, Limit(x), x.pc.stage.s);
  }

  lemma AppendCounted(sh: Shared, th: map<Tid, Thread>, m: Mem, i: Tid, act: Act, sh': Shared, x': Thread, op: Op,
      m': Mem)
    requires Counted(sh, th, m) && i in th && Own(sh, i, th[i]) && (act.FreeAppend? || act.FreeAppendOld?)
    requires FreeStep(act, sh, i, th[i], sh', x')
    requires op.Push? && op.t == th[i].pc.stage.s.world.ts && MemStep(m, i, op, m')
    ensures Counted(sh', th[i := x'], m')
  {
    AppendingOwes(sh, i, th[i]);
    RegsSame(th, i, x');
    PushOk(th, m, W(sh).ts, i, x', op, m');
  }

  /** A thread that decrements owes the timestamp. */
  lemma WalkerOwes(sh: Shared, tid: Tid, x: Thread)
    requires ThreadOk(sh, tid, x) && x.pc.Walk? && x.pc.phase == Dec && x.pc.t <= x.pc.upto
    ensures Owes(x, x.pc.t) && 1 <= x.pc.t <= W(sh).ts
  {
    assert x.pc.s in Seens(x) && SeenFresh(sh, Limit(x), x.pc.s);
  }

  lemma DecrementCounted(sh: Shared, th: map<Tid, Thread>, m: Mem, i: Tid, prev: int, sh': Shared, x': Thread,
      op: Op, m': Mem)
    requires Counted(sh, th, m) && i in th && Own(sh, i, th[i]) && DoDecrement(sh, th[i], sh', x', prev)
    requires op.FetchSub? && op.t == th[i].pc.t && op.prev == prev && MemStep(m, i, op, m')
    ensures Counted(sh', th[i := x'], m')
  {
    WalkerOwes(sh, i, th[i]);
    RegsSame(th, i, x');
    SubOk(th, m, W(sh).ts, i, x', op, m');
  }

  lemma SweepCounted(sh: Shared, th: map<Tid, Thread>, m: Mem, i: Tid, act: Act, sh': Shared, x': Thread, m': Mem)
    requires Counted(sh, th, m) && i in th && (act.SnipList? || act.WipeList? || act.ClearUse?)
    requires WalkingStep(act, sh, i, th[i], sh', x') && MemStep(m, i, OpOf(act, sh, th[i]), m')
    ensures Counted(sh', th[i := x'], m')
  {
    RegsSame(th, i, x');
    var op := OpOf(act, sh, th[i]);
    if act.SnipList? {
      PeekOk(th, m, W(sh).ts, i, x', op, m');
    } else if act.WipeList? {
      WipeOk(th, m, W(sh).ts, i, x', op, m');
    } else {
      UnuseOk(th, m, W(sh).ts, i, x', op, m');
    }
  }

  lemma WalkQuiet(sh: Shared, i: Tid, x: Thread, act: Act, sh': Shared, x': Thread)
    requires Local(x) && CurOk(sh') && (act.RunItem? || act.RunDone? || act.WalkDone?)
    requires WalkingStep(act, sh, i, x, sh', x')
    ensures QuietStep(sh, x, sh', x')
  {
    WalkShrinks(act, sh, i, x, sh', x');
    ShrinksSame(sh, sh');
    WalkQuietTurn(sh, i, x, act, sh', x');
  }

  lemma WalkQuietTurn(sh: Shared, i: Tid, x: Thread, act: Act, sh': Shared, x': Thread)
    requires Local(x) && (act.RunItem? || act.RunDone? || act.WalkDone?) && WalkingStep(act, sh, i, x, sh', x')
    ensures forall ts: nat :: QuietTurn(x, x', ts)
  {
  }

  lemma WalkCounted(sh: Shared, th: map<Tid, Thread>, m: Mem, i: Tid, act: Act, sh': Shared, x': Thread)
    requires Counted(sh, th, m) && i in th && Own(sh, i, th[i])
    requires (act.RunItem? || act.RunDone? || act.WalkDone?) && WalkingStep(act, sh, i, th[i], sh', x')
    requires CurOk(sh')
    ensures Counted(sh', th[i := x'], m)
  {
    WalkQuiet(sh, i, th[i], act, sh', x');
    QuietCounted(sh, th, m, i, sh', x');
  }
}
