/** A step on the storages in memory is a step of the protocol, and keeps the two coupled. */
module RealSteps {
  import opened AbaTypes
  import opened Protocol
  import opened Invariant
  import opened Entries
  import opened Machine
  import opened Storages
  import opened Refinement
  import opened Simulation
  import opened Coupling

  /* ---- the entries ---- */

  predicate WalkOpAct(act: Act) { act.Decrement? || act.SnipList? || act.WipeList? || act.ClearUse? }

  predicate AppendOpAct(act: Act) { act.FreeAdd? || act.FreeAppend? || act.FreeAppendOld? }

  lemma SlotOpAct(act: Act, sh: Shared, x: Thread)
    requires SlotOp(OpOf(act, sh, x))
    ensures WalkOpAct(act) || AppendOpAct(act)
  {
  }

  /** The operations of a walk are on the timestamp it is at, those of a free on that of its world. */
  lemma WalkOpShape(act: Act, sh: Shared, tid: Tid, x: Thread, sh': Shared, x': Thread)
    requires WalkOpAct(act) && WalkingStep(act, sh, tid, x, sh', x')
    ensures x.pc.Walk? && (x.pc.phase == Dec ==> x.pc.t <= x.pc.upto) && !x.pc.phase.Run?
    ensures var op := OpOf(act, sh, x);
      SlotOp(op) && !op.Push? && op.win == x.pc.s.world.win && op.t == x.pc.t
  {
  }

  lemma AppendOpShape(act: Act, sh: Shared, tid: Tid, x: Thread, sh': Shared, x': Thread)
    requires AppendOpAct(act) && FreeStep(act, sh, tid, x, sh', x')
    ensures x.pc.Free? && (x.pc.stage.Appending? || x.pc.stage.Trailing? || x.pc.stage.Adding?)
    ensures var op := OpOf(act, sh, x);
      SlotOp(op) && !op.Unuse? && op.win == x.pc.stage.s.world.win && op.t == x.pc.stage.s.world.ts
      && (op.Push? ==> op.it in Trash(x))
  {
  }

  /** What a thread still has in hand is on no list. */
  lemma HandNotListed(sh: Shared, m: Mem, tid: Tid, x: Thread, it: Item, t: nat)
    requires (forall o :: o in Duties(x) ==> PlaceIs(sh, o, Held(tid))) && ListsOk(sh, m) && it in Trash(x)
    requires t in m.entries
    ensures it !in m.entries[t].list
  {
    assert it in Duties(x) && PlaceIs(sh, it, Held(tid));
  }

  lemma OpHandNotListed(s: State, tid: Tid, op: Op)
    requires Inv(s) && tid in s.th && op.Push? && op.it in Trash(s.Th(tid)) && op.t in s.mem.entries
    ensures op.it !in s.mem.entries[op.t].list
  {
    assert ThreadOk(s.sh, tid, s.Th(tid));
    HandNotListed(s.sh, s.mem, tid, s.Th(tid), op.it, op.t);
  }

  predicate Fresh(m: Mem, op: Op) { op.Push? && op.t in m.entries ==> op.it !in m.entries[op.t].list }

  lemma WalkOpReaches(s: State, tid: Tid, act: Act, sh': Shared, x': Thread)
    requires Inv(s) && HeapWinOk(s.sh.heap) && tid in s.th && Windowed(W(s.sh).win, s.Th(tid))
    requires WalkOpAct(act) && WalkingStep(act, s.sh, tid, s.Th(tid), sh', x')
    ensures var op := OpOf(act, s.sh, s.Th(tid));
      SlotOp(op) && Reaching(s.mem, W(s.sh), op.win, op.t) && Fresh(s.mem, op)
  {
    hide Inv, StepOf, StoreStep, OpOf, NextMem;
    WalkOpShape(act, s.sh, tid, s.Th(tid), sh', x');
    WalkReaches(s, tid);
  }

  lemma AppendOpReaches(s: State, tid: Tid, act: Act, sh': Shared, x': Thread)
    requires Inv(s) && HeapWinOk(s.sh.heap) && tid in s.th && Windowed(W(s.sh).win, s.Th(tid))
    requires AppendOpAct(act) && FreeStep(act, s.sh, tid, s.Th(tid), sh', x')
    ensures var op := OpOf(act, s.sh, s.Th(tid));
      SlotOp(op) && Reaching(s.mem, W(s.sh), op.win, op.t) && Fresh(s.mem, op)
  {
    hide Inv, StepOf, StoreStep, OpOf, NextMem;
    AppendOpShape(act, s.sh, tid, s.Th(tid), sh', x');
    AppendReaches(s, tid);
    var op := OpOf(act, s.sh, s.Th(tid));
    if op.Push? { OpHandNotListed(s, tid, op); }
  }

  /** A step on a slot, and what it does to the entry. */
  ghost predicate SlotActOk(s: State, ss': Stores, tid: Tid, op: Op) {
    && CurOk(s.sh) && SlotOp(op) && Reaching(s.mem, W(s.sh), op.win, op.t)
    && MemStep(s.mem, tid, op, NextMem(s.mem, tid, op)) && Matches(NextMem(s.mem, tid, op), ss', W(s.sh))
  }

  lemma WalkOpSim(s: State, ss: Stores, tid: Tid, act: Act, sh': Shared, x': Thread, ss': Stores)
    requires Inv(s) && HeapWinOk(s.sh.heap) && tid in s.th && Windowed(W(s.sh).win, s.Th(tid))
    requires Matches(s.mem, ss, W(s.sh)) && StoreStep(ss, OpOf(act, s.sh, s.Th(tid)), ss')
    requires WalkOpAct(act) && WalkingStep(act, s.sh, tid, s.Th(tid), sh', x')
    ensures SlotActOk(s, ss', tid, OpOf(act, s.sh, s.Th(tid)))
  {
    hide Inv, StoreStep, OpOf;
    WalkOpReaches(s, tid, act, sh', x');
    SlotSim(s.mem, ss, W(s.sh), tid, OpOf(act, s.sh, s.Th(tid)), ss');
  }

  lemma AppendOpSim(s: State, ss: Stores, tid: Tid, act: Act, sh': Shared, x': Thread, ss': Stores)
    requires Inv(s) && HeapWinOk(s.sh.heap) && tid in s.th && Windowed(W(s.sh).win, s.Th(tid))
    requires Matches(s.mem, ss, W(s.sh)) && StoreStep(ss, OpOf(act, s.sh, s.Th(tid)), ss')
    requires AppendOpAct(act) && FreeStep(act, s.sh, tid, s.Th(tid), sh', x')
    ensures SlotActOk(s, ss', tid, OpOf(act, s.sh, s.Th(tid)))
  {
    hide Inv, StoreStep, OpOf;
    AppendOpReaches(s, tid, act, sh', x');
    SlotSim(s.mem, ss, W(s.sh), tid, OpOf(act, s.sh, s.Th(tid)), ss');
  }

  lemma SlotActSim(s: State, ss: Stores, tid: Tid, act: Act, sh': Shared, x': Thread, ss': Stores)
    requires Inv(s) && Coupled(s.sh, s.th, s.mem, ss) && tid in s.th
    requires WalkOpAct(act) || AppendOpAct(act)
    requires WalkOpAct(act) ==> WalkingStep(act, s.sh, tid, s.Th(tid), sh', x')
    requires AppendOpAct(act) ==> FreeStep(act, s.sh, tid, s.Th(tid), sh', x')
    requires StoreStep(ss, OpOf(act, s.sh, s.Th(tid)), ss')
    ensures SlotActOk(s, ss', tid, OpOf(act, s.sh, s.Th(tid)))
  {
    hide Inv, StoreStep;
    if WalkOpAct(act) {
      WalkOpSim(s, ss, tid, act, sh', x', ss');
    } else {
      AppendOpSim(s, ss, tid, act, sh', x', ss');
    }
  }

  lemma StepKind(act: Act, sh: Shared, tid: Tid, x: Thread, sh': Shared, x': Thread)
    requires ThreadStep(act, sh, tid, x, sh', x')
    ensures WalkOpAct(act) ==> WalkingStep(act, sh, tid, x, sh', x')
    ensures AppendOpAct(act) ==> FreeStep(act, sh, tid, x, sh', x')
  {
    hide StepOf;
    if WalkOpAct(act) { WalkShape(act, sh, tid, x, sh', x'); }
    if AppendOpAct(act) { FreeShape(act, sh, tid, x, sh', x'); }
  }

  lemma OtherMem(m: Mem, tid: Tid, op: Op)
    requires !SlotOp(op)
    ensures MemStep(m, tid, op, NextMem(m, tid, op))
  {
  }

  /** A step in memory is a step of the protocol. */
  lemma RealIsStep(s: State, ss: Stores, tid: Tid, act: Act, s': State, ss': Stores)
    requires Inv(s) && Coupled(s.sh, s.th, s.mem, ss) && tid in s.th && tid in s'.th && s'.th == s.th[tid := s'.Th(tid)]
    requires ThreadStep(act, s.sh, tid, s.Th(tid), s'.sh, s'.Th(tid))
    requires StoreStep(ss, OpOf(act, s.sh, s.Th(tid)), ss')
    requires s'.mem == NextMem(s.mem, tid, OpOf(act, s.sh, s.Th(tid)))
    ensures Step(s, tid, act, s')
  {
    hide Inv, StepOf, StoreStep;
    if WalkOpAct(act) || AppendOpAct(act) {
      StepKind(act, s.sh, tid, s.Th(tid), s'.sh, s'.Th(tid));
      SlotActSim(s, ss, tid, act, s'.sh, s'.Th(tid), ss');
    } else {
      if SlotOp(OpOf(act, s.sh, s.Th(tid))) { SlotOpAct(act, s.sh, s.Th(tid)); }
      OtherMem(s.mem, tid, OpOf(act, s.sh, s.Th(tid)));
    }
  }
}
