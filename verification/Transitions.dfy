/** The states a world pointer can be in, and the swaps between them. */
module Transitions {
  import opened AbaTypes
  import opened Protocol
  import opened Invariant
  import opened Entries
  import opened Machine
  import opened CouplingSteps
  import opened Runs

  datatype Intent = ForRegister | ForUnregister | ForFree | ForCheckin | ForLock | ForUnlock

  function Bit(b: bool, weight: nat): nat { if b then weight else 0 }

  /** The number of a state: the bit, the lock, a timestamp other than 0, more than one thread. */
  function StateOf(p: Ptr, w: World): nat {
    Bit(p.bit, 1) + Bit(p.lock, 2) + Bit(w.ts != 0, 4) + Bit(w.n > 1, 8)
  }

  function StateNow(sh: Shared): nat {
    StateOf(sh.cur, W(sh))
  }

  /** The table the debug build checks every swap against. */
  predicate Table(from: nat, to: nat, intent: Intent) {
    if from == 0 then to == 2 && intent.ForLock?
    else if from == 1 then to == 3 && intent.ForLock?
    else if from == 2 then (to == 0 && intent.ForUnlock?) || (to == 1 && intent.ForRegister?)
    else if from == 3 then
      (to == 1 && intent.ForUnlock?) || (to == 2 && intent.ForUnregister?) || (to == 9 && intent.ForRegister?)
    else if from == 5 then (to == 7 && intent.ForLock?) || (to == 5 && intent.ForCheckin?)
    else if from == 7 then
      || (to == 2 && intent.ForUnregister?) || (to == 5 && (intent.ForUnlock? || intent.ForCheckin?))
      || (to == 13 && intent.ForRegister?)
    else if from == 9 then (to == 11 && intent.ForLock?) || (to == 12 && intent.ForFree?)
    else if from == 11 then
      || (to == 1 && intent.ForUnregister?) || (to == 12 && intent.ForFree?)
      || (to == 9 && (intent.ForUnlock? || intent.ForUnregister? || intent.ForRegister?))
    else if from == 12 then (to == 13 && intent.ForCheckin?) || (to == 14 && intent.ForLock?)
    else if from == 13 then
      (to == 12 && intent.ForFree?) || (to == 13 && intent.ForCheckin?) || (to == 15 && intent.ForLock?)
    else if from == 14 then
      || (to == 5 && intent.ForUnregister?) || (to == 12 && intent.ForUnlock?) || (to == 14 && intent.ForFree?)
      || (to == 13 && (intent.ForRegister? || intent.ForUnregister? || intent.ForCheckin?))
    else if from == 15 then
      || (to == 5 && intent.ForUnregister?) || (to == 12 && intent.ForFree?)
      || (to == 13 && (intent.ForUnlock? || intent.ForCheckin? || intent.ForRegister? || intent.ForUnregister?))
    else false
  }

  /** Edges of the table that no interleaving takes. */
  predicate NeverTaken(from: nat, to: nat, intent: Intent) {
    || (from == 14 && (intent.ForFree? || intent.ForUnlock? || intent.ForUnregister?))
    || ((from == 3 || from == 11) && intent.ForUnlock?)
  }

  predicate Reachable(n: nat) {
    n <= 3 || n == 5 || n == 7 || n == 9 || n >= 11
  }

  /** The swaps, by what they are for. */
  predicate IsSwap(act: Act) {
    || act.Lock? || act.RegisterOk? || act.FreeSwap? || act.MarkOk? || act.CopyOk? || act.LockOk?
    || act.RemoveOk? || act.RemoveLast? || act.UnlockOk? || act.Reopen?
  }

  function IntentOf(act: Act): Intent
    requires IsSwap(act)
  {
    if act.RegisterOk? then ForRegister
    else if act.FreeSwap? then ForFree
    else if act.MarkOk? || act.CopyOk? then ForCheckin
    else if act.RemoveOk? || act.RemoveLast? then ForUnregister
    else if act.Lock? || act.LockOk? then ForLock
    else ForUnlock
  }

  /** A world with threads in it and no bit has a timestamp, hence more than one thread. */
  ghost predicate BitZeroHasTime(sh: Shared) {
    CurOk(sh) && (W(sh).n > 0 && !sh.cur.bit ==> W(sh).ts > 0)
  }

  lemma BitZeroTime(s: State)
    requires Inv(s)
    ensures BitZeroHasTime(s.sh)
  {
    hide StepAt, Step;
    if W(s.sh).n > 0 && !s.sh.cur.bit {
      assert Regs(s.th) != {};
      var i :| i in Regs(s.th);
      assert ThreadOk(s.sh, i, s.Th(i));
      LimitPositive(s.Th(i));
    }
  }

  lemma LimitPositive(x: Thread)
    requires Reg(x)
    ensures Limit(x) > 0
  {
  }

  lemma StateIsReachable(sh: Shared)
    requires SharedOk(sh) && BitZeroHasTime(sh)
    ensures Reachable(StateNow(sh)) && StateNow(sh) <= 15
  {
  }

  ghost predicate EdgeOk(sh: Shared, act: Act, sh': Shared)
    requires IsSwap(act) && CurOk(sh) && CurOk(sh')
  {
    && Table(StateNow(sh), StateNow(sh'), IntentOf(act))
    && !NeverTaken(StateNow(sh), StateNow(sh'), IntentOf(act))
    && (!act.RemoveLast? ==> W(sh').ts >= W(sh).ts)
  }

  lemma RegisterEdge(sh: Shared, tid: Tid, x: Thread, act: Act, sh': Shared, x': Thread)
    requires ThreadOk(sh, tid, x) && SharedOk(sh) && BitZeroHasTime(sh) && (act.Lock? || act.RegisterOk?)
    requires RegisterStep(act, sh, tid, x, sh', x') && CurOk(sh')
    ensures EdgeOk(sh, act, sh')
  {
    if act.RegisterOk? { assert x.pc.s in Seens(x) && SeenOk(sh, x.pc.s); }
  }

  lemma FreeEdge(sh: Shared, tid: Tid, x: Thread, act: Act, sh': Shared, x': Thread)
    requires ThreadOk(sh, tid, x) && SharedOk(sh) && act.FreeSwap?
    requires DoFreeSwap(sh, tid, x, sh', x', act.a, act.win) && CurOk(sh')
    ensures EdgeOk(sh, act, sh')
  {
    assert x.pc.stage.s in Seens(x) && SeenOk(sh, x.pc.stage.s);
  }

  lemma CheckinEdge(sh: Shared, tid: Tid, x: Thread, act: Act, sh': Shared, x': Thread)
    requires ThreadOk(sh, tid, x) && SharedOk(sh) && BitZeroHasTime(sh) && (act.MarkOk? || act.CopyOk?)
    requires CheckinStep(act, sh, tid, x, sh', x') && CurOk(sh') && W(sh).n > 0
    ensures EdgeOk(sh, act, sh')
  {
    assert x.pc.s in Seens(x) && SeenOk(sh, x.pc.s);
  }

  lemma LockingEdge(sh: Shared, tid: Tid, x: Thread, act: Act, sh': Shared, x': Thread)
    requires ThreadOk(sh, tid, x) && SharedOk(sh) && (act.LockOk? || act.UnlockOk? || act.Reopen?)
    requires UnregisterStep(act, sh, tid, x, sh', x') && CurOk(sh') && (Reg(x) ==> W(sh).n > 0)
    ensures EdgeOk(sh, act, sh')
  {
    assert LockedOk(sh, x);
    if act.Reopen? {
      assert W(sh).n == 0;
    } else {
      assert x.pc.s in Seens(x) && SeenOk(sh, x.pc.s);
    }
  }

  lemma RemoveEdge(sh: Shared, tid: Tid, x: Thread, act: Act, sh': Shared, x': Thread)
    requires ThreadOk(sh, tid, x) && SharedOk(sh) && BitZeroHasTime(sh) && (act.RemoveOk? || act.RemoveLast?)
    requires UnregisterStep(act, sh, tid, x, sh', x') && CurOk(sh')
    ensures EdgeOk(sh, act, sh')
  {
    assert x.pc.s in Seens(x) && SeenOk(sh, x.pc.s);
  }

  /* ---- from one thread to the machine ---- */

  /** What a swap needs to know of the state it starts from. */
  ghost predicate SwapBase(sh: Shared, tid: Tid, x: Thread) {
    ThreadOk(sh, tid, x) && SharedOk(sh) && BitZeroHasTime(sh) && (Reg(x) ==> W(sh).n > 0)
  }

  lemma SwapBaseHolds(s: State, tid: Tid)
    requires Inv(s) && tid in s.th
    ensures SwapBase(s.sh, tid, s.Th(tid))
  {
    BitZeroTime(s);
    if Reg(s.Th(tid)) { SomeoneRegistered(s, tid); }
  }

  lemma SwapEdge(sh: Shared, tid: Tid, x: Thread, act: Act, sh': Shared, x': Thread)
    requires SwapBase(sh, tid, x) && CurOk(sh') && IsSwap(act) && ThreadStep(act, sh, tid, x, sh', x')
    ensures EdgeOk(sh, act, sh')
  {
    hide StepAt, Step, StepOf, OpOf, NextMem;
    if act.FreeSwap? {
      FreeSwapStepShape(act, sh, tid, x, sh', x');
      FreeEdge(sh, tid, x, act, sh', x');
    } else if CheckinAct(act) {
      CheckinSwapEdge(sh, tid, x, act, sh', x');
    } else {
      RestSwapEdge(sh, tid, x, act, sh', x');
    }
  }

  lemma CheckinSwapEdge(sh: Shared, tid: Tid, x: Thread, act: Act, sh': Shared, x': Thread)
    requires SwapBase(sh, tid, x) && CurOk(sh') && IsSwap(act) && CheckinAct(act)
    requires ThreadStep(act, sh, tid, x, sh', x')
    ensures EdgeOk(sh, act, sh')
  {
    hide StepAt, Step, StepOf, OpOf, NextMem;
    CheckinShape(act, sh, tid, x, sh', x');
    CheckinReg(sh, tid, x, act, sh', x');
    CheckinEdge(sh, tid, x, act, sh', x');
  }

  lemma RestSwapEdge(sh: Shared, tid: Tid, x: Thread, act: Act, sh': Shared, x': Thread)
    requires SwapBase(sh, tid, x) && CurOk(sh') && IsSwap(act) && (RegisterAct(act) || UnregisterAct(act))
    requires ThreadStep(act, sh, tid, x, sh', x')
    ensures EdgeOk(sh, act, sh')
  {
    hide StepAt, Step, StepOf, OpOf, NextMem;
    if RegisterAct(act) {
      RegisterShape(act, sh, tid, x, sh', x');
      RegisterEdge(sh, tid, x, act, sh', x');
    } else {
      UnregisterShape(act, sh, tid, x, sh', x');
      UnregisterEdge(sh, tid, x, act, sh', x');
    }
  }

  lemma UnregisterEdge(sh: Shared, tid: Tid, x: Thread, act: Act, sh': Shared, x': Thread)
    requires SwapBase(sh, tid, x) && CurOk(sh') && UnregisterAct(act) && IsSwap(act)
    requires UnregisterStep(act, sh, tid, x, sh', x')
    ensures EdgeOk(sh, act, sh')
  {
    if act.RemoveOk? || act.RemoveLast? {
      RemoveEdge(sh, tid, x, act, sh', x');
    } else {
      LockingEdge(sh, tid, x, act, sh', x');
    }
  }

  lemma FreeKeepsPointer(act: Act, sh: Shared, tid: Tid, x: Thread, sh': Shared, x': Thread)
    requires FreeAct(act) && !IsSwap(act) && FreeStep(act, sh, tid, x, sh', x')
    ensures sh'.cur == sh.cur
  {
  }

  lemma WalkKeepsPointer(act: Act, sh: Shared, tid: Tid, x: Thread, sh': Shared, x': Thread)
    requires WalkAct(act) && WalkingStep(act, sh, tid, x, sh', x')
    ensures sh'.cur == sh.cur
  {
  }

  lemma RegisterKeepsPointer(act: Act, sh: Shared, tid: Tid, x: Thread, sh': Shared, x': Thread)
    requires RegisterAct(act) && !IsSwap(act) && RegisterStep(act, sh, tid, x, sh', x')
    ensures sh'.cur == sh.cur
  {
  }

  lemma CheckinKeepsPointer(act: Act, sh: Shared, tid: Tid, x: Thread, sh': Shared, x': Thread)
    requires CheckinAct(act) && !IsSwap(act) && CheckinStep(act, sh, tid, x, sh', x')
    ensures sh'.cur == sh.cur
  {
  }

  lemma UnregisterKeepsPointer(act: Act, sh: Shared, tid: Tid, x: Thread, sh': Shared, x': Thread)
    requires UnregisterAct(act) && !IsSwap(act) && UnregisterStep(act, sh, tid, x, sh', x')
    ensures sh'.cur == sh.cur
  {
  }

  /** No other step moves the world pointer. */
  lemma OnlySwapsMove(act: Act, sh: Shared, tid: Tid, x: Thread, sh': Shared, x': Thread)
    requires !IsSwap(act) && ThreadStep(act, sh, tid, x, sh', x')
    ensures sh'.cur == sh.cur
  {
    if FreeAct(act) {
      FreeShape(act, sh, tid, x, sh', x');
      FreeKeepsPointer(act, sh, tid, x, sh', x');
    } else if WalkAct(act) {
      WalkShape(act, sh, tid, x, sh', x');
      WalkKeepsPointer(act, sh, tid, x, sh', x');
    } else if RegisterAct(act) {
      RegisterShape(act, sh, tid, x, sh', x');
      RegisterKeepsPointer(act, sh, tid, x, sh', x');
    } else if CheckinAct(act) {
      CheckinShape(act, sh, tid, x, sh', x');
      CheckinKeepsPointer(act, sh, tid, x, sh', x');
    } else {
      UnregisterShape(act, sh, tid, x, sh', x');
      UnregisterKeepsPointer(act, sh, tid, x, sh', x');
    }
  }

  ghost predicate MoveOk(sh: Shared, act: Act, sh': Shared) {
    && CurOk(sh) && CurOk(sh')
    && (if IsSwap(act) then EdgeOk(sh, act, sh') else sh'.cur == sh.cur && W(sh') == W(sh))
  }

  lemma StepEdge(s: State, tid: Tid, act: Act, s': State, sh: Shared, sh': Shared)
    requires Inv(s) && Step(s, tid, act, s') && Inv(s') && sh == s.sh && sh' == s'.sh
    ensures MoveOk(sh, act, sh')
  {
    hide StepOf, OpOf, NextMem;
    if IsSwap(act) {
      SwapBaseHolds(s, tid);
      SwapEdge(s.sh, tid, s.Th(tid), act, s'.sh, s'.Th(tid));
    } else {
      NothingMoves(act, s.sh, tid, s.Th(tid), s'.sh, s'.Th(tid));
    }
  }

  lemma NothingMoves(act: Act, sh: Shared, tid: Tid, x: Thread, sh': Shared, x': Thread)
    requires !IsSwap(act) && ThreadStep(act, sh, tid, x, sh', x') && CurOk(sh) && CurOk(sh')
    ensures MoveOk(sh, act, sh')
  {
    hide StepOf;
    OnlySwapsMove(act, sh, tid, x, sh', x');
    StayCur(act, sh, tid, x, sh', x');
  }

  /** In every run, with any number of threads: every swap of the world pointer is in the table, the
      edges above are never taken, no other step moves the pointer, and time only goes back when the
      last thread leaves. */
  lemma EveryEdgeInTable(r: Run, i: nat)
    requires IsRun(r) && i < |r.turns|
    ensures MoveOk(r.At(i).sh, r.TurnAt(i).act, r.At(i + 1).sh)
  {
    hide StepAt, Step, Tracks, Inv;
    var ms := TracksExists(r);
    RunInv(r, ms, i);
    RunStep(r, ms, i);
    RunInv(r, ms, i + 1);
    StepEdge(Meant(r, ms, i), r.TurnAt(i).tid, r.TurnAt(i).act, Meant(r, ms, i + 1),
      r.At(i).sh, r.At(i + 1).sh);
  }

  /** Only the states of the table are ever reached; 4, 6, 8 and 10 are not. */
  lemma OnlyTheseStates(r: Run, i: nat)
    requires IsRun(r) && i <= |r.turns|
    ensures CurOk(r.At(i).sh) && Reachable(StateNow(r.At(i).sh)) && StateNow(r.At(i).sh) <= 15
  {
    hide StepAt, Step, StepOf, OpOf, NextMem;
    var ms := TracksExists(r);
    RunInv(r, ms, i);
    BitZeroTime(Meant(r, ms, i));
    StateIsReachable(r.At(i).sh);
  }
}
