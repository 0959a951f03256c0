/** No thread ever gets stuck: in every state of every run each thread can take its next step, except
    that a thread waits to register while the world pointer is locked. */
module NeverStuck {
  import opened AbaTypes
  import opened Protocol
  import opened Invariant
  import opened Entries
  import opened Machine
  import opened Windows
  import opened Storages
  import opened Refinement
  import opened Coupling
  import opened Simulation
  import opened Planning
  import opened RealSteps
  import opened MakingRoom
  import opened RealRefinement
  import opened Runs
  import opened Accounting

  /** The thread is about to register and the world pointer is locked. */
  predicate Waits(sh: Shared, x: Thread) { x.pc.Locking? && sh.cur.lock }

  /* ---- what a thread does next ---- */

  lemma RegisterNext(sh: Shared, tid: Tid, x: Thread) returns (act: Act, sh': Shared, x': Thread)
    requires CurOk(sh) && !Waits(sh, x)
    requires x.pc.Locking? || x.pc.Registering? || x.pc.Disposing? || (x.pc.Idle? && x.last == 0)
    ensures RegisterAct(act) && RegisterStep(act, sh, tid, x, sh', x')
  {
    sh', x' := sh, x;
    if x.pc.Idle? {
      act, x' := CallRegister, x.(pc := Locking);
    } else if x.pc.Locking? {
      act, sh' := Lock, SetLock(sh, tid);
      x' := x.(pc := Registering(Seen(sh'.cur, W(sh))));
    } else if x.pc.Registering? {
      if sh.cur == x.pc.s.at {
        var a := NewAddress(sh.heap);
        var w := x.pc.s.world;
        act, sh' := RegisterOk(a), Publish(sh, tid, a, w.(n := w.n + 1), true, false);
        x' := Thread(w.ts + 1, Disposing, x.held + {Old(x.pc.s.at.w)});
      } else {
        act, x' := RegisterFail, x.(pc := Locking, held := x.held + {Old(x.pc.s.at.w)});
      }
    } else if x.held == {} {
      act, x' := ChainDone, x.(pc := Idle);
    } else {
      var it :| it in x.held;
      act, x' := ChainNext(it), x.(pc := Free(Reading(it), ToChain), held := x.held - {it});
    }
  }

  lemma CheckinNext(sh: Shared, tid: Tid, x: Thread) returns (act: Act, sh': Shared, x': Thread)
    requires CurOk(sh) && (x.pc.Marking? || x.pc.Copying? || x.pc.Looking? || (x.pc.Idle? && x.last > 0))
    ensures CheckinAct(act) && CheckinStep(act, sh, tid, x, sh', x')
  {
    sh', x' := sh, x;
    if x.pc.Idle? {
      act := CallCheckin;
      x' := if x.last > W(sh).ts then x else x.(pc := Marking(Now(sh), Now(sh), W(sh).ts, false));
    } else if x.pc.Looking? {
      act, x' := Look, x.(pc := Walk(x.last, x.pc.upto, Now(sh), Dec, false));
    } else if x.pc.Copying? {
      act, sh', x' := CopyNext(sh, tid, x);
    } else if x.pc.s.at.lock {
      act, x' := MarkLocked, x.(pc := Copying(x.pc.s0, x.pc.upto, x.pc.un));
    } else if x.pc.s.at.bit {
      act, x' := MarkSeen, x.(pc := Marked(x, x.pc.s, x.pc.upto, x.pc.un));
    } else if sh.cur == x.pc.s.at {
      act, sh' := MarkOk, sh.(cur := sh.cur.(bit := true));
      x' := x.(pc := Marked(x, Seen(sh'.cur, x.pc.s.world), x.pc.upto, x.pc.un));
    } else {
      act, x' := MarkFail, x.(pc := Marking(Now(sh), x.pc.s0, x.pc.upto, x.pc.un));
    }
  }

  lemma CopyNext(sh: Shared, tid: Tid, x: Thread) returns (act: Act, sh': Shared, x': Thread)
    requires CurOk(sh) && x.pc.Copying?
    ensures CheckinAct(act) && CheckinStep(act, sh, tid, x, sh', x')
  {
    if sh.cur == x.pc.s.at {
      var a := NewAddress(sh.heap);
      act, sh' := CopyOk(a), Publish(sh, tid, a, x.pc.s.world, true, false);
      var s' := Seen(sh'.cur, x.pc.s.world);
      x' := x.(pc :=
        if x.pc.s.at.lock then Marked(x, s', x.pc.upto, x.pc.un)
        else Free(Reading(Old(x.pc.s.at.w)), if x.pc.un then ToWalk(x.pc.upto, s') else ToLook(x.pc.upto)));
    } else {
      act, sh', x' := CopyFail, sh, x.(pc := Copying(Now(sh), x.pc.upto, x.pc.un));
    }
  }

  /** `list` is what is on the list of the timestamp the thread walks, `rc` its count. */
  lemma WalkNext(sh: Shared, tid: Tid, x: Thread, rc: int, list: set<Item>) returns (act: Act, sh': Shared, x': Thread)
    requires x.pc.Walk?
    ensures WalkAct(act) && WalkingStep(act, sh, tid, x, sh', x')
    ensures act.Decrement? ==> act.prev == rc
    ensures act.SnipList? ==> act.list == list
  {
    sh', x' := sh, x;
    var t, ph := x.pc.t, x.pc.phase;
    if ph == Dec && t <= x.pc.upto {
      act, x' := Decrement(rc), x.(pc := if rc != 0 then AtWalk(x.pc, t + 1, Dec) else AtWalk(x.pc, t, Peek));
    } else if ph == Dec {
      act, x' := WalkDone, Thread(x.pc.upto + 1, if x.pc.un then LockTry(x.pc.s, x.pc.upto) else Idle, x.held);
    } else if ph == Peek {
      act, x' := SnipList(list), x.(pc := AtWalk(x.pc, t, Null(list)));
    } else if ph.Null? {
      act, sh', x' := WipeList, MoveAll(sh, ph.batch, Held(tid)), x.(pc := AtWalk(x.pc, t, Clear(ph.batch)));
    } else if ph.Clear? {
      act, x' := ClearUse, x.(pc := AtWalk(x.pc, t, Phase.Run(ph.batch)));
    } else if ph.batch == {} {
      act, x' := RunDone, x.(pc := AtWalk(x.pc, t + 1, Dec));
    } else {
      var it :| it in ph.batch;
      act, sh', x' := RunItem(it), Finish(sh, it), x.(pc := AtWalk(x.pc, t, Phase.Run(ph.batch - {it})));
    }
  }

  /** The free is about to prepare a world, or to swap one in. */
  ghost predicate MakesRoom(sh: Shared, st: Stage) {
    CanPlan(st) || (st.Planning? && !st.plan.Rotating? && !Failed(st.s.world, st.plan) && sh.cur == st.s.at)
  }

  /** The steps of a free other than making room. */
  lemma FreeNext(sh: Shared, ss: Stores, tid: Tid, x: Thread) returns (act: Act, sh': Shared, x': Thread)
    requires CurOk(sh) && x.pc.Free? && !MakesRoom(sh, x.pc.stage) && Room(ss, x)
    ensures FreeAct(act) && FreeStep(act, sh, tid, x, sh', x') && !act.FreePlan? && !act.FreeSwap?
    ensures FreeChoice(sh, ss, x.pc.stage, act)
  {
    hide StepAt, Joint, RealStep, Step;
    sh', x' := sh, x;
    var st, ret := x.pc.stage, x.pc.ret;
    if st.Reading? || st.Planning? || (st.Trying? && st.s.at.bit) {
      act, sh', x' := ReadNext(sh, tid, x);
    } else if st.Trying? {
      act, x' := FreeEnter, x.(pc := Free(Appending(st.it, st.s, {}), ret));
    } else if st.Adding? {
      act, x' := FreeAdd, x.(pc := Free(Appending(st.it, st.s, st.spare), ret));
    } else if st.Appending? {
      act, sh', x' := FreeAppend, Move(sh, st.it, Listed(st.s.world.ts)), x.(pc := Free(Trailing(st.s, st.spare), ret));
    } else if st.Immediate? {
      act, sh', x' := FreeNow, Finish(sh, st.it), x.(pc := After(ret, x.last));
    } else if st.spare == {} {
      act, x' := FreeDone, x.(pc := After(ret, x.last));
    } else {
      var it :| it in st.spare;
      act, sh' := FreeAppendOld(it), Move(sh, it, Listed(st.s.world.ts));
      x' := x.(pc := Free(Trailing(st.s, st.spare - {it}), ret));
    }
  }

  /** Reading the world pointer, for the first time or again. */
  lemma ReadNext(sh: Shared, tid: Tid, x: Thread) returns (act: Act, sh': Shared, x': Thread)
    requires CurOk(sh) && x.pc.Free? && var st := x.pc.stage; st.Reading? || st.Planning? || (st.Trying? && st.s.at.bit)
    ensures FreeAct(act) && FreeStep(act, sh, tid, x, sh', x')
    ensures if x.pc.stage.Reading? then act.FreeRead? else ReadsAgain(sh, act)
  {
    hide StepAt, Joint, RealStep, Step;
    var it, ret := x.pc.stage.it, x.pc.ret;
    if W(sh).n <= 1 {
      act := if x.pc.stage.Reading? then FreeRead else FreeAlone;
      sh', x' := Move(sh, it, Alone(tid)), x.(pc := Free(Immediate(it), ret));
    } else {
      act := if x.pc.stage.Reading? then FreeRead else FreeRetry;
      sh', x' := AssignIfClear(sh, it), x.(pc := Free(Trying(it, Now(sh)), ret));
    }
  }

  /** What a free that makes room knows of its world and its plan. */
  ghost predicate Room(ss: Stores, x: Thread) {
    x.pc.Free? && (x.pc.stage.Trying? || x.pc.stage.Planning?) ==>
      var w := x.pc.stage.s.world;
      && WorldWinOk(w) && There(ss, w.win)
      && (x.pc.stage.Planning? ==> w.n >= 2 && PlanShape(w, x.pc.stage.plan))
  }

  /** A step of a free that makes room, on the storages in memory. */
  ghost predicate RoomTurn(sh: Shared, ss: Stores, tid: Tid, x: Thread, act: Act, sh': Shared, x': Thread, ss': Stores)
    requires CurOk(sh) && x.pc.Free?
  {
    && FreeAct(act) && FreeStep(act, sh, tid, x, sh', x')
    && RoomStep(act, x) && StoreStep(ss, OpOf(act, sh, x), ss') && FreeChoice(sh, ss, x.pc.stage, act)
  }

  lemma PrepareRoom(sh: Shared, ss: Stores, tid: Tid, x: Thread)
    returns (act: Act, sh': Shared, x': Thread, ss': Stores)
    requires CurOk(sh) && x.pc.Free? && CanPlan(x.pc.stage) && Room(ss, x)
    ensures RoomTurn(sh, ss, tid, x, act, sh', x', ss')
  {
    var st, plan, op := x.pc.stage, Fresh(true), Nop;
    plan, op, ss' := PrepareNext(ss, st);
    act, sh', x' := FreePlan(plan, op), sh, x.(pc := Free(Planning(st.it, st.s, plan), x.pc.ret));
  }

  lemma SwapRoom(sh: Shared, ss: Stores, tid: Tid, x: Thread) returns (act: Act, sh': Shared, x': Thread, ss': Stores)
    requires CurOk(sh) && x.pc.Free? && MakesRoom(sh, x.pc.stage) && !CanPlan(x.pc.stage) && Room(ss, x)
    ensures RoomTurn(sh, ss, tid, x, act, sh', x', ss')
  {
    var st := x.pc.stage;
    var win;
    win, ss' := WindowNext(ss, st.s, st.plan);
    var a := NewAddress(sh.heap);
    var w := World(st.s.world.ts + 1, st.s.world.n, win);
    var spare := if st.s.at.lock then {} else {Old(st.s.at.w)};
    act, sh' := FreeSwap(a, win), Assign(Publish(sh, tid, a, w, false, false), {st.it} + spare, w.ts);
    x' := x.(pc := Free(Adding(st.it, Seen(sh'.cur, w), spare), x.pc.ret));
  }

  lemma RoomNext(sh: Shared, ss: Stores, tid: Tid, x: Thread) returns (act: Act, sh': Shared, x': Thread, ss': Stores)
    requires CurOk(sh) && x.pc.Free? && MakesRoom(sh, x.pc.stage) && Room(ss, x)
    ensures RoomTurn(sh, ss, tid, x, act, sh', x', ss')
  {
    hide *;
    if CanPlan(x.pc.stage) {
      act, sh', x', ss' := PrepareRoom(sh, ss, tid, x);
    } else {
      act, sh', x', ss' := SwapRoom(sh, ss, tid, x);
    }
  }

  /** The threads that are registered count in the world they have locked. */
  predicate CountsItself(sh: Shared, x: Thread) {
    x.pc.Removing? && sh.cur == x.pc.s.at ==> x.pc.s.world.n >= 1
  }

  lemma RemoveNext(sh: Shared, tid: Tid, x: Thread) returns (act: Act, sh': Shared, x': Thread)
    requires x.pc.Removing? && CountsItself(sh, x)
    ensures UnregisterAct(act) && UnregisterStep(act, sh, tid, x, sh', x')
  {
    if x.pc.s.world.ts != x.pc.upto || sh.cur != x.pc.s.at {
      act, sh', x' := RemoveAgain, sh, x.(pc := Unlocking(x.pc.s));
    } else {
      var a := NewAddress(sh.heap);
      var w := x.pc.s.world;
      if w.n >= 2 {
        act, sh' := RemoveOk(a), Publish(sh, tid, a, w.(n := w.n - 1), true, false);
        x' := x.(last := 0, pc := Leaking(x.pc.s.at.w));
      } else {
        act, sh' := RemoveLast(a), Publish(sh, tid, a, World(0, 0, Window(0, w.win.size, [])), false, true);
        x' := x.(last := 0, pc := Cleaning(x.pc.s.at.w, a));
      }
    }
  }

  lemma UnregisterNext(sh: Shared, tid: Tid, x: Thread) returns (act: Act, sh': Shared, x': Thread)
    requires CurOk(sh) && CountsItself(sh, x)
    requires
      || x.pc.UnregRead? || x.pc.LockTry? || x.pc.Removing? || x.pc.Unlocking? || x.pc.Leaking? || x.pc.Cleaning?
      || x.pc.Reopening?
    ensures UnregisterAct(act) && UnregisterStep(act, sh, tid, x, sh', x')
  {
    sh', x' := sh, x;
    if x.pc.UnregRead? {
      act := UnregLook;
      x' := x.(pc := if x.last <= W(sh).ts then Marking(Now(sh), Now(sh), W(sh).ts, true)
                     else LockTry(Now(sh), W(sh).ts));
    } else if x.pc.LockTry? {
      if x.pc.s.at.lock || sh.cur.w != x.pc.s.at.w {
        act, x' := LockFail, x.(pc := UnregRead);
      } else if sh.cur == x.pc.s.at {
        act, sh' := LockOk, SetLock(sh, tid);
        x' := x.(pc := Removing(Seen(sh'.cur, x.pc.s.world), x.pc.upto));
      } else {
        act, x' := LockRetry, x.(pc := LockTry(Seen(sh.cur, x.pc.s.world), x.pc.upto));
      }
    } else if x.pc.Removing? {
      act, sh', x' := RemoveNext(sh, tid, x);
    } else if x.pc.Unlocking? {
      if sh.cur == x.pc.s.at {
        act, sh', x' := UnlockOk, ClearLock(sh), x.(pc := UnregRead);
      } else {
        act, x' := UnlockFail, x.(pc := Free(Reading(Old(x.pc.s.at.w)), ToUnregister));
      }
    } else if x.pc.Leaking? {
      act, sh' := Leak, Move(sh, Old(x.pc.a), Leaked).(leaks := sh.leaks + {Old(x.pc.a)});
      x' := x.(pc := Idle);
    } else if x.pc.Cleaning? {
      act, sh', x' := Clean, FinishAll(sh, x.pc.a), x.(pc := Reopening(x.pc.b));
    } else {
      act, sh', x' := Reopen, ClearLock(sh), x.(pc := Idle);
    }
  }

  /** The step is no planning of a free, and its answers from the entries are `rc` and `list`. */
  predicate Plain(act: Act, rc: int, list: set<Item>) {
    && !act.FreePlan? && !act.FreeSwap?
    && (act.Decrement? ==> act.prev == rc) && (act.SnipList? ==> act.list == list)
  }

  lemma ThreadNext(sh: Shared, ss: Stores, tid: Tid, x: Thread, rc: int, list: set<Item>)
    returns (act: Act, sh': Shared, x': Thread)
    requires CurOk(sh) && CountsItself(sh, x) && !Waits(sh, x) && Room(ss, x)
    requires x.pc.Free? ==> !MakesRoom(sh, x.pc.stage)
    ensures ThreadStep(act, sh, tid, x, sh', x') && Plain(act, rc, list)
    ensures x.pc.Free? ==> FreeChoice(sh, ss, x.pc.stage, act)
  {
    hide StepOf;
    if x.pc.Free? {
      act, sh', x' := FreeNext(sh, ss, tid, x);
      FreeShape(act, sh, tid, x, sh', x');
    } else if x.pc.Walk? {
      act, sh', x' := WalkNext(sh, tid, x, rc, list);
      WalkShape(act, sh, tid, x, sh', x');
    } else if x.pc.Marking? || x.pc.Copying? || x.pc.Looking? || (x.pc.Idle? && x.last > 0) {
      act, sh', x' := CheckinNext(sh, tid, x);
      CheckinShape(act, sh, tid, x, sh', x');
    } else {
      act, sh', x' := OutsideNext(sh, tid, x);
    }
  }

  lemma OutsideNext(sh: Shared, tid: Tid, x: Thread) returns (act: Act, sh': Shared, x': Thread)
    requires CurOk(sh) && CountsItself(sh, x) && !Waits(sh, x) && !x.pc.Free? && !x.pc.Walk?
    requires !(x.pc.Marking? || x.pc.Copying? || x.pc.Looking? || (x.pc.Idle? && x.last > 0))
    ensures ThreadStep(act, sh, tid, x, sh', x') && (RegisterAct(act) || UnregisterAct(act))
  {
    hide *;
    if x.pc.Idle? || x.pc.Locking? || x.pc.Registering? || x.pc.Disposing? {
      act, sh', x' := RegisterNext(sh, tid, x);
      RegisterShape(act, sh, tid, x, sh', x');
    } else {
      act, sh', x' := UnregisterNext(sh, tid, x);
      UnregisterShape(act, sh, tid, x, sh', x');
    }
  }

  /* ---- the storages are ready for it ---- */

  /** The operation finds its slot, and its answers are right. */
  ghost predicate Answered(ss: Stores, op: Op) {
    && !op.Create? && !op.Probe? && !op.MarkUse?
    && (SlotOp(op) ==> Reaches(ss, op.win, op.t))
    && (op.FetchSub? ==> op.prev == SlotAt(ss, op.win, op.t).rc)
    && (op.PeekList? ==> multiset(op.list) == SlotAt(ss, op.win, op.t).list)
  }

  lemma StoreNext(ss: Stores, op: Op) returns (ss': Stores)
    requires Answered(ss, op)
    ensures StoreStep(ss, op, ss')
  {
    ss' := match op
      case FetchSub(v, t, prev) => SetSlot(ss, v, t, SlotAt(ss, v, t).(rc := prev - 1))
      case FetchAdd(v, t, n) => SetSlot(ss, v, t, SlotAt(ss, v, t).(rc := SlotAt(ss, v, t).rc + n))
      case Push(v, t, it) => SetSlot(ss, v, t, SlotAt(ss, v, t).(list := SlotAt(ss, v, t).list + multiset{it}))
      case Wipe(v, t) => SetSlot(ss, v, t, SlotAt(ss, v, t).(list := multiset{}))
      case Unuse(v, t) => SetUse(ss, v, t, false)
      case FreeStores(v) => ss - Elems(v.stores)
      case _ => ss;
  }

  lemma OpReaches(c: Real, m: Mem, tid: Tid, act: Act, sh': Shared, x': Thread)
    requires Joint(c, m) && tid in c.th && ThreadStep(act, c.sh, tid, c.Th(tid), sh', x')
    ensures var op := OpOf(act, c.sh, c.Th(tid)); SlotOp(op) ==> Reaches(c.ss, op.win, op.t)
  {
    hide StepAt, Joint, RealStep, Step, Tracks, Inv, Coupled, StoreStep, StepOf, OpOf, NextMem;
    var op := OpOf(act, c.sh, c.Th(tid));
    if SlotOp(op) {
      SlotOpAct(act, c.sh, c.Th(tid));
      StepKind(act, c.sh, tid, c.Th(tid), sh', x');
      MemHolds(c, m);
      FoundBy(c, m, tid, act, sh', x');
      Addressable(m, c.ss, W(c.sh), op.win, op.t);
    }
  }

  lemma FoundBy(c: Real, m: Mem, tid: Tid, act: Act, sh': Shared, x': Thread)
    requires Joint(c, m) && tid in c.th && CurOk(c.sh)
    requires WalkOpAct(act) || AppendOpAct(act)
    requires WalkOpAct(act) ==> WalkingStep(act, c.sh, tid, c.Th(tid), sh', x')
    requires AppendOpAct(act) ==> FreeStep(act, c.sh, tid, c.Th(tid), sh', x')
    ensures var op := OpOf(act, c.sh, c.Th(tid)); SlotOp(op) && Reaching(m, W(c.sh), op.win, op.t)
  {
    hide StepOf, StoreStep, OpOf, NextMem;
    if WalkOpAct(act) {
      WalkOpReaches(Abstract(c, m), tid, act, sh', x');
    } else {
      AppendOpReaches(Abstract(c, m), tid, act, sh', x');
    }
  }

  lemma PlainOp(act: Act, sh: Shared, x: Thread)
    requires !act.FreePlan? && !act.FreeSwap?
    ensures var op := OpOf(act, sh, x);
      && !op.Create? && !op.Probe? && !op.MarkUse?
      && (op.FetchSub? ==> x.pc.Walk? && act.Decrement? && op == FetchSub(x.pc.s.world.win, x.pc.t, act.prev))
      && (op.PeekList? ==> x.pc.Walk? && act.SnipList? && op == PeekList(x.pc.s.world.win, x.pc.t, act.list))
  {
  }

  /** The walking thread is at a timestamp whose slot it will read or write next. */
  predicate AtSlot(x: Thread) { x.pc.Walk? && (x.pc.phase == Dec ==> x.pc.t <= x.pc.upto) && !x.pc.phase.Run? }

  /** What it finds there. */
  ghost predicate Finds(ss: Stores, x: Thread, rc: int, list: set<Item>) {
    AtSlot(x) ==>
      && Reaches(ss, x.pc.s.world.win, x.pc.t)
      && SlotAt(ss, x.pc.s.world.win, x.pc.t) == Slot(rc, multiset(list))
  }

  lemma SlotFound(m: Mem, ss: Stores, w: World, v: Window, t: nat)
    requires Matches(m, ss, w) && Reaching(m, w, v, t)
    ensures Reaches(ss, v, t) && t in m.entries
    ensures SlotAt(ss, v, t) == Slot(m.entries[t].rc, multiset(m.entries[t].list))
  {
    Addressable(m, ss, w, v, t);
    assert SlotAt(ss, w.win, t) == Expected(m, t);
  }

  lemma WalkerFinds(c: Real, m: Mem, tid: Tid) returns (rc: int, list: set<Item>)
    requires Joint(c, m) && tid in c.th
    ensures Finds(c.ss, c.Th(tid), rc, list)
  {
    var x := c.Th(tid);
    rc, list := 0, {};
    if AtSlot(x) {
      WalkReaches(Abstract(c, m), tid);
      MemHolds(c, m);
      SlotFound(m, c.ss, W(c.sh), x.pc.s.world.win, x.pc.t);
      rc, list := m.entries[x.pc.t].rc, m.entries[x.pc.t].list;
    }
  }

  lemma OpAnswered(ss: Stores, sh: Shared, tid: Tid, x: Thread, act: Act, sh': Shared, x': Thread, rc: int,
                   list: set<Item>)
    requires ThreadStep(act, sh, tid, x, sh', x') && Plain(act, rc, list) && Finds(ss, x, rc, list)
    requires var op := OpOf(act, sh, x); SlotOp(op) ==> Reaches(ss, op.win, op.t)
    ensures Answered(ss, OpOf(act, sh, x))
  {
    hide StepAt, Joint, Inv, StepOf, StoreStep, OpOf, NextMem;
    PlainOp(act, sh, x);
    if WalkOpAct(act) {
      WalkShape(act, sh, tid, x, sh', x');
      WalkOpShape(act, sh, tid, x, sh', x');
    }
  }

  lemma StepAnswered(c: Real, m: Mem, tid: Tid, act: Act, sh': Shared, x': Thread, rc: int, list: set<Item>)
    requires Joint(c, m) && tid in c.th && ThreadStep(act, c.sh, tid, c.Th(tid), sh', x')
    requires Plain(act, rc, list) && Finds(c.ss, c.Th(tid), rc, list)
    ensures Answered(c.ss, OpOf(act, c.sh, c.Th(tid)))
  {
    hide *;
    OpReaches(c, m, tid, act, sh', x');
    OpAnswered(c.ss, c.sh, tid, c.Th(tid), act, sh', x', rc, list);
  }

  /* ---- every thread, in every state ---- */

  /** The step is one the source would take: a free makes room the way it has chosen, and reads the world
      pointer again only when it has to. */
  ghost predicate Sourced(c: Real, tid: Tid, act: Act)
    requires tid in c.th && CurOk(c.sh)
  {
    c.Th(tid).pc.Free? ==> FreeChoice(c.sh, c.ss, c.Th(tid).pc.stage, act)
  }

  ghost predicate CanStep(c: Real, tid: Tid) {
    exists act, c' :: RealStep(c, tid, act, c') && CurOk(c.sh) && Sourced(c, tid, act)
  }

  lemma CountsHolds(c: Real, m: Mem, tid: Tid)
    requires Joint(c, m) && tid in c.th
    ensures CurOk(c.sh) && CountsItself(c.sh, c.Th(tid))
  {
    var x := c.Th(tid);
    assert ThreadOk(c.sh, tid, x);
    if x.pc.Removing? {
      assert x.pc.s in Seens(x) && SeenOk(c.sh, x.pc.s);
      SomeoneRegistered(Abstract(c, m), tid);
    }
  }

  lemma TakesStep(c: Real, tid: Tid, act: Act, sh': Shared, x': Thread)
    requires tid in c.th && ThreadStep(act, c.sh, tid, c.Th(tid), sh', x') && !act.FreePlan? && !act.FreeSwap?
    requires Answered(c.ss, OpOf(act, c.sh, c.Th(tid))) && CurOk(c.sh) && Sourced(c, tid, act)
    ensures CanStep(c, tid)
  {
    hide StepAt, Joint, Inv, StepOf, StoreStep, OpOf, NextMem;
    var ss' := StoreNext(c.ss, OpOf(act, c.sh, c.Th(tid)));
    assert RealStep(c, tid, act, Real(sh', c.th[tid := x'], ss'));
  }

  /** The window of a world that is still read has no storage that is gone. */
  lemma SeenThere(m: Mem, ss: Stores, w: World, v: Window)
    requires Matches(m, ss, w) && Extends(v, w.win)
    ensures There(ss, v)
  {
  }

  lemma ShapeOf(m: Mem, ss: Stores, now: bool, w: World, plan: Plan)
    requires PlanOk(m, ss, now, w, plan)
    ensures PlanShape(w, plan)
  {
  }

  lemma RoomHolds(c: Real, m: Mem, tid: Tid)
    requires Joint(c, m) && tid in c.th
    ensures Room(c.ss, c.Th(tid))
  {
    hide StepOf, StoreStep, OpOf, NextMem;
    var x := c.Th(tid);
    if x.pc.Free? && (x.pc.stage.Trying? || x.pc.stage.Planning?) {
      assert ThreadOk(c.sh, tid, x) && Windowed(W(c.sh).win, x) && Planned(c.sh.cur, m, c.ss, x);
      PlanBaseHolds(c.sh, tid, x);
      SeenThere(m, c.ss, W(c.sh), x.pc.stage.s.world.win);
      if x.pc.stage.Planning? {
        ShapeOf(m, c.ss, x.pc.stage.s.at.w == c.sh.cur.w, x.pc.stage.s.world, x.pc.stage.plan);
      }
    }
  }

  lemma MakingRoomStep(c: Real, tid: Tid)
    requires tid in c.th && CurOk(c.sh) && c.Th(tid).pc.Free? && MakesRoom(c.sh, c.Th(tid).pc.stage)
    requires Room(c.ss, c.Th(tid))
    ensures CanStep(c, tid)
  {
    hide StepOf, StoreStep, OpOf;
    var act, sh', x', ss' := RoomNext(c.sh, c.ss, tid, c.Th(tid));
    FreeShape(act, c.sh, tid, c.Th(tid), sh', x');
    assert RealStep(c, tid, act, Real(sh', c.th[tid := x'], ss'));
  }

  lemma NotWaiting(c: Real, m: Mem, tid: Tid)
    requires Joint(c, m) && tid in c.th && CurOk(c.sh) && !Waits(c.sh, c.Th(tid))
    ensures CanStep(c, tid)
  {
    hide *;
    RoomHolds(c, m, tid);
    if c.Th(tid).pc.Free? && MakesRoom(c.sh, c.Th(tid).pc.stage) {
      MakingRoomStep(c, tid);
    } else {
      OtherStep(c, m, tid);
    }
  }

  lemma OtherStep(c: Real, m: Mem, tid: Tid)
    requires Joint(c, m) && tid in c.th && CurOk(c.sh) && !Waits(c.sh, c.Th(tid)) && Room(c.ss, c.Th(tid))
    requires c.Th(tid).pc.Free? ==> !MakesRoom(c.sh, c.Th(tid).pc.stage)
    ensures CanStep(c, tid)
  {
    hide StepAt, Joint, RealStep, Step, StoreStep, StepOf, OpOf, NextMem;
    CountsHolds(c, m, tid);
    var rc, list := WalkerFinds(c, m, tid);
    var act, sh', x' := ThreadNext(c.sh, c.ss, tid, c.Th(tid), rc, list);
    StepAnswered(c, m, tid, act, sh', x', rc, list);
    TakesStep(c, tid, act, sh', x');
  }

  lemma Waiting(c: Real, tid: Tid)
    requires tid in c.th && Waits(c.sh, c.Th(tid))
    ensures !CanStep(c, tid)
  {
    hide StepOf, StoreStep, OpOf;
    forall act, c' ensures !RealStep(c, tid, act, c') {
      if RealStep(c, tid, act, c') { OnlyLocks(act, c.sh, tid, c.Th(tid), c'.sh, c'.Th(tid)); }
    }
  }

  lemma OnlyLocks(act: Act, sh: Shared, tid: Tid, x: Thread, sh': Shared, x': Thread)
    requires x.pc.Locking?
    ensures ThreadStep(act, sh, tid, x, sh', x') ==> DoLock(sh, tid, x, sh', x')
  {
    hide StepOf, UnregisterStep;
    if ThreadStep(act, sh, tid, x, sh', x') {
      RegistersOrLeaves(act, sh, tid, x, sh', x');
      if RegisterAct(act) {
        RegisterShape(act, sh, tid, x, sh', x');
      } else {
        UnregisterShape(act, sh, tid, x, sh', x');
        UnregisterFrom(act, sh, tid, x, sh', x');
      }
    }
  }

  /** In every state of every run a thread can take a step, unless it wants to register and the world
      pointer is locked. */
  lemma NeverStuck(r: Run, i: nat, tid: Tid)
    requires IsRun(r) && i <= |r.turns| && tid in r.At(i).th
    ensures CanStep(r.At(i), tid) <==> !Waits(r.At(i).sh, r.At(i).Th(tid))
  {
    hide *;
    var ms := TracksExists(r);
    RunJoint(r, ms, i);
    CountsHolds(r.At(i), MemAt(ms, i), tid);
    if Waits(r.At(i).sh, r.At(i).Th(tid)) {
      Waiting(r.At(i), tid);
    } else {
      NotWaiting(r.At(i), MemAt(ms, i), tid);
    }
  }
}
