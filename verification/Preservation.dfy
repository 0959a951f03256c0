/** Every step of every thread keeps the invariant. */
module Preservation {
  import opened AbaTypes
  import opened Protocol
  import opened Invariant
  import opened ThreadSteps
  import opened Interference

  /* ---- the stepping thread ---- */

  /** Steps that change nothing but where the thread is. */
  lemma IdleStep(sh: Shared, tid: Tid, x: Thread, x': Thread)
    requires Own(sh, tid, x) && x' == x.(pc := x'.pc)
    requires || (x.pc == Idle && x.last == 0 && x'.pc == Locking)
             || (x.pc == Disposing && x.held == {} && x'.pc == Idle)
             || (x.pc == Idle && x.last > 0 && x'.pc == UnregRead) || (x.pc.LockTry? && x'.pc == UnregRead)
    ensures Own(sh, tid, x')
  {
    assert Duties(x') == Duties(x) && Trash(x') == Trash(x);
  }

  lemma RegisterOwn(sh: Shared, tid: Tid, x: Thread, act: Act, sh': Shared, x': Thread)
    requires Own(sh, tid, x) && RegisterAct(act) && RegisterStep(act, sh, tid, x, sh', x')
    ensures Own(sh', tid, x')
  {
    if act.Lock? {
      LockStep(sh, tid, x, sh', x');
    } else if act.RegisterOk? {
      RegisterOkStep(sh, tid, x, sh', x', act.a);
    } else if act.RegisterFail? {
      RegisterFailStep(sh, tid, x, sh', x');
    } else if act.ChainNext? {
      ChainNextStep(sh, tid, x, sh', x', act.it);
    } else {
      IdleStep(sh, tid, x, x');
    }
  }

  lemma FreeOwn(sh: Shared, tid: Tid, x: Thread, act: Act, sh': Shared, x': Thread)
    requires Own(sh, tid, x) && FreeAct(act) && FreeStep(act, sh, tid, x, sh', x')
    ensures Own(sh', tid, x')
  {
    if act.CallFree? {
      CallFreeStep(sh, tid, x, sh', x', act.k);
    } else if act.FreeRead? {
      if W(sh).n <= 1 {
        AloneStep(sh, tid, x, x.pc.stage.it, sh', x');
      } else {
        ReadStep(sh, tid, x, x.pc.stage.it, sh', x');
      }
    } else if act.FreeRetry? {
      ReadStep(sh, tid, x, x.pc.stage.it, sh', x');
    } else if act.FreeAlone? {
      AloneStep(sh, tid, x, x.pc.stage.it, sh', x');
    } else if act.FreePlan? {
      FreePlanStep(sh, tid, x, sh', x', act.plan);
    } else if act.FreeSwap? {
      FreeSwapStep(sh, tid, x, sh', x', act.a, act.win);
    } else if act.FreeAdd? {
      FreeAddStep(sh, tid, x, sh', x');
    } else if act.FreeEnter? {
      FreeEnterStep(sh, tid, x, sh', x');
    } else if act.FreeAppend? {
      FreeAppendStep(sh, tid, x, sh', x');
    } else if act.FreeAppendOld? {
      FreeAppendOldStep(sh, tid, x, sh', x', act.it);
    } else if act.FreeDone? {
      ReturnStep(sh, tid, x, sh', x');
    } else {
      FreeNowStep(sh, tid, x, sh', x');
    }
  }

  lemma CheckinOwn(sh: Shared, tid: Tid, x: Thread, act: Act, sh': Shared, x': Thread)
    requires Own(sh, tid, x) && CheckinAct(act) && CheckinStep(act, sh, tid, x, sh', x') && W(sh).n > 0
    ensures Own(sh', tid, x')
  {
    if act.CallCheckin? {
      CallCheckinStep(sh, tid, x, sh', x');
    } else if act.CopyOk? {
      CopyOkStep(sh, tid, x, sh', x', act.a);
    } else if act.CopyFail? {
      CopyFailStep(sh, tid, x, sh', x');
    } else if act.Look? {
      LookStep(sh, tid, x, sh', x');
    } else {
      MarkOwn(sh, tid, x, act, sh', x');
    }
  }

  lemma MarkOwn(sh: Shared, tid: Tid, x: Thread, act: Act, sh': Shared, x': Thread)
    requires Own(sh, tid, x) && CheckinAct(act) && CheckinStep(act, sh, tid, x, sh', x') && W(sh).n > 0
    requires act.MarkSeen? || act.MarkOk? || act.MarkFail? || act.MarkLocked?
    ensures Own(sh', tid, x')
  {
    if act.MarkSeen? {
      MarkSeenStep(sh, tid, x, sh', x');
    } else if act.MarkOk? {
      MarkOkStep(sh, tid, x, sh', x');
    } else if act.MarkFail? {
      MarkFailStep(sh, tid, x, sh', x');
    } else {
      MarkLockedStep(sh, tid, x, sh', x');
    }
  }

  lemma WalkOwn(sh: Shared, tid: Tid, x: Thread, act: Act, sh': Shared, x': Thread)
    requires Own(sh, tid, x) && WalkAct(act) && WalkingStep(act, sh, tid, x, sh', x') && NullListed(sh, x)
    requires act.WipeList? || act.RunItem? || act.WalkDone?
    ensures Own(sh', tid, x')
  {
    if act.WipeList? {
      WipeListStep(sh, tid, x, sh', x');
    } else if act.RunItem? {
      RunItemStep(sh, tid, x, sh', x', act.it);
    } else {
      WalkDoneStep(sh, tid, x, sh', x');
    }
  }

  lemma WalkOnOwn(sh: Shared, tid: Tid, x: Thread, act: Act, sh': Shared, x': Thread)
    requires Own(sh, tid, x) && WalkAct(act) && WalkingStep(act, sh, tid, x, sh', x')
    requires act.Decrement? || act.SnipList? || act.ClearUse? || act.RunDone?
    requires act.SnipList? ==> forall it :: it in act.list ==> Slotted(sh, it, x.pc.t)
    ensures Own(sh', tid, x')
  {
    WalkStep(sh, tid, x, x');
  }

  lemma UnregisterOwn(sh: Shared, tid: Tid, x: Thread, act: Act, sh': Shared, x': Thread)
    requires Own(sh, tid, x) && UnregisterAct(act) && UnregisterStep(act, sh, tid, x, sh', x')
    ensures Own(sh', tid, x')
  {
    if act.UnregLook? {
      UnregLookStep(sh, tid, x, sh', x');
    } else if act.LockOk? {
      LockOkStep(sh, tid, x, sh', x');
    } else if act.LockRetry? {
      LockRetryStep(sh, tid, x, sh', x');
    } else if act.RemoveAgain? {
      RemoveAgainStep(sh, tid, x, sh', x');
    } else if act.RemoveOk? {
      var w := x.pc.s.world;
      RemoveStep(sh, tid, x, sh', x', act.a, w.(n := w.n - 1), true, false);
    } else if act.RemoveLast? {
      RemoveStep(sh, tid, x, sh', x', act.a, World(0, 0, Window(0, x.pc.s.world.win.size, [])), false, true);
    } else if act.UnlockOk? {
      UnlockOkStep(sh, tid, x, sh', x');
    } else if act.UnlockFail? {
      UnlockFailStep(sh, tid, x, sh', x');
    } else if act.Leak? {
      LeakStep(sh, tid, x, sh', x');
    } else if act.Clean? {
      CleanStep(sh, tid, x, sh', x');
    } else if act.Reopen? {
      ReopenStep(sh, tid, x, sh', x');
    } else {
      IdleStep(sh, tid, x, x');
    }
  }

  /* ---- the other threads ---- */

  lemma FreeRely(sh: Shared, tid: Tid, x: Thread, act: Act, sh': Shared, x': Thread, j: Tid, y: Thread)
    requires FreeAct(act) && FreeStep(act, sh, tid, x, sh', x') && Pair(sh, tid, x, j, y)
    requires act.CallFree? || act.FreeRead? || act.FreeRetry? || act.FreeAlone?
    ensures Rely(sh, sh', j, y)
  {
    if act.CallFree? {
      CallFreeRely(sh, tid, x, sh', x', act.k, j, y);
    } else if act.FreeAlone? || (act.FreeRead? && W(sh).n <= 1) {
      AloneRely(sh, tid, x, x.pc.stage.it, j, y);
    } else {
      ReadRely(sh, tid, x, x.pc.stage.it, j, y);
    }
  }

  lemma FreeLaterRely(sh: Shared, tid: Tid, x: Thread, act: Act, sh': Shared, x': Thread, j: Tid, y: Thread)
    requires FreeAct(act) && FreeStep(act, sh, tid, x, sh', x') && Pair(sh, tid, x, j, y)
    requires act.FreeSwap? || act.FreeAppend? || act.FreeAppendOld? || act.FreeNow?
    ensures Rely(sh, sh', j, y)
  {
    if act.FreeSwap? {
      FreeSwapRely(sh, tid, x, sh', x', act.a, act.win, j, y);
    } else if act.FreeNow? {
      FreeNowRely(sh, tid, x, sh', x', j, y);
    } else {
      var it := if act.FreeAppend? then x.pc.stage.it else act.it;
      AppendRely(sh, tid, x, it, x.pc.stage.s.world.ts, j, y);
    }
  }

  lemma CheckinRely(sh: Shared, tid: Tid, x: Thread, act: Act, sh': Shared, x': Thread, j: Tid, y: Thread)
    requires CheckinAct(act) && CheckinStep(act, sh, tid, x, sh', x') && Pair(sh, tid, x, j, y)
    requires act.MarkOk? || act.CopyOk?
    ensures Rely(sh, sh', j, y)
  {
    if act.MarkOk? {
      MarkOkRely(sh, tid, x, sh', x', j, y);
    } else {
      CopyOkRely(sh, tid, x, sh', x', act.a, j, y);
    }
  }

  lemma WalkRely(sh: Shared, tid: Tid, x: Thread, act: Act, sh': Shared, x': Thread, j: Tid, y: Thread)
    requires WalkAct(act) && WalkingStep(act, sh, tid, x, sh', x') && Pair(sh, tid, x, j, y)
    requires act.WipeList? || act.RunItem?
    requires x.pc.Walk? && x.pc.phase != Dec && Reg(y) ==> Next(y) > x.pc.t
    ensures Rely(sh, sh', j, y)
  {
    if act.WipeList? {
      WipeListRely(sh, tid, x, sh', x', j, y);
    } else {
      RunItemRely(sh, tid, x, sh', x', act.it, j, y);
    }
  }

  lemma RegisteringRely(sh: Shared, tid: Tid, x: Thread, act: Act, sh': Shared, x': Thread, j: Tid, y: Thread)
    requires RegisterAct(act) && RegisterStep(act, sh, tid, x, sh', x') && Pair(sh, tid, x, j, y)
    requires act.Lock? || act.RegisterOk?
    ensures Rely(sh, sh', j, y)
  {
    if act.Lock? {
      LockRely(sh, tid, x, sh', x', j, y);
    } else {
      RegisterRely(sh, tid, x, sh', x', act.a, j, y);
    }
  }

  lemma UnlockingRely(sh: Shared, tid: Tid, x: Thread, act: Act, sh': Shared, x': Thread, j: Tid, y: Thread)
    requires UnregisterAct(act) && UnregisterStep(act, sh, tid, x, sh', x') && Pair(sh, tid, x, j, y)
    requires act.LockOk? || act.UnlockOk? || act.Reopen?
    ensures Rely(sh, sh', j, y)
  {
    if act.LockOk? {
      LockOkRely(sh, tid, x, sh', x', j, y);
    } else {
      UnlockRely(sh, tid, x, sh', x', j, y);
    }
  }

  lemma RemoveOkRely(sh: Shared, tid: Tid, x: Thread, act: Act, sh': Shared, x': Thread, j: Tid, y: Thread)
    requires UnregisterAct(act) && UnregisterStep(act, sh, tid, x, sh', x') && Pair(sh, tid, x, j, y) && act.RemoveOk?
    ensures Rely(sh, sh', j, y)
  {
    var w := x.pc.s.world;
    RemoveRely(sh, tid, x, act.a, w.(n := w.n - 1), true, false, j, y);
  }

  lemma LastRely(sh: Shared, tid: Tid, x: Thread, act: Act, sh': Shared, x': Thread, j: Tid, y: Thread)
    requires UnregisterAct(act) && UnregisterStep(act, sh, tid, x, sh', x') && Pair(sh, tid, x, j, y) && act.RemoveLast?
    ensures Rely(sh, sh', j, y)
  {
    assert x.pc.s in Seens(x) && SeenOk(sh, x.pc.s);
    RemoveRely(sh, tid, x, act.a, World(0, 0, Window(0, x.pc.s.world.win.size, [])), false, true, j, y);
  }

  lemma LeakingRely(sh: Shared, tid: Tid, x: Thread, act: Act, sh': Shared, x': Thread, j: Tid, y: Thread)
    requires UnregisterAct(act) && UnregisterStep(act, sh, tid, x, sh', x') && Pair(sh, tid, x, j, y)
    requires act.Leak? || act.Clean?
    ensures Rely(sh, sh', j, y)
  {
    if act.Leak? {
      LeakRely(sh, tid, x, sh', x', j, y);
    } else {
      CleanRely(sh, tid, x, sh', x', j, y);
    }
  }
}
