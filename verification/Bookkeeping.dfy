/** Every step moves items, counts threads and changes entries as it should. */
module Bookkeeping {
  import opened AbaTypes
  import opened Protocol
  import opened Invariant
  import opened ThreadSteps
  import opened Places

  ghost predicate Owner(sh: Shared, tid: Tid, x: Thread) { Own(sh, tid, x) && Mine(sh, tid, x) }

  lemma OwnerBefore(sh: Shared, tid: Tid, x: Thread)
    requires Owner(sh, tid, x)
    ensures Before(sh, tid, x) && Local(x)
  {
  }

  lemma RegisterDuties(act: Act, sh: Shared, tid: Tid, x: Thread, sh': Shared, x': Thread)
    requires RegisterAct(act) && RegisterStep(act, sh, tid, x, sh', x')
    ensures Duties(x) <= Duties(x') && !x.pc.Free?
    ensures act.Lock? ==> Duties(x') == Duties(x) + {Old(sh.cur.w)}
    ensures act.RegisterOk? ==> Old(sh.cur.w) in Duties(x')
  {
  }

  lemma RegisterMoves(sh: Shared, tid: Tid, x: Thread, act: Act, sh': Shared, x': Thread)
    requires Owner(sh, tid, x) && RegisterAct(act) && RegisterStep(act, sh, tid, x, sh', x')
    ensures Moves(sh, sh', tid, x', Nop)
  {
    OwnerBefore(sh, tid, x);
    RegisterDuties(act, sh, tid, x, sh', x');
    if act.Lock? {
      LockMoves(sh, tid, x, x', sh');
    } else if act.RegisterOk? {
      var w := x.pc.s.world;
      PublishMoves(sh, tid, x, act.a, w.(n := w.n + 1), true, false, sh', x', Nop);
    } else {
      StayMoves(sh, tid, x, x', Nop);
    }
  }

  lemma SwapDuties(sh: Shared, tid: Tid, x: Thread, a: Addr, win: Window, sh': Shared, x': Thread)
    requires DoFreeSwap(sh, tid, x, sh', x', a, win)
    ensures Duties(x) <= Duties(x') && (!sh.cur.lock ==> Old(sh.cur.w) in Duties(x'))
    ensures a !in sh.heap && x.pc.Free? && !x.pc.stage.Immediate?
  {
  }

  lemma SwapUnlisted(sh: Shared, tid: Tid, x: Thread, its: set<Item>)
    requires Owner(sh, tid, x) && x.pc.Free? && x.pc.stage.Planning? && x.pc.stage.s.at == sh.cur
    requires its == {x.pc.stage.it} + Spare(x.pc.stage.s)
    ensures forall it :: it in its && it in sh.place ==> !sh.place[it].Listed?
  {
    ItemHeld(sh, tid, x, x.pc.stage.it);
  }

  lemma PublishThenAssign(sh: Shared, tid: Tid, x: Thread, a: Addr, w: World, mid: Shared, its: set<Item>, sh': Shared,
      x': Thread, op: Op)
    requires Before(sh, tid, x) && a !in sh.heap && !op.Push? && !op.Wipe?
    requires mid == Publish(sh, tid, a, w, false, false)
    requires x.pc.Free? && !x.pc.stage.Immediate? && Duties(x) <= Duties(x')
    requires !sh.cur.lock ==> Old(sh.cur.w) in Duties(x')
    requires sh' == Assign(mid, its, w.ts) && forall it :: it in its && it in sh.place ==> !sh.place[it].Listed?
    ensures Moves(sh, sh', tid, x', op)
  {
    hide *;
    PublishMoves(sh, tid, x, a, w, false, false, mid, x', op);
    ThenAssign(sh, mid, tid, sh', x', op, its, w.ts);
  }

  lemma FreeSwapMoves(sh: Shared, tid: Tid, x: Thread, a: Addr, win: Window, sh': Shared, x': Thread, op: Op)
    requires Owner(sh, tid, x) && DoFreeSwap(sh, tid, x, sh', x', a, win) && op.Create?
    ensures Moves(sh, sh', tid, x', op)
  {
    var s := x.pc.stage.s;
    var w := World(s.world.ts + 1, s.world.n, win);
    var mid, its := Publish(sh, tid, a, w, false, false), {x.pc.stage.it} + Spare(s);
    OwnerBefore(sh, tid, x);
    SwapDuties(sh, tid, x, a, win, sh', x');
    SwapUnlisted(sh, tid, x, its);
    FreeSwapIs(sh, tid, x, sh', x', a, win, mid, its);
    PublishThenAssign(sh, tid, x, a, w, mid, its, sh', x', op);
  }

  lemma ReadDuties(act: Act, sh: Shared, tid: Tid, x: Thread, sh': Shared, x': Thread)
    requires FreeAct(act) && FreeStep(act, sh, tid, x, sh', x') && (act.FreeRead? || act.FreeRetry? || act.FreeAlone?)
    ensures x.pc.Free? && Open(x.pc.stage, x.pc.stage.it) && CurOk(sh)
    ensures if act.FreeAlone? || (act.FreeRead? && W(sh).n <= 1)
      then Duties(x) - {x.pc.stage.it} <= Duties(x') else Duties(x) == Duties(x')
  {
  }

  lemma ReadMoves(sh: Shared, tid: Tid, x: Thread, act: Act, sh': Shared, x': Thread)
    requires Owner(sh, tid, x) && FreeAct(act) && FreeStep(act, sh, tid, x, sh', x')
    requires act.FreeRead? || act.FreeRetry? || act.FreeAlone?
    ensures Moves(sh, sh', tid, x', Nop)
  {
    ReadDuties(act, sh, tid, x, sh', x');
    ItemHeld(sh, tid, x, x.pc.stage.it);
    OwnerBefore(sh, tid, x);
    if act.FreeAlone? || (act.FreeRead? && W(sh).n <= 1) {
      AloneMoves(sh, tid, x, x.pc.stage.it, sh', x');
    } else {
      AssignMoves(sh, tid, x, x.pc.stage.it, sh', x');
    }
  }

  lemma AppendDuties(act: Act, sh: Shared, tid: Tid, x: Thread, sh': Shared, x': Thread, it: Item)
    requires FreeAct(act) && FreeStep(act, sh, tid, x, sh', x') && (act.FreeAppend? || act.FreeAppendOld?)
    requires x.pc.Free? && (act.FreeAppend? && x.pc.stage.Appending? ==> it == x.pc.stage.it)
    requires act.FreeAppendOld? ==> it == act.it
    ensures it in Duties(x) && Duties(x) - {it} <= Duties(x') && !x.pc.stage.Immediate?
    ensures OpOf(act, sh, x) == Push(x.pc.stage.s.world.win, x.pc.stage.s.world.ts, it)
  {
  }

  lemma AppendMoves(sh: Shared, tid: Tid, x: Thread, act: Act, sh': Shared, x': Thread)
    requires Owner(sh, tid, x) && FreeAct(act) && FreeStep(act, sh, tid, x, sh', x')
    requires act.FreeAppend? || act.FreeAppendOld?
    ensures Moves(sh, sh', tid, x', OpOf(act, sh, x))
  {
    var it := if act.FreeAppend? then x.pc.stage.it else act.it;
    AppendDuties(act, sh, tid, x, sh', x', it);
    ItemHeld(sh, tid, x, it);
    OwnerBefore(sh, tid, x);
    PushMoves(sh, tid, x, it, sh', x', OpOf(act, sh, x));
  }

  lemma FreeDuties(act: Act, sh: Shared, tid: Tid, x: Thread, sh': Shared, x': Thread)
    requires FreeAct(act) && FreeStep(act, sh, tid, x, sh', x') && Local(x)
    requires act.CallFree? || act.FreePlan? || act.FreeAdd? || act.FreeEnter? || act.FreeDone? || act.FreeNow?
    ensures act.CallFree? ==> Duties(x) == {} && !x.pc.Free? && User(act.k) in Duties(x')
    ensures act.FreeNow? ==> x.pc.Free? && x.pc.stage.Immediate? && Duties(x) <= Duties(x')
    ensures !act.CallFree? && !act.FreeNow? ==>
      Duties(x) <= Duties(x') && x.pc.Free? && !x.pc.stage.Immediate? && sh' == sh
    ensures !OpOf(act, sh, x).Push? && !OpOf(act, sh, x).Wipe?
    ensures act.CallFree? || act.FreeNow? ==> OpOf(act, sh, x) == Nop
  {
  }

  lemma FreeMoves(sh: Shared, tid: Tid, x: Thread, act: Act, sh': Shared, x': Thread)
    requires Owner(sh, tid, x) && FreeAct(act) && FreeStep(act, sh, tid, x, sh', x')
    requires act.CallFree? || act.FreePlan? || act.FreeAdd? || act.FreeEnter? || act.FreeDone? || act.FreeNow?
    ensures Moves(sh, sh', tid, x', OpOf(act, sh, x))
  {
    OwnerBefore(sh, tid, x);
    FreeDuties(act, sh, tid, x, sh', x');
    if act.CallFree? {
      CallFreeMoves(sh, tid, x, User(act.k), sh', x');
    } else if act.FreeNow? {
      FinishMoves(sh, tid, x, x.pc.stage.it, sh', x');
    } else {
      StayMoves(sh, tid, x, x', OpOf(act, sh, x));
    }
  }

  lemma CheckinDuties(act: Act, sh: Shared, tid: Tid, x: Thread, sh': Shared, x': Thread)
    requires CheckinAct(act) && CheckinStep(act, sh, tid, x, sh', x') && Local(x)
    ensures Duties(x) == {} && !x.pc.Free?
    ensures act.CopyOk? && !sh.cur.lock ==> Old(sh.cur.w) in Duties(x')
  {
  }

  /** Setting the bit moves nothing. */
  lemma BitMoves(sh: Shared, tid: Tid, x: Thread, sh': Shared, x': Thread)
    requires Before(sh, tid, x) && sh' == sh.(cur := sh.cur.(bit := true)) && Duties(x) == {} && !x.pc.Free?
    ensures Moves(sh, sh', tid, x', Nop)
  {
  }

  lemma CheckinMoves(sh: Shared, tid: Tid, x: Thread, act: Act, sh': Shared, x': Thread)
    requires Owner(sh, tid, x) && CheckinAct(act) && CheckinStep(act, sh, tid, x, sh', x')
    ensures Moves(sh, sh', tid, x', Nop)
  {
    OwnerBefore(sh, tid, x);
    CheckinDuties(act, sh, tid, x, sh', x');
    if act.CopyOk? {
      PublishMoves(sh, tid, x, act.a, x.pc.s.world, true, false, sh', x', Nop);
    } else if act.MarkOk? {
      BitMoves(sh, tid, x, sh', x');
    } else {
      StayMoves(sh, tid, x, x', Nop);
    }
  }

  lemma WalkDuties(act: Act, sh: Shared, tid: Tid, x: Thread, sh': Shared, x': Thread)
    requires WalkAct(act) && WalkingStep(act, sh, tid, x, sh', x')
    ensures x.pc.Walk?
    ensures act.WipeList? ==>
      && x.pc.phase.Null? && Duties(x) + x.pc.phase.batch <= Duties(x')
      && OpOf(act, sh, x) == Wipe(x.pc.s.world.win, x.pc.t)
    ensures act.RunItem? ==> act.it in Duties(x) && Duties(x) - {act.it} <= Duties(x') && OpOf(act, sh, x) == Nop
    ensures !act.WipeList? && !act.RunItem? ==>
      Duties(x) <= Duties(x') && sh' == sh && !OpOf(act, sh, x).Push? && !OpOf(act, sh, x).Wipe?
  {
  }

  lemma WalkMoves(sh: Shared, tid: Tid, x: Thread, act: Act, sh': Shared, x': Thread)
    requires Owner(sh, tid, x) && WalkAct(act) && WalkingStep(act, sh, tid, x, sh', x') && NullListed(sh, x)
    requires act.WipeList? || act.RunItem?
    ensures Moves(sh, sh', tid, x', OpOf(act, sh, x))
  {
    OwnerBefore(sh, tid, x);
    WalkDuties(act, sh, tid, x, sh', x');
    if act.WipeList? {
      WipeMoves(sh, tid, x, x.pc.phase.batch, sh', x', OpOf(act, sh, x));
    } else {
      ItemHeld(sh, tid, x, act.it);
      FinishMoves(sh, tid, x, act.it, sh', x');
    }
  }

  lemma WalkOnMoves(sh: Shared, tid: Tid, x: Thread, act: Act, sh': Shared, x': Thread)
    requires Owner(sh, tid, x) && WalkAct(act) && WalkingStep(act, sh, tid, x, sh', x')
    requires !act.WipeList? && !act.RunItem?
    ensures Moves(sh, sh', tid, x', OpOf(act, sh, x))
  {
    OwnerBefore(sh, tid, x);
    WalkDuties(act, sh, tid, x, sh', x');
    StayMoves(sh, tid, x, x', OpOf(act, sh, x));
  }

  lemma RemoveDuties(act: Act, sh: Shared, tid: Tid, x: Thread, sh': Shared, x': Thread)
    requires UnregisterAct(act) && UnregisterStep(act, sh, tid, x, sh', x') && (act.RemoveOk? || act.RemoveLast?)
    ensures Duties(x) <= Duties(x') && !x.pc.Free? && Old(sh.cur.w) in Duties(x')
    ensures act.RemoveLast? ==> Old(act.a) in Duties(x')
  {
  }

  /** The world a leaving thread publishes. */
  lemma RemovePublishes(act: Act, sh: Shared, tid: Tid, x: Thread, sh': Shared, x': Thread, w: World)
    requires UnregisterAct(act) && UnregisterStep(act, sh, tid, x, sh', x') && (act.RemoveOk? || act.RemoveLast?)
    requires x.pc.Removing? && w == if act.RemoveOk? && x.pc.s.world.n >= 1 then x.pc.s.world.(n := x.pc.s.world.n - 1)
      else World(0, 0, Window(0, x.pc.s.world.win.size, []))
    ensures act.a !in sh.heap && sh' == Publish(sh, tid, act.a, w, act.RemoveOk?, act.RemoveLast?)
    ensures !OpOf(act, sh, x).Push? && !OpOf(act, sh, x).Wipe?
  {
  }

  lemma RemoveMoves(sh: Shared, tid: Tid, x: Thread, act: Act, sh': Shared, x': Thread)
    requires Owner(sh, tid, x) && UnregisterAct(act) && UnregisterStep(act, sh, tid, x, sh', x')
    requires act.RemoveOk? || act.RemoveLast?
    ensures Moves(sh, sh', tid, x', OpOf(act, sh, x))
  {
    OwnerBefore(sh, tid, x);
    RemoveDuties(act, sh, tid, x, sh', x');
    var w := if act.RemoveOk? && x.pc.s.world.n >= 1 then x.pc.s.world.(n := x.pc.s.world.n - 1)
             else World(0, 0, Window(0, x.pc.s.world.win.size, []));
    RemovePublishes(act, sh, tid, x, sh', x', w);
    PublishMoves(sh, tid, x, act.a, w, act.RemoveOk?, act.RemoveLast?, sh', x', OpOf(act, sh, x));
  }

  lemma LockingDuties(act: Act, sh: Shared, tid: Tid, x: Thread, sh': Shared, x': Thread)
    requires UnregisterAct(act) && UnregisterStep(act, sh, tid, x, sh', x') && CurOk(sh) && LockedOk(sh, x) && Local(x)
    requires act.LockOk? || act.UnlockOk? || act.Reopen?
    ensures !x.pc.Free? && !x'.pc.Free?
    ensures if act.LockOk? then Duties(x') == Duties(x) + {Old(sh.cur.w)}
            else Duties(x') == {} && Duties(x) == {Old(sh.cur.w)}
  {
  }

  lemma LockingMoves(sh: Shared, tid: Tid, x: Thread, act: Act, sh': Shared, x': Thread)
    requires Owner(sh, tid, x) && UnregisterAct(act) && UnregisterStep(act, sh, tid, x, sh', x')
    requires act.LockOk? || act.UnlockOk? || act.Reopen?
    ensures Moves(sh, sh', tid, x', Nop)
  {
    OwnerBefore(sh, tid, x);
    LockingDuties(act, sh, tid, x, sh', x');
    if act.LockOk? {
      LockMoves(sh, tid, x, x', sh');
    } else {
      assert Old(sh.cur.w) in Duties(x);
      UnlockMoves(sh, tid, x, x', sh');
    }
  }

  lemma LeakingDuties(act: Act, sh: Shared, tid: Tid, x: Thread, sh': Shared, x': Thread)
    requires UnregisterAct(act) && UnregisterStep(act, sh, tid, x, sh', x') && (act.Leak? || act.Clean?)
    ensures !x.pc.Free? && (x.pc.Leaking? || x.pc.Cleaning?)
    ensures Old(x.pc.a) in Duties(x) && Duties(x) - {Old(x.pc.a)} <= Duties(x')
    ensures act.Leak? ==> OpOf(act, sh, x) == Nop
    ensures !OpOf(act, sh, x).Push? && !OpOf(act, sh, x).Wipe?
  {
  }

  lemma LeakingMoves(sh: Shared, tid: Tid, x: Thread, act: Act, sh': Shared, x': Thread)
    requires Owner(sh, tid, x) && UnregisterAct(act) && UnregisterStep(act, sh, tid, x, sh', x')
    requires act.Leak? || act.Clean?
    ensures Moves(sh, sh', tid, x', OpOf(act, sh, x))
  {
    OwnerBefore(sh, tid, x);
    LeakingDuties(act, sh, tid, x, sh', x');
    ItemHeld(sh, tid, x, Old(x.pc.a));
    if act.Leak? {
      LeakMoves(sh, tid, x, Old(x.pc.a), sh', x');
    } else {
      CleanMoves(sh, tid, x, x.pc.a, sh', x', OpOf(act, sh, x));
    }
  }

  lemma UnregisterMoves(sh: Shared, tid: Tid, x: Thread, act: Act, sh': Shared, x': Thread)
    requires Owner(sh, tid, x) && UnregisterAct(act) && UnregisterStep(act, sh, tid, x, sh', x')
    requires
      || act.CallUnregister? || act.UnregLook? || act.LockRetry? || act.LockFail? || act.RemoveAgain?
      || act.UnlockFail?
    ensures Moves(sh, sh', tid, x', Nop)
  {
    OwnerBefore(sh, tid, x);
    assert Duties(x) <= Duties(x');
    StayMoves(sh, tid, x, x', Nop);
  }
}
