/** Every step of every thread keeps the storages coupled to the protocol. */
module CouplingSteps {
  import opened AbaTypes
  import opened Protocol
  import opened Invariant

  /* ---- the stepping thread reads the current window ---- */

  /** All windows the thread may look through are among `ok`. */
  ghost predicate Through(x: Thread, ok: iset<Window>) { forall s :: s in Seens(x) ==> s.world.win in ok }

  lemma RegisterThrough(act: Act, sh: Shared, tid: Tid, x: Thread, sh': Shared, x': Thread, ok: iset<Window>)
    requires RegisterAct(act) && RegisterStep(act, sh, tid, x, sh', x') && Through(x, ok)
    requires CurOk(sh) && W(sh).win in ok
    ensures Through(x', ok)
  {
  }

  lemma FreeThrough(act: Act, sh: Shared, tid: Tid, x: Thread, sh': Shared, x': Thread, ok: iset<Window>)
    requires FreeAct(act) && FreeStep(act, sh, tid, x, sh', x') && Through(x, ok)
    requires CurOk(sh) && W(sh).win in ok && (act.FreeSwap? ==> act.win in ok)
    ensures Through(x', ok)
  {
    if !act.FreeSwap? { FreeSees(act, sh, tid, x, sh', x'); }
  }

  /** But for its own swap, a free sees nothing but what it has seen and what is current. */
  lemma FreeSees(act: Act, sh: Shared, tid: Tid, x: Thread, sh': Shared, x': Thread)
    requires FreeAct(act) && !act.FreeSwap? && FreeStep(act, sh, tid, x, sh', x') && CurOk(sh)
    ensures forall s :: s in Seens(x') ==> s in Seens(x) || s == Now(sh)
  {
  }

  lemma CheckinThrough(act: Act, sh: Shared, tid: Tid, x: Thread, sh': Shared, x': Thread, ok: iset<Window>)
    requires CheckinAct(act) && CheckinStep(act, sh, tid, x, sh', x') && Through(x, ok)
    requires CurOk(sh) && W(sh).win in ok
    ensures Through(x', ok)
  {
  }

  lemma WalkThrough(act: Act, sh: Shared, tid: Tid, x: Thread, sh': Shared, x': Thread, ok: iset<Window>)
    requires WalkAct(act) && WalkingStep(act, sh, tid, x, sh', x') && Through(x, ok)
    ensures Through(x', ok)
  {
  }

  lemma UnregisterThrough(act: Act, sh: Shared, tid: Tid, x: Thread, sh': Shared, x': Thread, ok: iset<Window>)
    requires UnregisterAct(act) && UnregisterStep(act, sh, tid, x, sh', x') && Through(x, ok)
    requires CurOk(sh) && W(sh).win in ok
    ensures Through(x', ok)
  {
  }

  lemma StepThrough(act: Act, sh: Shared, tid: Tid, x: Thread, sh': Shared, x': Thread, ok: iset<Window>)
    requires ThreadStep(act, sh, tid, x, sh', x') && Through(x, ok)
    requires CurOk(sh) && W(sh).win in ok && (act.FreeSwap? ==> act.win in ok)
    ensures Through(x', ok)
  {
    if RegisterAct(act) {
      RegisterShape(act, sh, tid, x, sh', x');
      RegisterThrough(act, sh, tid, x, sh', x', ok);
    } else if FreeAct(act) {
      FreeShape(act, sh, tid, x, sh', x');
      FreeThrough(act, sh, tid, x, sh', x', ok);
    } else if CheckinAct(act) {
      CheckinShape(act, sh, tid, x, sh', x');
      CheckinThrough(act, sh, tid, x, sh', x', ok);
    } else if WalkAct(act) {
      WalkShape(act, sh, tid, x, sh', x');
      WalkThrough(act, sh, tid, x, sh', x', ok);
    } else {
      UnregisterShape(act, sh, tid, x, sh', x');
      UnregisterThrough(act, sh, tid, x, sh', x', ok);
    }
  }

  /* ---- steps that publish the window they found ---- */

  /** The current window and timestamp stay, and no other window comes to memory. */
  ghost predicate SameWin(sh: Shared, sh': Shared) {
    && CurOk(sh') && W(sh').ts == W(sh).ts && W(sh').win == W(sh).win
    && (forall a :: a in sh'.heap ==>
          if a in sh.heap then sh'.heap[a] == sh.heap[a]
          else sh'.heap[a].ts == W(sh).ts && sh'.heap[a].win == W(sh).win)
  }

  lemma PublishSameWin(sh: Shared, tid: Tid, a: Addr, w: World, bit: bool, lock: bool)
    requires CurOk(sh) && w.ts == W(sh).ts && w.win == W(sh).win && a !in sh.heap
    ensures SameWin(sh, Publish(sh, tid, a, w, bit, lock))
  {
  }

  lemma ShrinkSameWin(sh: Shared, sh': Shared)
    requires CurOk(sh) && CurOk(sh')
    requires Shrinks(sh, sh')
    ensures SameWin(sh, sh')
  {
  }

  lemma SwapSameWin(act: Act, sh: Shared, tid: Tid, x: Thread, sh': Shared, x': Thread)
    requires act.RegisterOk? || act.CopyOk? || act.RemoveOk?
    requires ThreadOk(sh, tid, x) && ThreadStep(act, sh, tid, x, sh', x')
    ensures SameWin(sh, sh')
  {
    hide StepOf;
    if act.RegisterOk? {
      RegisterShape(act, sh, tid, x, sh', x');
    } else if act.CopyOk? {
      CheckinShape(act, sh, tid, x, sh', x');
    } else {
      UnregisterShape(act, sh, tid, x, sh', x');
    }
    assert x.pc.s in Seens(x) && SeenOk(sh, x.pc.s);
    var w := if act.RegisterOk? then W(sh).(n := W(sh).n + 1)
             else if act.CopyOk? then W(sh) else W(sh).(n := W(sh).n - 1);
    PublishSameWin(sh, tid, act.a, w, true, false);
  }

  /** The swaps that bring in a new world, made from a copy. */
  predicate Swaps(act: Act) {
    act.RegisterOk? || act.CopyOk? || act.RemoveOk? || act.FreeSwap? || act.RemoveLast?
  }

  /** All the other steps leave the current world where it is and bring no new one. */
  lemma StaySameWin(act: Act, sh: Shared, tid: Tid, x: Thread, sh': Shared, x': Thread)
    requires !Swaps(act) && CurOk(sh) && CurOk(sh') && ThreadStep(act, sh, tid, x, sh', x')
    ensures SameWin(sh, sh')
  {
    hide *;
    StayCur(act, sh, tid, x, sh', x');
    ShrinkSameWin(sh, sh');
  }

  /** The world pointer stays at the same world, and memory only shrinks. */
  ghost predicate Shrinks(sh: Shared, sh': Shared) {
    sh'.cur.w == sh.cur.w && forall a :: a in sh'.heap ==> a in sh.heap && sh'.heap[a] == sh.heap[a]
  }

  lemma FinishShrinks(sh: Shared, it: Item)
    ensures Shrinks(sh, Finish(sh, it))
  {
  }

  lemma FreeShrinks(act: Act, sh: Shared, tid: Tid, x: Thread, sh': Shared, x': Thread)
    requires FreeAct(act) && !act.FreeSwap? && FreeStep(act, sh, tid, x, sh', x')
    ensures Shrinks(sh, sh')
  {
    if act.FreeNow? { FinishShrinks(sh, x.pc.stage.it); }
  }

  lemma WalkShrinks(act: Act, sh: Shared, tid: Tid, x: Thread, sh': Shared, x': Thread)
    requires WalkAct(act) && WalkingStep(act, sh, tid, x, sh', x')
    ensures Shrinks(sh, sh')
  {
    if act.RunItem? { FinishShrinks(sh, act.it); }
  }

  lemma UnregisterShrinks(act: Act, sh: Shared, tid: Tid, x: Thread, sh': Shared, x': Thread)
    requires UnregisterAct(act) && !Swaps(act) && UnregisterStep(act, sh, tid, x, sh', x')
    ensures Shrinks(sh, sh')
  {
  }

  lemma RegisterShrinks(act: Act, sh: Shared, tid: Tid, x: Thread, sh': Shared, x': Thread)
    requires RegisterAct(act) && !Swaps(act) && RegisterStep(act, sh, tid, x, sh', x')
    ensures Shrinks(sh, sh')
  {
  }

  lemma CheckinShrinks(act: Act, sh: Shared, tid: Tid, x: Thread, sh': Shared, x': Thread)
    requires CheckinAct(act) && !Swaps(act) && CheckinStep(act, sh, tid, x, sh', x')
    ensures Shrinks(sh, sh')
  {
  }

  lemma StayCur(act: Act, sh: Shared, tid: Tid, x: Thread, sh': Shared, x': Thread)
    requires !Swaps(act) && ThreadStep(act, sh, tid, x, sh', x')
    ensures Shrinks(sh, sh')
  {
    if RegisterAct(act) {
      RegisterShape(act, sh, tid, x, sh', x');
      RegisterShrinks(act, sh, tid, x, sh', x');
    } else if FreeAct(act) {
      FreeShape(act, sh, tid, x, sh', x');
      FreeShrinks(act, sh, tid, x, sh', x');
    } else if CheckinAct(act) {
      CheckinShape(act, sh, tid, x, sh', x');
      CheckinShrinks(act, sh, tid, x, sh', x');
    } else if WalkAct(act) {
      WalkShape(act, sh, tid, x, sh', x');
      WalkShrinks(act, sh, tid, x, sh', x');
    } else {
      UnregisterShape(act, sh, tid, x, sh', x');
      UnregisterShrinks(act, sh, tid, x, sh', x');
    }
  }
}
