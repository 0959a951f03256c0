/** When a free fixes the list its pointer goes to, and that it stays fixed. */
module Slots {
  import opened AbaTypes
  import opened Protocol
  import opened Invariant
  import opened Machine
  import opened History

  /** The stages before the list is fixed. */
  predicate Unfixed(x: Thread, it: Item) {
    x.pc.Free? && match x.pc.stage
      case Reading(i) => i == it
      case Trying(i, s) => i == it && s.at.bit
      case Planning(i, _, _) => i == it
      case Immediate(i) => i == it
      case _ => false
  }

  /** The thread fixes the list of its pointer: it reads a world whose bit is 0, or its own swap creates
      the timestamp. */
  ghost predicate Fixes(act: Act, sh: Shared, x: Thread, k: nat, t: nat) {
    && Unfixed(x, User(k)) && !x.pc.stage.Immediate?
    && ((act.FreeRead? && W(sh).n > 1 && !sh.cur.bit && t == W(sh).ts)
        || (act.FreeRetry? && !sh.cur.bit && t == W(sh).ts)
        || (act.FreeSwap? && x.pc.stage.Planning? && t == x.pc.stage.s.world.ts + 1))
  }

  /** What a step does to the list of the k-th pointer. */
  ghost predicate SlotFate(act: Act, sh: Shared, x: Thread, sh': Shared, x': Thread, k: nat) {
    && (User(k) in sh.slot && !Unfixed(x, User(k)) ==> Slotted(sh', User(k), sh.slot[User(k)]))
    && (User(k) in sh'.slot && User(k) !in sh.slot ==> Fixes(act, sh, x, k, sh'.slot[User(k)]))
    && (Unfixed(x', User(k)) && (Unfixed(x, User(k)) || act == CallFree(k)) && User(k) in sh'.slot ==>
          User(k) in sh.slot)
    && (Unfixed(x', User(k)) ==> Unfixed(x, User(k)) || act == CallFree(k))
  }

  lemma RegisterSlots(act: Act, sh: Shared, tid: Tid, x: Thread, sh': Shared, x': Thread, k: nat)
    requires RegisterAct(act) && RegisterStep(act, sh, tid, x, sh', x') && HeldOld(x) && CurOk(sh)
    ensures SlotFate(act, sh, x, sh', x', k)
  {
  }

  lemma FreeSlots(act: Act, sh: Shared, tid: Tid, x: Thread, sh': Shared, x': Thread, k: nat)
    requires FreeAct(act) && FreeStep(act, sh, tid, x, sh', x') && CurOk(sh)
    ensures SlotFate(act, sh, x, sh', x', k)
  {
    if act.FreeRead? || act.FreeRetry? || act.FreeSwap? {
      FixingSlots(act, sh, tid, x, sh', x', k);
    }
  }

  lemma FixingSlots(act: Act, sh: Shared, tid: Tid, x: Thread, sh': Shared, x': Thread, k: nat)
    requires (act.FreeRead? || act.FreeRetry? || act.FreeSwap?) && FreeStep(act, sh, tid, x, sh', x') && CurOk(sh)
    ensures SlotFate(act, sh, x, sh', x', k)
  {
  }

  lemma CheckinSlots(act: Act, sh: Shared, tid: Tid, x: Thread, sh': Shared, x': Thread, k: nat)
    requires CheckinAct(act) && CheckinStep(act, sh, tid, x, sh', x') && CurOk(sh)
    ensures SlotFate(act, sh, x, sh', x', k)
  {
  }

  lemma WalkSlots(act: Act, sh: Shared, tid: Tid, x: Thread, sh': Shared, x': Thread, k: nat)
    requires WalkAct(act) && WalkingStep(act, sh, tid, x, sh', x') && CurOk(sh)
    ensures SlotFate(act, sh, x, sh', x', k)
  {
  }

  lemma UnregisterSlots(act: Act, sh: Shared, tid: Tid, x: Thread, sh': Shared, x': Thread, k: nat)
    requires UnregisterAct(act) && UnregisterStep(act, sh, tid, x, sh', x') && CurOk(sh)
    requires forall it :: it in sh.leaks ==> it.Old?
    ensures SlotFate(act, sh, x, sh', x', k)
  {
    UnregisterEnters(act, sh, tid, x, sh', x');
    UnregisterKeepsSlot(act, sh, tid, x, sh', x', k);
    UnregisterOpens(act, sh, tid, x, sh', x', k);
  }

  /** Leaving touches no list of a user pointer. */
  lemma UnregisterKeepsSlot(act: Act, sh: Shared, tid: Tid, x: Thread, sh': Shared, x': Thread, k: nat)
    requires UnregisterAct(act) && UnregisterStep(act, sh, tid, x, sh', x')
    requires forall it :: it in sh.leaks ==> it.Old?
    ensures User(k) in sh'.slot <==> User(k) in sh.slot
    ensures User(k) in sh.slot ==> sh'.slot[User(k)] == sh.slot[User(k)]
  {
    if act.Clean? { CleaningKeepsSlot(sh, x.pc.a, k); }
  }

  lemma CleaningKeepsSlot(sh: Shared, a: Addr, k: nat)
    requires forall it :: it in sh.leaks ==> it.Old?
    ensures User(k) in FinishAll(sh, a).slot <==> User(k) in sh.slot
    ensures User(k) in sh.slot ==> FinishAll(sh, a).slot[User(k)] == sh.slot[User(k)]
  {
  }

  /** And it frees none but a world. */
  lemma UnregisterOpens(act: Act, sh: Shared, tid: Tid, x: Thread, sh': Shared, x': Thread, k: nat)
    requires UnregisterAct(act) && UnregisterStep(act, sh, tid, x, sh', x')
    ensures !Unfixed(x', User(k))
  {
  }

  lemma StepSlots(act: Act, sh: Shared, tid: Tid, x: Thread, sh': Shared, x': Thread, k: nat)
    requires ThreadStep(act, sh, tid, x, sh', x') && HeldOld(x) && CurOk(sh) && forall it :: it in sh.leaks ==> it.Old?
    ensures SlotFate(act, sh, x, sh', x', k)
  {
    hide Step, StepOf, OpOf;
    if RegisterAct(act) {
      RegisterShape(act, sh, tid, x, sh', x');
      RegisterSlots(act, sh, tid, x, sh', x', k);
    } else if FreeAct(act) {
      FreeShape(act, sh, tid, x, sh', x');
      FreeSlots(act, sh, tid, x, sh', x', k);
    } else if CheckinAct(act) {
      CheckinShape(act, sh, tid, x, sh', x');
      CheckinSlots(act, sh, tid, x, sh', x', k);
    } else if WalkAct(act) {
      WalkShape(act, sh, tid, x, sh', x');
      WalkSlots(act, sh, tid, x, sh', x', k);
    } else {
      UnregisterShape(act, sh, tid, x, sh', x');
      UnregisterSlots(act, sh, tid, x, sh', x', k);
    }
  }

  /** A pointer whose list is not fixed is in the freeing thread's hands only. */
  lemma UnfixedHeld(sh: Shared, tid: Tid, x: Thread, k: nat)
    requires ThreadOk(sh, tid, x) && Unfixed(x, User(k))
    ensures PlaceIs(sh, User(k), Held(tid)) || PlaceIs(sh, User(k), Alone(tid))
  {
    if !x.pc.stage.Immediate? { assert User(k) in Duties(x); }
  }

  lemma NewPointerUnslotted(sh: Shared, k: nat)
    requires SharedOk(sh) && User(k) !in sh.place
    ensures User(k) !in sh.slot
  {
  }

  lemma UnfixedApart(s: State, i: Tid, j: Tid, k: nat)
    requires Inv(s) && i in s.th && j in s.th && Unfixed(s.Th(i), User(k)) && Unfixed(s.Th(j), User(k))
    ensures i == j
  {
    hide Step;
    assert ThreadOk(s.sh, i, s.Th(i)) && ThreadOk(s.sh, j, s.Th(j));
    UnfixedHeld(s.sh, i, s.Th(i), k);
    UnfixedHeld(s.sh, j, s.Th(j), k);
  }
}
