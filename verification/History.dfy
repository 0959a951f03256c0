/** What becomes of the pointers that are freed, step by step. */
module History {
  import opened AbaTypes
  import opened Protocol
  import opened Invariant
  import opened ThreadSteps
  import opened Machine

  /** The leak list and the chains of worlds to dispose of hold nothing but worlds, and worlds are not
      recorded as run. */
  ghost predicate OldOnly(sh: Shared, th: map<Tid, Thread>) {
    && (forall it :: it in sh.leaks ==> it.Old?)
    && (forall it :: it in sh.place && sh.place[it] == Ran ==> it.User?)
    && (forall i :: i in th ==> HeldOld(th[i]))
  }

  ghost predicate HeldOld(x: Thread) { forall it :: it in x.held ==> it.Old? }

  /** The callback of the k-th pointer runs in this step. */
  predicate Final(act: Act, x: Thread, k: nat) {
    act == RunItem(User(k)) || (act.FreeNow? && x.pc.Free? && x.pc.stage == Immediate(User(k)))
  }

  /** No user pointer moves. */
  ghost predicate UsersStay(sh: Shared, sh': Shared) {
    forall k :: (User(k) in sh'.place <==> User(k) in sh.place) &&
                (User(k) in sh.place ==> sh'.place[User(k)] == sh.place[User(k)])
  }

  ghost predicate OldOnlyStep(sh: Shared, sh': Shared, x': Thread) {
    && (forall it :: it in sh'.leaks ==> it in sh.leaks || it.Old?)
    && (forall it :: it in sh'.place && sh'.place[it] == Ran ==> it.User? || (it in sh.place && sh.place[it] == Ran))
    && HeldOld(x')
  }

  lemma RegisterHistory(act: Act, sh: Shared, tid: Tid, x: Thread, sh': Shared, x': Thread)
    requires RegisterAct(act) && RegisterStep(act, sh, tid, x, sh', x') && HeldOld(x)
    ensures UsersStay(sh, sh') && OldOnlyStep(sh, sh', x')
  {
  }

  lemma CheckinHistory(act: Act, sh: Shared, tid: Tid, x: Thread, sh': Shared, x': Thread)
    requires CheckinAct(act) && CheckinStep(act, sh, tid, x, sh', x') && HeldOld(x)
    ensures UsersStay(sh, sh') && OldOnlyStep(sh, sh', x')
  {
  }

  lemma UnregisterHistory(act: Act, sh: Shared, tid: Tid, x: Thread, sh': Shared, x': Thread)
    requires UnregisterAct(act) && UnregisterStep(act, sh, tid, x, sh', x') && HeldOld(x)
    requires forall it :: it in sh.leaks ==> it.Old?
    ensures UsersStay(sh, sh') && OldOnlyStep(sh, sh', x')
  {
  }

  lemma FreeHistory(act: Act, sh: Shared, tid: Tid, x: Thread, sh': Shared, x': Thread)
    requires FreeAct(act) && FreeStep(act, sh, tid, x, sh', x') && HeldOld(x)
    ensures OldOnlyStep(sh, sh', x')
  {
  }

  lemma WalkHistory(act: Act, sh: Shared, tid: Tid, x: Thread, sh': Shared, x': Thread)
    requires WalkAct(act) && WalkingStep(act, sh, tid, x, sh', x') && HeldOld(x)
    ensures OldOnlyStep(sh, sh', x')
  {
  }

  /* ---- the fate of one pointer ---- */

  /** How a step may change where the k-th pointer is. */
  ghost predicate Fate(act: Act, sh: Shared, x: Thread, sh': Shared, k: nat) {
    var u := User(k);
    && (act == CallFree(k) ==> u !in sh.place)
    && (act != CallFree(k) ==> (u in sh'.place <==> u in sh.place))
    && (act == CallFree(k) ==> u in sh'.place && sh'.place[u].Held?)
    && (Final(act, x, k) ==> u in sh.place && sh.place[u] != Ran && PlaceIs(sh', u, Ran))
    && (!Final(act, x, k) && act != CallFree(k) ==> (PlaceIs(sh', u, Ran) <==> PlaceIs(sh, u, Ran)))
  }

  /** What the thread has in hand is recorded as such. */
  ghost predicate Hands(sh: Shared, tid: Tid, x: Thread) {
    && (forall it :: it in Duties(x) ==> PlaceIs(sh, it, Held(tid)))
    && (x.pc.Free? && x.pc.stage.Immediate? ==> PlaceIs(sh, x.pc.stage.it, Alone(tid)))
    && NullListed(sh, x)
  }

  lemma FreeFate(act: Act, sh: Shared, tid: Tid, x: Thread, sh': Shared, x': Thread, k: nat)
    requires FreeAct(act) && FreeStep(act, sh, tid, x, sh', x') && Hands(sh, tid, x)
    ensures Fate(act, sh, x, sh', k)
  {
    if act.FreeRead? || act.FreeRetry? || act.FreeAlone? {
      ReadFate(act, sh, tid, x, sh', x', k);
    } else if act.FreeAppend? || act.FreeAppendOld? {
      AppendFate(act, sh, tid, x, sh', x', k);
    } else {
      FreeRestFate(act, sh, tid, x, sh', x', k);
    }
  }

  lemma ReadFate(act: Act, sh: Shared, tid: Tid, x: Thread, sh': Shared, x': Thread, k: nat)
    requires FreeAct(act) && FreeStep(act, sh, tid, x, sh', x') && Hands(sh, tid, x)
    requires act.FreeRead? || act.FreeRetry? || act.FreeAlone?
    ensures Fate(act, sh, x, sh', k)
  {
    assert x.pc.stage.it in Duties(x);
  }

  lemma AppendFate(act: Act, sh: Shared, tid: Tid, x: Thread, sh': Shared, x': Thread, k: nat)
    requires FreeAct(act) && FreeStep(act, sh, tid, x, sh', x') && Hands(sh, tid, x)
    requires act.FreeAppend? || act.FreeAppendOld?
    ensures Fate(act, sh, x, sh', k)
  {
    var it := if act.FreeAppend? then x.pc.stage.it else act.it;
    assert it in Duties(x);
  }

  lemma FreeRestFate(act: Act, sh: Shared, tid: Tid, x: Thread, sh': Shared, x': Thread, k: nat)
    requires FreeAct(act) && FreeStep(act, sh, tid, x, sh', x') && Hands(sh, tid, x)
    requires !act.FreeRead? && !act.FreeRetry? && !act.FreeAlone? && !act.FreeAppend? && !act.FreeAppendOld?
    ensures Fate(act, sh, x, sh', k)
  {
    if act.FreeSwap? { assert x.pc.stage.it in Duties(x); }
  }

  lemma WalkFate(act: Act, sh: Shared, tid: Tid, x: Thread, sh': Shared, x': Thread, k: nat)
    requires WalkAct(act) && WalkingStep(act, sh, tid, x, sh', x') && Hands(sh, tid, x)
    ensures Fate(act, sh, x, sh', k)
  {
    if act.RunItem? { assert act.it in Duties(x); }
  }

  lemma StayFate(act: Act, sh: Shared, x: Thread, sh': Shared, k: nat)
    requires !FreeAct(act) && !WalkAct(act) && UsersStay(sh, sh')
    ensures Fate(act, sh, x, sh', k)
  {
  }

  lemma StepHistory(act: Act, sh: Shared, tid: Tid, x: Thread, sh': Shared, x': Thread)
    requires ThreadStep(act, sh, tid, x, sh', x') && HeldOld(x) && forall it :: it in sh.leaks ==> it.Old?
    ensures OldOnlyStep(sh, sh', x')
    ensures !FreeAct(act) && !WalkAct(act) ==> UsersStay(sh, sh')
  {
    if RegisterAct(act) {
      RegisterShape(act, sh, tid, x, sh', x');
      RegisterHistory(act, sh, tid, x, sh', x');
    } else if FreeAct(act) {
      FreeShape(act, sh, tid, x, sh', x');
      FreeHistory(act, sh, tid, x, sh', x');
    } else if CheckinAct(act) {
      CheckinShape(act, sh, tid, x, sh', x');
      CheckinHistory(act, sh, tid, x, sh', x');
    } else if WalkAct(act) {
      WalkShape(act, sh, tid, x, sh', x');
      WalkHistory(act, sh, tid, x, sh', x');
    } else {
      UnregisterShape(act, sh, tid, x, sh', x');
      UnregisterHistory(act, sh, tid, x, sh', x');
    }
  }

  lemma StepFate(act: Act, sh: Shared, tid: Tid, x: Thread, sh': Shared, x': Thread, k: nat)
    requires ThreadStep(act, sh, tid, x, sh', x') && HeldOld(x) && forall it :: it in sh.leaks ==> it.Old?
    requires Hands(sh, tid, x)
    ensures Fate(act, sh, x, sh', k)
  {
    hide *;
    if FreeAct(act) {
      FreeShape(act, sh, tid, x, sh', x');
      FreeFate(act, sh, tid, x, sh', x', k);
    } else if WalkAct(act) {
      WalkShape(act, sh, tid, x, sh', x');
      WalkFate(act, sh, tid, x, sh', x', k);
    } else {
      StepHistory(act, sh, tid, x, sh', x');
      StayFate(act, sh, x, sh', k);
    }
  }

  lemma HandsHold(s: State, tid: Tid)
    requires Inv(s) && tid in s.th
    ensures Hands(s.sh, tid, s.Th(tid))
  {
    hide Step;
    assert ThreadOk(s.sh, tid, s.Th(tid));
    NullIsListed(s, tid);
  }
}
