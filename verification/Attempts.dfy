/** Every compare-and-swap that is tried, also those that fail, passes the checks of the debug build. */
module Attempts {
  import opened AbaTypes
  import opened Protocol
  import opened Invariant
  import opened Entries
  import opened Storages
  import opened CouplingSteps
  import opened MakingRoom
  import opened RealRefinement
  import opened Runs
  import opened Transitions

  /** A pointer that is compared with, the one to be swapped in, what is behind them, and what it is for. */
  datatype Attempt = Attempt(from: Seen, to: Seen, intent: Intent)

  /** The swaps a thread may try in its place. A new world comes at any address but that of the old one. */
  ghost predicate Tries(sh: Shared, x: Thread, t: Attempt) {
    match x.pc
    case Locking => !sh.cur.lock && t == Attempt(Now(sh), Seen(sh.cur.(lock := true), W(sh)), ForLock)
    case Registering(s) => Offers(s, t, s.world.(n := s.world.n + 1), true, false) && t.intent == ForRegister
    case Free(Planning(_, s, plan), _) =>
      && !plan.Rotating? && !Failed(s.world, plan) && t.intent == ForFree
      && Offers(s, t, World(s.world.ts + 1, s.world.n, t.to.world.win), false, false)
    case Marking(s, _, _, _) =>
      !s.at.lock && !s.at.bit && t == Attempt(s, Seen(s.at.(bit := true), s.world), ForCheckin)
    case Copying(s, _, _) => Offers(s, t, s.world, true, false) && t.intent == ForCheckin
    case LockTry(s, _) => !s.at.lock && t == Attempt(s, Seen(s.at.(lock := true), s.world), ForLock)
    case Removing(s, upto) =>
      && s.world.ts == upto && t.intent == ForUnregister
      && (if s.world.n >= 2 then Offers(s, t, s.world.(n := s.world.n - 1), true, false)
          else Offers(s, t, World(0, 0, Window(0, s.world.win.size, [])), false, true))
    case Unlocking(s) => t == Attempt(s, Seen(s.at.(lock := false), s.world), ForUnlock)
    case Reopening(b) => t == Attempt(Now(sh), Seen(sh.cur.(lock := false), W(sh)), ForUnlock)
    case _ => false
  }

  /** World `w` is offered in place of the one seen, at another address. */
  predicate Offers(s: Seen, t: Attempt, w: World, bit: bool, lock: bool) {
    t.from == s && t.to.at.w != s.at.w && t.to == Seen(Ptr(t.to.at.w, bit, lock), w)
  }

  /** What the debug build asserts before a swap: the transition is in the table (for a lock, that of the tags
      alone), a locked world is replaced by another one, a cleared bit comes with a new timestamp or a new
      number of threads but not both, time stays while the bit is 0, and never goes back but to 0. */
  predicate Allowed(t: Attempt) {
    var s, n := t.from, t.to;
    && n.at != s.at
    && Table(StateOf(s.at, s.world), StateOf(n.at, n.world), t.intent)
    && (t.intent.ForLock? ==> Table(Tags(s.at), Tags(n.at), ForLock))
    && (!t.intent.ForLock? ==>
          && (s.at.lock && !t.intent.ForUnlock? ==> n.at.w != s.at.w)
          && (s.at.bit && n.at.w != s.at.w && !t.intent.ForCheckin? ==>
                (s.world.ts != n.world.ts || n.world.ts == 0) != (n.world.ts != 0 && s.world.n != n.world.n))
          && (!s.at.bit ==> s.world.ts == n.world.ts || n.world.ts == 0 || s.world.ts == 0)
          && (n.world.ts == 0 || n.world.ts >= s.world.ts))
  }

  function Tags(p: Ptr): nat { Bit(p.bit, 1) + Bit(p.lock, 2) }

  /* ---- what a world that was read looked like ---- */

  /** A world without threads has no timestamp and no bit; one with threads and no bit has a timestamp, and
      more than one thread. */
  predicate Sane(s: Seen) {
    && (s.world.n == 0 ==> s.world.ts == 0 && !s.at.bit)
    && (s.world.n > 0 && !s.at.bit ==> s.world.ts > 0 && s.world.n >= 2)
  }

  ghost predicate AllSane(x: Thread) { forall s :: s in Seens(x) ==> Sane(s) }

  lemma NowSane(sh: Shared)
    requires SharedOk(sh) && BitZeroHasTime(sh)
    ensures Sane(Now(sh))
  {
  }

  lemma RegisterSane(act: Act, sh: Shared, tid: Tid, x: Thread, sh': Shared, x': Thread)
    requires RegisterAct(act) && RegisterStep(act, sh, tid, x, sh', x') && CurOk(sh) && Sane(Now(sh)) && AllSane(x)
    ensures AllSane(x')
  {
  }

  lemma SwapSane(act: Act, sh: Shared, tid: Tid, x: Thread, sh': Shared, x': Thread)
    requires act.FreeSwap? && FreeStep(act, sh, tid, x, sh', x') && AllSane(x) && Local(x)
    ensures AllSane(x')
  {
  }

  lemma FreeSane(act: Act, sh: Shared, tid: Tid, x: Thread, sh': Shared, x': Thread)
    requires FreeAct(act) && FreeStep(act, sh, tid, x, sh', x') && CurOk(sh) && Sane(Now(sh)) && AllSane(x) && Local(x)
    ensures AllSane(x')
  {
    if act.FreeSwap? {
      SwapSane(act, sh, tid, x, sh', x');
    } else {
      FreeRestSane(act, sh, tid, x, sh', x');
    }
  }

  lemma FreeRestSane(act: Act, sh: Shared, tid: Tid, x: Thread, sh': Shared, x': Thread)
    requires FreeAct(act) && !act.FreeSwap? && FreeStep(act, sh, tid, x, sh', x')
    requires CurOk(sh) && Sane(Now(sh)) && AllSane(x)
    ensures AllSane(x')
  {
    FreeSees(act, sh, tid, x, sh', x');
  }

  /** A thread that checks in or leaves counts in the world that is current. */
  ghost predicate CountsIn(sh: Shared, x: Thread) {
    && CurOk(sh) && Sane(Now(sh)) && (forall s :: s in Seens(x) ==> SeenOk(sh, s)) && (Reg(x) ==> W(sh).n > 0)
  }

  lemma CheckinSane(act: Act, sh: Shared, tid: Tid, x: Thread, sh': Shared, x': Thread)
    requires CheckinAct(act) && CheckinStep(act, sh, tid, x, sh', x') && AllSane(x) && CountsIn(sh, x) && Reg(x)
    ensures AllSane(x')
  {
    if act.MarkOk? || act.CopyOk? { assert x.pc.s in Seens(x) && SeenOk(sh, x.pc.s); }
  }

  lemma WalkSane(act: Act, sh: Shared, tid: Tid, x: Thread, sh': Shared, x': Thread)
    requires WalkAct(act) && WalkingStep(act, sh, tid, x, sh', x') && AllSane(x)
    ensures AllSane(x')
  {
  }

  lemma UnregisterSane(act: Act, sh: Shared, tid: Tid, x: Thread, sh': Shared, x': Thread)
    requires UnregisterAct(act) && UnregisterStep(act, sh, tid, x, sh', x') && AllSane(x) && CountsIn(sh, x)
    ensures AllSane(x')
  {
    if act.LockRetry? || act.UnregLook? || act.LockOk? {
      LookSane(act, sh, tid, x, sh', x');
    }
  }

  lemma LookSane(act: Act, sh: Shared, tid: Tid, x: Thread, sh': Shared, x': Thread)
    requires UnregisterAct(act) && UnregisterStep(act, sh, tid, x, sh', x') && AllSane(x) && CountsIn(sh, x)
    requires act.LockRetry? || act.UnregLook? || act.LockOk?
    ensures AllSane(x')
  {
    if !act.UnregLook? { assert x.pc.s in Seens(x) && SeenOk(sh, x.pc.s); }
  }

  lemma CountsInHolds(sh: Shared, tid: Tid, x: Thread)
    requires SwapBase(sh, tid, x)
    ensures CountsIn(sh, x) && Local(x)
  {
    hide StepAt, Joint, RealStep;
    NowSane(sh);
  }

  lemma StepSane(act: Act, sh: Shared, tid: Tid, x: Thread, sh': Shared, x': Thread)
    requires ThreadStep(act, sh, tid, x, sh', x') && CountsIn(sh, x) && Local(x) && AllSane(x)
    ensures AllSane(x')
  {
    hide StepAt, Joint, RealStep;
    if RegisterAct(act) {
      RegisterShape(act, sh, tid, x, sh', x');
      RegisterSane(act, sh, tid, x, sh', x');
    } else if FreeAct(act) {
      FreeShape(act, sh, tid, x, sh', x');
      FreeSane(act, sh, tid, x, sh', x');
    } else if CheckinAct(act) {
      CheckinShape(act, sh, tid, x, sh', x');
      CheckinReg(sh, tid, x, act, sh', x');
      CheckinSane(act, sh, tid, x, sh', x');
    } else if WalkAct(act) {
      WalkShape(act, sh, tid, x, sh', x');
      WalkSane(act, sh, tid, x, sh', x');
    } else {
      UnregisterShape(act, sh, tid, x, sh', x');
      UnregisterSane(act, sh, tid, x, sh', x');
    }
  }

  lemma BaseHolds(c: Real, m: Mem, tid: Tid)
    requires Joint(c, m) && tid in c.th
    ensures SwapBase(c.sh, tid, c.Th(tid))
  {
    SwapBaseHolds(Abstract(c, m), tid);
  }

  /** What a thread has read was the state of the world pointer at some time. */
  lemma {:induction false} SeensSane(r: Run, ms: seq<Mem>, i: nat, tid: Tid)
    requires IsRun(r) && Tracks(r, ms) && i <= |r.turns| && tid in r.At(i).th
    ensures AllSane(r.At(i).Th(tid))
  {
    hide StepOf, StoreStep;
    if i > 0 {
      assert StepAt(r, i - 1);
      SeensSane(r, ms, i - 1, tid);
      if r.TurnAt(i - 1).tid == tid {
        RunJoint(r, ms, i - 1);
        BaseHolds(r.At(i - 1), MemAt(ms, i - 1), tid);
        CountsInHolds(r.At(i - 1).sh, tid, r.At(i - 1).Th(tid));
        StepSane(r.TurnAt(i - 1).act, r.At(i - 1).sh, tid, r.At(i - 1).Th(tid), r.At(i).sh,
          r.At(i).Th(tid));
      }
    }
  }

  /* ---- the attempts ---- */

  lemma TagsAllowed(s: Seen, t: Attempt)
    requires Sane(s) && t.from == s
    requires || (!s.at.lock && t == Attempt(s, Seen(s.at.(lock := true), s.world), ForLock))
             || (s.at.lock && t == Attempt(s, Seen(s.at.(lock := false), s.world), ForUnlock)
                 && if s.at.bit then true else s.world.n == 0)
             || (!s.at.lock && !s.at.bit && s.world.ts > 0
               && t == Attempt(s, Seen(s.at.(bit := true), s.world), ForCheckin))
    ensures Allowed(t)
  {
  }

  lemma RegisterAllowed(s: Seen, t: Attempt)
    requires Sane(s) && s.at.lock && t.intent == ForRegister && Offers(s, t, s.world.(n := s.world.n + 1), true, false)
    ensures Allowed(t)
  {
  }

  lemma FreeAllowed(s: Seen, t: Attempt)
    requires Sane(s) && s.at.bit && s.world.n >= 2 && t.intent == ForFree
    requires Offers(s, t, World(s.world.ts + 1, s.world.n, t.to.world.win), false, false)
    ensures Allowed(t)
  {
  }

  lemma CopyAllowed(s: Seen, t: Attempt)
    requires Sane(s) && s.world.ts > 0 && t.intent == ForCheckin && Offers(s, t, s.world, true, false)
    ensures Allowed(t)
  {
  }

  lemma RemoveAllowed(s: Seen, t: Attempt)
    requires Sane(s) && s.at.bit && s.at.lock && t.intent == ForUnregister
    requires if s.world.n >= 2 then Offers(s, t, s.world.(n := s.world.n - 1), true, false)
             else Offers(s, t, World(0, 0, Window(0, s.world.win.size, [])), false, true)
    ensures Allowed(t)
  {
  }

  lemma TriedAllowed(sh: Shared, tid: Tid, x: Thread, t: Attempt)
    requires CountsIn(sh, x) && Local(x) && AllSane(x) && LockedOk(sh, x) && Tries(sh, x, t)
    ensures Allowed(t)
  {
    match x.pc
    case Locking => TagsAllowed(Now(sh), t);
    case Registering(s) => RegisterAllowed(s, t);
    case Free(Planning(_, s, _), _) => FreeAllowed(s, t);
    case Marking(s, _, _, _) => TagsAllowed(s, t);
    case Copying(s, _, _) => CopyAllowed(s, t);
    case LockTry(s, _) => TagsAllowed(s, t);
    case Removing(s, _) => RemoveAllowed(s, t);
    case Unlocking(s) => TagsAllowed(s, t);
    case Reopening(_) => TagsAllowed(Now(sh), t);
    case _ =>
  }

  /** Whatever swap a thread is about to try, in any state of any run, with whatever world pointer it has read,
      passes the checks. */
  lemma EveryAttemptAllowed(r: Run, i: nat, tid: Tid, t: Attempt)
    requires IsRun(r) && i <= |r.turns| && tid in r.At(i).th && CurOk(r.At(i).sh)
    requires Tries(r.At(i).sh, r.At(i).Th(tid), t)
    ensures Allowed(t)
  {
    hide StepAt, Joint, RealStep, Tracks;
    var ms := TracksExists(r);
    SeensSane(r, ms, i, tid);
    RunJoint(r, ms, i);
    BaseHolds(r.At(i), MemAt(ms, i), tid);
    CountsInHolds(r.At(i).sh, tid, r.At(i).Th(tid));
    TriedAllowed(r.At(i).sh, tid, r.At(i).Th(tid), t);
  }

  /* ---- every swap is one of them, and so is every failure ---- */

  ghost function Taken(sh: Shared, act: Act, sh': Shared): Attempt
    requires IsSwap(act) && CurOk(sh) && CurOk(sh')
  {
    Attempt(Now(sh), Now(sh'), IntentOf(act))
  }

  lemma RegisterTaken(act: Act, sh: Shared, tid: Tid, x: Thread, sh': Shared, x': Thread)
    requires RegisterAct(act) && IsSwap(act) && RegisterStep(act, sh, tid, x, sh', x') && CountsIn(sh, x) && CurOk(sh')
    ensures Tries(sh, x, Taken(sh, act, sh'))
  {
    hide StepAt, Joint, RealStep;
    if act.RegisterOk? { assert x.pc.s in Seens(x) && SeenOk(sh, x.pc.s); }
  }

  lemma CheckinTaken(act: Act, sh: Shared, tid: Tid, x: Thread, sh': Shared, x': Thread)
    requires CheckinAct(act) && IsSwap(act) && CheckinStep(act, sh, tid, x, sh', x') && CountsIn(sh, x) && CurOk(sh')
    ensures Tries(sh, x, Taken(sh, act, sh'))
  {
    hide StepAt, Joint, RealStep;
    assert x.pc.s in Seens(x) && SeenOk(sh, x.pc.s);
  }

  lemma FreeTaken(act: Act, sh: Shared, tid: Tid, x: Thread, sh': Shared, x': Thread)
    requires act.FreeSwap? && DoFreeSwap(sh, tid, x, sh', x', act.a, act.win) && CountsIn(sh, x) && CurOk(sh')
    requires RoomStep(act, x)
    ensures Tries(sh, x, Taken(sh, act, sh'))
  {
    hide StepAt, Joint, RealStep;
    assert x.pc.stage.s in Seens(x) && SeenOk(sh, x.pc.stage.s);
  }

  lemma RemoveTaken(act: Act, sh: Shared, tid: Tid, x: Thread, sh': Shared, x': Thread)
    requires (act.RemoveOk? || act.RemoveLast?) && UnregisterStep(act, sh, tid, x, sh', x') && CountsIn(sh, x)
    requires CurOk(sh')
    ensures Tries(sh, x, Taken(sh, act, sh'))
  {
    assert x.pc.s in Seens(x) && SeenOk(sh, x.pc.s);
  }

  lemma UnregisterTaken(act: Act, sh: Shared, tid: Tid, x: Thread, sh': Shared, x': Thread)
    requires UnregisterAct(act) && IsSwap(act) && UnregisterStep(act, sh, tid, x, sh', x') && CountsIn(sh, x)
    requires CurOk(sh')
    ensures Tries(sh, x, Taken(sh, act, sh'))
  {
    if act.RemoveOk? || act.RemoveLast? {
      RemoveTaken(act, sh, tid, x, sh', x');
    } else if !act.Reopen? {
      assert x.pc.s in Seens(x) && SeenOk(sh, x.pc.s);
    }
  }

  lemma StepTaken(act: Act, sh: Shared, tid: Tid, x: Thread, sh': Shared, x': Thread)
    requires IsSwap(act) && ThreadStep(act, sh, tid, x, sh', x') && RoomStep(act, x) && CountsIn(sh, x) && CurOk(sh')
    ensures Tries(sh, x, Taken(sh, act, sh'))
  {
    hide StepAt, Joint, RealStep, StoreStep, StepOf, OpOf, NextMem;
    if act.FreeSwap? {
      FreeSwapStepShape(act, sh, tid, x, sh', x');
      FreeTaken(act, sh, tid, x, sh', x');
    } else if CheckinAct(act) {
      CheckinShape(act, sh, tid, x, sh', x');
      CheckinTaken(act, sh, tid, x, sh', x');
    } else if RegisterAct(act) {
      RegisterShape(act, sh, tid, x, sh', x');
      RegisterTaken(act, sh, tid, x, sh', x');
    } else {
      UnregisterShape(act, sh, tid, x, sh', x');
      UnregisterTaken(act, sh, tid, x, sh', x');
    }
  }

  lemma CurHolds(c: Real, m: Mem)
    requires Joint(c, m)
    ensures CurOk(c.sh)
  {
  }

  /** Every successful swap of every run is such an attempt, on the current world pointer. */
  lemma SwapsAreAttempts(r: Run, i: nat)
    requires IsRun(r) && i < |r.turns| && IsSwap(r.TurnAt(i).act)
    ensures r.TurnAt(i).tid in r.At(i).th && CurOk(r.At(i).sh) && CurOk(r.At(i + 1).sh)
    ensures Tries(r.At(i).sh, r.At(i).Th(r.TurnAt(i).tid),
              Taken(r.At(i).sh, r.TurnAt(i).act, r.At(i + 1).sh))
  {
    hide StepOf, StoreStep;
    assert StepAt(r, i);
    var ms := TracksExists(r);
    RunJoint(r, ms, i);
    RunJoint(r, ms, i + 1);
    CurHolds(r.At(i + 1), MemAt(ms, i + 1));
    var tid := r.TurnAt(i).tid;
    BaseHolds(r.At(i), MemAt(ms, i), tid);
    CountsInHolds(r.At(i).sh, tid, r.At(i).Th(tid));
    StepTaken(r.TurnAt(i).act, r.At(i).sh, tid, r.At(i).Th(tid), r.At(i + 1).sh, r.At(i + 1).Th(tid));
  }

  /** The steps in which a swap has failed. */
  predicate Misses(act: Act, x: Thread) {
    || (act.RegisterFail? && x.pc.Registering?) || (act.MarkFail? && x.pc.Marking?) || (act.CopyFail? && x.pc.Copying?)
    || (act.UnlockFail? && x.pc.Unlocking?) || ((act.LockRetry? || act.LockFail?) && x.pc.LockTry? && !x.pc.s.at.lock)
    || (act.RemoveAgain? && x.pc.Removing? && x.pc.s.world.ts == x.pc.upto && x.pc.s.world.n >= 1)
  }

  lemma MissTried(act: Act, sh: Shared, tid: Tid, x: Thread, sh': Shared, x': Thread) returns (t: Attempt)
    requires Misses(act, x) && CurOk(sh)
    requires if RegisterAct(act) then RegisterStep(act, sh, tid, x, sh', x')
             else if CheckinAct(act) then CheckinStep(act, sh, tid, x, sh', x')
             else UnregisterStep(act, sh, tid, x, sh', x')
    ensures Tries(sh, x, t) && t.from.at != sh.cur
  {
    var s := x.pc.s;
    var a := s.at.w + 1;
    if x.pc.Registering? {
      t := Attempt(s, Seen(Ptr(a, true, false), s.world.(n := s.world.n + 1)), ForRegister);
    } else if x.pc.Marking? {
      t := Attempt(s, Seen(s.at.(bit := true), s.world), ForCheckin);
    } else if x.pc.Copying? {
      t := Attempt(s, Seen(Ptr(a, true, false), s.world), ForCheckin);
    } else if x.pc.LockTry? {
      t := Attempt(s, Seen(s.at.(lock := true), s.world), ForLock);
    } else if x.pc.Unlocking? {
      t := Attempt(s, Seen(s.at.(lock := false), s.world), ForUnlock);
    } else if s.world.n >= 2 {
      t := Attempt(s, Seen(Ptr(a, true, false), s.world.(n := s.world.n - 1)), ForUnregister);
    } else {
      t := Attempt(s, Seen(Ptr(a, false, true), World(0, 0, Window(0, s.world.win.size, []))), ForUnregister);
    }
  }

  /** A step that reports a failed swap has tried one, on a world pointer that is no longer the current one. */
  lemma FailuresAreAttempts(r: Run, i: nat) returns (t: Attempt)
    requires IsRun(r) && i < |r.turns| && r.TurnAt(i).tid in r.At(i).th && CurOk(r.At(i).sh)
    requires Misses(r.TurnAt(i).act, r.At(i).Th(r.TurnAt(i).tid))
    ensures Tries(r.At(i).sh, r.At(i).Th(r.TurnAt(i).tid), t) && t.from.at != r.At(i).sh.cur
  {
    hide StepOf, StoreStep, OpOf, NextMem;
    assert StepAt(r, i);
    var tid, act := r.TurnAt(i).tid, r.TurnAt(i).act;
    var sh, x, sh', x' := r.At(i).sh, r.At(i).Th(tid), r.At(i + 1).sh, r.At(i + 1).Th(tid);
    if RegisterAct(act) {
      RegisterShape(act, sh, tid, x, sh', x');
    } else if CheckinAct(act) {
      CheckinShape(act, sh, tid, x, sh', x');
    } else {
      UnregisterShape(act, sh, tid, x, sh', x');
    }
    t := MissTried(act, sh, tid, x, sh', x');
  }
}
