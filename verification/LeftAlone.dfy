/** Calls that nobody interferes with: a check-in checks in, a thread that unregisters leaves and a thread that
    registers joins, unless another thread keeps the world pointer locked. */
module LeftAlone {
  import opened AbaTypes
  import opened Protocol
  import opened Invariant
  import opened Entries
  import opened Storages
  import opened RealRefinement
  import opened Runs
  import opened Progress
  import opened GracePeriod
  import opened Walks
  import opened NeverStuck
  import opened Accounting
  import opened SoloFree

  /* ---- how far a call still has to go ---- */

  /** Everything the thread has read since its call is current. */
  ghost predicate Current(sh: Shared, x: Thread) {
    && CurOk(sh)
    && match x.pc
       case Idle => true
       case Marking(s, s0, upto, _) => s == Now(sh) && s0 == s && upto == W(sh).ts
       case Copying(s, upto, _) => s == Now(sh) && s.at.lock && upto == W(sh).ts
       case Looking(upto) => upto == W(sh).ts && sh.cur.bit
       case Walk(t, upto, s, ph, un) =>
         && upto == W(sh).ts && sh.cur.bit && (ph == Dec || t <= upto)
         && (un ==> s == Now(sh) && !s.at.lock)
       case UnregRead => x.last <= W(sh).ts || !sh.cur.lock
       case LockTry(s, upto) => s == Now(sh) && !s.at.lock && upto == W(sh).ts
       case Removing(s, upto) => s == Now(sh) && upto == W(sh).ts
       case Leaking(_) => x.last == 0
       case Cleaning(_, _) => x.last == 0
       case Reopening(_) => x.last == 0
       case _ => false
  }

  function Order(pc: Pc): nat {
    match pc
    case UnregRead => 9
    case Marking(_, _, _, _) => 8
    case Copying(_, _, _) => 7
    case Looking(_) => 6
    case Walk(_, _, _, _, _) => 5
    case LockTry(_, _) => 4
    case Removing(_, _) => 3
    case Cleaning(_, _) => 2
    case Leaking(_) => 1
    case Reopening(_) => 1
    case _ => 0
  }

  /** How many timestamps a walk has still to do. */
  function Togo(pc: Pc): nat { if pc.Walk? && pc.t <= pc.upto then pc.upto + 1 - pc.t else 0 }

  /** How far it is with the one it is at. */
  function PhaseOrder(pc: Pc): nat {
    if !pc.Walk? then 0
    else match pc.phase
      case Dec => 4
      case Peek => 3
      case Null(_) => 2
      case Clear(_) => 1
      case Run(_) => 0
  }

  function Batch(pc: Pc): nat { if pc.Walk? && pc.phase.Run? then |pc.phase.batch| else 0 }

  predicate Closer(pc: Pc, pc': Pc) {
    || Order(pc') < Order(pc)
    || (Order(pc') == Order(pc) && Togo(pc') < Togo(pc))
    || (Order(pc') == Order(pc) && Togo(pc') == Togo(pc) && PhaseOrder(pc') < PhaseOrder(pc))
    || (Order(pc') == Order(pc) && Togo(pc') == Togo(pc) && PhaseOrder(pc') == PhaseOrder(pc) && Batch(pc') < Batch(pc))
  }

  /** The thread is unregistering. */
  predicate Leaving(pc: Pc) {
    match pc
    case Marking(_, _, _, un) => un
    case Copying(_, _, un) => un
    case Walk(_, _, _, _, un) => un
    case UnregRead => true
    case LockTry(_, _) => true
    case Removing(_, _) => true
    case Leaking(_) => true
    case Cleaning(_, _) => true
    case Reopening(_) => true
    case _ => false
  }

  /** What the thread will be at the end of its call. */
  function Goal(sh: Shared, x: Thread): Thread {
    if x.pc.Idle? then x else Thread(if Leaving(x.pc) then 0 else W(sh).ts + 1, Idle, x.held)
  }

  /** How many threads will be registered then. */
  function Members(sh: Shared, x: Thread): int {
    W(sh).n - Once(Leaving(x.pc) && !(x.pc.Leaking? || x.pc.Cleaning? || x.pc.Reopening?))
  }

  /** A step within the call, which changes nothing of what is to come. A check-in has the bit set when it ends. */
  ghost predicate Goes(sh: Shared, x: Thread, sh': Shared, x': Thread) {
    && Current(sh', x') && Closer(x.pc, x'.pc)
    && Goal(sh', x') == Goal(sh, x) && Members(sh', x') == Members(sh, x)
    && (!Leaving(x.pc) ==> !Leaving(x'.pc) && (Reg(x) ==> Reg(x')) && (x'.pc.Idle? ==> sh'.cur.bit))
  }

  /* ---- one step ---- */

  lemma CheckinGoes(act: Act, sh: Shared, tid: Tid, x: Thread, sh': Shared, x': Thread)
    requires CheckinAct(act) && CheckinStep(act, sh, tid, x, sh', x') && Current(sh, x) && !x.pc.Idle?
    ensures Goes(sh, x, sh', x')
  {
  }

  lemma WalkGoes(act: Act, sh: Shared, tid: Tid, x: Thread, sh': Shared, x': Thread)
    requires WalkAct(act) && WalkingStep(act, sh, tid, x, sh', x') && Current(sh, x) && CurOk(sh')
    ensures Goes(sh, x, sh', x')
  {
  }

  lemma UnregisterGoes(act: Act, sh: Shared, tid: Tid, x: Thread, sh': Shared, x': Thread)
    requires UnregisterAct(act) && UnregisterStep(act, sh, tid, x, sh', x')
    requires Current(sh, x) && CurOk(sh') && !x.pc.Idle?
    ensures Goes(sh, x, sh', x')
  {
  }

  lemma StepGoes(act: Act, sh: Shared, tid: Tid, x: Thread, sh': Shared, x': Thread)
    requires ThreadStep(act, sh, tid, x, sh', x') && Current(sh, x) && CurOk(sh') && !x.pc.Idle?
    ensures Goes(sh, x, sh', x')
  {
    hide StepOf;
    if CheckinAct(act) {
      CheckinShape(act, sh, tid, x, sh', x');
      CheckinGoes(act, sh, tid, x, sh', x');
    } else if WalkAct(act) {
      WalkShape(act, sh, tid, x, sh', x');
      WalkGoes(act, sh, tid, x, sh', x');
    } else if UnregisterAct(act) {
      UnregisterShape(act, sh, tid, x, sh', x');
      UnregisterGoes(act, sh, tid, x, sh', x');
    } else if FreeAct(act) {
      FreeShape(act, sh, tid, x, sh', x');
      FreeFrom(act, sh, tid, x, sh', x');
    } else {
      RegisterShape(act, sh, tid, x, sh', x');
      RegisterFrom(act, sh, tid, x, sh', x');
    }
  }

  /* ---- the rest of a run ---- */

  lemma CurOkInRun(r: Run, i: nat)
    requires IsRun(r) && i <= |r.turns|
    ensures CurOk(r.At(i).sh)
  {
    hide StepAt, Joint, RealStep, StoreStep, StepOf, OpOf, NextMem;
    var ms := TracksExists(r);
    RunJoint(r, ms, i);
    MemHolds(r.At(i), MemAt(ms, i));
  }

  lemma NextAlone(r: Run, tid: Tid) returns (act: Act, c: Real)
    requires IsRun(r) && tid in Final(r).th && !Waits(Final(r).sh, Final(r).Th(tid))
    ensures RealStep(Final(r), tid, act, c) && CurOk(Final(r).sh) && Sourced(Final(r), tid, act)
    ensures IsRun(Extended(r, Turn(tid, act), c)) && Final(Extended(r, Turn(tid, act), c)) == c && CurOk(c.sh)
  {
    hide StepAt, Joint, RealStep, StoreStep, StepOf, OpOf, NextMem;
    NeverStuck.NeverStuck(r, |r.turns|, tid);
    act, c :| RealStep(Final(r), tid, act, c) && CurOk(Final(r).sh) && Sourced(Final(r), tid, act);
    ExtendedIsRun(r, Turn(tid, act), c);
    CurOkInRun(Extended(r, Turn(tid, act), c), |r.turns| + 1);
  }

  /** The second run goes on from the first with turns of the thread until its call has ended. */
  ghost predicate Finished(r: Run, e: Run, tid: Tid) {
    var c, x := Final(r), Final(r).Th(tid);
    && GoesOnWith(r, e, tid) && tid in Final(e).th && Final(e).Th(tid) == Goal(c.sh, x)
    && W(Final(e).sh).n == Members(c.sh, x)
    && (!Leaving(x.pc) && (x.pc.Idle? ==> c.sh.cur.bit) ==> Final(e).sh.cur.bit)
    && (!Leaving(x.pc) && Reg(x) ==> Registered(e, |r.turns|, |e.turns|, tid))
  }

  lemma FinishedNow(r: Run, tid: Tid)
    requires IsRun(r) && tid in Final(r).th && Final(r).Th(tid).pc.Idle?
    ensures Finished(r, r, tid)
  {
    hide StepAt, Joint, RealStep, StoreStep, StepOf, OpOf, NextMem;
    assert r.states[..|r.states|] == r.states && r.turns[..|r.turns|] == r.turns;
  }

  lemma RegisteredFrom(e: Run, n: nat, tid: Tid)
    requires tid in e.At(n).th && Reg(e.At(n).Th(tid)) && Registered(e, n + 1, |e.turns|, tid)
    ensures Registered(e, n, |e.turns|, tid)
  {
  }

  lemma FinishedLater(r: Run, tid: Tid, act: Act, c: Real, e: Run)
    requires IsRun(r) && tid in Final(r).th && CurOk(Final(r).sh) && Sourced(Final(r), tid, act)
    requires RealStep(Final(r), tid, act, c) && Goes(Final(r).sh, Final(r).Th(tid), c.sh, c.Th(tid))
    requires Final(Extended(r, Turn(tid, act), c)) == c && Finished(Extended(r, Turn(tid, act), c), e, tid)
    ensures Finished(r, e, tid) && |e.turns| > |r.turns| && e.TurnAt(|r.turns|).act == act
  {
    hide StepAt, Joint, RealStep, StoreStep, StepOf, OpOf, NextMem;
    GoesOnAfter(r, act, c, e, tid);
    var n := |r.turns|;
    assert e.At(n) == e.states[..|r.states|][n] == Final(r);
    if !Leaving(Final(r).Th(tid).pc) && Reg(Final(r).Th(tid)) { RegisteredFrom(e, n, tid); }
  }

  /** Left alone a call that was current goes on to its end. */
  lemma {:induction false} CallEnds(r: Run, tid: Tid) returns (e: Run)
    requires IsRun(r) && tid in Final(r).th && Current(Final(r).sh, Final(r).Th(tid))
    ensures Finished(r, e, tid) && (Final(r).Th(tid).pc.Idle? ==> e == r)
    decreases Order(Final(r).Th(tid).pc), Togo(Final(r).Th(tid).pc), PhaseOrder(Final(r).Th(tid).pc),
      Batch(Final(r).Th(tid).pc)
  {
    hide StepAt, Joint, StepOf, StoreStep, OpOf, NextMem;
    if Final(r).Th(tid).pc.Idle? {
      e := r;
      FinishedNow(r, tid);
    } else {
      var act, c := NextAlone(r, tid);
      StepGoes(act, Final(r).sh, tid, Final(r).Th(tid), c.sh, c.Th(tid));
      e := CallEnds(Extended(r, Turn(tid, act), c), tid);
      FinishedLater(r, tid, act, c, e);
    }
  }

  /* ---- the calls ---- */

  /** The first turn of a call does nothing but move the thread. */
  lemma CallTurn(r: Run, tid: Tid, act: Act, x': Thread) returns (c: Real)
    requires IsRun(r) && tid in Final(r).th && Final(r).Th(tid).pc == Idle
    requires act.CallCheckin? || act.CallUnregister? || act.CallRegister?
    requires ThreadStep(act, Final(r).sh, tid, Final(r).Th(tid), Final(r).sh, x')
    ensures c.sh == Final(r).sh && tid in c.th && c.Th(tid) == x'
    ensures RealStep(Final(r), tid, act, c) && CurOk(Final(r).sh) && Sourced(Final(r), tid, act)
    ensures IsRun(Extended(r, Turn(tid, act), c)) && Final(Extended(r, Turn(tid, act), c)) == c
  {
    hide StepOf;
    c := Final(r).(th := Final(r).th[tid := x']);
    CurOkInRun(r, |r.turns|);
    ExtendedIsRun(r, Turn(tid, act), c);
  }

  /** The run goes on with a check-in. The thread owes nothing any more up to the timestamp it has found. It has
      counted down every timestamp that it owed, once, and given them up in a turn with the bit set, or seen;
      and the bit is set when it returns. It returns at once exactly if it owed nothing. */
  ghost predicate CheckedIn(r: Run, e: Run, tid: Tid) {
    var n, x, ts := |r.turns|, Final(r).Th(tid), W(Final(r).sh).ts;
    && GoesOnWith(r, e, tid) && |e.turns| > n && e.TurnAt(n).act == CallCheckin
    && tid in Final(e).th && Final(e).Th(tid) == x.(last := if x.last > ts then x.last else ts + 1)
    && (|e.turns| == n + 1 <==> x.last > ts)
    && W(Final(e).sh).n == W(Final(r).sh).n
    && (x.last <= ts ==> Final(e).sh.cur.bit)
    && (forall t: nat :: Countdowns(e, n, |e.turns|, tid, t) == if x.last <= t <= ts then 1 else 0)
    && (forall t: nat :: x.last <= t <= ts ==> GaveUpIn(e, n, tid, t))
  }

  ghost predicate GaveUpIn(e: Run, n: nat, tid: Tid, t: nat) {
    exists i: nat :: n <= i < |e.turns| && GivesUp(e, i, tid, t) && Commits(e.TurnAt(i).act)
  }

  /** Every check-in, left alone in any state of any run, ends, and has checked in. */
  lemma CheckinFinishesAlone(r: Run, tid: Tid) returns (e: Run)
    requires IsRun(r) && tid in Final(r).th && Final(r).Th(tid).pc == Idle && Final(r).Th(tid).last > 0
    ensures CheckedIn(r, e, tid)
  {
    hide StepAt, Joint, RealStep, StoreStep, StepOf, OpOf, NextMem;
    CurOkInRun(r, |r.turns|);
    var sh, x := Final(r).sh, Final(r).Th(tid);
    var x' := if x.last > W(sh).ts then x else x.(pc := Marking(Now(sh), Now(sh), W(sh).ts, false));
    CheckinShape(CallCheckin, sh, tid, x, sh, x');
    var c := CallTurn(r, tid, CallCheckin, x');
    e := CallEnds(Extended(r, Turn(tid, CallCheckin), c), tid);
    CheckinFinishes(r, tid, c, e);
    CheckinCounts(r, e, tid);
  }

  /** What the end of the call says of its result. */
  ghost predicate CheckinEnded(r: Run, e: Run, tid: Tid) {
    var n, x, ts := |r.turns|, Final(r).Th(tid), W(Final(r).sh).ts;
    && GoesOnWith(r, e, tid) && |e.turns| > n && e.TurnAt(n).act == CallCheckin
    && tid in Final(e).th && Final(e).Th(tid) == x.(last := if x.last > ts then x.last else ts + 1)
    && (|e.turns| == n + 1 <==> x.last > ts)
    && W(Final(e).sh).n == W(Final(r).sh).n
    && (x.last <= ts ==> Final(e).sh.cur.bit)
    && Registered(e, n, |e.turns|, tid)
  }

  lemma CheckinFinishes(r: Run, tid: Tid, c: Real, e: Run)
    requires IsRun(r) && tid in Final(r).th && Final(r).Th(tid).pc == Idle && Final(r).Th(tid).last > 0
    requires RealStep(Final(r), tid, CallCheckin, c) && CurOk(Final(r).sh) && Sourced(Final(r), tid, CallCheckin)
    requires c.sh == Final(r).sh && DoCallCheckin(c.sh, Final(r).Th(tid), c.sh, c.Th(tid))
    requires Final(Extended(r, Turn(tid, CallCheckin), c)) == c
    requires Finished(Extended(r, Turn(tid, CallCheckin), c), e, tid)
    requires c.Th(tid).pc.Idle? ==> e == Extended(r, Turn(tid, CallCheckin), c)
    ensures CheckinEnded(r, e, tid)
  {
    hide StepAt, Joint, RealStep, StoreStep, StepOf, OpOf, NextMem;
    GoesOnAfter(r, CallCheckin, c, e, tid);
    assert e.At(|r.turns|) == e.states[..|r.states|][|r.turns|];
  }

  lemma CheckinCounts(r: Run, e: Run, tid: Tid)
    requires IsRun(r) && tid in Final(r).th && Final(r).Th(tid).pc == Idle && Final(r).Th(tid).last > 0
    requires CheckinEnded(r, e, tid)
    ensures CheckedIn(r, e, tid)
  {
    hide StepAt, Joint, RealStep, StoreStep, StepOf, OpOf, NextMem;
    var n, x, ts, m := |r.turns|, Final(r).Th(tid), W(Final(r).sh).ts, |e.turns|;
    var ms := TracksExists(e);
    assert e.At(n) == e.states[..|r.states|][n];
    forall t: nat ensures Countdowns(e, n, m, tid, t) == if x.last <= t <= ts then 1 else 0 {
      EachOnce(e, ms, n, m, tid, t);
    }
    forall t: nat | x.last <= t <= ts ensures GaveUpIn(e, n, tid, t) {
      var i := Crossing(e, ms, n, m, tid, t);
      NotLeft(e, i, tid);
    }
  }

  /** A thread that is registered after its turn has not left in it. */
  lemma NotLeft(e: Run, i: nat, tid: Tid)
    requires IsRun(e) && i < |e.turns| && e.TurnAt(i).tid == tid && Reg(e.At(i + 1).Th(tid))
    ensures !Leaves(e.TurnAt(i).act)
  {
    hide StepOf, StoreStep, OpOf, NextMem;
    assert StepAt(e, i);
    var act := e.TurnAt(i).act;
    if Leaves(act) {
      UnregisterShape(act, e.At(i).sh, tid, e.At(i).Th(tid), e.At(i + 1).sh, e.At(i + 1).Th(tid));
    }
  }

  /** A run that goes on with an unregister, after which the thread is no longer registered. */
  ghost predicate Unregistered(r: Run, e: Run, tid: Tid) {
    && GoesOnWith(r, e, tid) && |e.turns| > |r.turns| && e.TurnAt(|r.turns|).act == CallUnregister
    && tid in Final(e).th && Final(e).Th(tid) == Final(r).Th(tid).(last := 0)
    && W(Final(e).sh).n == W(Final(r).sh).n - 1
  }

  /** Every unregister, left alone in any state of any run, ends with the thread unregistered, unless the thread
      owes nothing and another thread has the world pointer locked. */
  lemma UnregisterFinishesAlone(r: Run, tid: Tid) returns (e: Run)
    requires IsRun(r) && tid in Final(r).th && Final(r).Th(tid).pc == Idle && Final(r).Th(tid).last > 0
    requires Final(r).Th(tid).last <= W(Final(r).sh).ts || !Final(r).sh.cur.lock
    ensures Unregistered(r, e, tid)
  {
    hide StepAt, Joint, RealStep, StoreStep, StepOf, OpOf, NextMem;
    CurOkInRun(r, |r.turns|);
    var sh, x := Final(r).sh, Final(r).Th(tid);
    UnregisterShape(CallUnregister, sh, tid, x, sh, x.(pc := UnregRead));
    var c := CallTurn(r, tid, CallUnregister, x.(pc := UnregRead));
    e := CallEnds(Extended(r, Turn(tid, CallUnregister), c), tid);
    GoesOnAfter(r, CallUnregister, c, e, tid);
  }

  /** The thread waits for another one to take off its lock. */
  ghost predicate Spins(sh: Shared, x: Thread, last: nat, cur: Ptr, ts: nat) {
    && sh.cur == cur && cur.lock && CurOk(sh) && W(sh).ts == ts < last == x.last
    && (x.pc.UnregRead? || (x.pc.LockTry? && x.pc.s.at.lock))
  }

  lemma UnregisterSpins(act: Act, sh: Shared, tid: Tid, x: Thread, sh': Shared, x': Thread, last: nat, cur: Ptr,
                        ts: nat)
    requires UnregisterAct(act) && UnregisterStep(act, sh, tid, x, sh', x') && Spins(sh, x, last, cur, ts)
    ensures Spins(sh', x', last, cur, ts)
  {
  }

  /** A thread in the middle of an operation other than a free goes on with it. */
  lemma StepStays(act: Act, sh: Shared, tid: Tid, x: Thread, sh': Shared, x': Thread)
    requires ThreadStep(act, sh, tid, x, sh', x')
    ensures x.pc.UnregRead? || x.pc.LockTry? ==> UnregisterAct(act) && UnregisterStep(act, sh, tid, x, sh', x')
    ensures x.pc.Locking? || x.pc.Registering? || x.pc.Disposing? ==>
      RegisterAct(act) && RegisterStep(act, sh, tid, x, sh', x')
  {
    hide StepOf;
    if CheckinAct(act) {
      CheckinShape(act, sh, tid, x, sh', x');
      CheckinFrom(act, sh, tid, x, sh', x');
    } else if WalkAct(act) {
      WalkShape(act, sh, tid, x, sh', x');
      WalkFrom(act, sh, tid, x, sh', x');
    } else if UnregisterAct(act) {
      UnregisterShape(act, sh, tid, x, sh', x');
      UnregisterFrom(act, sh, tid, x, sh', x');
    } else if FreeAct(act) {
      FreeShape(act, sh, tid, x, sh', x');
      FreeFrom(act, sh, tid, x, sh', x');
    } else {
      RegisterShape(act, sh, tid, x, sh', x');
      RegisterFrom(act, sh, tid, x, sh', x');
    }
  }

  /** In that case it never ends, however long it is left alone. */
  lemma {:induction false} UnregisterWaits(r: Run, e: Run, tid: Tid, j: nat)
    requires IsRun(r) && tid in Final(r).th && Final(r).Th(tid).pc == Idle
    requires Final(r).Th(tid).last > W(Final(r).sh).ts && Final(r).sh.cur.lock
    requires GoesOnWith(r, e, tid) && |r.turns| < j <= |e.turns| && e.TurnAt(|r.turns|).act == CallUnregister
    ensures Spins(e.At(j).sh, e.At(j).Th(tid), Final(r).Th(tid).last, Final(r).sh.cur, W(Final(r).sh).ts)
  {
    hide StepOf, StoreStep, OpOf, NextMem;
    var n := |r.turns|;
    assert StepAt(e, j - 1) && SourceTurn(e, j - 1);
    if j - 1 > n {
      UnregisterWaits(r, e, tid, j - 1);
      StepStays(e.TurnAt(j - 1).act, e.At(j - 1).sh, tid, e.At(j - 1).Th(tid), e.At(j).sh, e.At(j).Th(tid));
      UnregisterSpins(e.TurnAt(j - 1).act, e.At(j - 1).sh, tid, e.At(j - 1).Th(tid), e.At(j).sh, e.At(j).Th(tid),
        Final(r).Th(tid).last, Final(r).sh.cur, W(Final(r).sh).ts);
    } else {
      assert e.At(n) == e.states[..|r.states|][n];
      UnregisterShape(CallUnregister, e.At(n).sh, tid, e.At(n).Th(tid), e.At(j).sh, e.At(j).Th(tid));
    }
  }

  /* ---- register ---- */

  lemma GoesOnTrans(r: Run, e: Run, f: Run, tid: Tid)
    requires GoesOnWith(r, e, tid) && GoesOnWith(e, f, tid)
    ensures GoesOnWith(r, f, tid)
  {
    hide StepAt, Joint, RealStep, StoreStep, StepOf, OpOf, NextMem;
    assert f.states[..|r.states|] == f.states[..|e.states|][..|r.states|];
    assert f.turns[..|r.turns|] == f.turns[..|e.turns|][..|r.turns|];
    forall i | |r.turns| <= i < |f.turns| ensures f.TurnAt(i).tid == tid && SourceTurn(f, i) {
      if i < |e.turns| {
        assert f.TurnAt(i) == f.turns[..|e.turns|][i] == e.TurnAt(i);
        assert f.At(i) == f.states[..|e.states|][i] == e.At(i);
        assert SourceTurn(e, i);
      }
    }
  }

  /** One turn of the thread on its own. */
  lemma OneTurn(r: Run, tid: Tid) returns (act: Act, e: Run)
    requires IsRun(r) && tid in Final(r).th && !Waits(Final(r).sh, Final(r).Th(tid))
    ensures GoesOnWith(r, e, tid) && tid in Final(e).th && CurOk(Final(r).sh) && CurOk(Final(e).sh)
    ensures RealStep(Final(r), tid, act, Final(e)) && Sourced(Final(r), tid, act) && |e.turns| == |r.turns| + 1
  {
    hide StepOf, StoreStep, OpOf, NextMem;
    var c;
    act, c := NextAlone(r, tid);
    e := Extended(r, Turn(tid, act), c);
    GoesOnItself(e, tid);
    GoesOnAfter(r, act, c, e, tid);
  }

  lemma GoesOnItself(r: Run, tid: Tid)
    requires IsRun(r)
    ensures GoesOnWith(r, r, tid)
  {
    hide StepAt, Joint, RealStep, StoreStep, StepOf, OpOf, NextMem;
    assert r.states[..|r.states|] == r.states && r.turns[..|r.turns|] == r.turns;
  }

  /** With the world pointer unlocked, the thread locks it and swaps in a world that counts it. */
  lemma Joins(r: Run, tid: Tid) returns (e: Run)
    requires IsRun(r) && tid in Final(r).th && Final(r).Th(tid) == Thread(0, Locking, {}) && !Final(r).sh.cur.lock
    ensures GoesOnWith(r, e, tid) && tid in Final(e).th
    ensures Final(e).Th(tid) == Thread(W(Final(r).sh).ts + 1, Disposing, {Old(Final(r).sh.cur.w)})
    ensures W(Final(e).sh).n == W(Final(r).sh).n + 1
  {
    hide StepAt, Joint, StepOf, StoreStep, OpOf, NextMem;
    var act, r1 := OneTurn(r, tid);
    StepStays(act, Final(r).sh, tid, Final(r).Th(tid), Final(r1).sh, Final(r1).Th(tid));
    act, e := OneTurn(r1, tid);
    StepStays(act, Final(r1).sh, tid, Final(r1).Th(tid), Final(e).sh, Final(e).Th(tid));
    GoesOnTrans(r, r1, e, tid);
  }

  /** A free of the only thread that is registered does not wait for anybody: in any state of any run its second
      turn runs the callback, or gives the world back, and ends it. */
  lemma FreesAtOnce(r: Run, tid: Tid, it: Item, ret: Ret) returns (e: Run)
    requires IsRun(r) && tid in Final(r).th && Final(r).Th(tid).pc == Free(Reading(it), ret) && W(Final(r).sh).n <= 1
    ensures GoesOnWith(r, e, tid) && |e.turns| == |r.turns| + 2 && tid in Final(e).th
    ensures Final(e).Th(tid) == Final(r).Th(tid).(pc := After(ret, Final(r).Th(tid).last))
    ensures if it.User? then PlaceIs(Final(e).sh, it, Ran) else it.a !in Final(e).sh.heap
  {
    var act, r1 := OneTurn(r, tid);
    FreeStepIs(Final(r), tid, act, Final(r1));
    act, e := OneTurn(r1, tid);
    FreeStepIs(Final(r1), tid, act, Final(e));
    GoesOnTrans(r, r1, e, tid);
  }

  /** A free that has not read the world pointer yet ends, whether other threads are registered or not. */
  lemma FreeEnds(r: Run, tid: Tid, it: Item) returns (e: Run)
    requires IsRun(r) && tid in Final(r).th && Final(r).Th(tid).pc == Free(Reading(it), ToChain)
    ensures GoesOnWith(r, e, tid) && tid in Final(e).th && Final(e).Th(tid) == Final(r).Th(tid).(pc := Disposing)
  {
    hide StepAt, Joint, RealStep, StoreStep, StepOf, OpOf, NextMem;
    CurOkInRun(r, |r.turns|);
    if W(Final(r).sh).n >= 2 {
      e := FreeFinishesAlone(r, tid, it);
    } else {
      e := FreesAtOnce(r, tid, it, ToChain);
    }
  }

  lemma FreeStepIs(c: Real, tid: Tid, act: Act, c': Real)
    requires RealStep(c, tid, act, c') && CurOk(c.sh) && Sourced(c, tid, act)
    requires c.Th(tid).pc.Free? && (c.Th(tid).pc.stage.Immediate? || (c.Th(tid).pc.stage.Reading? && W(c.sh).n <= 1))
    ensures if c.Th(tid).pc.stage.Reading? then
              c'.Th(tid) == c.Th(tid).(pc := Free(Immediate(c.Th(tid).pc.stage.it), c.Th(tid).pc.ret))
            else
              && c'.Th(tid) == c.Th(tid).(pc := After(c.Th(tid).pc.ret, c.Th(tid).last))
              && c'.sh == Finish(c.sh, c.Th(tid).pc.stage.it)
  {
    hide StepOf, StoreStep, OpOf, NextMem;
    ChoiceIsFree(c.sh, c.ss, c.Th(tid).pc.stage, act);
    FreeShape(act, c.sh, tid, c.Th(tid), c'.sh, c'.Th(tid));
  }

  /** The world that was swapped out is freed. */
  lemma Disposes(r: Run, tid: Tid, last: nat, it: Item) returns (e: Run)
    requires IsRun(r) && tid in Final(r).th && Final(r).Th(tid) == Thread(last, Disposing, {it})
    ensures GoesOnWith(r, e, tid) && tid in Final(e).th && Final(e).Th(tid) == Thread(last, Idle, {})
  {
    hide StepAt, Joint, StepOf, StoreStep, OpOf, NextMem;
    var act, r1 := OneTurn(r, tid);
    StepStays(act, Final(r).sh, tid, Final(r).Th(tid), Final(r1).sh, Final(r1).Th(tid));
    assert {it} - {it} == {};
    var r2 := FreeEnds(r1, tid, it);
    GoesOnTrans(r, r1, r2, tid);
    act, e := OneTurn(r2, tid);
    StepStays(act, Final(r2).sh, tid, Final(r2).Th(tid), Final(e).sh, Final(e).Th(tid));
    GoesOnTrans(r, r2, e, tid);
  }

  /** Every register, left alone in any state of any run with the world pointer unlocked, ends: the thread is
      registered, and owes nothing up to the timestamp it has found. */
  lemma RegisterFinishesAlone(r: Run, tid: Tid) returns (e: Run)
    requires IsRun(r) && tid in Final(r).th && Final(r).Th(tid).pc == Idle && Final(r).Th(tid).last == 0
    requires !Final(r).sh.cur.lock
    ensures GoesOnWith(r, e, tid) && |e.turns| > |r.turns| && e.TurnAt(|r.turns|).act == CallRegister
    ensures tid in Final(e).th && Final(e).Th(tid) == Thread(W(Final(r).sh).ts + 1, Idle, {})
  {
    hide StepAt, Joint, RealStep, StoreStep, StepOf, OpOf, NextMem;
    var ms := TracksExists(r);
    RunInv(r, ms, |r.turns|);
    LocalHolds(Meant(r, ms, |r.turns|), tid);
    var sh, x := Final(r).sh, Final(r).Th(tid);
    RegisterShape(CallRegister, sh, tid, x, sh, x.(pc := Locking));
    var c := CallTurn(r, tid, CallRegister, x.(pc := Locking));
    var r1 := Extended(r, Turn(tid, CallRegister), c);
    var r2 := Joins(r1, tid);
    e := Disposes(r2, tid, W(sh).ts + 1, Old(sh.cur.w));
    GoesOnTrans(r1, r2, e, tid);
    GoesOnAfter(r, CallRegister, c, e, tid);
  }
}
