/** Draining the list of a timestamp: the last thread to check in takes all of it, and nothing is put
    there afterwards. */
module Snipping {
  import opened AbaTypes
  import opened Protocol
  import opened Invariant
  import opened Entries
  import opened Machine
  import opened Counting
  import opened Storages
  import opened Refinement
  import opened Coupling
  import opened RealRefinement
  import opened Runs
  import opened Safety
  import opened Accounting
  import opened Progress
  import opened Transitions

  /* ---- the last one sees zero ---- */

  lemma DecrementIs(act: Act, sh: Shared, tid: Tid, x: Thread, sh': Shared, x': Thread)
    requires ThreadStep(act, sh, tid, x, sh', x') && act.Decrement?
    ensures x.pc.Walk? && x.pc.phase == Dec && x.pc.t <= x.pc.upto
    ensures OpOf(act, sh, x) == FetchSub(x.pc.s.world.win, x.pc.t, act.prev)
  {
    hide StepOf;
    WalkShape(act, sh, tid, x, sh', x');
  }

  lemma LastDecrement(s: State, tid: Tid, t: nat)
    requires Inv(s) && tid in s.th && s.Th(tid).pc.Walk? && s.Th(tid).pc.phase == Dec
    requires t == s.Th(tid).pc.t && t <= s.Th(tid).pc.upto
    ensures t in s.mem.entries && (s.mem.entries[t].rc == 0 <==> Owe(s.th, t) == {tid})
  {
    hide StepOf, StoreStep, OpOf, NextMem;
    assert ThreadOk(s.sh, tid, s.Th(tid));
    WalkerOwes(s.sh, tid, s.Th(tid));
    ZeroMeansLast(s.th, s.mem, W(s.sh).ts, tid, t);
  }

  lemma PrevIs(s: State, tid: Tid, act: Act, s': State, t: nat)
    requires Step(s, tid, act, s') && act.Decrement? && s.Th(tid).pc.Walk? && t == s.Th(tid).pc.t
    ensures t in s.mem.entries && s.mem.entries[t].rc == act.prev
  {
    hide StepOf;
  }

  /** A decrement finds a count of zero exactly when the thread is the last that owes the timestamp, also
      when decrements have come before the number of threads was added. */
  lemma ZeroIsLast(r: Run, i: nat)
    requires IsRun(r) && i < |r.turns| && r.TurnAt(i).act.Decrement?
    ensures r.TurnAt(i).tid in r.At(i).th && r.At(i).Th(r.TurnAt(i).tid).pc.Walk?
    ensures r.TurnAt(i).act.prev == 0 <==> Owe(r.At(i).th, r.At(i).Th(r.TurnAt(i).tid).pc.t) == {r.TurnAt(i).tid}
  {
    hide StepOf, StoreStep;
    var ms := TracksExists(r);
    assert StepAt(r, i);
    var tid, act := r.TurnAt(i).tid, r.TurnAt(i).act;
    DecrementIs(act, r.At(i).sh, tid, r.At(i).Th(tid), r.At(i + 1).sh, r.At(i + 1).Th(tid));
    RunInv(r, ms, i);
    RunStep(r, ms, i);
    LastDecrement(Meant(r, ms, i), tid, r.At(i).Th(tid).pc.t);
    PrevIs(Meant(r, ms, i), tid, act, Meant(r, ms, i + 1), r.At(i).Th(tid).pc.t);
  }

  /* ---- the list is taken whole ---- */

  lemma WipeIs(act: Act, sh: Shared, tid: Tid, x: Thread, sh': Shared, x': Thread)
    requires ThreadStep(act, sh, tid, x, sh', x') && act.WipeList?
    ensures x.pc.Walk? && x.pc.phase.Null?
  {
    hide StepOf;
    WalkShape(act, sh, tid, x, sh', x');
  }

  lemma BatchIs(s: State, tid: Tid)
    requires Inv(s) && tid in s.th && s.Th(tid).pc.Walk? && s.Th(tid).pc.phase.Null?
    ensures var x := s.Th(tid);
      x.pc.t in s.mem.entries && s.mem.entries[x.pc.t].list == x.pc.phase.batch && Owe(s.th, x.pc.t) == {}
  {
    assert HandOk(s.th, s.mem, tid, s.Th(tid));
  }

  lemma NullReaches(c: Real, m: Mem, tid: Tid)
    requires Joint(c, m) && tid in c.th && c.Th(tid).pc.Walk? && c.Th(tid).pc.phase.Null?
    ensures CurOk(c.sh) && Reaching(m, W(c.sh), c.Th(tid).pc.s.world.win, c.Th(tid).pc.t)
  {
    WalkReaches(Abstract(c, m), tid);
  }

  lemma WipeFacts(c: Real, m: Mem, tid: Tid)
    requires Joint(c, m) && tid in c.th && c.Th(tid).pc.Walk? && c.Th(tid).pc.phase.Null?
    ensures var x := c.Th(tid);
      Reaches(c.ss, x.pc.s.world.win, x.pc.t)
      && SlotAt(c.ss, x.pc.s.world.win, x.pc.t).list == multiset(x.pc.phase.batch)
  {
    BatchIs(Abstract(c, m), tid);
    MemHolds(c, m);
    NullReaches(c, m, tid);
    SlotIs(m, c.ss, W(c.sh), c.Th(tid).pc.s.world.win, c.Th(tid).pc.t);
  }

  lemma SlotIs(m: Mem, ss: Stores, w: World, v: Window, t: nat)
    requires Matches(m, ss, w) && Reaching(m, w, v, t)
    ensures Reaches(ss, v, t) && SlotAt(ss, v, t).list == multiset(m.entries[t].list)
  {
    Addressable(m, ss, w, v, t);
  }

  /** Reading the list and overwriting it are two steps; what is overwritten is still what was read. */
  lemma SnipTakesAll(r: Run, i: nat)
    requires IsRun(r) && i < |r.turns| && r.TurnAt(i).act.WipeList? && r.TurnAt(i).tid in r.At(i).th
    ensures var x := r.At(i).Th(r.TurnAt(i).tid);
      && x.pc.Walk? && x.pc.phase.Null?
      && Reaches(r.At(i).ss, x.pc.s.world.win, x.pc.t)
      && SlotAt(r.At(i).ss, x.pc.s.world.win, x.pc.t).list == multiset(x.pc.phase.batch)
  {
    hide StepOf, StoreStep, OpOf, NextMem;
    var ms := TracksExists(r);
    assert StepAt(r, i);
    var tid := r.TurnAt(i).tid;
    WipeIs(r.TurnAt(i).act, r.At(i).sh, tid, r.At(i).Th(tid), r.At(i + 1).sh, r.At(i + 1).Th(tid));
    RunJoint(r, ms, i);
    WipeFacts(r.At(i), MemAt(ms, i), tid);
  }

  /* ---- and stays empty ---- */

  /** Timestamp t exists and nobody owes it. */
  ghost predicate Drained(c: Real, t: nat) {
    CurOk(c.sh) && 1 <= t <= W(c.sh).ts && Owe(c.th, t) == {}
  }

  lemma NewcomerOwesLater(s: State, tid: Tid, act: Act, s': State)
    requires Inv(s) && Step(s, tid, act, s') && act.RegisterOk?
    ensures CurOk(s.sh) && s.Th(tid).pc.Registering? && s.Th(tid).pc.s.world.ts == W(s.sh).ts
  {
    hide StepOf;
    assert ThreadOk(s.sh, tid, s.Th(tid));
    RegisterShape(act, s.sh, tid, s.Th(tid), s'.sh, s'.Th(tid));
    assert s.Th(tid).pc.s in Seens(s.Th(tid)) && SeenOk(s.sh, s.Th(tid).pc.s);
  }

  lemma OweStaysEmpty(th: map<Tid, Thread>, tid: Tid, act: Act, x': Thread, t: nat)
    requires tid in th && Owe(th, t) == {} && Advance(act, th[tid], x')
    requires act.RegisterOk? && th[tid].pc.Registering? ==> th[tid].pc.s.world.ts >= t
    ensures Owe(th[tid := x'], t) == {}
  {
    forall j | j in th ensures !Owes(th[j], t) { assert j !in Owe(th, t); }
    assert !Owes(x', t);
  }

  lemma DrainedNext(r: Run, ms: seq<Mem>, i: nat, t: nat)
    requires IsRun(r) && Tracks(r, ms) && i < |r.turns| && Drained(r.At(i), t) && !r.TurnAt(i).act.RemoveLast?
    ensures Drained(r.At(i + 1), t)
  {
    hide StepOf, StoreStep;
    EveryEdgeInTable(r, i);
    assert StepAt(r, i);
    var tid, act := r.TurnAt(i).tid, r.TurnAt(i).act;
    RunJoint(r, ms, i);
    LocalIs(r.At(i), MemAt(ms, i), tid);
    StepAdvance(act, r.At(i).sh, tid, r.At(i).Th(tid), r.At(i + 1).sh, r.At(i + 1).Th(tid));
    if act.RegisterOk? {
      RunInv(r, ms, i);
      RunStep(r, ms, i);
      NewcomerOwesLater(Meant(r, ms, i), tid, act, Meant(r, ms, i + 1));
    }
    OweStaysEmpty(r.At(i).th, tid, act, r.At(i + 1).Th(tid), t);
  }

  lemma {:induction false} DrainedStays(r: Run, ms: seq<Mem>, i: nat, j: nat, t: nat)
    requires IsRun(r) && Tracks(r, ms) && i <= j <= |r.turns| && Drained(r.At(i), t)
    requires forall m :: i <= m < j ==> !r.TurnAt(m).act.RemoveLast?
    ensures Drained(r.At(j), t)
  {
    hide *;
    if i < j {
      DrainedStays(r, ms, i, j - 1, t);
      DrainedNext(r, ms, j - 1, t);
    }
  }

  predicate Appends(act: Act) { act.FreeAppend? || act.FreeAppendOld? }

  lemma AppendIs(act: Act, sh: Shared, tid: Tid, x: Thread, sh': Shared, x': Thread)
    requires ThreadStep(act, sh, tid, x, sh', x') && Appends(act)
    ensures x.pc.Free? && (x.pc.stage.Appending? || x.pc.stage.Trailing?)
  {
    hide StepOf;
    FreeShape(act, sh, tid, x, sh', x');
  }

  lemma AppenderOwes(s: State, tid: Tid)
    requires Inv(s) && tid in s.th && s.Th(tid).pc.Free?
    requires s.Th(tid).pc.stage.Appending? || s.Th(tid).pc.stage.Trailing?
    ensures tid in Owe(s.th, s.Th(tid).pc.stage.s.world.ts)
  {
    hide StepOf, StoreStep, OpOf, NextMem;
    assert ThreadOk(s.sh, tid, s.Th(tid));
    AppendingOwes(s.sh, tid, s.Th(tid));
  }

  lemma ClearFacts(s: State, tid: Tid)
    requires Inv(s) && tid in s.th && s.Th(tid).pc.Walk? && s.Th(tid).pc.phase.Clear?
    ensures CurOk(s.sh) && 1 <= s.Th(tid).pc.t <= W(s.sh).ts && Owe(s.th, s.Th(tid).pc.t) == {}
  {
    assert HandOk(s.th, s.mem, tid, s.Th(tid));
  }

  lemma WipeDrains(c: Real, tid: Tid, act: Act, c': Real, m': Mem)
    requires RealStep(c, tid, act, c') && act.WipeList? && Inv(Abstract(c', m'))
    ensures c.Th(tid).pc.Walk? && Drained(c', c.Th(tid).pc.t)
  {
    hide StepAt, Joint, Inv, StepOf, StoreStep, OpOf, NextMem;
    WipeClears(act, c.sh, tid, c.Th(tid), c'.sh, c'.Th(tid));
    ClearFacts(Abstract(c', m'), tid);
  }

  lemma WipeClears(act: Act, sh: Shared, tid: Tid, x: Thread, sh': Shared, x': Thread)
    requires ThreadStep(act, sh, tid, x, sh', x') && act.WipeList?
    ensures x.pc.Walk? && x'.pc.Walk? && x'.pc.t == x.pc.t && x'.pc.phase.Clear?
  {
    hide StepOf;
    WalkShape(act, sh, tid, x, sh', x');
  }

  /** After the list of timestamp t has been taken off nothing is ever appended for t again, unless the
      last thread left in between and time started over. */
  lemma NoLateAppend(r: Run, i: nat, j: nat)
    requires IsRun(r) && i < j < |r.turns| && r.TurnAt(i).act.WipeList? && Appends(r.TurnAt(j).act)
    requires forall m :: i < m < j ==> !r.TurnAt(m).act.RemoveLast?
    ensures r.TurnAt(i).tid in r.At(i).th && r.TurnAt(j).tid in r.At(j).th
    ensures var x, y := r.At(i).Th(r.TurnAt(i).tid), r.At(j).Th(r.TurnAt(j).tid);
      && x.pc.Walk? && y.pc.Free? && (y.pc.stage.Appending? || y.pc.stage.Trailing?)
      && y.pc.stage.s.world.ts != x.pc.t
  {
    hide StepOf, StoreStep;
    var ms := TracksExists(r);
    assert StepAt(r, i) && StepAt(r, j);
    RunInv(r, ms, i + 1);
    WipeDrains(r.At(i), r.TurnAt(i).tid, r.TurnAt(i).act, r.At(i + 1), MemAt(ms, i + 1));
    DrainedStays(r, ms, i + 1, j, r.At(i).Th(r.TurnAt(i).tid).pc.t);
    AppendTurn(r, ms, j);
  }

  lemma AppendTurn(r: Run, ms: seq<Mem>, j: nat)
    requires IsRun(r) && Tracks(r, ms) && j < |r.turns| && Appends(r.TurnAt(j).act)
    ensures r.TurnAt(j).tid in r.At(j).th
    ensures var y := r.At(j).Th(r.TurnAt(j).tid);
      y.pc.Free? && (y.pc.stage.Appending? || y.pc.stage.Trailing?) && Owe(r.At(j).th, y.pc.stage.s.world.ts) != {}
  {
    hide StepOf, StoreStep;
    assert StepAt(r, j);
    var tid := r.TurnAt(j).tid;
    AppendIs(r.TurnAt(j).act, r.At(j).sh, tid, r.At(j).Th(tid), r.At(j + 1).sh, r.At(j + 1).Th(tid));
    RunInv(r, ms, j);
    AppenderOwes(Meant(r, ms, j), tid);
  }
}
