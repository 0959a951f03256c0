/** A free that is left alone finishes: from every state of every run it swaps in at most one new world and
    then appends. */
module SoloFree {
  import opened AbaTypes
  import opened Protocol
  import opened Invariant
  import opened Entries
  import opened Machine
  import opened Windows
  import opened Storages
  import opened CouplingSteps
  import opened ReuseLoop
  import opened MakingRoom
  import opened RealRefinement
  import opened Runs
  import opened Whereabouts
  import opened NeverStuck
  import opened Accounting

  /* ---- how far a free still has to go ---- */

  /** The plan will be refused by its own world: nothing will have been reused, or there is no free slot. */
  ghost predicate Doomed(w: World, plan: Plan, idle: iset<Sid>) {
    match plan
    case Rotating(_, _, _, _) => LoopShape(w, plan) ==> Rotated(w, plan, idle).reused == 0
    case Ready(_, _) => false
    case Fresh(_) => Failed(w, plan)
  }

  /** The free has to read the world pointer again: its world is no longer current, or its plan is doomed. */
  ghost predicate Outdated(cur: Ptr, idle: iset<Sid>, st: Stage) {
    match st
    case Trying(_, s) => s.at.bit && cur != s.at
    case Planning(_, s, plan) => cur != s.at || Doomed(s.world, plan, idle)
    case _ => false
  }

  ghost function Level(cur: Ptr, idle: iset<Sid>, st: Stage): nat {
    match st
    case Reading(_) => 6
    case Trying(_, s) => if !s.at.bit then 1 else if Outdated(cur, idle, st) then 5 else 3
    case Planning(_, s, plan) => if Outdated(cur, idle, st) then 4 else 2
    case Adding(_, _, _) => 1
    case Appending(_, _, _) => 0
    case Trailing(_, _) => 0
    case Immediate(_) => 0
  }

  /** How many steps there are on a level. */
  function Left(st: Stage): nat {
    match st
    case Planning(_, s, Rotating(i, _, _, _)) => if i <= CurrentRow(s.world) then CurrentRow(s.world) - i + 1 else 0
    case Appending(_, _, spare) => |spare| + 1
    case Trailing(_, spare) => |spare|
    case _ => 0
  }

  /** How many worlds the free still has to swap in. */
  predicate Swapping(cur: Ptr, st: Stage) {
    cur.bit && (st.Reading? || st.Planning? || (st.Trying? && st.s.at.bit))
  }

  function Once(b: bool): nat { if b then 1 else 0 }

  /** A step brings the free nearer to its end, and its swaps and repeated reads are accounted for. */
  ghost predicate Nearer(act: Act, cur: Ptr, idle: iset<Sid>, st: Stage, cur': Ptr, idle': iset<Sid>, st': Stage) {
    && (Level(cur', idle', st') < Level(cur, idle, st)
        || (Level(cur', idle', st') == Level(cur, idle, st) && Left(st') < Left(st)))
    && Once(Swapping(cur, st)) == Once(act.FreeSwap?) + Once(Swapping(cur', st'))
    && Once(Outdated(cur, idle, st)) == Once(act.FreeRetry?) + Once(Outdated(cur', idle', st'))
  }

  /* ---- one step ---- */

  /** What a free knows of its world. */
  ghost predicate Knows(sh: Shared, st: Stage) {
    && CurOk(sh) && W(sh).n >= 2
    && ((st.Trying? || st.Planning?) && sh.cur == st.s.at ==> st.s.world == W(sh))
    && (st.Trying? || st.Planning? ==> WorldWinOk(st.s.world))
    && (st.Planning? ==> st.s.at.bit && PlanShape(st.s.world, st.plan))
  }

  /** The step stays within the free. */
  ghost predicate FreeTurn(act: Act, sh: Shared, ss: Stores, tid: Tid, x: Thread, sh': Shared, x': Thread,
      ss': Stores)
  {
    && FreeAct(act) && FreeStep(act, sh, tid, x, sh', x') && StoreStep(ss, OpOf(act, sh, x), ss')
    && x.pc.Free? && x'.pc.Free? && Knows(sh, x.pc.stage) && FreeChoice(sh, ss, x.pc.stage, act)
  }

  lemma ReadNearer(act: Act, sh: Shared, ss: Stores, tid: Tid, x: Thread, sh': Shared, x': Thread, ss': Stores)
    requires FreeTurn(act, sh, ss, tid, x, sh', x', ss') && (act.FreeRead? || act.FreeRetry?)
    ensures Nearer(act, sh.cur, Idlers(ss), x.pc.stage, sh'.cur, Idlers(ss'), x'.pc.stage)
  {
    hide StepAt, Joint, RealStep, Step, StoreStep, StepOf, OpOf, NextMem;
    var st := x.pc.stage;
    if st.Planning? && Failed(st.s.world, st.plan) { FailedIsDoomed(st.s.world, st.plan, Idlers(ss)); }
  }

  lemma FailedIsDoomed(w: World, plan: Plan, idle: iset<Sid>)
    requires Failed(w, plan)
    ensures Doomed(w, plan, idle)
  {
  }

  /** The way a free chooses for the current world is never refused. */
  lemma ChoiceNotDoomed(w: World, idle: iset<Sid>)
    requires WorldWinOk(w)
    ensures !Doomed(w, Choice(w, idle), idle)
  {
    if w.ts > 0 { CountMeansRoom(w, idle); }
  }

  /** Nor does it change on the way. */
  lemma NextDoomed(w: World, idle: iset<Sid>, st: Stage)
    requires st.Planning? && CanPlan(st) && st.s.world == w
    ensures Doomed(w, NextPlan(idle, st), idle) == Doomed(w, st.plan, idle)
  {
    assert LoopShape(w, st.plan);
  }

  lemma ProbeKeeps(act: Act, sh: Shared, ss: Stores, x: Thread, ss': Stores)
    requires act.FreePlan? && StoreStep(ss, OpOf(act, sh, x), ss') && !act.op.MarkUse?
    ensures Idlers(ss') == Idlers(ss)
  {
  }

  lemma PlanNearer(act: Act, sh: Shared, ss: Stores, tid: Tid, x: Thread, sh': Shared, x': Thread, ss': Stores)
    requires FreeTurn(act, sh, ss, tid, x, sh', x', ss') && act.FreePlan? && RoomStep(act, x)
    ensures Nearer(act, sh.cur, Idlers(ss), x.pc.stage, sh'.cur, Idlers(ss'), x'.pc.stage)
  {
    hide StepAt, Joint, RealStep, Step, StoreStep, StepOf, OpOf, NextMem;
    var st, w, idle := x.pc.stage, x.pc.stage.s.world, Idlers(ss);
    if st.Trying? {
      ChoiceNotDoomed(w, idle);
    } else {
      NextDoomed(w, idle, st);
    }
    if act.plan.Rotating? { ProbeKeeps(act, sh, ss, x, ss'); }
  }

  lemma SwapNearer(act: Act, sh: Shared, ss: Stores, tid: Tid, x: Thread, sh': Shared, x': Thread, ss': Stores)
    requires FreeTurn(act, sh, ss, tid, x, sh', x', ss') && act.FreeSwap?
    ensures Nearer(act, sh.cur, Idlers(ss), x.pc.stage, sh'.cur, Idlers(ss'), x'.pc.stage)
  {
    hide StepAt, Joint, RealStep, Step, StoreStep, StepOf, OpOf, NextMem;
  }

  lemma RestNearer(act: Act, sh: Shared, ss: Stores, tid: Tid, x: Thread, sh': Shared, x': Thread, ss': Stores)
    requires FreeTurn(act, sh, ss, tid, x, sh', x', ss')
    requires act.FreeAdd? || act.FreeEnter? || act.FreeAppend? || act.FreeAppendOld?
    ensures Nearer(act, sh.cur, Idlers(ss), x.pc.stage, sh'.cur, Idlers(ss'), x'.pc.stage)
  {
    hide StepAt, Joint, RealStep, Step, StoreStep, StepOf, OpOf, NextMem;
  }

  lemma FreeNearer(act: Act, sh: Shared, ss: Stores, tid: Tid, x: Thread, sh': Shared, x': Thread, ss': Stores)
    requires FreeTurn(act, sh, ss, tid, x, sh', x', ss') && RoomStep(act, x) && GoesOn(x.pc.stage)
    ensures Nearer(act, sh.cur, Idlers(ss), x.pc.stage, sh'.cur, Idlers(ss'), x'.pc.stage)
  {
    hide StepAt, Joint, RealStep, Step, StoreStep, StepOf, OpOf, NextMem;
    if act.FreeRead? || act.FreeRetry? {
      ReadNearer(act, sh, ss, tid, x, sh', x', ss');
    } else if act.FreePlan? {
      PlanNearer(act, sh, ss, tid, x, sh', x', ss');
    } else if act.FreeSwap? {
      SwapNearer(act, sh, ss, tid, x, sh', x', ss');
    } else {
      RestNearer(act, sh, ss, tid, x, sh', x', ss');
    }
  }

  /** The free is not yet at its last step, and not about to free at once. */
  predicate GoesOn(st: Stage) { !st.Immediate? && !(st.Trailing? && st.spare == {}) }

  /** The free still has the item, or has put it on the list of its world. */
  predicate Has(sh: Shared, st: Stage, it: Item) {
    match st
    case Immediate(_) => false
    case Trailing(s, _) => PlaceIs(sh, it, Listed(s.world.ts))
    case _ => st.it == it
  }

  lemma StaysFree(act: Act, sh: Shared, ss: Stores, tid: Tid, x: Thread, sh': Shared, x': Thread, it: Item)
    requires FreeAct(act) && FreeStep(act, sh, tid, x, sh', x') && x.pc.Free? && GoesOn(x.pc.stage)
    requires CurOk(sh) && W(sh).n >= 2 && FreeChoice(sh, ss, x.pc.stage, act) && Has(sh, x.pc.stage, it)
    ensures x'.pc.Free? && x' == x.(pc := Free(x'.pc.stage, x.pc.ret)) && Has(sh', x'.pc.stage, it)
  {
  }

  lemma SwapKeepsCount(act: Act, sh: Shared, tid: Tid, x: Thread, sh': Shared, x': Thread)
    requires FreeAct(act) && FreeStep(act, sh, tid, x, sh', x') && CurOk(sh) && CurOk(sh') && x.pc.Free?
    requires act.FreeSwap? ==> Knows(sh, x.pc.stage)
    ensures W(sh').n == W(sh).n
  {
    if !act.FreeSwap? { FreeShrinks(act, sh, tid, x, sh', x'); }
  }

  /* ---- in a run ---- */

  /** The thread is freeing the item, and others are registered. */
  ghost predicate Freeing(c: Real, tid: Tid, it: Item) {
    && tid in c.th && c.Th(tid).pc.Free? && Has(c.sh, c.Th(tid).pc.stage, it)
    && CurOk(c.sh) && W(c.sh).n >= 2
  }

  lemma KnowsHolds(c: Real, m: Mem, tid: Tid)
    requires Joint(c, m) && tid in c.th && c.Th(tid).pc.Free? && CurOk(c.sh) && W(c.sh).n >= 2
    ensures Knows(c.sh, c.Th(tid).pc.stage)
  {
    RoomHolds(c, m, tid);
    ThreadHolds(Abstract(c, m), tid);
    if c.Th(tid).pc.stage.Trying? || c.Th(tid).pc.stage.Planning? { SeenIsCurrent(c.sh, tid, c.Th(tid)); }
  }

  lemma SeenIsCurrent(sh: Shared, tid: Tid, x: Thread)
    requires ThreadOk(sh, tid, x) && x.pc.Free? && (x.pc.stage.Trying? || x.pc.stage.Planning?)
    ensures sh.cur == x.pc.stage.s.at ==> x.pc.stage.s.world == W(sh)
    ensures x.pc.stage.Planning? ==> x.pc.stage.s.at.bit
  {
    assert x.pc.stage.s in Seens(x) && SeenOk(sh, x.pc.stage.s);
  }

  lemma ChoiceIsFree(sh: Shared, ss: Stores, st: Stage, act: Act)
    requires CurOk(sh) && FreeChoice(sh, ss, st, act)
    ensures FreeAct(act)
  {
  }

  lemma TurnNearer(c: Real, m: Mem, tid: Tid, act: Act, c': Real, it: Item)
    requires Joint(c, m) && RealStep(c, tid, act, c') && Freeing(c, tid, it) && Sourced(c, tid, act) && CurOk(c'.sh)
    requires GoesOn(c.Th(tid).pc.stage)
    ensures Freeing(c', tid, it) && c'.Th(tid) == c.Th(tid).(pc := Free(c'.Th(tid).pc.stage, c.Th(tid).pc.ret))
    ensures Nearer(act, c.sh.cur, Idlers(c.ss), c.Th(tid).pc.stage, c'.sh.cur, Idlers(c'.ss), c'.Th(tid).pc.stage)
  {
    hide StepAt, Joint, Inv, StepOf, StoreStep, OpOf, NextMem;
    var x, x' := c.Th(tid), c'.Th(tid);
    KnowsHolds(c, m, tid);
    ChoiceIsFree(c.sh, c.ss, x.pc.stage, act);
    FreeShape(act, c.sh, tid, x, c'.sh, x');
    StaysFree(act, c.sh, c.ss, tid, x, c'.sh, x', it);
    SwapKeepsCount(act, c.sh, tid, x, c'.sh, x');
    FreeNearer(act, c.sh, c.ss, tid, x, c'.sh, x', c'.ss);
  }

  lemma LastFree(act: Act, sh: Shared, ss: Stores, tid: Tid, x: Thread, sh': Shared, x': Thread, it: Item)
    requires FreeAct(act) && FreeStep(act, sh, tid, x, sh', x') && x.pc.Free? && !GoesOn(x.pc.stage)
    requires CurOk(sh) && FreeChoice(sh, ss, x.pc.stage, act) && Has(sh, x.pc.stage, it)
    ensures x' == x.(pc := After(x.pc.ret, x.last)) && sh' == sh
    ensures act.FreeDone? && PlaceIs(sh', it, Listed(x.pc.stage.s.world.ts))
  {
  }

  lemma LastTurn(c: Real, tid: Tid, act: Act, c': Real, it: Item)
    requires RealStep(c, tid, act, c') && Freeing(c, tid, it) && Sourced(c, tid, act) && !GoesOn(c.Th(tid).pc.stage)
    ensures c'.Th(tid) == c.Th(tid).(pc := After(c.Th(tid).pc.ret, c.Th(tid).last)) && c'.sh == c.sh
    ensures act.FreeDone? && PlaceIs(c'.sh, it, Listed(c.Th(tid).pc.stage.s.world.ts))
  {
    hide StepAt, Joint, Inv, StepOf, StoreStep, OpOf, NextMem;
    ChoiceIsFree(c.sh, c.ss, c.Th(tid).pc.stage, act);
    FreeShape(act, c.sh, tid, c.Th(tid), c'.sh, c'.Th(tid));
    LastFree(act, c.sh, c.ss, tid, c.Th(tid), c'.sh, c'.Th(tid), it);
  }

  function Final(r: Run): Real { r.At(|r.states| - 1) }

  function Extended(r: Run, turn: Turn, c: Real): Run { Runs.Run(r.states + [c], r.turns + [turn]) }

  lemma ExtendedIsRun(r: Run, turn: Turn, c: Real)
    requires IsRun(r) && RealStep(Final(r), turn.tid, turn.act, c)
    ensures IsRun(Extended(r, turn, c)) && Final(Extended(r, turn, c)) == c
  {
    hide StepOf, StoreStep, OpOf;
    var e := Extended(r, turn, c);
    forall i | 0 <= i < |e.turns| ensures StepAt(e, i) {
      if i < |r.turns| { assert StepAt(r, i); }
    }
  }

  /** The turn is one the source would take. */
  ghost predicate SourceTurn(r: Run, i: nat) {
    && r.TurnAt(i).tid in r.At(i).th && CurOk(r.At(i).sh)
    && Sourced(r.At(i), r.TurnAt(i).tid, r.TurnAt(i).act)
  }

  /** The second run goes on from the first with turns of one thread only, as the source would take them. */
  ghost predicate GoesOnWith(r: Run, e: Run, tid: Tid) {
    && IsRun(r) && IsRun(e) && |r.turns| <= |e.turns|
    && e.states[..|r.states|] == r.states && e.turns[..|r.turns|] == r.turns
    && forall i :: |r.turns| <= i < |e.turns| ==> e.TurnAt(i).tid == tid && SourceTurn(e, i)
  }

  lemma GoesOnAfter(r: Run, act: Act, c: Real, e: Run, tid: Tid)
    requires IsRun(r) && RealStep(Final(r), tid, act, c) && CurOk(Final(r).sh) && Sourced(Final(r), tid, act)
    requires GoesOnWith(Extended(r, Turn(tid, act), c), e, tid)
    ensures GoesOnWith(r, e, tid) && |e.turns| > |r.turns| && e.TurnAt(|r.turns|).act == act
  {
    hide StepOf, StoreStep, OpOf;
    var n, r1 := |r.turns|, Extended(r, Turn(tid, act), c);
    assert e.TurnAt(n) == r1.TurnAt(n) && e.At(n) == r1.At(n) == Final(r);
    assert e.states[..n + 1] == r1.states[..n + 1] == r.states;
    assert e.turns[..n] == r1.turns[..n] == r.turns;
  }

  /** The number of successful swaps of frees, and of repeated reads, from turn i on. */
  function SwapsFrom(r: Run, i: nat): nat
    decreases |r.turns| - i
  {
    if i >= |r.turns| then 0 else Once(r.TurnAt(i).act.FreeSwap?) + SwapsFrom(r, i + 1)
  }

  function RetriesFrom(r: Run, i: nat): nat
    decreases |r.turns| - i
  {
    if i >= |r.turns| then 0 else Once(r.TurnAt(i).act.FreeRetry?) + RetriesFrom(r, i + 1)
  }

  /** How a free ends that nobody interferes with. */
  ghost predicate Ended(r: Run, e: Run, tid: Tid, it: Item) {
    var c, x := Final(r), Final(r).Th(tid);
    && x.pc.Free? && GoesOnWith(r, e, tid)
    && SwapsFrom(e, |r.turns|) == Once(Swapping(c.sh.cur, x.pc.stage))
    && RetriesFrom(e, |r.turns|) == Once(Outdated(c.sh.cur, Idlers(c.ss), x.pc.stage))
    && tid in Final(e).th && Final(e).Th(tid) == x.(pc := After(x.pc.ret, x.last))
    && exists t :: IsAt(Final(e), it, Listed(t))
  }

  lemma NextTurn(r: Run, tid: Tid, it: Item) returns (act: Act, c: Real)
    requires IsRun(r) && Freeing(Final(r), tid, it)
    ensures RealStep(Final(r), tid, act, c) && Sourced(Final(r), tid, act)
  {
    hide StepAt, Joint, RealStep, Step;
    NeverStuck.NeverStuck(r, |r.turns|, tid);
    act, c :| RealStep(Final(r), tid, act, c) && CurOk(Final(r).sh) && Sourced(Final(r), tid, act);
  }

  lemma EndsNow(r: Run, tid: Tid, it: Item) returns (e: Run)
    requires IsRun(r) && Freeing(Final(r), tid, it) && !GoesOn(Final(r).Th(tid).pc.stage)
    ensures Ended(r, e, tid, it)
  {
    hide StepOf, StoreStep;
    var act, c := NextTurn(r, tid, it);
    LastTurn(Final(r), tid, act, c, it);
    ExtendedIsRun(r, Turn(tid, act), c);
    e := Extended(r, Turn(tid, act), c);
    GoesOnAfter(r, act, c, e, tid);
    assert SwapsFrom(e, |r.turns| + 1) == 0 && RetriesFrom(e, |r.turns| + 1) == 0;
    ListedInRun(e, it, Final(r).Th(tid).pc.stage.s.world.ts);
  }

  lemma ListedInRun(r: Run, it: Item, t: nat)
    requires IsRun(r) && PlaceIs(Final(r).sh, it, Listed(t))
    ensures IsAt(Final(r), it, Listed(t))
  {
    hide StepAt, Joint, RealStep, Step, Tracks, Inv;
    var ms := TracksExists(r);
    RunJoint(r, ms, |r.turns|);
    PlaceIsReal(Final(r), MemAt(ms, |r.turns|), it, Listed(t));
  }

  lemma EndsLater(r: Run, tid: Tid, act: Act, c: Real, e: Run, it: Item)
    requires IsRun(r) && Freeing(Final(r), tid, it) && RealStep(Final(r), tid, act, c) && Sourced(Final(r), tid, act)
    requires Freeing(c, tid, it)
    requires c.Th(tid) == Final(r).Th(tid).(pc := Free(c.Th(tid).pc.stage, Final(r).Th(tid).pc.ret))
    requires var st := Final(r).Th(tid).pc.stage;
      Nearer(act, Final(r).sh.cur, Idlers(Final(r).ss), st, c.sh.cur, Idlers(c.ss), c.Th(tid).pc.stage)
    requires Final(Extended(r, Turn(tid, act), c)) == c && Ended(Extended(r, Turn(tid, act), c), e, tid, it)
    ensures Ended(r, e, tid, it)
  {
    hide StepAt, Joint, RealStep, Step;
    GoesOnAfter(r, act, c, e, tid);
    CountsUnfold(e, |r.turns|);
  }

  lemma CountsUnfold(e: Run, i: nat)
    requires i < |e.turns|
    ensures SwapsFrom(e, i) == Once(e.TurnAt(i).act.FreeSwap?) + SwapsFrom(e, i + 1)
    ensures RetriesFrom(e, i) == Once(e.TurnAt(i).act.FreeRetry?) + RetriesFrom(e, i + 1)
  {
  }

  /** Every free that has several threads to wait for, left alone in any state of any run, ends: the item is
      on a list, after one swap if the bit is set and none otherwise. It reads the world pointer again only
      if the world it works on is outdated, and then once. */
  lemma {:induction false} FreeFinishesAlone(r: Run, tid: Tid, it: Item) returns (e: Run)
    requires IsRun(r) && Freeing(Final(r), tid, it)
    ensures Ended(r, e, tid, it)
    decreases Level(Final(r).sh.cur, Idlers(Final(r).ss), Final(r).Th(tid).pc.stage), Left(Final(r).Th(tid).pc.stage)
  {
    hide StepAt, Joint, RealStep, Step;
    if !GoesOn(Final(r).Th(tid).pc.stage) {
      e := EndsNow(r, tid, it);
    } else {
      var act, c := NextTurn(r, tid, it);
      ExtendedIsRun(r, Turn(tid, act), c);
      var r1 := Extended(r, Turn(tid, act), c);
      StepsNearer(r, r1, tid, act, c, it);
      e := FreeFinishesAlone(r1, tid, it);
      EndsLater(r, tid, act, c, e, it);
    }
  }

  lemma StepsNearer(r: Run, r1: Run, tid: Tid, act: Act, c: Real, it: Item)
    requires IsRun(r) && Freeing(Final(r), tid, it) && GoesOn(Final(r).Th(tid).pc.stage)
    requires RealStep(Final(r), tid, act, c) && Sourced(Final(r), tid, act)
    requires IsRun(r1) && Final(r1) == c
    ensures Freeing(c, tid, it)
    ensures c.Th(tid) == Final(r).Th(tid).(pc := Free(c.Th(tid).pc.stage, Final(r).Th(tid).pc.ret))
    ensures var st := Final(r).Th(tid).pc.stage;
      Nearer(act, Final(r).sh.cur, Idlers(Final(r).ss), st, c.sh.cur, Idlers(c.ss), c.Th(tid).pc.stage)
  {
    hide StepAt, Joint, RealStep, Step, Tracks, Inv;
    var ms := TracksExists(r);
    RunJoint(r, ms, |r.turns|);
    var ms1 := TracksExists(r1);
    RunJoint(r1, ms1, |r1.turns|);
    MemHolds(c, MemAt(ms1, |r1.turns|));
    TurnNearer(Final(r), MemAt(ms, |r.turns|), tid, act, c, it);
  }
}
