/** What holds in every state of every run, and what every swap does. */
module Safety {
  import opened AbaTypes
  import opened Protocol
  import opened Invariant
  import opened Entries
  import opened Windows
  import opened Storages
  import opened CouplingSteps
  import opened RealRefinement
  import opened Runs
  import opened Whereabouts
  import opened Progress

  /* ---- worlds ---- */

  lemma SeenHolds(c: Real, m: Mem, j: Tid, s: Seen)
    requires Joint(c, m) && j in c.th && s in Seens(c.Th(j))
    ensures SeenOk(c.sh, s)
  {
    assert ThreadOk(c.sh, j, c.Th(j));
  }

  /** No world a thread may still read or compare with, locked or not, has been given back or changed. */
  lemma NoAba(r: Run, i: nat, j: Tid, s: Seen)
    requires IsRun(r) && i <= |r.turns| && j in r.At(i).th && s in Seens(r.At(i).Th(j))
    ensures SeenOk(r.At(i).sh, s)
  {
    hide *;
    var ms := TracksExists(r);
    RunJoint(r, ms, i);
    SeenHolds(r.At(i), MemAt(ms, i), j, s);
  }

  /** The world the thread has copied. */
  function Copied(x: Thread): set<Seen> {
    match x.pc
    case Registering(s) => {s}
    case Copying(s, _, _) => {s}
    case Removing(s, _) => {s}
    case Free(Planning(_, s, _), _) => {s}
    case _ => {}
  }

  /** The swap found the pointer it had copied from, and puts the new world at a fresh address. */
  ghost predicate Replaced(act: Act, sh: Shared, tid: Tid, x: Thread, sh': Shared) {
    && CurOk(sh)
    && (exists s :: Copied(x) == {s} && s.at == sh.cur && s in Seens(x))
    && sh'.cur.w !in sh.heap && sh'.cur.w in sh'.heap && Old(sh.cur.w) in sh'.place
    && (if sh.cur.lock then Old(sh.cur.w) in sh.place && sh'.place[Old(sh.cur.w)] == sh.place[Old(sh.cur.w)]
        else sh'.place[Old(sh.cur.w)] == Held(tid))
    && (forall a :: a in sh.heap ==> a in sh'.heap && sh'.heap[a] == sh.heap[a])
    && (forall a :: a in sh'.heap ==> a in sh.heap || a == sh'.cur.w)
  }

  lemma RegisterReplaces(sh: Shared, tid: Tid, x: Thread, sh': Shared, x': Thread, act: Act)
    requires act.RegisterOk? && RegisterStep(act, sh, tid, x, sh', x') && SharedOk(sh)
    ensures Replaced(act, sh, tid, x, sh')
  {
    assert Copied(x) == {x.pc.s};
  }

  lemma CopyReplaces(sh: Shared, tid: Tid, x: Thread, sh': Shared, x': Thread, act: Act)
    requires act.CopyOk? && CheckinStep(act, sh, tid, x, sh', x') && SharedOk(sh)
    ensures Replaced(act, sh, tid, x, sh')
  {
    assert Copied(x) == {x.pc.s};
  }

  lemma RemoveReplaces(sh: Shared, tid: Tid, x: Thread, sh': Shared, x': Thread, act: Act)
    requires (act.RemoveOk? || act.RemoveLast?) && UnregisterStep(act, sh, tid, x, sh', x') && SharedOk(sh)
    ensures Replaced(act, sh, tid, x, sh')
  {
    assert Copied(x) == {x.pc.s};
  }

  lemma SwapReplaces(sh: Shared, tid: Tid, x: Thread, sh': Shared, x': Thread, act: Act)
    requires act.FreeSwap? && FreeStep(act, sh, tid, x, sh', x') && SharedOk(sh)
    ensures Replaced(act, sh, tid, x, sh')
  {
    assert Copied(x) == {x.pc.stage.s};
  }

  lemma StepReplaces(sh: Shared, tid: Tid, x: Thread, sh': Shared, x': Thread, act: Act)
    requires Swaps(act) && ThreadStep(act, sh, tid, x, sh', x') && SharedOk(sh)
    ensures Replaced(act, sh, tid, x, sh')
  {
    hide StepAt, Joint, RealStep, StoreStep, StepOf, OpOf, NextMem;
    if act.RegisterOk? {
      RegisterShape(act, sh, tid, x, sh', x');
      RegisterReplaces(sh, tid, x, sh', x', act);
    } else if act.CopyOk? {
      CheckinShape(act, sh, tid, x, sh', x');
      CopyReplaces(sh, tid, x, sh', x', act);
    } else if act.FreeSwap? {
      FreeShape(act, sh, tid, x, sh', x');
      SwapReplaces(sh, tid, x, sh', x', act);
    } else {
      UnregisterShape(act, sh, tid, x, sh', x');
      RemoveReplaces(sh, tid, x, sh', x', act);
    }
  }

  lemma SharedHolds(c: Real, m: Mem)
    requires Joint(c, m)
    ensures SharedOk(c.sh)
  {
  }

  lemma TurnReplaces(r: Run, i: nat)
    requires IsRun(r) && i < |r.turns| && Swaps(r.TurnAt(i).act)
    ensures r.TurnAt(i).tid in r.At(i).th
    ensures Replaced(r.TurnAt(i).act, r.At(i).sh, r.TurnAt(i).tid, r.At(i).Th(r.TurnAt(i).tid), r.At(i + 1).sh)
  {
    hide StepOf, StoreStep, OpOf, NextMem;
    var ms := TracksExists(r);
    RunJoint(r, ms, i);
    SharedHolds(r.At(i), MemAt(ms, i));
    assert StepAt(r, i);
    var tid := r.TurnAt(i).tid;
    StepReplaces(r.At(i).sh, tid, r.At(i).Th(tid), r.At(i + 1).sh, r.At(i + 1).Th(tid), r.TurnAt(i).act);
  }

  /** Every successful swap replaces exactly the world that was copied. */
  lemma SwapReplacesCopy(r: Run, i: nat)
    requires IsRun(r) && i < |r.turns| && Swaps(r.TurnAt(i).act)
    ensures r.TurnAt(i).tid in r.At(i).th && CurOk(r.At(i).sh)
    ensures Copied(r.At(i).Th(r.TurnAt(i).tid)) == {Now(r.At(i).sh)}
  {
    hide StepAt;
    TurnReplaces(r, i);
    var x := r.At(i).Th(r.TurnAt(i).tid);
    var s :| Copied(x) == {s} && s.at == r.At(i).sh.cur && s in Seens(x);
    NoAba(r, i, r.TurnAt(i).tid, s);
  }

  /** The world that is swapped out is the swapping thread's to dispose of, unless it was locked: then it
      stays where it was, with the thread that has locked it. */
  lemma SwappedOutGoesTo(r: Run, i: nat, p: Place)
    requires IsRun(r) && i < |r.turns| && Swaps(r.TurnAt(i).act)
    requires IsAt(r.At(i), Old(r.At(i).sh.cur.w), p)
    ensures if r.At(i).sh.cur.lock
      then p.Held? && IsAt(r.At(i + 1), Old(r.At(i).sh.cur.w), p)
      else p == Current && IsAt(r.At(i + 1), Old(r.At(i).sh.cur.w), Held(r.TurnAt(i).tid))
  {
    hide StepAt, Joint, RealStep, Tracks;
    TurnReplaces(r, i);
    var ms := TracksExists(r);
    RunJoint(r, ms, i);
    RunJoint(r, ms, i + 1);
    var it := Old(r.At(i).sh.cur.w);
    PlaceIsReal(r.At(i), MemAt(ms, i), it, p);
    PlaceIsReal(r.At(i + 1), MemAt(ms, i + 1), it, r.At(i + 1).sh.place[it]);
    SharedHolds(r.At(i), MemAt(ms, i));
  }

  /** A thread that collects the worlds it has locked never collects one twice: the world it holds locked
      is not in its chain yet. */
  lemma ChainNeverRepeats(r: Run, i: nat, j: Tid)
    requires IsRun(r) && i <= |r.turns| && j in r.At(i).th && r.At(i).Th(j).pc.Registering?
    ensures Old(r.At(i).Th(j).pc.s.at.w) !in r.At(i).Th(j).held
  {
    hide StepAt, Joint, RealStep, Tracks;
    var ms := TracksExists(r);
    RunJoint(r, ms, i);
    LocalIs(r.At(i), MemAt(ms, i), j);
  }

  lemma LocalIs(c: Real, m: Mem, j: Tid)
    requires Joint(c, m) && j in c.th
    ensures Local(c.Th(j))
  {
    hide StepOf, StoreStep, OpOf, NextMem;
    assert ThreadOk(c.sh, j, c.Th(j));
  }

  /** A world with a timestamp has threads. */
  ghost predicate Peopled(sh: Shared) { forall a :: a in sh.heap && sh.heap[a].ts > 0 ==> sh.heap[a].n > 0 }

  lemma StepPeopled(act: Act, sh: Shared, tid: Tid, x: Thread, sh': Shared, x': Thread)
    requires ThreadStep(act, sh, tid, x, sh', x') && Peopled(sh) && SharedOk(sh) && SharedOk(sh')
    ensures Peopled(sh')
  {
    hide *;
    if Swaps(act) {
      StepReplaces(sh, tid, x, sh', x', act);
      ReplacedPeopled(act, sh, tid, x, sh');
    } else {
      StayCur(act, sh, tid, x, sh', x');
      ShrunkPeopled(sh, sh');
    }
  }

  lemma ReplacedPeopled(act: Act, sh: Shared, tid: Tid, x: Thread, sh': Shared)
    requires Peopled(sh) && Replaced(act, sh, tid, x, sh') && SharedOk(sh')
    ensures Peopled(sh')
  {
  }

  lemma ShrunkPeopled(sh: Shared, sh': Shared)
    requires Peopled(sh) && Shrinks(sh, sh')
    ensures Peopled(sh')
  {
  }

  lemma FirstPeopled(c: Real)
    requires RealInit(c)
    ensures Peopled(c.sh)
  {
    var size: nat :| W(c.sh) == World(0, 0, Window(0, size, []));
  }

  lemma {:induction false} EveryWorldPeopled(r: Run, ms: seq<Mem>, i: nat)
    requires IsRun(r) && Tracks(r, ms) && i <= |r.turns|
    ensures Peopled(r.At(i).sh)
  {
    hide Joint, Peopled, StepOf, StoreStep, OpOf, NextMem;
    if i == 0 {
      FirstPeopled(r.At(0));
    } else {
      EveryWorldPeopled(r, ms, i - 1);
      assert StepAt(r, i - 1);
      RunJoint(r, ms, i - 1);
      RunJoint(r, ms, i);
      SharedHolds(r.At(i - 1), MemAt(ms, i - 1));
      SharedHolds(r.At(i), MemAt(ms, i));
      var tid := r.TurnAt(i - 1).tid;
      StepPeopled(r.TurnAt(i - 1).act, r.At(i - 1).sh, tid, r.At(i - 1).Th(tid), r.At(i).sh,
        r.At(i).Th(tid));
    }
  }

  /** Every world in memory is a sane one: it has threads if it has a timestamp, its window starts at a
      multiple of the row length, its storages are distinct and fit, its timestamp is in the window or 0. */
  lemma PublishedWorlds(r: Run, i: nat, a: Addr)
    requires IsRun(r) && i <= |r.turns| && a in r.At(i).sh.heap
    ensures var w := r.At(i).sh.heap[a];
      && (w.n > 0 || w.ts == 0)
      && w.win.offset % N == 0 && 0 < w.win.size && |w.win.stores| <= w.win.size && Distinct(w.win.stores)
      && (if w.ts == 0 then w.win.offset == 0 && w.win.stores == [] else InWindow(w.win, w.ts))
  {
    hide StepAt, Joint, RealStep, Tracks;
    var ms := TracksExists(r);
    EveryWorldPeopled(r, ms, i);
    RunJoint(r, ms, i);
    WinOkHolds(r.At(i), MemAt(ms, i), a);
  }

  lemma WinOkHolds(c: Real, m: Mem, a: Addr)
    requires Joint(c, m) && a in c.sh.heap
    ensures WorldWinOk(c.sh.heap[a])
  {
  }

  /* ---- threads ---- */

  /** The threads whose register swap has succeeded and whose unregister swap has not. */
  ghost function Members(r: Run, i: nat): set<Tid> {
    if i == 0 then {}
    else if r.TurnAt(i - 1).act.RegisterOk? then Members(r, i - 1) + {r.TurnAt(i - 1).tid}
    else if Leaves(r.TurnAt(i - 1).act) then Members(r, i - 1) - {r.TurnAt(i - 1).tid}
    else Members(r, i - 1)
  }

  lemma JoinsOrLeaves(act: Act, sh: Shared, tid: Tid, x: Thread, sh': Shared, x': Thread)
    requires ThreadStep(act, sh, tid, x, sh', x')
    ensures act.RegisterOk? ==> Reg(x')
    ensures Leaves(act) ==> !Reg(x')
  {
    hide StepOf;
    if act.RegisterOk? {
      RegisterShape(act, sh, tid, x, sh', x');
    } else if Leaves(act) {
      UnregisterShape(act, sh, tid, x, sh', x');
    }
  }

  lemma RegsNext(th: map<Tid, Thread>, tid: Tid, x': Thread, act: Act)
    requires tid in th && Advance(act, th[tid], x')
    requires act.RegisterOk? ==> Reg(x')
    requires Leaves(act) ==> !Reg(x')
    ensures Regs(th[tid := x']) ==
      if act.RegisterOk? then Regs(th) + {tid} else if Leaves(act) then Regs(th) - {tid} else Regs(th)
  {
  }

  lemma TurnMembers(r: Run, ms: seq<Mem>, i: nat)
    requires IsRun(r) && Tracks(r, ms) && i < |r.turns|
    ensures Regs(r.At(i + 1).th) == var act := r.TurnAt(i).act;
      if act.RegisterOk? then Regs(r.At(i).th) + {r.TurnAt(i).tid}
      else if Leaves(act) then Regs(r.At(i).th) - {r.TurnAt(i).tid} else Regs(r.At(i).th)
  {
    hide StepOf, StoreStep;
    assert StepAt(r, i);
    var tid := r.TurnAt(i).tid;
    RunJoint(r, ms, i);
    LocalIs(r.At(i), MemAt(ms, i), tid);
    StepAdvance(r.TurnAt(i).act, r.At(i).sh, tid, r.At(i).Th(tid), r.At(i + 1).sh, r.At(i + 1).Th(tid));
    JoinsOrLeaves(r.TurnAt(i).act, r.At(i).sh, tid, r.At(i).Th(tid), r.At(i + 1).sh,
      r.At(i + 1).Th(tid));
    RegsNext(r.At(i).th, tid, r.At(i + 1).Th(tid), r.TurnAt(i).act);
  }

  lemma {:induction false} MembersAreRegistered(r: Run, ms: seq<Mem>, i: nat)
    requires IsRun(r) && Tracks(r, ms) && i <= |r.turns|
    ensures Members(r, i) == Regs(r.At(i).th)
  {
    hide StepAt, Joint, RealStep, Tracks;
    if i > 0 {
      MembersAreRegistered(r, ms, i - 1);
      TurnMembers(r, ms, i - 1);
    }
  }

  /** The thread count of the current world is exact, whatever locks, failed swaps and overwritten locked
      worlds there were. */
  lemma ThreadCount(r: Run, i: nat)
    requires IsRun(r) && i <= |r.turns|
    ensures CurOk(r.At(i).sh) && W(r.At(i).sh).n == |Members(r, i)|
  {
    hide *;
    var ms := TracksExists(r);
    MembersAreRegistered(r, ms, i);
    RunJoint(r, ms, i);
    CountHolds(r.At(i), MemAt(ms, i));
  }

  lemma CountHolds(c: Real, m: Mem)
    requires Joint(c, m)
    ensures CurOk(c.sh) && W(c.sh).n == |Regs(c.th)|
  {
  }

  /** As long as the bit is 0 nobody has given up the current timestamp, and nobody has started to
      decrement its count. */
  lemma BitZeroMeaning(r: Run, i: nat, g: Tid)
    requires IsRun(r) && i <= |r.turns| && !r.At(i).sh.cur.bit
    requires g in Members(r, i)
    ensures g in r.At(i).th && CurOk(r.At(i).sh)
    ensures var x := r.At(i).Th(g); x.last <= Next(x) <= Limit(x) <= W(r.At(i).sh).ts
  {
    hide StepAt, Joint, RealStep, Tracks;
    var ms := TracksExists(r);
    MembersAreRegistered(r, ms, i);
    RunJoint(r, ms, i);
    BitZeroHolds(r.At(i), MemAt(ms, i), g);
  }

  lemma BitZeroHolds(c: Real, m: Mem, g: Tid)
    requires Joint(c, m) && !c.sh.cur.bit && g in c.th && Reg(c.Th(g))
    ensures CurOk(c.sh) && c.Th(g).last <= Next(c.Th(g)) <= Limit(c.Th(g)) <= W(c.sh).ts
  {
    hide StepOf, StoreStep, OpOf, NextMem;
    assert ThreadOk(c.sh, g, c.Th(g));
    NextLeLimit(c.Th(g));
  }

  /** And the threads counted for that timestamp are exactly the registered ones. */
  lemma BitZeroCounted(r: Run, i: nat)
    requires IsRun(r) && i <= |r.turns| && !r.At(i).sh.cur.bit
    ensures CurOk(r.At(i).sh) && Owe(r.At(i).th, W(r.At(i).sh).ts) == Members(r, i)
  {
    hide StepAt, Joint, RealStep, Tracks;
    var ms := TracksExists(r);
    MembersAreRegistered(r, ms, i);
    ThreadCount(r, i);
    forall g | g in Members(r, i) ensures g in Owe(r.At(i).th, W(r.At(i).sh).ts) { BitZeroMeaning(r, i, g); }
  }
}
