/** What a free does next, as the source chooses it: which way it makes room for the next timestamp, and
    when it reads the world pointer again. Whatever it chooses can be done. */
module MakingRoom {
  import opened AbaTypes
  import opened Protocol
  import opened Windows
  import opened Storages
  import opened Planning
  import opened ReuseLoop

  /* ---- the choice ---- */

  /** The storages without usage bits. */
  ghost function Idlers(ss: Stores): iset<Sid> { iset sid | sid in ss && ss[sid].use == {} }

  /** How a free starts to make room: the next timestamp has room, or a storage is added, or the storages are
      reorganised if one of them is idle, or the world grows. */
  ghost function Choice(w: World, idle: iset<Sid>): Plan {
    if InWindow(w.win, w.ts + 1) then Ready(w.win, 0)
    else if |w.win.stores| < w.win.size then Fresh(false)
    else if Reusable(w, idle) then Start(w)
    else Fresh(true)
  }

  /** The counting pass finds something. */
  ghost predicate Reusable(w: World, idle: iset<Sid>) {
    w.ts > 0 && CurrentRow(w) <= |w.win.stores| && Counted(w.win, 0, CurrentRow(w), idle) > 0
  }

  /** Where a plan can be after any number of steps. */
  ghost predicate PlanShape(w: World, plan: Plan) {
    match plan
    case Rotating(i, r, _, v) =>
      w.ts > 0 && r <= i <= CurrentRow(w) < |w.win.stores| && v == RotateBy(w.win, r)
    case Ready(v, r) => r <= |w.win.stores| && v == RotateBy(w.win, r) && InWindow(v, w.ts + 1)
    case Fresh(_) => true
  }

  /** The callback of the swap refuses the copy: nothing could be reused, or there is no free slot. */
  predicate Failed(w: World, plan: Plan) {
    match plan
    case Rotating(i, r, _, _) => i == CurrentRow(w) && r == 0
    case Ready(_, _) => false
    case Fresh(grow) => !grow && |w.win.stores| >= w.win.size
  }

  ghost predicate CanPlan(st: Stage) {
    || (st.Trying? && st.s.at.bit && st.s.world.n > 1)
    || (st.Planning? && st.plan.Rotating? && PlanShape(st.s.world, st.plan) && !Failed(st.s.world, st.plan))
  }

  /** The next step of making room. */
  ghost function NextPlan(idle: iset<Sid>, st: Stage): Plan
    requires CanPlan(st)
  {
    var w := st.s.world;
    if st.Trying? then Choice(w, idle)
    else if st.plan.i < CurrentRow(w) then ReuseNext(w, st.plan, st.plan.win.stores[st.plan.i] in idle)
    else Ready(st.plan.win, st.plan.reused)
  }

  ghost predicate Prepares(ss: Stores, st: Stage, act: Act) {
    act.FreePlan? && CanPlan(st) && act.plan == NextPlan(Idlers(ss), st)
  }

  /** The thread reads the world pointer again; it frees at once if it finds itself alone. */
  predicate ReadsAgain(sh: Shared, act: Act) {
    if W(sh).n <= 1 then act.FreeAlone? else act.FreeRetry?
  }

  /** What a free in the given stage does next. */
  ghost predicate FreeChoice(sh: Shared, ss: Stores, st: Stage, act: Act) {
    match st
    case Reading(_) => act.FreeRead?
    case Trying(_, s) =>
      if !s.at.bit then act.FreeEnter? else if s.world.n <= 1 then ReadsAgain(sh, act) else Prepares(ss, st, act)
    case Planning(_, s, plan) =>
      if Failed(s.world, plan) then ReadsAgain(sh, act)
      else if plan.Rotating? then Prepares(ss, st, act)
      else if sh.cur == s.at then act.FreeSwap?
      else ReadsAgain(sh, act)
    case Adding(_, _, _) => act.FreeAdd?
    case Appending(_, _, _) => act.FreeAppend?
    case Trailing(_, spare) => if spare == {} then act.FreeDone? else act.FreeAppendOld?
    case Immediate(_) => act.FreeNow?
  }

  /** A free reads again only if its world is no longer the current one, or a plan made for it has failed. */
  lemma RetryMeans(sh: Shared, ss: Stores, st: Stage, act: Act)
    requires CurOk(sh) && FreeChoice(sh, ss, st, act) && act.FreeRetry?
    requires (st.Trying? || st.Planning?) && (sh.cur == st.s.at ==> st.s.world == W(sh))
    ensures sh.cur != st.s.at || (st.Planning? && Failed(st.s.world, st.plan))
  {
  }

  /* ---- it can be done ---- */

  lemma {:induction false} Bounded(s: set<nat>) returns (n: nat)
    ensures forall a :: a in s ==> a < n
    decreases |s|
  {
    n := 0;
    if s != {} {
      var a :| a in s;
      var k := Bounded(s - {a});
      n := if a < k then k else a + 1;
      forall b | b in s ensures b < n { if b != a { assert b in s - {a}; } }
    }
  }

  /** There is always an address that is not in use. */
  lemma NewAddress<T>(heap: map<nat, T>) returns (a: nat)
    ensures a !in heap
  {
    var n := Bounded(heap.Keys);
    assert n !in heap.Keys;
    a := n;
  }

  /** All storages of a window are allocated. */
  ghost predicate There(ss: Stores, v: Window) { forall sid :: sid in v.stores ==> sid in ss && |ss[sid].slots| == N }

  lemma RotatedThere(ss: Stores, v: Window, r: nat)
    requires There(ss, v) && r <= |v.stores|
    ensures There(ss, RotateBy(v, r)) && |RotateBy(v, r).stores| == |v.stores|
  {
  }

  lemma MarkNext(ss: Stores, v: Window, t: nat) returns (ss': Stores)
    requires There(ss, v) && InWindow(v, t)
    ensures StoreStep(ss, MarkUse(v, t), ss')
  {
    assert StoreOf(v, t) in v.stores;
    ss' := SetUse(ss, v, t, true);
  }

  /** A step of the preparation, what it does to the storages, and that it is what the source does. */
  ghost predicate PlanTurn(ss: Stores, st: Stage, plan: Plan, op: Op, ss': Stores)
    requires CanPlan(st)
  {
    && plan == NextPlan(Idlers(ss), st) && PlanStep(st, plan, op) && StoreStep(ss, op, ss')
    && (op.Nop? || op.Probe? || op.MarkUse?)
  }

  lemma FirstPlan(ss: Stores, st: Stage) returns (plan: Plan, op: Op, ss': Stores)
    requires st.Trying? && CanPlan(st) && WorldWinOk(st.s.world) && There(ss, st.s.world.win)
    ensures PlanTurn(ss, st, plan, op, ss')
  {
    var w := st.s.world;
    plan, op, ss' := Choice(w, Idlers(ss)), Nop, ss;
    if InWindow(w.win, w.ts + 1) {
      op := MarkUse(w.win, w.ts + 1);
      ss' := MarkNext(ss, w.win, w.ts + 1);
    }
  }

  lemma ProbePlan(ss: Stores, st: Stage) returns (plan: Plan, op: Op, ss': Stores)
    requires st.Planning? && CanPlan(st) && st.plan.i < CurrentRow(st.s.world) && There(ss, st.s.world.win)
    ensures PlanTurn(ss, st, plan, op, ss')
  {
    var p := st.plan;
    RotatedThere(ss, st.s.world.win, p.reused);
    var sid := p.win.stores[p.i];
    plan, op, ss' := NextPlan(Idlers(ss), st), Probe(sid, sid in Idlers(ss)), ss;
  }

  lemma LastPlan(ss: Stores, st: Stage) returns (plan: Plan, op: Op, ss': Stores)
    requires st.Planning? && CanPlan(st) && st.plan.i == CurrentRow(st.s.world)
    requires WorldWinOk(st.s.world) && There(ss, st.s.world.win)
    ensures PlanTurn(ss, st, plan, op, ss')
  {
    var w, p := st.s.world, st.plan;
    RotatedThere(ss, w.win, p.reused);
    RotatedHasRoom(w, p.reused);
    plan, op := Ready(p.win, p.reused), MarkUse(p.win, w.ts + 1);
    ss' := MarkNext(ss, p.win, w.ts + 1);
  }

  /** Every probe finds its storage allocated, every usage bit has its storage. */
  lemma PrepareNext(ss: Stores, st: Stage) returns (plan: Plan, op: Op, ss': Stores)
    requires CanPlan(st) && WorldWinOk(st.s.world) && There(ss, st.s.world.win)
    ensures PlanTurn(ss, st, plan, op, ss')
  {
    if st.Trying? {
      plan, op, ss' := FirstPlan(ss, st);
    } else if st.plan.i < CurrentRow(st.s.world) {
      plan, op, ss' := ProbePlan(ss, st);
    } else {
      plan, op, ss' := LastPlan(ss, st);
    }
  }

  /** A plan that has not failed names a window to swap in. */
  lemma WindowNext(ss: Stores, s: Seen, plan: Plan) returns (win: Window, ss': Stores)
    requires PlanShape(s.world, plan) && !plan.Rotating? && !Failed(s.world, plan)
    ensures SwapStep(s, plan, win) && StoreStep(ss, Create(s.world.win, win, s.world.ts + 1), ss')
  {
    hide StepOf;
    var v := s.world.win;
    if plan.Ready? {
      win, ss' := plan.win, ss;
    } else {
      var sid := NewAddress(ss);
      win := AddStore(v, sid, if plan.grow then v.size + 1 else v.size);
      ss' := ss[sid := Store({Column(s.world.ts + 1)}, seq(N, _ => PRISTINE))];
    }
  }
}
