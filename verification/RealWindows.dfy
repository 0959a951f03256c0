/** The steps that change the window, or only the usage bits, keep the storages coupled. */
module RealWindows {
  import opened AbaTypes
  import opened Protocol
  import opened Entries
  import opened Windows
  import opened Storages
  import opened Refinement
  import opened Planning
  import opened Simulation

  /** Only timestamp and window of a world matter. */
  lemma MatchesSame(m: Mem, ss: Stores, w: World, w': World)
    requires Matches(m, ss, w) && w'.ts == w.ts && w'.win == w.win
    ensures Matches(m, ss, w')
  {
  }

  lemma ExtendsItself(v: Window)
    ensures Extends(v, v)
  {
  }

  /** Swapping in a prepared world: rotated, or with room enough from the start. */
  lemma ReadySwap(m: Mem, ss: Stores, w: World, win: Window, r: nat, m': Mem, w': World)
    requires Matches(m, ss, w) && FinishedIsPristine(m) && ReadyOk(m, w, win, r) && Used(ss, win, w.ts + 1)
    requires w'.ts == w.ts + 1 && w'.win == win && m'.entries == m.entries[w'.ts := Entry(-1, {}, true)]
    ensures Matches(m', ss, w') && Extends(w.win, win)
  {
    if r > 0 {
      Rotated(m, ss, w, r);
      RotatedCreated(m, ss, w.(win := win), w', m');
    } else {
      RotateByNone(w.win);
      ExtendsItself(win);
      RotatedCreated(m, ss, w, w', m');
    }
  }

  lemma RotatedCreated(m: Mem, ss: Stores, w: World, w': World, m': Mem)
    requires Matches(m, ss, w) && Used(ss, w.win, w.ts + 1)
    requires w'.ts == w.ts + 1 && w'.win == w.win && m'.entries == m.entries[w'.ts := Entry(-1, {}, true)]
    ensures Matches(m', ss, w')
  {
    forall t: nat | InWindow(w.win, t) ensures Reaches(ss, w.win, t) { Reach(m, ss, w, t); }
    Created(m, ss, w, w', m');
  }

  /** Swapping in a world with one storage more. */
  lemma FreshSwap(m: Mem, ss: Stores, w: World, sid: Sid, size: nat, ss': Stores, m': Mem, w': World)
    requires Matches(m, ss, w) && |w.win.stores| < size && sid !in ss
    requires sid in ss' && ss' == ss[sid := ss'[sid]] && FreshStore(ss'[sid])
    requires InWindow(w.win, w.ts + 1) ==> Used(ss, w.win, w.ts + 1)
    requires w'.ts == w.ts + 1 && w'.win == AddStore(w.win, sid, size)
    requires InWindow(w'.win, w'.ts) && StoreOf(w'.win, w'.ts) == sid ==> Column(w'.ts) in ss'[sid].use
    requires m'.entries == m.entries[w'.ts := Entry(-1, {}, true)]
    ensures Matches(m', ss', w') && Extends(w.win, w'.win)
  {
    Added(m, ss, w, sid, size, ss');
    FreshRoom(m, ss, w, sid, size, ss');
    Created(m, ss', w, w', m');
  }

  /** One storage more is room enough for the next timestamp. */
  lemma FreshRoom(m: Mem, ss: Stores, w: World, sid: Sid, size: nat, ss': Stores)
    requires Matches(m, ss, w) && |w.win.stores| < size && sid !in ss
    requires sid in ss' && ss' == ss[sid := ss'[sid]]
    requires InWindow(w.win, w.ts + 1) ==> Used(ss, w.win, w.ts + 1)
    ensures var v := AddStore(w.win, sid, size);
      InWindow(v, w.ts + 1)
      && (StoreOf(v, w.ts + 1) != sid ==>
            StoreOf(v, w.ts + 1) in ss' && Column(w.ts + 1) in ss'[StoreOf(v, w.ts + 1)].use)
  {
    var v := AddStore(w.win, sid, size);
    assert sid !in w.win.stores;
    AddExtends(w.win, sid, size);
    if InWindow(w.win, w.ts + 1) {
      assert StoreOf(v, w.ts + 1) == StoreOf(w.win, w.ts + 1);
    }
  }

  /** The world a free swaps in has the entries in place. */
  lemma SwapMatches(m: Mem, ss: Stores, s: Seen, plan: Plan, win: Window, ss': Stores, m': Mem, w': World)
    requires Matches(m, ss, s.world) && FinishedIsPristine(m) && PlanOk(m, ss, true, s.world, plan)
    requires SwapStep(s, plan, win) && StoreStep(ss, Create(s.world.win, win, s.world.ts + 1), ss')
    requires w'.ts == s.world.ts + 1 && w'.win == win && m'.entries == m.entries[w'.ts := Entry(-1, {}, true)]
    ensures Matches(m', ss', w') && Extends(s.world.win, win)
  {
    if plan.Ready? {
      ReadySwap(m, ss, s.world, win, plan.reused, m', w');
    } else {
      FreshSwap(m, ss, s.world, win.stores[|s.world.win.stores|], win.size, ss', m', w');
    }
  }

  /** A reset world needs no entries. */
  lemma ResetMatches(m: Mem, ss: Stores, w: World, w': World)
    requires Matches(m, ss, w) && w' == World(0, 0, Window(0, w.win.size, []))
    ensures Matches(EMPTY_MEM, ss, w')
  {
  }

  lemma NoStoresMatches(m: Mem, ss: Stores, w: World, ss': Stores)
    requires Matches(m, ss, w) && w.ts == 0
    ensures Matches(m, ss', w)
  {
  }

  lemma UseMatches(m: Mem, ss: Stores, w: World, op: Op, ss': Stores)
    requires Matches(m, ss, w) && (op.Probe? || op.MarkUse? || op.Nop?) && StoreStep(ss, op, ss')
    ensures Matches(m, ss', w)
  {
    if op.MarkUse? { UseSet(m, ss, w, op.win, op.t); }
  }

  /* ---- plans of other threads ---- */

  /** A timestamp that stays when rotating does not share an entry with a later one. */
  lemma EntriesApart(w: Window, r: nat, t: nat, t2: nat)
    requires WinOk(w) && r <= |w.stores| && InWindow(w, t) && t < t2
    requires var v := RotateBy(w, r); v.offset <= t && InWindow(v, t2)
    ensures StoreOf(RotateBy(w, r), t2) == StoreOf(w, t) ==> Column(t2) != Column(t)
  {
    var v := RotateBy(w, r);
    assert InWindow(v, t);
    RotatedStays(w, r, t);
    RotateExtends(w, r);
    if StoreOf(v, t2) == StoreOf(w, t) && Column(t2) == Column(t) {
      Injective(v, t2, t);
    }
  }

  /** Clearing the bit of a timestamp in use does not clear the one a free has set for the next. */
  lemma UnuseSpares(m: Mem, ss: Stores, w: World, op: Op, ss': Stores, v: Window, r: nat)
    requires Matches(m, ss, w) && op.Unuse? && Reaching(m, w, op.win, op.t) && StoreStep(ss, op, ss')
    requires r <= |w.win.stores| && v == RotateBy(w.win, r) && (r > 0 ==> Dead(m, w, r)) && Used(ss, v, w.ts + 1)
    ensures Used(ss', v, w.ts + 1)
  {
    Addressable(m, ss, w, op.win, op.t);
    assert op.t in m.entries && op.t <= w.ts;
    EntriesApart(w.win, r, op.t, w.ts + 1);
    OnlyUnuseClears(ss, op, ss', v, w.ts + 1);
  }

  lemma UsedKept(m: Mem, ss: Stores, w: World, op: Op, ss': Stores, v: Window, r: nat)
    requires Matches(m, ss, w) && (op.Unuse? ==> Reaching(m, w, op.win, op.t)) && StoreStep(ss, op, ss')
    requires !op.Create? && !op.FreeStores?
    requires r <= |w.win.stores| && v == RotateBy(w.win, r) && (r > 0 ==> Dead(m, w, r)) && Used(ss, v, w.ts + 1)
    ensures Used(ss', v, w.ts + 1)
  {
    hide StepOf;
    if op.Unuse? {
      UnuseSpares(m, ss, w, op, ss', v, r);
    } else if SlotOp(op) {
      OnlyUnuseClears(ss, op, ss', v, w.ts + 1);
    }
  }

  /** A step of another thread leaves a plan in order. */
  lemma PlanKept(m: Mem, ss: Stores, w: World, op: Op, m': Mem, ss': Stores, now: bool, now': bool, s: World,
      plan: Plan)
    requires Matches(m, ss, w) && (op.Unuse? ==> Reaching(m, w, op.win, op.t)) && StoreStep(ss, op, ss')
    requires PlanOk(m, ss, now, s, plan) && (now' ==> now && s == w && !op.Create? && !op.FreeStores?)
    requires forall t: nat :: Live(m', t) && t <= s.ts ==> Live(m, t)
    ensures PlanOk(m', ss', now', s, plan)
  {
    hide StepOf, StoreStep, OpOf, NextMem;
    if now' && plan.Ready? { UsedKept(m, ss, w, op, ss', plan.win, plan.reused); }
    if now' && plan.Fresh? && InWindow(s.win, s.ts + 1) {
      RotateByNone(w.win);
      UsedKept(m, ss, w, op, ss', w.win, 0);
    }
    PlanStays(m, ss, now, m', ss', now', s, plan);
  }
}
