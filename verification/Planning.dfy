/** Making room for the next timestamp. The reuse loop tests storage i and rotates storage 0, and still
    only ever rotates storages away in which nothing is in use. */
module Planning {
  import opened AbaTypes
  import opened Protocol
  import opened Entries
  import opened Windows
  import opened Storages
  import opened Refinement

  function Max(a: int, b: int): int { if a >= b then a else b }

  /** After i iterations with r rotations, f of which were for storages found idle up to the row of the
      timestamp: those f show that the first 2f - 1 storages are dead, and there were never more
      rotations than that when the loop ends. */
  ghost predicate LoopOk(m: Mem, s: World, i: nat, r: nat, f: nat, w: Window) {
    var q := CurrentRow(s);
    && s.ts > 0 && q < |s.win.stores|
    && f <= r <= i <= q
    && w == RotateBy(s.win, r)
    && r <= f + Max(0, i + f - 1 - q)
    && (f > 0 ==> Dead(m, s, 2 * f - 1))
  }

  ghost predicate ReadyOk(m: Mem, s: World, w: Window, r: nat) {
    && r <= |s.win.stores| && w == RotateBy(s.win, r) && InWindow(w, s.ts + 1)
    && (r > 0 ==> s.ts > 0 && r <= CurrentRow(s) && Dead(m, s, r))
  }

  /** The usage bit of a timestamp is set, where window v says it is. */
  predicate Used(ss: Stores, v: Window, t: nat) {
    Reaches(ss, v, t) && Column(t) in ss[StoreOf(v, t)].use
  }

  /** What a free knows about its plan; `now` says that the world it planned for is still current. */
  ghost predicate PlanOk(m: Mem, ss: Stores, now: bool, s: World, plan: Plan) {
    match plan
    case Rotating(i, r, f, w) => LoopOk(m, s, i, r, f, w)
    case Ready(w, r) => ReadyOk(m, s, w, r) && (now ==> Used(ss, w, s.ts + 1))
    case Fresh(_) => now && InWindow(s.win, s.ts + 1) ==> Used(ss, s.win, s.ts + 1)
  }

  lemma DeadLess(m: Mem, s: World, k: nat, j: nat)
    requires Dead(m, s, k) && j <= k
    ensures Dead(m, s, j)
  {
    if j < k { RowLess(j, k); }
  }

  /** The storage the loop tests. */
  lemma TestedIs(m: Mem, s: World, i: nat, r: nat, f: nat, v: Window)
    requires LoopOk(m, s, i, r, f, v) && i < CurrentRow(s)
    ensures i < |v.stores| && (i + r < |s.win.stores| ==> v.stores[i] == s.win.stores[i + r])
  {
  }

  /** An idle storage up to the row of the timestamp shows two more storages to be dead. */
  lemma EarlyHit(m: Mem, ss: Stores, w: World, s: World, i: nat, r: nat, f: nat)
    requires Matches(m, ss, w) && Suffix(m) && WorldWinOk(s) && Extends(s.win, w.win) && 0 < s.ts <= w.ts
    requires f <= r <= i && i + r <= CurrentRow(s) && i + r < |s.win.stores|
    requires s.win.stores[i + r] in ss && ss[s.win.stores[i + r]].use == {}
    ensures Dead(m, s, 2 * (f + 1) - 1)
  {
    hide *;
    IdleMeansDead(m, ss, w, s, i + r);
    DeadLess(m, s, i + r + 1, 2 * (f + 1) - 1);
  }

  /** One iteration of the loop, whatever it finds. */
  lemma NextOk(m: Mem, s: World, i: nat, r: nat, f: nat, v: Window)
    requires LoopOk(m, s, i, r, f, v) && i < CurrentRow(s)
    ensures LoopOk(m, s, i + 1, r, f, v)
    ensures i + r > CurrentRow(s) ==> LoopOk(m, s, i + 1, r + 1, f, Rotate(v))
    ensures Dead(m, s, 2 * (f + 1) - 1) ==> LoopOk(m, s, i + 1, r + 1, f + 1, Rotate(v))
  {
    RotateNext(s.win, r);
  }

  /** When the loop ends every storage it rotated is dead, and the current one is not among them. */
  lemma LoopDone(m: Mem, s: World, r: nat, f: nat, w: Window)
    requires LoopOk(m, s, CurrentRow(s), r, f, w)
    ensures r <= CurrentRow(s) && (r > 0 ==> f > 0 && r <= 2 * f - 1 && Dead(m, s, r))
  {
    if r > 0 { DeadLess(m, s, 2 * f - 1, r); }
  }

  /** Rotating at least one storage makes room for the next timestamp. */
  lemma RotatedHasRoom(s: World, r: nat)
    requires WorldWinOk(s) && s.ts > 0 && 0 < r <= CurrentRow(s)
    ensures InWindow(RotateBy(s.win, r), s.ts + 1)
  {
    var w := RotateBy(s.win, r);
    assert |w.stores| == |s.win.stores|;
    RowLess(0, r);
    var q := CurrentRow(s);
    if r < q { RowLess(r, q); }
    assert w.offset == s.win.offset + r * N <= s.win.offset + q * N <= s.ts;
    assert s.ts < End(s.win) <= End(w) - N;
  }

  lemma ReuseOk(m: Mem, s: World, p: Plan, idle: bool)
    requires p.Rotating? && LoopOk(m, s, p.i, p.reused, p.first, p.win) && p.i < CurrentRow(s)
    requires idle && p.i + p.reused <= CurrentRow(s) ==> Dead(m, s, 2 * (p.first + 1) - 1)
    ensures PlanLoopOk(m, s, ReuseNext(s, p, idle))
  {
    NextOk(m, s, p.i, p.reused, p.first, p.win);
  }

  ghost predicate PlanLoopOk(m: Mem, s: World, p: Plan) {
    p.Rotating? && LoopOk(m, s, p.i, p.reused, p.first, p.win)
  }

  lemma ProbeOk(m: Mem, ss: Stores, w: World, s: World, p: Plan, idle: bool)
    requires Matches(m, ss, w) && Suffix(m) && WorldWinOk(s) && Extends(s.win, w.win) && s.ts <= w.ts
    requires PlanLoopOk(m, s, p) && p.i < CurrentRow(s) && p.i < |p.win.stores|
    requires p.win.stores[p.i] in ss && (idle <==> ss[p.win.stores[p.i]].use == {})
    ensures idle && p.i + p.reused <= CurrentRow(s) ==> Dead(m, s, 2 * (p.first + 1) - 1)
  {
    TestedIs(m, s, p.i, p.reused, p.first, p.win);
    if idle && p.i + p.reused <= CurrentRow(s) {
      EarlyHit(m, ss, w, s, p.i, p.reused, p.first);
    }
  }

  lemma RotateByNone(v: Window)
    ensures RotateBy(v, 0) == v
  {
    assert v.stores[0..] + v.stores[..0] == v.stores;
  }

  lemma RotatingOk(m: Mem, ss: Stores, w: World, s: World, st: Stage, plan: Plan, op: Op, ss': Stores)
    requires Matches(m, ss, w) && Suffix(m) && WorldWinOk(s) && Extends(s.win, w.win) && s.ts <= w.ts
    requires (st.Trying? || st.Planning?) && st.s.world == s && plan.Rotating?
    requires plan.i > 0 && st.Planning? && st.plan.Rotating? ==> PlanLoopOk(m, s, st.plan)
    requires PlanStep(st, plan, op) && StoreStep(ss, op, ss')
    ensures PlanLoopOk(m, s, plan)
  {
    if plan.i == 0 {
      RotateByNone(s.win);
    } else {
      ProbeOk(m, ss, w, s, st.plan, op.idle);
      ReuseOk(m, s, st.plan, op.idle);
    }
  }

  /** A plan that ends in setting the usage bit. */
  lemma ReadyIsOk(m: Mem, ss: Stores, s: World, st: Stage, plan: Plan, op: Op, ss': Stores)
    requires (st.Trying? || st.Planning?) && st.s.world == s && plan.Ready?
    requires st.Planning? && st.plan.Rotating? ==> PlanLoopOk(m, s, st.plan)
    requires PlanStep(st, plan, op) && StoreStep(ss, op, ss')
    ensures ReadyOk(m, s, plan.win, plan.reused) && Used(ss', plan.win, s.ts + 1)
  {
    RotateByNone(s.win);
    if plan.reused > 0 { LoopDone(m, s, plan.reused, st.plan.first, plan.win); }
  }

  /** Every planning step keeps the plan in order. `ss'` already has the usage bit set. */
  lemma PlanStepOk(m: Mem, ss: Stores, w: World, s: World, st: Stage, now: bool, plan: Plan, op: Op, ss': Stores)
    requires Matches(m, ss, w) && Suffix(m) && WorldWinOk(s) && Extends(s.win, w.win) && s.ts <= w.ts
    requires (st.Trying? || st.Planning?) && st.s.world == s
    requires st.Planning? && st.plan.Rotating? ==> PlanLoopOk(m, s, st.plan)
    requires PlanStep(st, plan, op) && StoreStep(ss, op, ss')
    ensures PlanOk(m, ss', now, s, plan)
  {
    if plan.Rotating? {
      RotatingOk(m, ss, w, s, st, plan, op, ss');
    } else if plan.Ready? {
      ReadyIsOk(m, ss, s, st, plan, op, ss');
    }
  }

  /** Other steps leave a plan in order, as long as they bring nothing back to life and clear no bit
      that the plan has set. */
  lemma PlanStays(m: Mem, ss: Stores, now: bool, m': Mem, ss': Stores, now': bool, s: World, plan: Plan)
    requires PlanOk(m, ss, now, s, plan) && (now' ==> now)
    requires forall t: nat :: Live(m', t) && t <= s.ts ==> Live(m, t)
    requires now' && plan.Ready? ==> Used(ss', plan.win, s.ts + 1)
    requires now' && plan.Fresh? && InWindow(s.win, s.ts + 1) ==> Used(ss', s.win, s.ts + 1)
    ensures PlanOk(m', ss', now', s, plan)
  {
  }
}
