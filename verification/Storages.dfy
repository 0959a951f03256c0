/** The timestamp entries as they are in memory: rows of N slots with usage bits, found through the
    window of a world; and the protocol running on them. */
module Storages {
  import opened AbaTypes
  import opened Protocol
  import opened Windows

  datatype Slot = Slot(rc: int, list: multiset<Item>)
  datatype Store = Store(use: set<nat>, slots: seq<Slot>)
  type Stores = map<Sid, Store>

  const PRISTINE := Slot(-1, multiset{})

  /** The index of a timestamp in its window is valid and the storage is allocated. */
  predicate Reaches(ss: Stores, v: Window, t: nat) {
    InWindow(v, t) && StoreOf(v, t) in ss && |ss[StoreOf(v, t)].slots| == N
  }

  function Column(t: nat): (c: nat)
    ensures c < N
  {
    t % N
  }

  function SlotAt(ss: Stores, v: Window, t: nat): Slot
    requires Reaches(ss, v, t)
  {
    ss[StoreOf(v, t)].slots[Column(t)]
  }

  function SetSlot(ss: Stores, v: Window, t: nat, s: Slot): Stores
    requires Reaches(ss, v, t)
  {
    var st := ss[StoreOf(v, t)];
    ss[StoreOf(v, t) := st.(slots := st.slots[Column(t) := s])]
  }

  function SetUse(ss: Stores, v: Window, t: nat, bit: bool): Stores
    requires Reaches(ss, v, t)
  {
    var st := ss[StoreOf(v, t)];
    ss[StoreOf(v, t) := st.(use := if bit then st.use + {Column(t)} else st.use - {Column(t)})]
  }

  /** A storage fresh from the allocator. A retry may already have set usage bits in it. */
  predicate FreshStore(st: Store) {
    |st.slots| == N && forall c :: 0 <= c < N ==> st.slots[c] == PRISTINE
  }

  ghost predicate StoreStep(ss: Stores, op: Op, ss': Stores) {
    match op
    case FetchSub(v, t, prev) =>
      && Reaches(ss, v, t) && prev == SlotAt(ss, v, t).rc
      && ss' == SetSlot(ss, v, t, SlotAt(ss, v, t).(rc := prev - 1))
    case FetchAdd(v, t, n) =>
      && Reaches(ss, v, t)
      && ss' == SetSlot(ss, v, t, SlotAt(ss, v, t).(rc := SlotAt(ss, v, t).rc + n))
    case Push(v, t, it) =>
      && Reaches(ss, v, t)
      && ss' == SetSlot(ss, v, t, SlotAt(ss, v, t).(list := SlotAt(ss, v, t).list + multiset{it}))
    case PeekList(v, t, list) => Reaches(ss, v, t) && multiset(list) == SlotAt(ss, v, t).list && ss' == ss
    case Wipe(v, t) => Reaches(ss, v, t) && ss' == SetSlot(ss, v, t, SlotAt(ss, v, t).(list := multiset{}))
    case Unuse(v, t) => Reaches(ss, v, t) && ss' == SetUse(ss, v, t, false)
    case MarkUse(v, t) => Reaches(ss, v, t) && ss' == SetUse(ss, v, t, true)
    case Probe(sid, idle) => sid in ss && (idle <==> ss[sid].use == {}) && ss' == ss
    case Create(was, v, t) =>
      if |v.stores| == |was.stores| + 1 then
        var sid := v.stores[|was.stores|];
        && sid !in ss && sid in ss' && ss' == ss[sid := ss'[sid]] && FreshStore(ss'[sid])
        && (InWindow(v, t) && StoreOf(v, t) == sid ==> Column(t) in ss'[sid].use)
      else ss' == ss
    case FreeStores(v) => ss' == ss - Elems(v.stores)
    case _ => ss' == ss
  }

  /* ---- how a free makes room for the next timestamp ---- */

  /** The storage the current timestamp of a world is in; the reuse loop stops there. */
  function CurrentRow(w: World): nat {
    if InWindow(w.win, w.ts) then RowAt(w.win, w.ts) else 0
  }

  /** One iteration of the reuse loop: it tests storage i, but rotates storage 0, and keeps the row of
      the current timestamp it started with. `first` counts the storages found idle that were up to
      that row before any rotation. */
  function ReuseNext(w: World, p: Plan, idle: bool): Plan
    requires p.Rotating? && p.win.stores != []
  {
    if !idle then Rotating(p.i + 1, p.reused, p.first, p.win)
    else Rotating(p.i + 1, p.reused + 1,
                  if p.i + p.reused <= CurrentRow(w) then p.first + 1 else p.first, Rotate(p.win))
  }

  /** The steps of preparing a world with room for the next timestamp: start the reuse loop, one
      iteration of it, set the usage bit for the next timestamp, or decide for a new storage. */
  ghost predicate PlanStep(st: Stage, plan: Plan, op: Op)
    requires st.Trying? || st.Planning?
  {
    var w := st.s.world;
    match plan
    case Rotating(i, _, _, _) =>
      if i == 0 then
        w.ts > 0 && plan == Rotating(0, 0, 0, w.win) && op == Nop
      else
        && st.Planning? && st.plan.Rotating? && st.plan.i < CurrentRow(w) && st.plan.i < |st.plan.win.stores|
        && op.Probe? && op.sid == st.plan.win.stores[st.plan.i]
        && plan == ReuseNext(w, st.plan, op.idle)
    case Ready(win, r) =>
      && op == MarkUse(win, w.ts + 1) && InWindow(win, w.ts + 1)
      && (|| (win == w.win && r == 0)
          || (st.Planning? && st.plan.Rotating? && st.plan.i == CurrentRow(w)
              && st.plan.reused == r && r > 0 && win == st.plan.win))
    case Fresh(_) => op == if InWindow(w.win, w.ts + 1) then MarkUse(w.win, w.ts + 1) else Nop
  }

  /** The window of the world that is swapped in. */
  ghost predicate SwapStep(s: Seen, plan: Plan, win: Window) {
    match plan
    case Rotating(_, _, _, _) => false
    case Ready(w, _) => win == w
    case Fresh(grow) =>
      var v := s.world.win;
      && (grow || |v.stores| < v.size)
      && |win.stores| == |v.stores| + 1
      && win == AddStore(v, win.stores[|v.stores|], if grow then v.size + 1 else v.size)
  }

  ghost predicate RoomStep(act: Act, x: Thread) {
    && (act.FreePlan? ==>
          x.pc.Free? && (x.pc.stage.Trying? || x.pc.stage.Planning?) && PlanStep(x.pc.stage, act.plan, act.op))
    && (act.FreeSwap? ==> x.pc.Free? && x.pc.stage.Planning? && SwapStep(x.pc.stage.s, x.pc.stage.plan, act.win))
  }

  /* ---- the machine ---- */

  datatype Real = Real(sh: Shared, th: map<Tid, Thread>, ss: Stores) {
    function Th(i: Tid): Thread { if i in th then th[i] else NOBODY }
  }

  ghost predicate RealInit(c: Real) {
    && !c.sh.cur.bit && !c.sh.cur.lock
    && CurOk(c.sh) && c.sh.heap.Keys == {c.sh.cur.w}
    && (exists size: nat :: size > 0 && W(c.sh) == World(0, 0, Window(0, size, [])))
    && c.sh.leaks == {} && c.sh.slot == map[] && c.sh.place == map[Old(c.sh.cur.w) := Current]
    && (forall i :: i in c.th ==> c.Th(i) == Thread(0, Idle, {}))
    && c.ss == map[]
  }

  ghost predicate RealStep(c: Real, tid: Tid, act: Act, c': Real) {
    && tid in c.th && tid in c'.th
    && c'.th == c.th[tid := c'.Th(tid)]
    && ThreadStep(act, c.sh, tid, c.Th(tid), c'.sh, c'.Th(tid))
    && RoomStep(act, c.Th(tid))
    && StoreStep(c.ss, OpOf(act, c.sh, c.Th(tid)), c'.ss)
  }
}
