/** Register, free, checkin and unregister as steps of threads on shared memory.
    One step is one access to shared memory: a read of the world pointer, a compare-and-swap,
    one operation on a timestamp entry, one callback. */
module Protocol {
  import opened AbaTypes

  /** What the operation that called `free` for an old world does next. */
  datatype Ret =
    | ToIdle
    | ToChain
    | ToLook(upto: nat)
    | ToWalk(upto: nat, s: Seen)
    | ToUnregister

  /** How a free intends to make room for the next timestamp. */
  datatype Plan =
    | Rotating(i: nat, reused: nat, first: nat, win: Window)  // in the reuse loop, about to test storage i
    | Ready(win: Window, reused: nat)                         // usage bit set, world about to be swapped in
    | Fresh(grow: bool)                                       // add a storage, growing the world or not

  datatype Stage =
    | Reading(it: Item)
    | Trying(it: Item, s: Seen)
    | Planning(it: Item, s: Seen, plan: Plan)
    | Adding(it: Item, s: Seen, spare: set<Item>)
    | Appending(it: Item, s: Seen, spare: set<Item>)
    | Trailing(s: Seen, spare: set<Item>)
    | Immediate(it: Item)

  datatype Phase = Dec | Peek | Null(batch: set<Item>) | Clear(batch: set<Item>) | Run(batch: set<Item>)

  datatype Pc =
    | Idle
    | Locking
    | Registering(s: Seen)
    | Disposing
    | Free(stage: Stage, ret: Ret)
    | Marking(s: Seen, s0: Seen, upto: nat, un: bool)
    | Copying(s: Seen, upto: nat, un: bool)
    | Looking(upto: nat)
    | Walk(t: nat, upto: nat, s: Seen, phase: Phase, un: bool)
    | UnregRead
    | LockTry(s: Seen, upto: nat)
    | Removing(s: Seen, upto: nat)
    | Unlocking(s: Seen)
    | Leaking(a: Addr)
    | Cleaning(a: Addr, b: Addr)
    | Reopening(b: Addr)

  /** `last` is the thread-local timestamp (0: not registered), `held` the chain of worlds to dispose of. */
  datatype Thread = Thread(last: nat, pc: Pc, held: set<Item>)

  const NOBODY := Thread(0, Idle, {})

  /** What all threads share, apart from the timestamp entries. `place` and `slot` are history:
      where each item is, and the timestamp whose list it was assigned to. */
  datatype Shared = Shared(
    cur: Ptr,
    heap: map<Addr, World>,
    leaks: set<Item>,
    place: map<Item, Place>,
    slot: map<Item, nat>)

  /** Operations on timestamp entries; `win` is the window through which the thread finds the entry. */
  datatype Op =
    | Nop
    | FetchSub(win: Window, t: nat, prev: int)
    | FetchAdd(win: Window, t: nat, n: nat)
    | Push(win: Window, t: nat, it: Item)
    | PeekList(win: Window, t: nat, list: set<Item>)
    | Wipe(win: Window, t: nat)
    | Unuse(win: Window, t: nat)
    | Probe(sid: Sid, idle: bool)
    | MarkUse(win: Window, t: nat)
    | Create(was: Window, win: Window, t: nat)
    | Forget
    | FreeStores(win: Window)

  datatype Act =
    | CallRegister | Lock | RegisterOk(a: Addr) | RegisterFail | ChainNext(it: Item) | ChainDone
    | CallFree(k: nat) | FreeRead | FreeRetry | FreeAlone | FreePlan(plan: Plan, op: Op)
    | FreeSwap(a: Addr, win: Window) | FreeAdd | FreeEnter | FreeAppend | FreeAppendOld(it: Item)
    | FreeDone | FreeNow
    | CallCheckin | MarkSeen | MarkOk | MarkFail | MarkLocked | CopyOk(a: Addr) | CopyFail | Look
    | Decrement(prev: int) | SnipList(list: set<Item>) | WipeList | ClearUse | RunItem(it: Item)
    | RunDone | WalkDone
    | CallUnregister | UnregLook | LockOk | LockRetry | LockFail | RemoveAgain | RemoveOk(a: Addr)
    | RemoveLast(a: Addr) | UnlockOk | UnlockFail | Leak | Clean | Reopen

  /* ---- reading and changing the shared state ---- */

  predicate CurOk(sh: Shared) { sh.cur.w in sh.heap }

  /** The current world. */
  function W(sh: Shared): World { if CurOk(sh) then sh.heap[sh.cur.w] else World(0, 0, Window(0, 0, [])) }

  /** What a thread sees that reads the world pointer now. */
  function Now(sh: Shared): Seen { Seen(sh.cur, W(sh)) }

  /** A successful swap by `tid` that publishes world `w` at the fresh address `a`. A world that is
      swapped out while locked stays with its locker. */
  function Publish(sh: Shared, tid: Tid, a: Addr, w: World, bit: bool, lock: bool): Shared {
    var kept := if sh.cur.lock then sh.place else sh.place[Old(sh.cur.w) := Held(tid)];
    sh.(cur := Ptr(a, bit, lock),
        heap := sh.heap[a := w],
        place := kept[Old(a) := if lock then Held(tid) else Current])
  }

  function SetLock(sh: Shared, tid: Tid): Shared {
    sh.(cur := sh.cur.(lock := true), place := sh.place[Old(sh.cur.w) := Held(tid)])
  }

  function ClearLock(sh: Shared): Shared {
    sh.(cur := sh.cur.(lock := false), place := sh.place[Old(sh.cur.w) := Current])
  }

  function Move(sh: Shared, it: Item, p: Place): Shared {
    sh.(place := sh.place[it := p])
  }

  function MoveAll(sh: Shared, its: set<Item>, p: Place): Shared {
    sh.(place := map x | x in sh.place :: if x in its then p else sh.place[x])
  }

  function Assign(sh: Shared, its: set<Item>, t: nat): Shared {
    sh.(slot := map x | x in sh.slot.Keys + its :: if x in its then t else sh.slot[x])
  }

  /** Reading a world whose bit is 0 fixes the list for the item. */
  function AssignIfClear(sh: Shared, it: Item): Shared {
    if sh.cur.bit then sh else Assign(sh, {it}, W(sh).ts)
  }

  /** The callback of an item runs: a world is given back to the allocator. */
  function Finish(sh: Shared, it: Item): Shared {
    match it
    case User(_) => Move(sh, it, Ran)
    case Old(a) => sh.(heap := sh.heap - {a}, place := sh.place - {it}, slot := sh.slot - {it})
  }

  /** The last thread gives back the leaked worlds and the one it has unlocked itself from. */
  function FinishAll(sh: Shared, a: Addr): Shared {
    var its := sh.leaks + {Old(a)};
    sh.(heap := map b | b in sh.heap && Old(b) !in its :: sh.heap[b],
        place := sh.place - its, slot := sh.slot - its, leaks := {})
  }

  function After(ret: Ret, last: nat): Pc {
    match ret
    case ToIdle => Idle
    case ToChain => Disposing
    case ToLook(upto) => Looking(upto)
    case ToWalk(upto, s) => Walk(last, upto, s, Dec, true)
    case ToUnregister => UnregRead
  }

  /** Where a checkin goes once it has set or seen the bit. */
  function Marked(x: Thread, s: Seen, upto: nat, un: bool): Pc {
    if un then Walk(x.last, upto, s, Dec, true) else Looking(upto)
  }

  /* ---- register ---- */

  ghost predicate DoCallRegister(sh: Shared, x: Thread, sh': Shared, x': Thread) {
    x.pc == Idle && x.last == 0 && sh' == sh && x' == x.(pc := Locking)
  }

  ghost predicate DoLock(sh: Shared, tid: Tid, x: Thread, sh': Shared, x': Thread) {
    && x.pc == Locking && CurOk(sh) && !sh.cur.lock
    && sh' == SetLock(sh, tid)
    && x' == x.(pc := Registering(Seen(sh'.cur, W(sh))))
  }

  ghost predicate DoRegisterOk(sh: Shared, tid: Tid, x: Thread, sh': Shared, x': Thread, a: Addr) {
    && x.pc.Registering? && sh.cur == x.pc.s.at && a !in sh.heap
    && var w := x.pc.s.world;
    && sh' == Publish(sh, tid, a, w.(n := w.n + 1), true, false)
    && x' == Thread(w.ts + 1, Disposing, x.held + {Old(x.pc.s.at.w)})
  }

  ghost predicate DoRegisterFail(sh: Shared, x: Thread, sh': Shared, x': Thread) {
    && x.pc.Registering? && sh.cur != x.pc.s.at
    && sh' == sh
    && x' == x.(pc := Locking, held := x.held + {Old(x.pc.s.at.w)})
  }

  ghost predicate DoChainNext(sh: Shared, x: Thread, sh': Shared, x': Thread, it: Item) {
    && x.pc == Disposing && it in x.held
    && sh' == sh
    && x' == x.(pc := Free(Reading(it), ToChain), held := x.held - {it})
  }

  ghost predicate DoChainDone(sh: Shared, x: Thread, sh': Shared, x': Thread) {
    x.pc == Disposing && x.held == {} && sh' == sh && x' == x.(pc := Idle)
  }

  /* ---- free ---- */

  ghost predicate DoCallFree(sh: Shared, tid: Tid, x: Thread, sh': Shared, x': Thread, k: nat) {
    && x.pc == Idle && x.last > 0 && User(k) !in sh.place
    && sh' == Move(sh, User(k), Held(tid))
    && x' == x.(pc := Free(Reading(User(k)), ToIdle))
  }

  ghost predicate DoFreeRead(sh: Shared, tid: Tid, x: Thread, sh': Shared, x': Thread) {
    && x.pc.Free? && x.pc.stage.Reading? && CurOk(sh)
    && var it := x.pc.stage.it;
    if W(sh).n <= 1 then
      sh' == Move(sh, it, Alone(tid)) && x' == x.(pc := Free(Immediate(it), x.pc.ret))
    else
      sh' == AssignIfClear(sh, it) && x' == x.(pc := Free(Trying(it, Now(sh)), x.pc.ret))
  }

  /** The world changed behind the thread's back, or the chosen action did not apply: read again. */
  ghost predicate DoFreeRetry(sh: Shared, x: Thread, sh': Shared, x': Thread) {
    && x.pc.Free? && CurOk(sh)
    && ((x.pc.stage.Trying? && x.pc.stage.s.at.bit) || x.pc.stage.Planning?)
    && sh' == AssignIfClear(sh, x.pc.stage.it)
    && x' == x.(pc := Free(Trying(x.pc.stage.it, Now(sh)), x.pc.ret))
  }

  /** Reading again, the thread finds itself alone. */
  ghost predicate DoFreeAlone(sh: Shared, tid: Tid, x: Thread, sh': Shared, x': Thread) {
    && x.pc.Free? && CurOk(sh) && W(sh).n <= 1
    && ((x.pc.stage.Trying? && x.pc.stage.s.at.bit) || x.pc.stage.Planning?)
    && sh' == Move(sh, x.pc.stage.it, Alone(tid))
    && x' == x.(pc := Free(Immediate(x.pc.stage.it), x.pc.ret))
  }

  ghost predicate DoFreePlan(sh: Shared, x: Thread, sh': Shared, x': Thread, plan: Plan) {
    && x.pc.Free?
    && ((x.pc.stage.Trying? && x.pc.stage.s.at.bit && x.pc.stage.s.world.n > 1) || x.pc.stage.Planning?)
    && sh' == sh
    && x' == x.(pc := Free(Planning(x.pc.stage.it, x.pc.stage.s, plan), x.pc.ret))
  }

  ghost predicate DoFreeSwap(sh: Shared, tid: Tid, x: Thread, sh': Shared, x': Thread, a: Addr, win: Window) {
    && x.pc.Free? && x.pc.stage.Planning? && sh.cur == x.pc.stage.s.at && a !in sh.heap
    && var s := x.pc.stage.s;
    && var w := World(s.world.ts + 1, s.world.n, win);
    && var spare := if s.at.lock then {} else {Old(s.at.w)};
    && sh' == Assign(Publish(sh, tid, a, w, false, false), {x.pc.stage.it} + spare, w.ts)
    && x' == x.(pc := Free(Adding(x.pc.stage.it, Seen(sh'.cur, w), spare), x.pc.ret))
  }

  ghost predicate DoFreeAdd(sh: Shared, x: Thread, sh': Shared, x': Thread) {
    && x.pc.Free? && x.pc.stage.Adding?
    && sh' == sh
    && x' == x.(pc := Free(Appending(x.pc.stage.it, x.pc.stage.s, x.pc.stage.spare), x.pc.ret))
  }

  ghost predicate DoFreeEnter(sh: Shared, x: Thread, sh': Shared, x': Thread) {
    && x.pc.Free? && x.pc.stage.Trying? && !x.pc.stage.s.at.bit
    && sh' == sh
    && x' == x.(pc := Free(Appending(x.pc.stage.it, x.pc.stage.s, {}), x.pc.ret))
  }

  ghost predicate DoFreeAppend(sh: Shared, x: Thread, sh': Shared, x': Thread) {
    && x.pc.Free? && x.pc.stage.Appending?
    && sh' == Move(sh, x.pc.stage.it, Listed(x.pc.stage.s.world.ts))
    && x' == x.(pc := Free(Trailing(x.pc.stage.s, x.pc.stage.spare), x.pc.ret))
  }

  ghost predicate DoFreeAppendOld(sh: Shared, x: Thread, sh': Shared, x': Thread, it: Item) {
    && x.pc.Free? && x.pc.stage.Trailing? && it in x.pc.stage.spare
    && sh' == Move(sh, it, Listed(x.pc.stage.s.world.ts))
    && x' == x.(pc := Free(Trailing(x.pc.stage.s, x.pc.stage.spare - {it}), x.pc.ret))
  }

  ghost predicate DoFreeDone(sh: Shared, x: Thread, sh': Shared, x': Thread) {
    && x.pc.Free? && x.pc.stage.Trailing? && x.pc.stage.spare == {}
    && sh' == sh && x' == x.(pc := After(x.pc.ret, x.last))
  }

  ghost predicate DoFreeNow(sh: Shared, x: Thread, sh': Shared, x': Thread) {
    && x.pc.Free? && x.pc.stage.Immediate?
    && sh' == Finish(sh, x.pc.stage.it) && x' == x.(pc := After(x.pc.ret, x.last))
  }

  /* ---- checkin, also the first half of unregister ---- */

  ghost predicate DoCallCheckin(sh: Shared, x: Thread, sh': Shared, x': Thread) {
    && x.pc == Idle && x.last > 0 && CurOk(sh) && sh' == sh
    && x' == if x.last > W(sh).ts then x else x.(pc := Marking(Now(sh), Now(sh), W(sh).ts, false))
  }

  /** The bit is already set in an unlocked world: nothing to swap. */
  ghost predicate DoMarkSeen(sh: Shared, x: Thread, sh': Shared, x': Thread) {
    && x.pc.Marking? && !x.pc.s.at.lock && x.pc.s.at.bit
    && sh' == sh && x' == x.(pc := Marked(x, x.pc.s, x.pc.upto, x.pc.un))
  }

  ghost predicate DoMarkOk(sh: Shared, x: Thread, sh': Shared, x': Thread) {
    && x.pc.Marking? && !x.pc.s.at.lock && !x.pc.s.at.bit && sh.cur == x.pc.s.at
    && sh' == sh.(cur := sh.cur.(bit := true))
    && x' == x.(pc := Marked(x, Seen(sh'.cur, x.pc.s.world), x.pc.upto, x.pc.un))
  }

  ghost predicate DoMarkFail(sh: Shared, x: Thread, sh': Shared, x': Thread) {
    && x.pc.Marking? && !x.pc.s.at.lock && !x.pc.s.at.bit && sh.cur != x.pc.s.at && CurOk(sh)
    && sh' == sh && x' == x.(pc := Marking(Now(sh), x.pc.s0, x.pc.upto, x.pc.un))
  }

  /** A locked world is never changed in place: start over with a copy of the world first read. */
  ghost predicate DoMarkLocked(sh: Shared, x: Thread, sh': Shared, x': Thread) {
    && x.pc.Marking? && x.pc.s.at.lock
    && sh' == sh && x' == x.(pc := Copying(x.pc.s0, x.pc.upto, x.pc.un))
  }

  ghost predicate DoCopyOk(sh: Shared, tid: Tid, x: Thread, sh': Shared, x': Thread, a: Addr) {
    && x.pc.Copying? && sh.cur == x.pc.s.at && a !in sh.heap
    && sh' == Publish(sh, tid, a, x.pc.s.world, true, false)
    && var s' := Seen(sh'.cur, x.pc.s.world);
    && x' == x.(pc :=
         if x.pc.s.at.lock then Marked(x, s', x.pc.upto, x.pc.un)
         else Free(Reading(Old(x.pc.s.at.w)), if x.pc.un then ToWalk(x.pc.upto, s') else ToLook(x.pc.upto)))
  }

  ghost predicate DoCopyFail(sh: Shared, x: Thread, sh': Shared, x': Thread) {
    && x.pc.Copying? && sh.cur != x.pc.s.at && CurOk(sh)
    && sh' == sh && x' == x.(pc := Copying(Now(sh), x.pc.upto, x.pc.un))
  }

  ghost predicate DoLook(sh: Shared, x: Thread, sh': Shared, x': Thread) {
    && x.pc.Looking? && CurOk(sh)
    && sh' == sh && x' == x.(pc := Walk(x.last, x.pc.upto, Now(sh), Dec, false))
  }

  function AtWalk(pc: Pc, t: nat, phase: Phase): Pc
    requires pc.Walk?
  {
    Walk(t, pc.upto, pc.s, phase, pc.un)
  }

  /** The loop over the owed timestamps; `prev` is the retain count before the decrement. */
  ghost predicate DoDecrement(sh: Shared, x: Thread, sh': Shared, x': Thread, prev: int) {
    && x.pc.Walk? && x.pc.phase == Dec && x.pc.t <= x.pc.upto
    && sh' == sh
    && x' == x.(pc := if prev != 0 then AtWalk(x.pc, x.pc.t + 1, Dec) else AtWalk(x.pc, x.pc.t, Peek))
  }

  ghost predicate DoSnipList(sh: Shared, x: Thread, sh': Shared, x': Thread, list: set<Item>) {
    && x.pc.Walk? && x.pc.phase == Peek
    && sh' == sh && x' == x.(pc := AtWalk(x.pc, x.pc.t, Null(list)))
  }

  ghost predicate DoWipeList(sh: Shared, tid: Tid, x: Thread, sh': Shared, x': Thread) {
    && x.pc.Walk? && x.pc.phase.Null?
    && sh' == MoveAll(sh, x.pc.phase.batch, Held(tid))
    && x' == x.(pc := AtWalk(x.pc, x.pc.t, Clear(x.pc.phase.batch)))
  }

  ghost predicate DoClearUse(sh: Shared, x: Thread, sh': Shared, x': Thread) {
    && x.pc.Walk? && x.pc.phase.Clear?
    && sh' == sh && x' == x.(pc := AtWalk(x.pc, x.pc.t, Run(x.pc.phase.batch)))
  }

  ghost predicate DoRunItem(sh: Shared, x: Thread, sh': Shared, x': Thread, it: Item) {
    && x.pc.Walk? && x.pc.phase.Run? && it in x.pc.phase.batch
    && sh' == Finish(sh, it) && x' == x.(pc := AtWalk(x.pc, x.pc.t, Run(x.pc.phase.batch - {it})))
  }

  ghost predicate DoRunDone(sh: Shared, x: Thread, sh': Shared, x': Thread) {
    && x.pc.Walk? && x.pc.phase == Run({})
    && sh' == sh && x' == x.(pc := AtWalk(x.pc, x.pc.t + 1, Dec))
  }

  ghost predicate DoWalkDone(sh: Shared, x: Thread, sh': Shared, x': Thread) {
    && x.pc.Walk? && x.pc.phase == Dec && x.pc.t > x.pc.upto
    && sh' == sh
    && x' == Thread(x.pc.upto + 1, if x.pc.un then LockTry(x.pc.s, x.pc.upto) else Idle, x.held)
  }

  /* ---- unregister ---- */

  ghost predicate DoCallUnregister(sh: Shared, x: Thread, sh': Shared, x': Thread) {
    x.pc == Idle && x.last > 0 && sh' == sh && x' == x.(pc := UnregRead)
  }

  ghost predicate DoUnregLook(sh: Shared, x: Thread, sh': Shared, x': Thread) {
    && x.pc == UnregRead && CurOk(sh) && sh' == sh
    && x' == x.(pc := if x.last <= W(sh).ts then Marking(Now(sh), Now(sh), W(sh).ts, true)
                      else LockTry(Now(sh), W(sh).ts))
  }

  ghost predicate DoLockOk(sh: Shared, tid: Tid, x: Thread, sh': Shared, x': Thread) {
    && x.pc.LockTry? && !x.pc.s.at.lock && sh.cur == x.pc.s.at
    && sh' == SetLock(sh, tid)
    && x' == x.(pc := Removing(Seen(sh'.cur, x.pc.s.world), x.pc.upto))
  }

  /** Still the same world but with different tags: try again with those. */
  ghost predicate DoLockRetry(sh: Shared, x: Thread, sh': Shared, x': Thread) {
    && x.pc.LockTry? && !x.pc.s.at.lock && sh.cur != x.pc.s.at && sh.cur.w == x.pc.s.at.w
    && sh' == sh && x' == x.(pc := LockTry(Seen(sh.cur, x.pc.s.world), x.pc.upto))
  }

  ghost predicate DoLockFail(sh: Shared, x: Thread, sh': Shared, x': Thread) {
    && x.pc.LockTry? && (x.pc.s.at.lock || sh.cur.w != x.pc.s.at.w)
    && sh' == sh && x' == x.(pc := UnregRead)
  }

  /** `remove_thread` refuses: the timestamp moved on, or the locked world is no longer current. */
  ghost predicate DoRemoveAgain(sh: Shared, x: Thread, sh': Shared, x': Thread) {
    && x.pc.Removing? && (x.pc.s.world.ts != x.pc.upto || sh.cur != x.pc.s.at)
    && sh' == sh && x' == x.(pc := Unlocking(x.pc.s))
  }

  ghost predicate DoRemoveOk(sh: Shared, tid: Tid, x: Thread, sh': Shared, x': Thread, a: Addr) {
    && x.pc.Removing? && x.pc.s.world.ts == x.pc.upto && sh.cur == x.pc.s.at && a !in sh.heap
    && var w := x.pc.s.world;
    && w.n >= 2
    && sh' == Publish(sh, tid, a, w.(n := w.n - 1), true, false)
    && x' == x.(last := 0, pc := Leaking(x.pc.s.at.w))
  }

  /** The last thread resets the world and keeps it locked while it cleans up. */
  ghost predicate DoRemoveLast(sh: Shared, tid: Tid, x: Thread, sh': Shared, x': Thread, a: Addr) {
    && x.pc.Removing? && x.pc.s.world.ts == x.pc.upto && sh.cur == x.pc.s.at && a !in sh.heap
    && var w := x.pc.s.world;
    && w.n == 1
    && sh' == Publish(sh, tid, a, World(0, 0, Window(0, w.win.size, [])), false, true)
    && x' == x.(last := 0, pc := Cleaning(x.pc.s.at.w, a))
  }

  ghost predicate DoUnlockOk(sh: Shared, x: Thread, sh': Shared, x': Thread) {
    && x.pc.Unlocking? && sh.cur == x.pc.s.at
    && sh' == ClearLock(sh) && x' == x.(pc := UnregRead)
  }

  ghost predicate DoUnlockFail(sh: Shared, x: Thread, sh': Shared, x': Thread) {
    && x.pc.Unlocking? && sh.cur != x.pc.s.at
    && sh' == sh && x' == x.(pc := Free(Reading(Old(x.pc.s.at.w)), ToUnregister))
  }

  ghost predicate DoLeak(sh: Shared, x: Thread, sh': Shared, x': Thread) {
    && x.pc.Leaking?
    && sh' == Move(sh, Old(x.pc.a), Leaked).(leaks := sh.leaks + {Old(x.pc.a)})
    && x' == x.(pc := Idle)
  }

  ghost predicate DoClean(sh: Shared, x: Thread, sh': Shared, x': Thread) {
    && x.pc.Cleaning?
    && sh' == FinishAll(sh, x.pc.a) && x' == x.(pc := Reopening(x.pc.b))
  }

  ghost predicate DoReopen(sh: Shared, x: Thread, sh': Shared, x': Thread) {
    && x.pc.Reopening?
    && sh' == ClearLock(sh) && x' == x.(pc := Idle)
  }

  /* ---- one step ---- */

  predicate RegisterAct(act: Act) {
    || act.CallRegister? || act.Lock? || act.RegisterOk? || act.RegisterFail? || act.ChainNext?
    || act.ChainDone?
  }

  predicate FreeAct(act: Act) {
    || act.CallFree? || act.FreeRead? || act.FreeRetry? || act.FreeAlone? || act.FreePlan?
    || act.FreeSwap? || act.FreeAdd? || act.FreeEnter? || act.FreeAppend? || act.FreeAppendOld?
    || act.FreeDone? || act.FreeNow?
  }

  predicate CheckinAct(act: Act) {
    || act.CallCheckin? || act.MarkSeen? || act.MarkOk? || act.MarkFail? || act.MarkLocked?
    || act.CopyOk? || act.CopyFail? || act.Look?
  }

  predicate WalkAct(act: Act) {
    || act.Decrement? || act.SnipList? || act.WipeList? || act.ClearUse? || act.RunItem? || act.RunDone?
    || act.WalkDone?
  }

  predicate UnregisterAct(act: Act) {
    || act.CallUnregister? || act.UnregLook? || act.LockOk? || act.LockRetry? || act.LockFail?
    || act.RemoveAgain? || act.RemoveOk? || act.RemoveLast? || act.UnlockOk? || act.UnlockFail?
    || act.Leak? || act.Clean? || act.Reopen?
  }

  ghost predicate RegisterStep(act: Act, sh: Shared, tid: Tid, x: Thread, sh': Shared, x': Thread) {
    if act.CallRegister? then DoCallRegister(sh, x, sh', x')
    else if act.Lock? then DoLock(sh, tid, x, sh', x')
    else if act.RegisterOk? then DoRegisterOk(sh, tid, x, sh', x', act.a)
    else if act.RegisterFail? then DoRegisterFail(sh, x, sh', x')
    else if act.ChainNext? then DoChainNext(sh, x, sh', x', act.it)
    else act.ChainDone? && DoChainDone(sh, x, sh', x')
  }

  ghost predicate FreeStep(act: Act, sh: Shared, tid: Tid, x: Thread, sh': Shared, x': Thread) {
    if act.CallFree? then DoCallFree(sh, tid, x, sh', x', act.k)
    else if act.FreeRead? then DoFreeRead(sh, tid, x, sh', x')
    else if act.FreeRetry? then DoFreeRetry(sh, x, sh', x')
    else if act.FreeAlone? then DoFreeAlone(sh, tid, x, sh', x')
    else if act.FreePlan? then DoFreePlan(sh, x, sh', x', act.plan)
    else if act.FreeSwap? then DoFreeSwap(sh, tid, x, sh', x', act.a, act.win)
    else if act.FreeAdd? then DoFreeAdd(sh, x, sh', x')
    else if act.FreeEnter? then DoFreeEnter(sh, x, sh', x')
    else if act.FreeAppend? then DoFreeAppend(sh, x, sh', x')
    else if act.FreeAppendOld? then DoFreeAppendOld(sh, x, sh', x', act.it)
    else if act.FreeDone? then DoFreeDone(sh, x, sh', x')
    else act.FreeNow? && DoFreeNow(sh, x, sh', x')
  }

  ghost predicate CheckinStep(act: Act, sh: Shared, tid: Tid, x: Thread, sh': Shared, x': Thread) {
    if act.CallCheckin? then DoCallCheckin(sh, x, sh', x')
    else if act.MarkSeen? then DoMarkSeen(sh, x, sh', x')
    else if act.MarkOk? then DoMarkOk(sh, x, sh', x')
    else if act.MarkFail? then DoMarkFail(sh, x, sh', x')
    else if act.MarkLocked? then DoMarkLocked(sh, x, sh', x')
    else if act.CopyOk? then DoCopyOk(sh, tid, x, sh', x', act.a)
    else if act.CopyFail? then DoCopyFail(sh, x, sh', x')
    else act.Look? && DoLook(sh, x, sh', x')
  }

  ghost predicate WalkingStep(act: Act, sh: Shared, tid: Tid, x: Thread, sh': Shared, x': Thread) {
    if act.Decrement? then DoDecrement(sh, x, sh', x', act.prev)
    else if act.SnipList? then DoSnipList(sh, x, sh', x', act.list)
    else if act.WipeList? then DoWipeList(sh, tid, x, sh', x')
    else if act.ClearUse? then DoClearUse(sh, x, sh', x')
    else if act.RunItem? then DoRunItem(sh, x, sh', x', act.it)
    else if act.RunDone? then DoRunDone(sh, x, sh', x')
    else act.WalkDone? && DoWalkDone(sh, x, sh', x')
  }

  ghost predicate UnregisterStep(act: Act, sh: Shared, tid: Tid, x: Thread, sh': Shared, x': Thread) {
    if act.CallUnregister? then DoCallUnregister(sh, x, sh', x')
    else if act.UnregLook? then DoUnregLook(sh, x, sh', x')
    else if act.LockOk? then DoLockOk(sh, tid, x, sh', x')
    else if act.LockRetry? then DoLockRetry(sh, x, sh', x')
    else if act.LockFail? then DoLockFail(sh, x, sh', x')
    else if act.RemoveAgain? then DoRemoveAgain(sh, x, sh', x')
    else if act.RemoveOk? then DoRemoveOk(sh, tid, x, sh', x', act.a)
    else if act.RemoveLast? then DoRemoveLast(sh, tid, x, sh', x', act.a)
    else if act.UnlockOk? then DoUnlockOk(sh, x, sh', x')
    else if act.UnlockFail? then DoUnlockFail(sh, x, sh', x')
    else if act.Leak? then DoLeak(sh, x, sh', x')
    else if act.Clean? then DoClean(sh, x, sh', x')
    else act.Reopen? && DoReopen(sh, x, sh', x')
  }

  datatype Group = RegisterGroup | FreeGroup | CheckinGroup | WalkGroup | UnregisterGroup

  ghost predicate StepOf(g: Group, act: Act, sh: Shared, tid: Tid, x: Thread, sh': Shared, x': Thread) {
    match g
    case RegisterGroup => RegisterAct(act) ==> RegisterStep(act, sh, tid, x, sh', x')
    case FreeGroup => FreeAct(act) ==> FreeStep(act, sh, tid, x, sh', x')
    case CheckinGroup => CheckinAct(act) ==> CheckinStep(act, sh, tid, x, sh', x')
    case WalkGroup => WalkAct(act) ==> WalkingStep(act, sh, tid, x, sh', x')
    case UnregisterGroup => UnregisterAct(act) ==> UnregisterStep(act, sh, tid, x, sh', x')
  }

  /** A step is right for whichever group its act is in. Proofs look into one group at a time. */
  ghost predicate ThreadStep(act: Act, sh: Shared, tid: Tid, x: Thread, sh': Shared, x': Thread) {
    forall g :: StepOf(g, act, sh, tid, x, sh', x')
  }

  /* Which group of steps an act belongs to. */

  lemma RegisterShape(act: Act, sh: Shared, tid: Tid, x: Thread, sh': Shared, x': Thread)
    requires RegisterAct(act)
    ensures ThreadStep(act, sh, tid, x, sh', x') == RegisterStep(act, sh, tid, x, sh', x')
  {
    assert StepOf(RegisterGroup, act, sh, tid, x, sh', x') == RegisterStep(act, sh, tid, x, sh', x');
  }

  lemma FreeShape(act: Act, sh: Shared, tid: Tid, x: Thread, sh': Shared, x': Thread)
    requires FreeAct(act)
    ensures ThreadStep(act, sh, tid, x, sh', x') == FreeStep(act, sh, tid, x, sh', x')
  {
    assert StepOf(FreeGroup, act, sh, tid, x, sh', x') == FreeStep(act, sh, tid, x, sh', x');
  }

  lemma WalkShape(act: Act, sh: Shared, tid: Tid, x: Thread, sh': Shared, x': Thread)
    requires WalkAct(act)
    ensures ThreadStep(act, sh, tid, x, sh', x') == WalkingStep(act, sh, tid, x, sh', x')
  {
    assert StepOf(WalkGroup, act, sh, tid, x, sh', x') == WalkingStep(act, sh, tid, x, sh', x');
  }

  lemma CheckinShape(act: Act, sh: Shared, tid: Tid, x: Thread, sh': Shared, x': Thread)
    requires CheckinAct(act)
    ensures ThreadStep(act, sh, tid, x, sh', x') == CheckinStep(act, sh, tid, x, sh', x')
  {
    assert StepOf(CheckinGroup, act, sh, tid, x, sh', x') == CheckinStep(act, sh, tid, x, sh', x');
  }

  lemma UnregisterShape(act: Act, sh: Shared, tid: Tid, x: Thread, sh': Shared, x': Thread)
    requires UnregisterAct(act)
    ensures ThreadStep(act, sh, tid, x, sh', x') == UnregisterStep(act, sh, tid, x, sh', x')
  {
    assert StepOf(UnregisterGroup, act, sh, tid, x, sh', x') == UnregisterStep(act, sh, tid, x, sh', x');
  }

  lemma FreeSwapStepShape(act: Act, sh: Shared, tid: Tid, x: Thread, sh': Shared, x': Thread)
    requires act.FreeSwap?
    ensures ThreadStep(act, sh, tid, x, sh', x') == DoFreeSwap(sh, tid, x, sh', x', act.a, act.win)
  {
    hide StepOf;
    FreeShape(act, sh, tid, x, sh', x');
  }

  lemma RemoveLastStepShape(act: Act, sh: Shared, tid: Tid, x: Thread, sh': Shared, x': Thread)
    requires act.RemoveLast?
    ensures ThreadStep(act, sh, tid, x, sh', x') == DoRemoveLast(sh, tid, x, sh', x', act.a)
  {
    hide StepOf;
    UnregisterShape(act, sh, tid, x, sh', x');
  }

  /* Where a thread is that takes a step of a group. */

  lemma RegisterFrom(act: Act, sh: Shared, tid: Tid, x: Thread, sh': Shared, x': Thread)
    requires RegisterAct(act) && RegisterStep(act, sh, tid, x, sh', x')
    ensures x.pc.Idle? || x.pc.Locking? || x.pc.Registering? || x.pc.Disposing?
  {
  }

  lemma FreeFrom(act: Act, sh: Shared, tid: Tid, x: Thread, sh': Shared, x': Thread)
    requires FreeAct(act) && FreeStep(act, sh, tid, x, sh', x')
    ensures x.pc.Free? || x.pc.Idle?
  {
  }

  lemma CheckinFrom(act: Act, sh: Shared, tid: Tid, x: Thread, sh': Shared, x': Thread)
    requires CheckinAct(act) && CheckinStep(act, sh, tid, x, sh', x')
    ensures x.pc.Idle? || x.pc.Marking? || x.pc.Copying? || x.pc.Looking?
  {
  }

  lemma UnregisterFrom(act: Act, sh: Shared, tid: Tid, x: Thread, sh': Shared, x': Thread)
    requires UnregisterAct(act) && UnregisterStep(act, sh, tid, x, sh', x')
    ensures !x.pc.Locking? && !x.pc.Registering? && !x.pc.Disposing?
  {
  }

  lemma WalkFrom(act: Act, sh: Shared, tid: Tid, x: Thread, sh': Shared, x': Thread)
    requires WalkAct(act) && WalkingStep(act, sh, tid, x, sh', x')
    ensures x.pc.Walk?
  {
  }

  /** A thread that is about to lock, or cleans up, is in none of the other operations. */
  lemma RegistersOrLeaves(act: Act, sh: Shared, tid: Tid, x: Thread, sh': Shared, x': Thread)
    requires ThreadStep(act, sh, tid, x, sh', x') && (x.pc.Locking? || HasLocked(x.pc))
    ensures RegisterAct(act) || UnregisterAct(act)
  {
    hide StepOf, OpOf;
    if FreeAct(act) {
      FreeShape(act, sh, tid, x, sh', x');
      FreeFrom(act, sh, tid, x, sh', x');
    } else if CheckinAct(act) {
      CheckinShape(act, sh, tid, x, sh', x');
      CheckinFrom(act, sh, tid, x, sh', x');
    } else if WalkAct(act) {
      WalkShape(act, sh, tid, x, sh', x');
      WalkFrom(act, sh, tid, x, sh', x');
    }
  }

  /** The thread has locked a world, which may have been replaced since. */
  predicate HasLocked(pc: Pc) { pc.Registering? || pc.Removing? || pc.Unlocking? || pc.Cleaning? || pc.Reopening? }

  lemma RegisterEnters(act: Act, sh: Shared, tid: Tid, x: Thread, sh': Shared, x': Thread)
    requires RegisterAct(act) && RegisterStep(act, sh, tid, x, sh', x')
    ensures x'.pc.Free? ==> x'.pc.stage.Reading?
  {
  }

  lemma CheckinEnters(act: Act, sh: Shared, tid: Tid, x: Thread, sh': Shared, x': Thread)
    requires CheckinAct(act) && CheckinStep(act, sh, tid, x, sh', x')
    ensures x'.pc.Free? ==> x'.pc.stage.Reading?
  {
  }

  lemma WalkEnters(act: Act, sh: Shared, tid: Tid, x: Thread, sh': Shared, x': Thread)
    requires WalkAct(act) && WalkingStep(act, sh, tid, x, sh', x')
    ensures !x'.pc.Free?
  {
  }

  lemma UnregisterEnters(act: Act, sh: Shared, tid: Tid, x: Thread, sh': Shared, x': Thread)
    requires UnregisterAct(act) && UnregisterStep(act, sh, tid, x, sh', x')
    ensures x'.pc.Free? ==> x'.pc.stage.Reading?
  {
  }

  /** Every free starts by reading the world pointer. */
  lemma FreeEnters(act: Act, sh: Shared, tid: Tid, x: Thread, sh': Shared, x': Thread)
    requires !FreeAct(act) && ThreadStep(act, sh, tid, x, sh', x')
    ensures x'.pc.Free? ==> x'.pc.stage.Reading?
  {
    hide StepOf, OpOf;
    if RegisterAct(act) {
      RegisterShape(act, sh, tid, x, sh', x');
      RegisterEnters(act, sh, tid, x, sh', x');
    } else if CheckinAct(act) {
      CheckinShape(act, sh, tid, x, sh', x');
      CheckinEnters(act, sh, tid, x, sh', x');
    } else if WalkAct(act) {
      WalkShape(act, sh, tid, x, sh', x');
      WalkEnters(act, sh, tid, x, sh', x');
    } else {
      UnregisterShape(act, sh, tid, x, sh', x');
      UnregisterEnters(act, sh, tid, x, sh', x');
    }
  }

  /** The operation on timestamp entries that goes with a step. */
  function OpOf(act: Act, sh: Shared, x: Thread): Op {
    match act
    case FreePlan(_, op) => if op.Probe? || op.MarkUse? then op else Nop
    case FreeSwap(_, win) =>
      if x.pc.Free? && x.pc.stage.Planning?
      then Create(x.pc.stage.s.world.win, win, x.pc.stage.s.world.ts + 1) else Nop
    case FreeAdd =>
      if x.pc.Free? && x.pc.stage.Adding?
      then var w := x.pc.stage.s.world; FetchAdd(w.win, w.ts, w.n) else Nop
    case FreeAppend =>
      if x.pc.Free? && x.pc.stage.Appending?
      then var w := x.pc.stage.s.world; Push(w.win, w.ts, x.pc.stage.it) else Nop
    case FreeAppendOld(it) =>
      if x.pc.Free? && x.pc.stage.Trailing?
      then var w := x.pc.stage.s.world; Push(w.win, w.ts, it) else Nop
    case Decrement(prev) => if x.pc.Walk? then FetchSub(x.pc.s.world.win, x.pc.t, prev) else Nop
    case SnipList(list) => if x.pc.Walk? then PeekList(x.pc.s.world.win, x.pc.t, list) else Nop
    case WipeList => if x.pc.Walk? then Wipe(x.pc.s.world.win, x.pc.t) else Nop
    case ClearUse => if x.pc.Walk? then Unuse(x.pc.s.world.win, x.pc.t) else Nop
    case RemoveLast(_) => Forget
    case Clean =>
      if x.pc.Cleaning? && x.pc.a in sh.heap then FreeStores(sh.heap[x.pc.a].win) else Nop
    case _ => Nop
  }
}
