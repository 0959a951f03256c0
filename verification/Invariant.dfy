/** What is true of the shared state, of each thread against the shared state, and what one
    thread may rely on while another one steps. */
module Invariant {
  import opened AbaTypes
  import opened Protocol

  /* ---- views of a thread ---- */

  predicate Reg(x: Thread) { x.last > 0 }

  /** The first timestamp the thread has not decremented. */
  function Next(x: Thread): nat {
    if x.pc.Walk? then (if x.pc.phase == Dec then x.pc.t else x.pc.t + 1) else x.last
  }

  /** One past the last timestamp the thread has promised to check in for: the promise is made by
      setting or seeing the bit, and kept by the walk that follows. */
  function Limit(x: Thread): nat {
    match x.pc
    case Looking(upto) => upto + 1
    case Walk(_, upto, _, _, _) => upto + 1
    case Free(_, ToLook(upto)) => upto + 1
    case Free(_, ToWalk(upto, _)) => upto + 1
    case _ => x.last
  }

  /** The worlds the thread may still read, or compare the world pointer with. */
  function StageSeens(st: Stage): set<Seen> {
    match st
    case Reading(_) => {}
    case Trying(_, s) => {s}
    case Planning(_, s, _) => {s}
    case Adding(_, s, _) => {s}
    case Appending(_, s, _) => {s}
    case Trailing(s, _) => {s}
    case Immediate(_) => {}
  }

  function Seens(x: Thread): set<Seen> {
    match x.pc
    case Registering(s) => {s}
    case Free(st, ret) => StageSeens(st) + if ret.ToWalk? then {ret.s} else {}
    case Marking(s, s0, _, _) => {s, s0}
    case Copying(s, _, _) => {s}
    case Walk(_, _, s, _, _) => {s}
    case LockTry(s, _) => {s}
    case Removing(s, _) => {s}
    case Unlocking(s) => {s}
    case _ => {}
  }

  /** Items in the hands of the thread, no longer current, that it has to dispose of. */
  function StageItems(st: Stage): set<Item> {
    match st
    case Reading(it) => {it}
    case Trying(it, _) => {it}
    case Planning(it, _, _) => {it}
    case Adding(it, _, spare) => {it} + spare
    case Appending(it, _, spare) => {it} + spare
    case Trailing(_, spare) => spare
    case Immediate(_) => {}
  }

  function PcItems(pc: Pc): set<Item> {
    match pc
    case Free(st, _) => StageItems(st)
    case Walk(_, _, _, ph, _) => if ph.Clear? || ph.Run? then ph.batch else {}
    case Leaking(a) => {Old(a)}
    case Cleaning(a, _) => {Old(a)}
    case _ => {}
  }

  function Trash(x: Thread): set<Item> { x.held + PcItems(x.pc) }

  /** The world the thread has locked. */
  function LockedItems(pc: Pc): set<Item> {
    match pc
    case Registering(s) => {Old(s.at.w)}
    case Removing(s, _) => {Old(s.at.w)}
    case Unlocking(s) => {Old(s.at.w)}
    case Cleaning(_, b) => {Old(b)}
    case Reopening(b) => {Old(b)}
    case _ => {}
  }

  function Duties(x: Thread): set<Item> { Trash(x) + LockedItems(x.pc) }

  /* ---- one thread on its own ---- */

  ghost predicate StageLocal(st: Stage, held: set<Item>) {
    match st
    case Reading(it) => it !in held
    case Trying(it, _) => it !in held
    case Planning(it, s, _) => it !in held && s.at.bit && s.world.n >= 2
    case Adding(it, s, spare) =>
      it !in held && it !in spare && (forall o :: o in spare ==> o !in held) && !s.at.bit && s.world.ts > 0
    case Appending(it, s, spare) => it !in held && it !in spare && (forall o :: o in spare ==> o !in held) && !s.at.bit
    case Trailing(s, spare) => (forall o :: o in spare ==> o !in held) && !s.at.bit
    case Immediate(it) => it !in held
  }

  predicate RetLocal(x: Thread, st: Stage, ret: Ret) {
    match ret
    case ToIdle => true
    case ToChain => true
    case ToLook(upto) => x.last <= upto
    case ToWalk(upto, s) =>
      x.last <= upto <= s.world.ts && s.at.bit
      && (st.Reading? || st.Trying? || st.Planning? || st.Immediate? ==> st.it != Old(s.at.w))
    case ToUnregister => true
  }

  ghost predicate Local(x: Thread) {
    && (x.pc.Locking? || x.pc.Registering? || x.pc.Disposing? || (x.pc.Free? && x.pc.ret == ToChain)
        || x.held == {})
    && (!x.pc.Idle? ==>
          (Reg(x) <==> !(x.pc.Locking? || x.pc.Registering? || x.pc.Leaking? || x.pc.Cleaning? || x.pc.Reopening?)))
    && match x.pc
       case Registering(s) => s.at.lock && Old(s.at.w) !in x.held
       case Free(st, ret) => StageLocal(st, x.held) && RetLocal(x, st, ret)
       case Marking(s, s0, upto, _) => x.last <= upto <= s.world.ts && upto <= s0.world.ts
       case Copying(s, upto, _) => x.last <= upto <= s.world.ts
       case Looking(upto) => x.last <= upto
       case Walk(t, upto, s, ph, un) =>
         x.last <= t <= upto + 1 && upto <= s.world.ts && (ph != Dec ==> t <= upto) && (un ==> s.at.bit)
       case LockTry(s, upto) => x.last == upto + 1 && upto <= s.world.ts && s.at.bit
       case Removing(s, upto) => x.last == upto + 1 && upto <= s.world.ts && s.at.bit && s.at.lock
       case Unlocking(s) => s.at.bit && s.at.lock
       case Cleaning(a, b) => a != b
       case _ => true
  }

  /* ---- the shared state on its own ---- */

  ghost predicate SharedOk(sh: Shared) {
    && CurOk(sh)
    && (forall a :: a in sh.heap <==> Old(a) in sh.place)
    && Old(sh.cur.w) in sh.place
    && (if sh.cur.lock then sh.place[Old(sh.cur.w)].Held? else sh.place[Old(sh.cur.w)] == Current)
    && (forall it :: it in sh.place && sh.place[it] == Current ==> it == Old(sh.cur.w))
    && (forall it :: it in sh.leaks <==> it in sh.place && sh.place[it] == Leaked)
    && (forall it :: it in sh.slot ==> it in sh.place && it != Old(sh.cur.w))
    && (W(sh).n == 0 ==> W(sh).ts == 0 && !sh.cur.bit)
    && (W(sh).ts > 0 && !sh.cur.bit ==> W(sh).n >= 2)
  }

  /* ---- one thread against the shared state ---- */

  /** The world behind a pointer the thread holds is still there and still the same. */
  predicate SeenOk(sh: Shared, s: Seen) {
    s.at.w in sh.heap && sh.heap[s.at.w] == s.world
  }

  /** What keeps it there: it can only be on the list of a later timestamp, one the thread still
      has to check in for. */
  predicate SeenFresh(sh: Shared, limit: nat, s: Seen) {
    && limit <= s.world.ts + 1
    && (!s.at.bit ==> limit <= s.world.ts)
    && s.world.ts <= W(sh).ts
    && (s.at.bit && s.world.ts == W(sh).ts ==> sh.cur.bit)
    && (s.at.w != sh.cur.w ==> s.world.ts < W(sh).ts || sh.cur.bit)
    && (Old(s.at.w) in sh.slot ==> s.world.ts < sh.slot[Old(s.at.w)])
    && (Old(s.at.w) in sh.place ==> !sh.place[Old(s.at.w)].Alone?)
  }

  predicate Slotted(sh: Shared, it: Item, t: nat) { it in sh.slot && sh.slot[it] == t }

  ghost predicate SlotsOk(sh: Shared, x: Thread) {
    match x.pc
    case Free(st, _) =>
      (match st
       case Trying(it, s) => s.at.bit || Slotted(sh, it, s.world.ts)
       case Adding(it, s, spare) => Slotted(sh, it, s.world.ts) && forall o :: o in spare ==> Slotted(sh, o, s.world.ts)
       case Appending(it, s, spare) =>
         Slotted(sh, it, s.world.ts) && forall o :: o in spare ==> Slotted(sh, o, s.world.ts)
       case Trailing(s, spare) => forall o :: o in spare ==> Slotted(sh, o, s.world.ts)
       case _ => true)
    case Walk(t, _, _, ph, _) =>
      (ph.Null? || ph.Clear? || ph.Run? ==> forall o :: o in ph.batch ==> Slotted(sh, o, t))
    case _ => true
  }

  predicate PlaceIs(sh: Shared, it: Item, p: Place) { it in sh.place && sh.place[it] == p }

  predicate LockOf(sh: Shared, s: Seen) { s.at.lock && (s.at.w == sh.cur.w ==> s.at == sh.cur) }

  ghost predicate LockedOk(sh: Shared, x: Thread) {
    match x.pc
    case Registering(s) => LockOf(sh, s)
    case Removing(s, _) => LockOf(sh, s)
    case Unlocking(s) => LockOf(sh, s) && (s.at.w == sh.cur.w ==> s.world.ts > 0)
    case Cleaning(_, b) => sh.cur == Ptr(b, false, true) && W(sh).n == 0
    case Reopening(b) => sh.cur == Ptr(b, false, true) && W(sh).n == 0
    case _ => true
  }

  ghost predicate ThreadOk(sh: Shared, tid: Tid, x: Thread) {
    && CurOk(sh)
    && Local(x)
    && (forall s :: s in Seens(x) ==> SeenOk(sh, s))
    && (Reg(x) ==> forall s :: s in Seens(x) ==> SeenFresh(sh, Limit(x), s))
    && (Reg(x) ==> Limit(x) <= W(sh).ts + 1)
    && (Reg(x) && !sh.cur.bit ==> Limit(x) <= W(sh).ts)
    && (forall it :: it in Duties(x) ==> PlaceIs(sh, it, Held(tid)))
    && (forall it :: it in Trash(x) ==> it != Old(sh.cur.w))
    && (x.pc.Free? && x.pc.stage.Immediate? ==>
          PlaceIs(sh, x.pc.stage.it, Alone(tid)) && x.pc.stage.it != Old(sh.cur.w))
    && SlotsOk(sh, x)
    && LockedOk(sh, x)
  }

  /** Only registered threads check in. */
  lemma CheckinReg(sh: Shared, tid: Tid, x: Thread, act: Act, sh': Shared, x': Thread)
    requires Local(x) && CheckinAct(act) && CheckinStep(act, sh, tid, x, sh', x')
    ensures Reg(x)
  {
  }

  /* ---- interference ---- */

  /** The world pointer only moves forward: a later timestamp, or the same one with the bit at least
      as set; and a new world is at a new address and comes with a set bit or a later timestamp. */
  predicate Forward(sh: Shared, sh': Shared) {
    && (W(sh').ts > W(sh).ts || (W(sh').ts == W(sh).ts && (sh.cur.bit ==> sh'.cur.bit)))
    && (sh'.cur.w != sh.cur.w ==> W(sh').ts > W(sh).ts || sh'.cur.bit)
  }

  /** What thread `tid` may rely on when another thread changes the shared state. */
  ghost predicate Rely(sh: Shared, sh': Shared, tid: Tid, x: Thread) {
    && CurOk(sh) && CurOk(sh')
    && (sh'.cur.w != sh.cur.w ==> sh'.cur.w !in sh.heap)
    && (sh'.cur.w == sh.cur.w ==> W(sh') == W(sh))
    && (Reg(x) ==> Forward(sh, sh'))
    && (forall s :: s in Seens(x) ==> s.at.w in sh'.heap && (s.at.w in sh.heap ==> sh'.heap[s.at.w] == sh.heap[s.at.w]))
    && (Reg(x) ==> forall s :: s in Seens(x) ==> SlotSafe(sh, sh', s))
    && (forall it :: it in Duties(x) ==> PlaceIs(sh', it, Held(tid)))
    && (x.pc.Free? && x.pc.stage.Immediate? ==> PlaceIs(sh', x.pc.stage.it, Alone(tid)))
    && (forall it :: it in Trash(x) || (x.pc.Walk? && x.pc.phase.Null? && it in x.pc.phase.batch) ==>
          it in sh.slot ==> Slotted(sh', it, sh.slot[it]))
    && (Locker(x) && sh'.cur.w == sh.cur.w && PlaceIs(sh, Old(sh.cur.w), Held(tid)) ==> sh'.cur == sh.cur)
    && (x.pc.Cleaning? || x.pc.Reopening? ==> sh'.cur == sh.cur)
  }

  predicate Locker(x: Thread) { HasLocked(x.pc) }

  /** A list assigned to a held world is that of a later timestamp, and nobody frees it out of turn. */
  predicate SlotSafe(sh: Shared, sh': Shared, s: Seen) {
    var it := Old(s.at.w);
    && (it in sh'.slot ==> s.world.ts < sh'.slot[it] || (it in sh.slot && sh.slot[it] == sh'.slot[it]))
    && (it in sh'.place && sh'.place[it].Alone? ==> it in sh.place && sh.place[it].Alone?)
  }

  lemma Stable(sh: Shared, sh': Shared, tid: Tid, x: Thread)
    requires ThreadOk(sh, tid, x) && SharedOk(sh) && Rely(sh, sh', tid, x)
    ensures ThreadOk(sh', tid, x)
  {
    hide StageLocal, RetLocal, SlotsOk, LockedOk;
    forall it | it in Trash(x) ensures it != Old(sh'.cur.w) {
      assert it in Duties(x) && PlaceIs(sh, it, Held(tid));
    }
    SlotsStable(sh, sh', tid, x);
    LockedStable(sh, sh', tid, x);
  }

  lemma SlotsStable(sh: Shared, sh': Shared, tid: Tid, x: Thread)
    requires ThreadOk(sh, tid, x) && Rely(sh, sh', tid, x)
    ensures SlotsOk(sh', x)
  {
    hide StageLocal, RetLocal, LockedOk, SeenFresh, SlotSafe;
  }

  lemma LockedStable(sh: Shared, sh': Shared, tid: Tid, x: Thread)
    requires ThreadOk(sh, tid, x) && Rely(sh, sh', tid, x)
    ensures LockedOk(sh', x)
  {
    hide StageLocal, RetLocal, SlotsOk, SlotSafe;
    match x.pc {
      case Registering(s) => LockKept(sh, sh', tid, x, s);
      case Removing(s, _) => LockKept(sh, sh', tid, x, s);
      case Unlocking(s) => LockKept(sh, sh', tid, x, s);
      case _ =>
    }
  }

  /** Nobody else moves a world pointer that a thread has locked, except to another world. */
  lemma LockKept(sh: Shared, sh': Shared, tid: Tid, x: Thread, s: Seen)
    requires ThreadOk(sh, tid, x) && Rely(sh, sh', tid, x)
    requires Locker(x) && s in Seens(x) && Old(s.at.w) in LockedItems(x.pc) && LockOf(sh, s)
    ensures LockOf(sh', s) && (sh'.cur.w == s.at.w ==> sh.cur.w == s.at.w)
  {
    assert Old(s.at.w) in Duties(x);
  }
}
