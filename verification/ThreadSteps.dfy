/** Every step leaves the stepping thread and the shared state in order. */
module ThreadSteps {
  import opened AbaTypes
  import opened Protocol
  import opened Invariant
  import opened SharedSteps

  /** The batch read from a list is all of it until it is wiped. */
  ghost predicate NullListed(sh: Shared, x: Thread) {
    x.pc.Walk? && x.pc.phase.Null? ==> forall it :: it in x.pc.phase.batch <==> PlaceIs(sh, it, Listed(x.pc.t))
  }

  ghost predicate Own(sh: Shared, tid: Tid, x: Thread) { SharedOk(sh) && ThreadOk(sh, tid, x) }

  /* The parts of being in order, and their sum. */

  ghost predicate SeensFine(sh: Shared, x: Thread) {
    CurOk(sh) && forall s :: s in Seens(x) ==> SeenOk(sh, s) && (Reg(x) ==> SeenFresh(sh, Limit(x), s))
  }

  ghost predicate HandsFine(sh: Shared, tid: Tid, x: Thread) {
    && (forall it :: it in Duties(x) ==> PlaceIs(sh, it, Held(tid)))
    && (forall it :: it in Trash(x) ==> it != Old(sh.cur.w))
  }

  ghost predicate RestFine(sh: Shared, tid: Tid, x: Thread) {
    && CurOk(sh) && Local(x)
    && (Reg(x) ==> Limit(x) <= W(sh).ts + 1)
    && (Reg(x) && !sh.cur.bit ==> Limit(x) <= W(sh).ts)
    && (x.pc.Free? && x.pc.stage.Immediate? ==>
          PlaceIs(sh, x.pc.stage.it, Alone(tid)) && x.pc.stage.it != Old(sh.cur.w))
    && SlotsOk(sh, x)
    && LockedOk(sh, x)
  }

  lemma Sum(sh: Shared, tid: Tid, x: Thread)
    requires SharedOk(sh) && SeensFine(sh, x) && HandsFine(sh, tid, x) && RestFine(sh, tid, x)
    ensures Own(sh, tid, x)
  {
  }

  /* ---- register ---- */

  lemma LockStep(sh: Shared, tid: Tid, x: Thread, sh': Shared, x': Thread)
    requires Own(sh, tid, x) && DoLock(sh, tid, x, sh', x')
    ensures Own(sh', tid, x')
  {
    SetLockOk(sh, tid);
    forall it | it in x.held ensures it != Old(sh.cur.w) { assert it in Trash(x); }
    forall it | it in Duties(x') ensures PlaceIs(sh', it, Held(tid)) {
      assert it in Duties(x) || it == Old(sh.cur.w);
    }
    forall it | it in Trash(x') ensures it != Old(sh'.cur.w) { assert it in Trash(x); }
  }

  lemma RegisterOkRest(sh: Shared, tid: Tid, x: Thread, sh': Shared, x': Thread, a: Addr)
    requires Own(sh, tid, x) && DoRegisterOk(sh, tid, x, sh', x', a)
    ensures SeensFine(sh', x') && RestFine(sh', tid, x')
  {
  }

  lemma RegisterOkHands(sh: Shared, tid: Tid, x: Thread, sh': Shared, x': Thread, a: Addr)
    requires Own(sh, tid, x) && DoRegisterOk(sh, tid, x, sh', x', a)
    ensures HandsFine(sh', tid, x')
  {
    assert Old(a) !in sh.place;
    forall it | it in Duties(x') ensures PlaceIs(sh', it, Held(tid)) && it != Old(a) {
      assert it in Duties(x);
      assert PlaceIs(sh, it, Held(tid));
    }
    forall it | it in Trash(x') ensures it != Old(sh'.cur.w) { assert it in Duties(x'); }
  }

  lemma RegisterOkStep(sh: Shared, tid: Tid, x: Thread, sh': Shared, x': Thread, a: Addr)
    requires Own(sh, tid, x) && DoRegisterOk(sh, tid, x, sh', x', a)
    ensures Own(sh', tid, x')
  {
    var w := x.pc.s.world;
    assert SeenOk(sh, x.pc.s);
    PublishOk(sh, tid, a, w.(n := w.n + 1), true, false);
    RegisterOkHands(sh, tid, x, sh', x', a);
    RegisterOkRest(sh, tid, x, sh', x', a);
    Sum(sh', tid, x');
  }

  lemma RegisterFailStep(sh: Shared, tid: Tid, x: Thread, sh': Shared, x': Thread)
    requires Own(sh, tid, x) && DoRegisterFail(sh, x, sh', x')
    ensures Own(sh', tid, x')
  {
    forall it | it in Duties(x') ensures PlaceIs(sh', it, Held(tid)) { assert it in Duties(x); }
    forall it | it in Trash(x') ensures it != Old(sh'.cur.w) {
      assert it in Trash(x) || it == Old(x.pc.s.at.w);
    }
  }

  lemma ChainNextStep(sh: Shared, tid: Tid, x: Thread, sh': Shared, x': Thread, it: Item)
    requires Own(sh, tid, x) && DoChainNext(sh, x, sh', x', it)
    ensures Own(sh', tid, x')
  {
    assert Trash(x') == Trash(x);
    assert Duties(x') == Duties(x);
  }

  /* ---- free ---- */

  lemma CallFreeStep(sh: Shared, tid: Tid, x: Thread, sh': Shared, x': Thread, k: nat)
    requires Own(sh, tid, x) && DoCallFree(sh, tid, x, sh', x', k)
    ensures Own(sh', tid, x')
  {
    MoveOk(sh, tid, User(k), Held(tid));
    assert Duties(x') == {User(k)};
  }

  /** An item in the hands of a free is held, and no longer current. */
  lemma ItemHeld(sh: Shared, tid: Tid, x: Thread, it: Item)
    requires ThreadOk(sh, tid, x) && it in Trash(x)
    ensures PlaceIs(sh, it, Held(tid)) && it != Old(sh.cur.w)
  {
    assert it in Duties(x);
  }

  /** A stage of a free that has not fixed a list yet. */
  predicate Open(st: Stage, it: Item) {
    (st.Reading? || st.Trying? || st.Planning?) && st.it == it
  }

  lemma ReadSeens(sh: Shared, tid: Tid, x: Thread, it: Item, s: Seen)
    requires Own(sh, tid, x) && x.pc.Free? && Open(x.pc.stage, it)
    requires s == Now(sh) || s in Seens(x)
    requires s in Seens(x) && !sh.cur.bit ==> Old(s.at.w) != it
    ensures SeenOk(AssignIfClear(sh, it), s) && SeenFresh(AssignIfClear(sh, it), Limit(x), s)
  {
    ItemHeld(sh, tid, x, it);
    if s in Seens(x) {
      assert SeenOk(sh, s) && SeenFresh(sh, Limit(x), s);
    }
  }

  lemma ReadRest(sh: Shared, tid: Tid, x: Thread, it: Item, sh': Shared, x': Thread)
    requires Own(sh, tid, x) && x.pc.Free? && Open(x.pc.stage, it)
    requires sh' == AssignIfClear(sh, it) && x' == x.(pc := Free(Trying(it, Now(sh)), x.pc.ret))
    ensures RestFine(sh', tid, x') && HandsFine(sh', tid, x')
  {
    assert Duties(x') == Duties(x) && Trash(x') == Trash(x);
  }

  /** Reading the world pointer in a free. */
  lemma ReadStep(sh: Shared, tid: Tid, x: Thread, it: Item, sh': Shared, x': Thread)
    requires Own(sh, tid, x) && x.pc.Free? && Open(x.pc.stage, it)
    requires sh' == AssignIfClear(sh, it) && x' == x.(pc := Free(Trying(it, Now(sh)), x.pc.ret))
    ensures Own(sh', tid, x')
  {
    ItemHeld(sh, tid, x, it);
    assert SharedOk(sh') by { AssignOk(sh, {it}, W(sh).ts); }
    ReadRest(sh, tid, x, it, sh', x');
    forall s | s in Seens(x') ensures SeenOk(sh', s) && SeenFresh(sh', Limit(x'), s) {
      ReadSeens(sh, tid, x, it, s);
    }
    Sum(sh', tid, x');
  }

  lemma AloneLocal(x: Thread, it: Item, x': Thread)
    requires Local(x) && x.pc.Free? && Open(x.pc.stage, it) && x' == x.(pc := Free(Immediate(it), x.pc.ret))
    ensures Local(x') && Seens(x') <= Seens(x) && Limit(x') == Limit(x) && Duties(x') <= Duties(x) - {it}
    ensures Trash(x') <= Trash(x)
    ensures forall s :: s in Seens(x') ==> Old(s.at.w) != it
  {
  }

  lemma AloneRest(sh: Shared, tid: Tid, x: Thread, it: Item, sh': Shared, x': Thread)
    requires Own(sh, tid, x) && x.pc.Free? && Open(x.pc.stage, it)
    requires sh' == Move(sh, it, Alone(tid)) && x' == x.(pc := Free(Immediate(it), x.pc.ret))
    ensures RestFine(sh', tid, x')
  {
    AloneLocal(x, it, x');
    ItemHeld(sh, tid, x, it);
  }

  lemma AloneStep(sh: Shared, tid: Tid, x: Thread, it: Item, sh': Shared, x': Thread)
    requires Own(sh, tid, x) && x.pc.Free? && Open(x.pc.stage, it)
    requires sh' == Move(sh, it, Alone(tid)) && x' == x.(pc := Free(Immediate(it), x.pc.ret))
    ensures Own(sh', tid, x')
  {
    AloneLocal(x, it, x');
    ItemHeld(sh, tid, x, it);
    MoveOk(sh, tid, it, Alone(tid));
    MovedSeens(sh, tid, x, it, Alone(tid), x');
    MovedHands(sh, tid, x, it, Alone(tid), x');
    AloneRest(sh, tid, x, it, sh', x');
    Sum(sh', tid, x');
  }

  lemma FreePlanStep(sh: Shared, tid: Tid, x: Thread, sh': Shared, x': Thread, plan: Plan)
    requires Own(sh, tid, x) && DoFreePlan(sh, x, sh', x', plan)
    ensures Own(sh', tid, x')
  {
    assert Duties(x') == Duties(x) && Trash(x') == Trash(x) && Seens(x') == Seens(x);
  }

  /** The world a successful free swaps out belongs to it, unless another thread has it locked. */
  function Spare(s: Seen): set<Item> { if s.at.lock then {} else {Old(s.at.w)} }

  /** A free swaps out the world it has copied. */
  lemma SwapsCurrent(sh: Shared, tid: Tid, x: Thread, sh': Shared, x': Thread, a: Addr, win: Window)
    requires Own(sh, tid, x) && DoFreeSwap(sh, tid, x, sh', x', a, win)
    ensures x.pc.stage.s.world == W(sh) && x.pc.stage.s.at == sh.cur && Local(x) && Old(a) !in sh.place
  {
    assert x.pc.stage.s in Seens(x) && SeenOk(sh, x.pc.stage.s);
  }

  /** A successful free publishes a world and records where the item and the old world go. */
  lemma FreeSwapIs(sh: Shared, tid: Tid, x: Thread, sh': Shared, x': Thread, a: Addr, win: Window, mid: Shared,
      its: set<Item>)
    requires DoFreeSwap(sh, tid, x, sh', x', a, win)
    requires mid == Publish(sh, tid, a, World(x.pc.stage.s.world.ts + 1, x.pc.stage.s.world.n, win), false, false)
    requires its == {x.pc.stage.it} + Spare(x.pc.stage.s)
    ensures sh' == Assign(mid, its, x.pc.stage.s.world.ts + 1)
  {
  }

  lemma FreeSwapLocal(sh: Shared, tid: Tid, x: Thread, sh': Shared, x': Thread, a: Addr, win: Window)
    requires Own(sh, tid, x) && DoFreeSwap(sh, tid, x, sh', x', a, win)
    ensures Local(x')
  {
    hide StepOf, OpOf;
    var s := x.pc.stage.s;
    var it := x.pc.stage.it;
    ItemHeld(sh, tid, x, it);
    forall o | o in x.held ensures o != Old(s.at.w) { assert o in Trash(x); }
  }

  lemma FreeSwapDuties(sh: Shared, tid: Tid, x: Thread, sh': Shared, x': Thread, a: Addr, win: Window)
    requires Own(sh, tid, x) && DoFreeSwap(sh, tid, x, sh', x', a, win)
    ensures HandsFine(sh', tid, x')
  {
    var spare := Spare(x.pc.stage.s);
    assert Old(a) !in sh.place;
    forall o | o in Duties(x') ensures PlaceIs(sh', o, Held(tid)) && o != Old(a) {
      if o !in spare {
        assert o in Duties(x);
        assert PlaceIs(sh, o, Held(tid));
      }
    }
    forall o | o in Trash(x') ensures o != Old(a) { assert o in Duties(x'); }
  }

  lemma SwappedShared(sh: Shared, tid: Tid, it: Item, a: Addr, w: World, mid: Shared, its: set<Item>, sh': Shared)
    requires SharedOk(sh) && a !in sh.heap && w.n >= 2 && it in sh.place && Old(a) !in sh.place
    requires mid == Publish(sh, tid, a, w, false, false) && its <= {it, Old(sh.cur.w)} && sh' == Assign(mid, its, w.ts)
    ensures SharedOk(sh')
  {
    PublishOk(sh, tid, a, w, false, false);
    AssignOk(mid, its, w.ts);
  }

  lemma FreeSwapShared(sh: Shared, tid: Tid, x: Thread, sh': Shared, x': Thread, a: Addr, win: Window)
    requires Own(sh, tid, x) && DoFreeSwap(sh, tid, x, sh', x', a, win)
    ensures SharedOk(sh')
  {
    var s := x.pc.stage.s;
    var it := x.pc.stage.it;
    var w := World(s.world.ts + 1, s.world.n, win);
    var mid, its := Publish(sh, tid, a, w, false, false), {it} + Spare(s);
    SwapsCurrent(sh, tid, x, sh', x', a, win);
    ItemHeld(sh, tid, x, it);
    FreeSwapIs(sh, tid, x, sh', x', a, win, mid, its);
    SwappedShared(sh, tid, it, a, w, mid, its, sh');
  }

  lemma FreeSwapSeens(sh: Shared, tid: Tid, x: Thread, sh': Shared, x': Thread, a: Addr, win: Window)
    requires Own(sh, tid, x) && DoFreeSwap(sh, tid, x, sh', x', a, win)
    ensures SeensFine(sh', x')
  {
    var s := x.pc.stage.s;
    var w := World(s.world.ts + 1, s.world.n, win);
    assert s in Seens(x) && SeenOk(sh, s);
    assert Old(a) !in sh.place;
    forall r | r in Seens(x') ensures SeenOk(sh', r) && SeenFresh(sh', Limit(x'), r) {
      if r == Seen(sh'.cur, w) {
        assert Old(a) !in sh.slot;
        ItemHeld(sh, tid, x, x.pc.stage.it);
      } else {
        assert r in Seens(x);
        assert SeenOk(sh, r) && SeenFresh(sh, Limit(x), r);
      }
    }
  }

  lemma FreeSwapRest(sh: Shared, tid: Tid, x: Thread, sh': Shared, x': Thread, a: Addr, win: Window)
    requires Own(sh, tid, x) && DoFreeSwap(sh, tid, x, sh', x', a, win) && Local(x')
    ensures RestFine(sh', tid, x')
  {
    SwapsCurrent(sh, tid, x, sh', x', a, win);
  }

  lemma FreeSwapStep(sh: Shared, tid: Tid, x: Thread, sh': Shared, x': Thread, a: Addr, win: Window)
    requires Own(sh, tid, x) && DoFreeSwap(sh, tid, x, sh', x', a, win)
    ensures Own(sh', tid, x')
  {
    hide *;
    FreeSwapLocal(sh, tid, x, sh', x', a, win);
    FreeSwapRest(sh, tid, x, sh', x', a, win);
    FreeSwapDuties(sh, tid, x, sh', x', a, win);
    FreeSwapShared(sh, tid, x, sh', x', a, win);
    FreeSwapSeens(sh, tid, x, sh', x', a, win);
    Sum(sh', tid, x');
  }

  lemma FreeAddStep(sh: Shared, tid: Tid, x: Thread, sh': Shared, x': Thread)
    requires Own(sh, tid, x) && DoFreeAdd(sh, x, sh', x')
    ensures Own(sh', tid, x')
  {
    assert Duties(x') == Duties(x) && Trash(x') == Trash(x) && Seens(x') == Seens(x);
  }

  lemma FreeEnterStep(sh: Shared, tid: Tid, x: Thread, sh': Shared, x': Thread)
    requires Own(sh, tid, x) && DoFreeEnter(sh, x, sh', x')
    ensures Own(sh', tid, x')
  {
    assert Duties(x') == Duties(x) && Trash(x') == Trash(x) && Seens(x') == Seens(x);
  }

  /** Putting one of the items in hand on a list. */
  ghost predicate AppendTurn(x: Thread, it: Item, x': Thread) {
    && x.pc.Free? && it in StageItems(x.pc.stage) && it !in x.held
    && x'.pc.Free? && x' == x.(pc := Free(x'.pc.stage, x.pc.ret)) && x'.pc.stage.Trailing?
    && (x.pc.stage.Appending? || x.pc.stage.Trailing?)
    && x'.pc.stage.spare == StageItems(x.pc.stage) - {it} && x'.pc.stage.s == x.pc.stage.s
  }

  lemma AppendLocal(x: Thread, it: Item, x': Thread)
    requires Local(x) && AppendTurn(x, it, x')
    ensures Local(x') && Seens(x') <= Seens(x) && Duties(x') == Duties(x) - {it} && Trash(x') == Trash(x) - {it}
    ensures Limit(x') == Limit(x) && x'.last == x.last && it in Trash(x)
  {
  }

  /** Moving an item does not touch what a thread has seen. */
  lemma MovedSeens(sh: Shared, tid: Tid, x: Thread, it: Item, p: Place, x': Thread)
    requires ThreadOk(sh, tid, x) && Limit(x') == Limit(x) && Reg(x') == Reg(x) && Seens(x') <= Seens(x)
    requires p.Alone? ==> forall s :: s in Seens(x') ==> Old(s.at.w) != it
    ensures SeensFine(Move(sh, it, p), x')
  {
    forall s | s in Seens(x')
      ensures SeenOk(Move(sh, it, p), s) && (Reg(x') ==> SeenFresh(Move(sh, it, p), Limit(x'), s))
    {
      assert SeenOk(sh, s) && (Reg(x) ==> SeenFresh(sh, Limit(x), s));
    }
  }

  /** What is still in hand after an item has been moved. */
  lemma MovedHands(sh: Shared, tid: Tid, x: Thread, it: Item, p: Place, x': Thread)
    requires ThreadOk(sh, tid, x) && Duties(x') <= Duties(x) - {it} && Trash(x') <= Trash(x)
    ensures HandsFine(Move(sh, it, p), tid, x')
  {
    forall o | o in Duties(x') ensures PlaceIs(Move(sh, it, p), o, Held(tid)) { assert PlaceIs(sh, o, Held(tid)); }
  }

  lemma AppendRest(sh: Shared, tid: Tid, x: Thread, it: Item, t: nat, x': Thread)
    requires ThreadOk(sh, tid, x) && AppendTurn(x, it, x')
    ensures RestFine(Move(sh, it, Listed(t)), tid, x')
  {
    AppendLocal(x, it, x');
  }

  lemma AppendStep(sh: Shared, tid: Tid, x: Thread, it: Item, t: nat, sh': Shared, x': Thread)
    requires Own(sh, tid, x) && AppendTurn(x, it, x') && sh' == Move(sh, it, Listed(t))
    ensures Own(sh', tid, x')
  {
    AppendLocal(x, it, x');
    ItemHeld(sh, tid, x, it);
    MoveOk(sh, tid, it, Listed(t));
    MovedSeens(sh, tid, x, it, Listed(t), x');
    MovedHands(sh, tid, x, it, Listed(t), x');
    AppendRest(sh, tid, x, it, t, x');
    Sum(sh', tid, x');
  }

  lemma FreeAppendStep(sh: Shared, tid: Tid, x: Thread, sh': Shared, x': Thread)
    requires Own(sh, tid, x) && DoFreeAppend(sh, x, sh', x')
    ensures Own(sh', tid, x')
  {
    assert x.pc.stage.spare == StageItems(x.pc.stage) - {x.pc.stage.it};
    AppendStep(sh, tid, x, x.pc.stage.it, x.pc.stage.s.world.ts, sh', x');
  }

  lemma FreeAppendOldStep(sh: Shared, tid: Tid, x: Thread, sh': Shared, x': Thread, it: Item)
    requires Own(sh, tid, x) && DoFreeAppendOld(sh, x, sh', x', it)
    ensures Own(sh', tid, x')
  {
    AppendStep(sh, tid, x, it, x.pc.stage.s.world.ts, sh', x');
  }

  /** Going back to the operation that called free. */
  lemma ReturnStep(sh: Shared, tid: Tid, x: Thread, sh': Shared, x': Thread)
    requires Own(sh, tid, x) && x.pc.Free? && StageItems(x.pc.stage) == {}
    requires x.pc.stage.Trailing?
    requires sh' == sh && x' == x.(pc := After(x.pc.ret, x.last))
    ensures Own(sh', tid, x')
  {
    assert Duties(x') <= Duties(x) && Trash(x') <= Trash(x) && Seens(x') <= Seens(x);
  }

  lemma FreeNowLocal(sh: Shared, tid: Tid, x: Thread, sh': Shared, x': Thread)
    requires Local(x) && DoFreeNow(sh, x, sh', x')
    ensures Local(x') && Seens(x') <= Seens(x) && Duties(x') <= Duties(x) && Trash(x') <= Trash(x)
    ensures Limit(x') == Limit(x)
    ensures forall s :: s in Seens(x') ==> Old(s.at.w) != x.pc.stage.it
    ensures !x'.pc.Free? && !HasLocked(x'.pc) && (x'.pc.Walk? ==> x'.pc.phase == Dec) && Reg(x') == Reg(x)
  {
  }

  lemma FreeNowHands(sh: Shared, tid: Tid, x: Thread, sh': Shared, x': Thread)
    requires Own(sh, tid, x) && DoFreeNow(sh, x, sh', x') && Duties(x') <= Duties(x) && Trash(x') <= Trash(x)
    ensures HandsFine(sh', tid, x')
  {
    forall o | o in Duties(x') ensures PlaceIs(sh', o, Held(tid)) { assert PlaceIs(sh, o, Held(tid)); }
    forall o | o in Trash(x') ensures o != Old(sh'.cur.w) { assert o in Trash(x); }
  }

  lemma FreeNowSeen(sh: Shared, tid: Tid, x: Thread, sh': Shared, x': Thread, s: Seen)
    requires Own(sh, tid, x) && DoFreeNow(sh, x, sh', x') && s in Seens(x) && Old(s.at.w) != x.pc.stage.it
    ensures CurOk(sh') && SeenOk(sh', s) && SeenFresh(sh', Limit(x), s)
  {
    assert SeenOk(sh, s) && SeenFresh(sh, Limit(x), s);
  }

  lemma FreeNowRest(sh: Shared, tid: Tid, x: Thread, sh': Shared, x': Thread)
    requires Own(sh, tid, x) && DoFreeNow(sh, x, sh', x')
    ensures RestFine(sh', tid, x')
  {
    FreeNowLocal(sh, tid, x, sh', x');
  }

  lemma FreeNowStep(sh: Shared, tid: Tid, x: Thread, sh': Shared, x': Thread)
    requires Own(sh, tid, x) && DoFreeNow(sh, x, sh', x')
    ensures Own(sh', tid, x')
  {
    FreeNowLocal(sh, tid, x, sh', x');
    FinishOk(sh, x.pc.stage.it);
    FreeNowHands(sh, tid, x, sh', x');
    FreeNowRest(sh, tid, x, sh', x');
    forall s | s in Seens(x') ensures SeenOk(sh', s) && SeenFresh(sh', Limit(x'), s) {
      FreeNowSeen(sh, tid, x, sh', x', s);
    }
    Sum(sh', tid, x');
  }

  /* ---- checkin ---- */

  lemma CallCheckinStep(sh: Shared, tid: Tid, x: Thread, sh': Shared, x': Thread)
    requires Own(sh, tid, x) && DoCallCheckin(sh, x, sh', x')
    ensures Own(sh', tid, x')
  {
    assert Duties(x') == Duties(x) && Trash(x') == Trash(x);
    forall s | s in Seens(x') ensures SeenOk(sh', s) && SeenFresh(sh', Limit(x'), s) {
      assert s == Now(sh);
    }
  }

  lemma MarkSeenStep(sh: Shared, tid: Tid, x: Thread, sh': Shared, x': Thread)
    requires Own(sh, tid, x) && DoMarkSeen(sh, x, sh', x')
    ensures Own(sh', tid, x')
  {
    assert Duties(x') == Duties(x) && Trash(x') == Trash(x);
    assert x.pc.s in Seens(x) && SeenOk(sh, x.pc.s) && SeenFresh(sh, Limit(x), x.pc.s);
  }

  lemma MarkOkStep(sh: Shared, tid: Tid, x: Thread, sh': Shared, x': Thread)
    requires Own(sh, tid, x) && DoMarkOk(sh, x, sh', x') && W(sh).n > 0
    ensures Own(sh', tid, x')
  {
    SetBitOk(sh);
    assert Duties(x') == Duties(x) && Trash(x') == Trash(x);
    assert x.pc.s in Seens(x) && SeenOk(sh, x.pc.s) && SeenFresh(sh, Limit(x), x.pc.s);
  }

  lemma MarkFailStep(sh: Shared, tid: Tid, x: Thread, sh': Shared, x': Thread)
    requires Own(sh, tid, x) && DoMarkFail(sh, x, sh', x')
    ensures Own(sh', tid, x')
  {
    assert Duties(x') == Duties(x) && Trash(x') == Trash(x);
    assert x.pc.s in Seens(x) && SeenOk(sh, x.pc.s) && SeenFresh(sh, Limit(x), x.pc.s);
    forall s | s in Seens(x') ensures SeenOk(sh', s) && SeenFresh(sh', Limit(x'), s) {
      assert s == Now(sh) || s in Seens(x);
    }
  }

  lemma MarkLockedStep(sh: Shared, tid: Tid, x: Thread, sh': Shared, x': Thread)
    requires Own(sh, tid, x) && DoMarkLocked(sh, x, sh', x')
    ensures Own(sh', tid, x')
  {
    assert Duties(x') == Duties(x) && Trash(x') == Trash(x) && Seens(x') <= Seens(x);
  }

  lemma CopyOkLocal(sh: Shared, tid: Tid, x: Thread, sh': Shared, x': Thread, a: Addr)
    requires Local(x) && CurOk(sh) && DoCopyOk(sh, tid, x, sh', x', a)
    ensures Local(x') && Duties(x) == {} && Duties(x') <= (if x.pc.s.at.lock then {} else {Old(x.pc.s.at.w)})
    ensures Trash(x') == Duties(x') && LockedItems(x'.pc) == {} && Reg(x')
    ensures forall r :: r in Seens(x') ==> r == Seen(sh'.cur, x.pc.s.world)
    ensures !HasLocked(x'.pc) && !(x'.pc.Free? && x'.pc.stage.Immediate?) && (x'.pc.Free? ==> x'.pc.stage.Reading?)
    ensures x'.pc.Walk? ==> x'.pc.phase == Dec
    ensures Limit(x') <= x.pc.s.world.ts + 1
  {
  }

  lemma CopyOkStep(sh: Shared, tid: Tid, x: Thread, sh': Shared, x': Thread, a: Addr)
    requires Own(sh, tid, x) && DoCopyOk(sh, tid, x, sh', x', a) && W(sh).n > 0
    ensures Own(sh', tid, x')
  {
    var s := x.pc.s;
    CopyOkLocal(sh, tid, x, sh', x', a);
    assert s in Seens(x) && SeenOk(sh, s) && SeenFresh(sh, Limit(x), s);
    assert Old(a) !in sh.place;
    assert SharedOk(sh') by { PublishOk(sh, tid, a, s.world, true, false); }
  }

  lemma CopyFailStep(sh: Shared, tid: Tid, x: Thread, sh': Shared, x': Thread)
    requires Own(sh, tid, x) && DoCopyFail(sh, x, sh', x')
    ensures Own(sh', tid, x')
  {
    assert Duties(x') == Duties(x) && Trash(x') == Trash(x);
    assert x.pc.s in Seens(x) && SeenOk(sh, x.pc.s) && SeenFresh(sh, Limit(x), x.pc.s);
  }

  lemma LookStep(sh: Shared, tid: Tid, x: Thread, sh': Shared, x': Thread)
    requires Own(sh, tid, x) && DoLook(sh, x, sh', x')
    ensures Own(sh', tid, x')
  {
    assert Duties(x') == Duties(x) && Trash(x') == Trash(x);
  }

  /** Steps of the walk that leave the shared state alone. */
  lemma WalkStep(sh: Shared, tid: Tid, x: Thread, x': Thread)
    requires Own(sh, tid, x) && x.pc.Walk? && x'.pc.Walk? && x' == x.(pc := AtWalk(x.pc, x'.pc.t, x'.pc.phase))
    requires x.last <= x'.pc.t <= x'.pc.upto + 1 && (x'.pc.phase != Dec ==> x'.pc.t <= x'.pc.upto)
    requires PcItems(x'.pc) <= PcItems(x.pc)
    requires SlotsOk(sh, x')
    ensures Own(sh, tid, x')
  {
    assert Duties(x') <= Duties(x) && Trash(x') <= Trash(x) && Seens(x') == Seens(x);
  }

  lemma WipeSeens(sh: Shared, tid: Tid, x: Thread, sh': Shared, x': Thread)
    requires Own(sh, tid, x) && DoWipeList(sh, tid, x, sh', x')
    ensures SeensFine(sh', x') && RestFine(sh', tid, x')
  {
    forall s | s in Seens(x') ensures SeenOk(sh', s) && SeenFresh(sh', Limit(x'), s) {
      assert s in Seens(x);
      assert SeenOk(sh, s) && SeenFresh(sh, Limit(x), s);
    }
  }

  lemma WipeListStep(sh: Shared, tid: Tid, x: Thread, sh': Shared, x': Thread)
    requires Own(sh, tid, x) && DoWipeList(sh, tid, x, sh', x') && NullListed(sh, x)
    ensures Own(sh', tid, x')
  {
    var batch := x.pc.phase.batch;
    forall it | it in batch ensures it in sh.place && sh.place[it].Listed? { assert PlaceIs(sh, it, Listed(x.pc.t)); }
    MoveAllOk(sh, batch, Held(tid));
    assert Trash(x') == batch && Duties(x') == batch;
    WipeSeens(sh, tid, x, sh', x');
    Sum(sh', tid, x');
  }

  lemma RunItemSeens(sh: Shared, tid: Tid, x: Thread, sh': Shared, x': Thread, it: Item)
    requires Own(sh, tid, x) && DoRunItem(sh, x, sh', x', it)
    ensures SeensFine(sh', x')
  {
    ItemHeld(sh, tid, x, it);
    assert Slotted(sh, it, x.pc.t);
    forall s | s in Seens(x') ensures SeenOk(sh', s) && SeenFresh(sh', Limit(x'), s) {
      assert s in Seens(x);
      assert SeenOk(sh, s) && SeenFresh(sh, Limit(x), s);
      assert Old(s.at.w) != it;
    }
  }

  lemma RunItemRest(sh: Shared, tid: Tid, x: Thread, sh': Shared, x': Thread, it: Item)
    requires Own(sh, tid, x) && DoRunItem(sh, x, sh', x', it)
    ensures HandsFine(sh', tid, x') && RestFine(sh', tid, x')
  {
    ItemHeld(sh, tid, x, it);
    forall o | o in Duties(x') ensures PlaceIs(sh', o, Held(tid)) && o != it { assert o in Duties(x); }
    forall o | o in Trash(x') ensures o != Old(sh'.cur.w) { assert o in Trash(x); }
  }

  lemma RunItemStep(sh: Shared, tid: Tid, x: Thread, sh': Shared, x': Thread, it: Item)
    requires Own(sh, tid, x) && DoRunItem(sh, x, sh', x', it)
    ensures Own(sh', tid, x')
  {
    ItemHeld(sh, tid, x, it);
    FinishOk(sh, it);
    RunItemSeens(sh, tid, x, sh', x', it);
    RunItemRest(sh, tid, x, sh', x', it);
    Sum(sh', tid, x');
  }

  lemma WalkDoneStep(sh: Shared, tid: Tid, x: Thread, sh': Shared, x': Thread)
    requires Own(sh, tid, x) && DoWalkDone(sh, x, sh', x')
    ensures Own(sh', tid, x')
  {
    assert Duties(x') == Duties(x) && Trash(x') == Trash(x) && Seens(x') <= Seens(x);
  }

  /* ---- unregister ---- */

  lemma UnregLookStep(sh: Shared, tid: Tid, x: Thread, sh': Shared, x': Thread)
    requires Own(sh, tid, x) && DoUnregLook(sh, x, sh', x')
    ensures Own(sh', tid, x')
  {
    assert Duties(x') == Duties(x) && Trash(x') == Trash(x);
    forall s | s in Seens(x') ensures SeenOk(sh', s) && SeenFresh(sh', Limit(x'), s) {
      assert s == Now(sh);
    }
  }

  lemma LockOkStep(sh: Shared, tid: Tid, x: Thread, sh': Shared, x': Thread)
    requires Own(sh, tid, x) && DoLockOk(sh, tid, x, sh', x')
    ensures Own(sh', tid, x')
  {
    SetLockOk(sh, tid);
    assert x.pc.s in Seens(x) && SeenOk(sh, x.pc.s) && SeenFresh(sh, Limit(x), x.pc.s);
    assert Duties(x') == {Old(sh.cur.w)} && Trash(x') == {};
  }

  lemma LockRetryStep(sh: Shared, tid: Tid, x: Thread, sh': Shared, x': Thread)
    requires Own(sh, tid, x) && DoLockRetry(sh, x, sh', x')
    ensures Own(sh', tid, x')
  {
    assert x.pc.s in Seens(x) && SeenOk(sh, x.pc.s) && SeenFresh(sh, Limit(x), x.pc.s);
    assert Duties(x') == Duties(x) && Trash(x') == Trash(x);
  }

  lemma RemoveAgainStep(sh: Shared, tid: Tid, x: Thread, sh': Shared, x': Thread)
    requires Own(sh, tid, x) && DoRemoveAgain(sh, x, sh', x')
    ensures Own(sh', tid, x')
  {
    assert Duties(x') == Duties(x) && Trash(x') == Trash(x) && Seens(x') == Seens(x);
  }

  lemma RemoveHands(sh: Shared, tid: Tid, x: Thread, sh': Shared, x': Thread, a: Addr, w: World, bit: bool, lock: bool)
    requires Own(sh, tid, x) && x.pc.Removing? && sh.cur == x.pc.s.at && a !in sh.heap
    requires sh' == Publish(sh, tid, a, w, bit, lock)
    requires x' == Thread(0, if lock then Cleaning(x.pc.s.at.w, a) else Leaking(x.pc.s.at.w), x.held)
    ensures HandsFine(sh', tid, x')
  {
    var it := Old(x.pc.s.at.w);
    assert Old(a) !in sh.place;
    assert it in Duties(x) && PlaceIs(sh, it, Held(tid));
    assert Trash(x') == {it} && Duties(x') <= {it, Old(a)};
  }

  lemma RemoveRest(sh: Shared, tid: Tid, x: Thread, sh': Shared, x': Thread, a: Addr, w: World, bit: bool, lock: bool)
    requires Local(x) && CurOk(sh) && x.pc.Removing? && sh.cur == x.pc.s.at && a !in sh.heap
    requires sh' == Publish(sh, tid, a, w, bit, lock)
    requires x' == Thread(0, if lock then Cleaning(x.pc.s.at.w, a) else Leaking(x.pc.s.at.w), x.held)
    requires lock ==> w.n == 0 && !bit
    ensures SeensFine(sh', x') && RestFine(sh', tid, x')
  {
  }

  /** The stepping thread keeps only what it has to dispose of. */
  lemma RemoveStep(sh: Shared, tid: Tid, x: Thread, sh': Shared, x': Thread, a: Addr, w: World, bit: bool, lock: bool)
    requires Own(sh, tid, x) && x.pc.Removing? && sh.cur == x.pc.s.at && a !in sh.heap
    requires sh' == Publish(sh, tid, a, w, bit, lock)
    requires x' == Thread(0, if lock then Cleaning(x.pc.s.at.w, a) else Leaking(x.pc.s.at.w), x.held)
    requires if lock then w.n == 0 && w.ts == 0 && !bit else w.n >= 1 && (w.ts > 0 && !bit ==> w.n >= 2)
    ensures Own(sh', tid, x')
  {
    PublishOk(sh, tid, a, w, bit, lock);
    RemoveHands(sh, tid, x, sh', x', a, w, bit, lock);
    RemoveRest(sh, tid, x, sh', x', a, w, bit, lock);
    Sum(sh', tid, x');
  }

  lemma UnlockOkStep(sh: Shared, tid: Tid, x: Thread, sh': Shared, x': Thread)
    requires Own(sh, tid, x) && DoUnlockOk(sh, x, sh', x')
    ensures Own(sh', tid, x')
  {
    assert Old(x.pc.s.at.w) in Duties(x);
    ClearLockOk(sh, tid);
    assert Duties(x') == {} && Trash(x') == {};
  }

  lemma UnlockFailStep(sh: Shared, tid: Tid, x: Thread, sh': Shared, x': Thread)
    requires Own(sh, tid, x) && DoUnlockFail(sh, x, sh', x')
    ensures Own(sh', tid, x')
  {
    assert Duties(x') == Duties(x);
    assert Trash(x') == {Old(x.pc.s.at.w)};
  }

  lemma LeakStep(sh: Shared, tid: Tid, x: Thread, sh': Shared, x': Thread)
    requires Own(sh, tid, x) && DoLeak(sh, x, sh', x')
    ensures Own(sh', tid, x')
  {
    ItemHeld(sh, tid, x, Old(x.pc.a));
    assert Duties(x') == {} && Trash(x') == {};
  }

  lemma CleanStep(sh: Shared, tid: Tid, x: Thread, sh': Shared, x': Thread)
    requires Own(sh, tid, x) && DoClean(sh, x, sh', x')
    ensures Own(sh', tid, x')
  {
    ItemHeld(sh, tid, x, Old(x.pc.a));
    FinishAllOk(sh, x.pc.a, tid);
    assert Old(x.pc.b) in Duties(x);
    assert PlaceIs(sh, Old(x.pc.b), Held(tid));
    assert Old(x.pc.b) !in sh.leaks;
    assert Duties(x') == {Old(x.pc.b)} && Trash(x') == {};
  }

  lemma ReopenStep(sh: Shared, tid: Tid, x: Thread, sh': Shared, x': Thread)
    requires Own(sh, tid, x) && DoReopen(sh, x, sh', x')
    ensures Own(sh', tid, x')
  {
    assert Old(x.pc.b) in Duties(x);
    ClearLockOk(sh, tid);
    assert Duties(x') == {} && Trash(x') == {};
  }
}
