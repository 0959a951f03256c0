/** No step of one thread disturbs another: each is within what the other relies on. */
module Interference {
  import opened AbaTypes
  import opened Protocol
  import opened Invariant
  import opened SharedSteps
  import opened ThreadSteps

  /** Two threads that are both in order, and what the thread count and the lists say about them. */
  ghost predicate Pair(sh: Shared, tid: Tid, x: Thread, t2: Tid, y: Thread) {
    && tid != t2 && Own(sh, tid, x) && ThreadOk(sh, t2, y)
    && Census(sh, x, y) && NullListed(sh, x) && NullListed(sh, y)
  }

  /** While the last thread cleans up, nobody else can touch the world pointer. */
  lemma NoCleaner(sh: Shared, tid: Tid, x: Thread, t2: Tid, y: Thread)
    requires Pair(sh, tid, x, t2, y)
    requires Reg(x) || !sh.cur.lock || Old(sh.cur.w) in Duties(x)
    ensures !y.pc.Cleaning? && !y.pc.Reopening?
  {
    assert y.pc.Cleaning? || y.pc.Reopening? ==> Old(sh.cur.w) in Duties(y);
  }

  /** An item in hand is not in the hands of another thread. */
  lemma HeldApart(sh: Shared, tid: Tid, x: Thread, t2: Tid, y: Thread, it: Item)
    requires Pair(sh, tid, x, t2, y)
    requires it in Duties(x) || (x.pc.Free? && x.pc.stage.Immediate? && it == x.pc.stage.it)
    ensures it in sh.place && (sh.place[it] == Held(tid) || sh.place[it] == Alone(tid))
    ensures y.pc.Walk? && y.pc.phase.Null? ==> it !in y.pc.phase.batch
  {
    assert PlaceIs(sh, it, Held(tid)) || PlaceIs(sh, it, Alone(tid));
    if y.pc.Walk? && y.pc.phase.Null? {
      assert forall o :: o in y.pc.phase.batch ==> PlaceIs(sh, o, Listed(y.pc.t));
    }
  }

  lemma LockRely(sh: Shared, tid: Tid, x: Thread, sh': Shared, x': Thread, t2: Tid, y: Thread)
    requires Pair(sh, tid, x, t2, y) && DoLock(sh, tid, x, sh', x')
    ensures Rely(sh, sh', t2, y)
  {
    SetLockRely(sh, tid, t2, y);
  }

  lemma RegisterRely(sh: Shared, tid: Tid, x: Thread, sh': Shared, x': Thread, a: Addr, t2: Tid, y: Thread)
    requires Pair(sh, tid, x, t2, y) && DoRegisterOk(sh, tid, x, sh', x', a)
    ensures Rely(sh, sh', t2, y)
  {
    var s := x.pc.s;
    assert s in Seens(x) && SeenOk(sh, s) && Old(s.at.w) in Duties(x);
    NoCleaner(sh, tid, x, t2, y);
    PublishRely(sh, tid, a, s.world.(n := s.world.n + 1), true, false, t2, y);
  }

  lemma CallFreeRely(sh: Shared, tid: Tid, x: Thread, sh': Shared, x': Thread, k: nat, t2: Tid, y: Thread)
    requires Pair(sh, tid, x, t2, y) && DoCallFree(sh, tid, x, sh', x', k)
    ensures Rely(sh, sh', t2, y)
  {
    MoveRely(sh, User(k), Held(tid), t2, y);
  }

  lemma ReadRely(sh: Shared, tid: Tid, x: Thread, it: Item, t2: Tid, y: Thread)
    requires Pair(sh, tid, x, t2, y) && it in Trash(x)
    ensures Rely(sh, AssignIfClear(sh, it), t2, y)
  {
    ItemHeld(sh, tid, x, it);
    if sh.cur.bit {
      RelySame(sh, t2, y);
    } else {
      forall s | Reg(y) && s in Seens(y) && Old(s.at.w) == it ensures s.world.ts < W(sh).ts {
        assert SeenFresh(sh, Limit(y), s);
      }
      HeldApart(sh, tid, x, t2, y, it);
      AssignRely(sh, tid, {it}, W(sh).ts, t2, y, Assign(sh, {it}, W(sh).ts));
    }
  }

  lemma AloneRely(sh: Shared, tid: Tid, x: Thread, it: Item, t2: Tid, y: Thread)
    requires Pair(sh, tid, x, t2, y) && it in Trash(x) && Reg(x) && W(sh).n <= 1
    ensures Rely(sh, Move(sh, it, Alone(tid)), t2, y)
  {
    ItemHeld(sh, tid, x, it);
    MoveRely(sh, it, Alone(tid), t2, y);
  }

  /** One relies on two changes in a row. */
  lemma RelyTwice(sh: Shared, mid: Shared, sh': Shared, t2: Tid, y: Thread)
    requires SharedOk(sh) && ThreadOk(sh, t2, y) && Rely(sh, mid, t2, y) && Rely(mid, sh', t2, y)
    requires sh'.cur == mid.cur && sh'.heap == mid.heap
    ensures Rely(sh, sh', t2, y)
  {
    forall it | it in Trash(y) || (y.pc.Walk? && y.pc.phase.Null? && it in y.pc.phase.batch)
      ensures it in sh.slot ==> Slotted(sh', it, sh.slot[it])
    {
      if it in sh.slot { assert Slotted(mid, it, sh.slot[it]); }
    }
    forall s | Reg(y) && s in Seens(y) ensures SlotSafe(sh, sh', s) {
      assert SlotSafe(sh, mid, s) && SlotSafe(mid, sh', s);
    }
  }

  lemma FreeSwapFacts(sh: Shared, tid: Tid, x: Thread, sh': Shared, x': Thread, a: Addr, win: Window, t2: Tid,
      y: Thread)
    requires Pair(sh, tid, x, t2, y) && DoFreeSwap(sh, tid, x, sh', x', a, win)
    ensures a !in sh.heap && x.pc.stage.s.world == W(sh) && W(sh).n >= 2 && !y.pc.Cleaning? && !y.pc.Reopening?
  {
    assert x.pc.stage.s in Seens(x) && SeenOk(sh, x.pc.stage.s);
    NoCleaner(sh, tid, x, t2, y);
  }

  /** First the new world is published. */
  lemma NextWorldRely(sh: Shared, tid: Tid, a: Addr, w: World, t2: Tid, y: Thread, mid: Shared)
    requires SharedOk(sh) && ThreadOk(sh, t2, y) && a !in sh.heap && w.ts == W(sh).ts + 1 && w.n >= 2
    requires !y.pc.Cleaning? && !y.pc.Reopening? && mid == Publish(sh, tid, a, w, false, false)
    ensures Rely(sh, mid, t2, y) && SharedOk(mid) && ThreadOk(mid, t2, y)
  {
    hide *;
    PublishRely(sh, tid, a, w, false, false, t2, y);
    PublishOk(sh, tid, a, w, false, false);
    Stable(sh, mid, t2, y);
  }

  /** Items the thread has in hand may go on the list of timestamp t as far as the other thread is concerned. */
  ghost predicate AssignFits(mid: Shared, tid: Tid, its: set<Item>, t: nat, y: Thread) {
    && (forall it :: it in its ==> PlaceIs(mid, it, Held(tid)))
    && (Reg(y) ==> forall r :: r in Seens(y) && Old(r.at.w) in its ==> r.world.ts < t)
    && (y.pc.Walk? && y.pc.phase.Null? ==> y.pc.phase.batch !! its)
  }

  /** Then it is recorded where the item and the old world go. */
  lemma FreeSwapItems(sh: Shared, tid: Tid, x: Thread, sh': Shared, x': Thread, a: Addr, win: Window, t2: Tid,
      y: Thread, mid: Shared, its: set<Item>)
    requires Pair(sh, tid, x, t2, y) && DoFreeSwap(sh, tid, x, sh', x', a, win)
    requires mid == Publish(sh, tid, a, World(x.pc.stage.s.world.ts + 1, x.pc.stage.s.world.n, win), false, false)
    requires its == {x.pc.stage.it} + Spare(x.pc.stage.s)
    ensures AssignFits(mid, tid, its, x.pc.stage.s.world.ts + 1, y)
  {
    var s := x.pc.stage.s;
    assert s in Seens(x) && SeenOk(sh, s);
    ItemHeld(sh, tid, x, x.pc.stage.it);
    forall it | it in its && y.pc.Walk? && y.pc.phase.Null? ensures it !in y.pc.phase.batch {
      forall o | o in y.pc.phase.batch ensures PlaceIs(sh, o, Listed(y.pc.t)) {}
    }
    forall r | Reg(y) && r in Seens(y) ensures r.world.ts < s.world.ts + 1 { assert SeenFresh(sh, Limit(y), r); }
  }

  lemma ThenAssignRely(sh: Shared, mid: Shared, tid: Tid, its: set<Item>, t: nat, t2: Tid, y: Thread, sh': Shared)
    requires SharedOk(sh) && ThreadOk(sh, t2, y) && Rely(sh, mid, t2, y) && SharedOk(mid) && ThreadOk(mid, t2, y)
    requires t2 != tid && sh' == Assign(mid, its, t) && AssignFits(mid, tid, its, t, y)
    ensures Rely(sh, sh', t2, y)
  {
    AssignRely(mid, tid, its, t, t2, y, sh');
    RelyTwice(sh, mid, sh', t2, y);
  }

  lemma PublishAssignRely(sh: Shared, mid: Shared, tid: Tid, a: Addr, w: World, its: set<Item>, t2: Tid, y: Thread,
      sh': Shared)
    requires SharedOk(sh) && ThreadOk(sh, t2, y) && a !in sh.heap && w.ts == W(sh).ts + 1 && w.n >= 2
    requires !y.pc.Cleaning? && !y.pc.Reopening? && mid == Publish(sh, tid, a, w, false, false)
    requires t2 != tid && sh' == Assign(mid, its, w.ts) && AssignFits(mid, tid, its, w.ts, y)
    ensures Rely(sh, sh', t2, y)
  {
    hide *;
    NextWorldRely(sh, tid, a, w, t2, y, mid);
    ThenAssignRely(sh, mid, tid, its, w.ts, t2, y, sh');
  }

  lemma FreeSwapRely(sh: Shared, tid: Tid, x: Thread, sh': Shared, x': Thread, a: Addr, win: Window, t2: Tid, y: Thread)
    requires Pair(sh, tid, x, t2, y) && DoFreeSwap(sh, tid, x, sh', x', a, win)
    ensures Rely(sh, sh', t2, y)
  {
    hide StepOf, OpOf;
    var s := x.pc.stage.s;
    var w := World(s.world.ts + 1, s.world.n, win);
    var mid := Publish(sh, tid, a, w, false, false);
    var its := {x.pc.stage.it} + Spare(s);
    FreeSwapFacts(sh, tid, x, sh', x', a, win, t2, y);
    PairParts(sh, tid, x, t2, y);
    FreeSwapItems(sh, tid, x, sh', x', a, win, t2, y, mid, its);
    FreeSwapIs(sh, tid, x, sh', x', a, win, mid, its);
    PublishAssignRely(sh, mid, tid, a, w, its, t2, y, sh');
  }

  lemma PairParts(sh: Shared, tid: Tid, x: Thread, t2: Tid, y: Thread)
    requires Pair(sh, tid, x, t2, y)
    ensures SharedOk(sh) && ThreadOk(sh, t2, y)
  {
  }

  lemma AppendRely(sh: Shared, tid: Tid, x: Thread, it: Item, t: nat, t2: Tid, y: Thread)
    requires Pair(sh, tid, x, t2, y) && it in Trash(x)
    ensures Rely(sh, Move(sh, it, Listed(t)), t2, y)
  {
    ItemHeld(sh, tid, x, it);
    MoveRely(sh, it, Listed(t), t2, y);
  }

  lemma FreeNowRely(sh: Shared, tid: Tid, x: Thread, sh': Shared, x': Thread, t2: Tid, y: Thread)
    requires Pair(sh, tid, x, t2, y) && DoFreeNow(sh, x, sh', x')
    ensures Rely(sh, sh', t2, y)
  {
    var it := x.pc.stage.it;
    HeldApart(sh, tid, x, t2, y, it);
    forall s | s in Seens(y) ensures Old(s.at.w) != it {
      assert SeenOk(sh, s);
      if Reg(y) { assert SeenFresh(sh, Limit(y), s); } else { assert Old(s.at.w) in Duties(y); }
    }
    FinishRely(sh, it, t2, y);
  }

  lemma MarkOkRely(sh: Shared, tid: Tid, x: Thread, sh': Shared, x': Thread, t2: Tid, y: Thread)
    requires Pair(sh, tid, x, t2, y) && DoMarkOk(sh, x, sh', x')
    ensures Rely(sh, sh', t2, y)
  {
    NoCleaner(sh, tid, x, t2, y);
    SetBitRely(sh, t2, y);
  }

  lemma CopyOkRely(sh: Shared, tid: Tid, x: Thread, sh': Shared, x': Thread, a: Addr, t2: Tid, y: Thread)
    requires Pair(sh, tid, x, t2, y) && DoCopyOk(sh, tid, x, sh', x', a)
    ensures Rely(sh, sh', t2, y)
  {
    assert x.pc.s in Seens(x) && SeenOk(sh, x.pc.s);
    NoCleaner(sh, tid, x, t2, y);
    PublishRely(sh, tid, a, x.pc.s.world, true, false, t2, y);
  }

  lemma WipeListRely(sh: Shared, tid: Tid, x: Thread, sh': Shared, x': Thread, t2: Tid, y: Thread)
    requires Pair(sh, tid, x, t2, y) && DoWipeList(sh, tid, x, sh', x')
    ensures Rely(sh, sh', t2, y)
  {
    forall it | it in x.pc.phase.batch ensures it in sh.place && sh.place[it].Listed? {
      assert PlaceIs(sh, it, Listed(x.pc.t));
    }
    MoveAllRely(sh, x.pc.phase.batch, Held(tid), t2, y);
  }

  /** Giving back an item of a drained timestamp: whoever could still read it would owe that timestamp. */
  lemma RunItemRely(sh: Shared, tid: Tid, x: Thread, sh': Shared, x': Thread, it: Item, t2: Tid, y: Thread)
    requires Pair(sh, tid, x, t2, y) && DoRunItem(sh, x, sh', x', it)
    requires Reg(y) ==> Next(y) > x.pc.t
    ensures Rely(sh, sh', t2, y)
  {
    ItemHeld(sh, tid, x, it);
    HeldApart(sh, tid, x, t2, y, it);
    forall s | s in Seens(y) ensures Old(s.at.w) != it {
      assert SeenOk(sh, s);
      if Reg(y) {
        assert SeenFresh(sh, Limit(y), s) && Slotted(sh, it, x.pc.t);
      } else {
        assert Old(s.at.w) in Duties(y) && PlaceIs(sh, Old(s.at.w), Held(t2));
      }
    }
    FinishRely(sh, it, t2, y);
  }

  lemma LockOkRely(sh: Shared, tid: Tid, x: Thread, sh': Shared, x': Thread, t2: Tid, y: Thread)
    requires Pair(sh, tid, x, t2, y) && DoLockOk(sh, tid, x, sh', x')
    ensures Rely(sh, sh', t2, y)
  {
    SetLockRely(sh, tid, t2, y);
  }

  lemma RemoveRely(sh: Shared, tid: Tid, x: Thread, a: Addr, w: World, bit: bool, lock: bool, t2: Tid, y: Thread)
    requires Pair(sh, tid, x, t2, y) && x.pc.Removing? && sh.cur == x.pc.s.at && a !in sh.heap
    requires if lock then W(sh).n == 1 else w.ts == x.pc.s.world.ts && bit
    ensures Rely(sh, Publish(sh, tid, a, w, bit, lock), t2, y)
  {
    assert x.pc.s in Seens(x) && SeenOk(sh, x.pc.s);
    NoCleaner(sh, tid, x, t2, y);
    PublishRely(sh, tid, a, w, bit, lock, t2, y);
  }

  lemma UnlockRely(sh: Shared, tid: Tid, x: Thread, sh': Shared, x': Thread, t2: Tid, y: Thread)
    requires Pair(sh, tid, x, t2, y) && (DoUnlockOk(sh, x, sh', x') || DoReopen(sh, x, sh', x'))
    ensures Rely(sh, sh', t2, y)
  {
    assert Old(sh.cur.w) in Duties(x);
    NoCleaner(sh, tid, x, t2, y);
    ClearLockRely(sh, tid, t2, y);
  }

  lemma LeakRely(sh: Shared, tid: Tid, x: Thread, sh': Shared, x': Thread, t2: Tid, y: Thread)
    requires Pair(sh, tid, x, t2, y) && DoLeak(sh, x, sh', x')
    ensures Rely(sh, sh', t2, y)
  {
    ItemHeld(sh, tid, x, Old(x.pc.a));
    MoveRely(sh, Old(x.pc.a), Leaked, t2, y);
  }

  lemma CleanRely(sh: Shared, tid: Tid, x: Thread, sh': Shared, x': Thread, t2: Tid, y: Thread)
    requires Pair(sh, tid, x, t2, y) && DoClean(sh, x, sh', x')
    ensures Rely(sh, sh', t2, y)
  {
    ItemHeld(sh, tid, x, Old(x.pc.a));
    assert Old(x.pc.b) in Duties(x);
    NoCleaner(sh, tid, x, t2, y);
    FinishAllRely(sh, x.pc.a, tid, t2, y);
  }
}
