/** Each way of changing the shared state keeps it in order, and is something the other threads can rely on. */
module SharedSteps {
  import opened AbaTypes
  import opened Protocol
  import opened Invariant

  /** What the number of threads in the current world says about two different threads. */
  predicate Census(sh: Shared, x: Thread, y: Thread) {
    && (Reg(x) || Reg(y) ==> W(sh).n >= 1)
    && (Reg(x) && Reg(y) ==> W(sh).n >= 2)
  }

  lemma RelySame(sh: Shared, tid: Tid, y: Thread)
    requires ThreadOk(sh, tid, y)
    ensures Rely(sh, sh, tid, y)
  {
  }

  lemma PublishOk(sh: Shared, tid: Tid, a: Addr, w: World, bit: bool, lock: bool)
    requires SharedOk(sh) && a !in sh.heap
    requires w.n == 0 ==> w.ts == 0 && !bit
    requires w.ts > 0 && !bit ==> w.n >= 2
    ensures SharedOk(Publish(sh, tid, a, w, bit, lock))
  {
    assert Old(a) !in sh.place;
  }

  lemma PublishRely(sh: Shared, tid: Tid, a: Addr, w: World, bit: bool, lock: bool, t2: Tid, y: Thread)
    requires SharedOk(sh) && ThreadOk(sh, t2, y) && a !in sh.heap
    requires Reg(y) ==> w.ts > W(sh).ts || (w.ts == W(sh).ts && bit)
    requires !y.pc.Cleaning? && !y.pc.Reopening?
    ensures Rely(sh, Publish(sh, tid, a, w, bit, lock), t2, y)
  {
    assert Old(a) !in sh.place;
    var sh' := Publish(sh, tid, a, w, bit, lock);
    forall it | it in Duties(y) ensures PlaceIs(sh', it, Held(t2)) {
      assert PlaceIs(sh, it, Held(t2));
    }
  }

  lemma SetLockOk(sh: Shared, tid: Tid)
    requires SharedOk(sh) && !sh.cur.lock
    ensures SharedOk(SetLock(sh, tid))
  {
  }

  lemma SetLockRely(sh: Shared, tid: Tid, t2: Tid, y: Thread)
    requires SharedOk(sh) && !sh.cur.lock && ThreadOk(sh, t2, y)
    ensures Rely(sh, SetLock(sh, tid), t2, y)
  {
    forall it | it in Duties(y) ensures PlaceIs(SetLock(sh, tid), it, Held(t2)) {
      assert PlaceIs(sh, it, Held(t2));
    }
  }

  lemma ClearLockOk(sh: Shared, tid: Tid)
    requires SharedOk(sh) && PlaceIs(sh, Old(sh.cur.w), Held(tid))
    ensures SharedOk(ClearLock(sh))
  {
  }

  lemma ClearLockRely(sh: Shared, tid: Tid, t2: Tid, y: Thread)
    requires SharedOk(sh) && PlaceIs(sh, Old(sh.cur.w), Held(tid)) && ThreadOk(sh, t2, y) && t2 != tid
    requires !y.pc.Cleaning? && !y.pc.Reopening?
    ensures Rely(sh, ClearLock(sh), t2, y)
  {
    forall it | it in Duties(y) ensures PlaceIs(ClearLock(sh), it, Held(t2)) {
      assert PlaceIs(sh, it, Held(t2));
    }
  }

  lemma SetBitOk(sh: Shared)
    requires SharedOk(sh) && W(sh).n > 0
    ensures SharedOk(sh.(cur := sh.cur.(bit := true)))
  {
  }

  lemma SetBitRely(sh: Shared, t2: Tid, y: Thread)
    requires SharedOk(sh) && !sh.cur.lock && ThreadOk(sh, t2, y)
    requires !y.pc.Cleaning? && !y.pc.Reopening?
    ensures Rely(sh, sh.(cur := sh.cur.(bit := true)), t2, y)
  {
    assert !PlaceIs(sh, Old(sh.cur.w), Held(t2));
  }

  lemma MoveOk(sh: Shared, tid: Tid, it: Item, p: Place)
    requires SharedOk(sh)
    requires (it in sh.place && sh.place[it] == Held(tid)) || (it.User? && it !in sh.place)
    requires it != Old(sh.cur.w)
    requires p.Held? || p.Alone? || p.Listed? || p.Ran?
    ensures SharedOk(Move(sh, it, p))
  {
  }

  /** Moving an item that is in nobody else's hands. */
  lemma MoveRely(sh: Shared, it: Item, p: Place, t2: Tid, y: Thread)
    requires SharedOk(sh) && ThreadOk(sh, t2, y)
    requires it in sh.place ==> sh.place[it] != Held(t2) && sh.place[it] != Alone(t2)
    requires p.Alone? ==> !Reg(y)
    ensures Rely(sh, Move(sh, it, p), t2, y)
  {
    forall o | o in Duties(y) ensures PlaceIs(Move(sh, it, p), o, Held(t2)) {
      assert PlaceIs(sh, o, Held(t2));
    }
  }

  lemma AssignOk(sh: Shared, its: set<Item>, t: nat)
    requires SharedOk(sh) && its <= sh.place.Keys && Old(sh.cur.w) !in its
    ensures SharedOk(Assign(sh, its, t))
  {
  }

  /** Assigning items another thread holds to a list: a world that is still read by someone gets a
      list later than itself. */
  lemma AssignRely(sh: Shared, tid: Tid, its: set<Item>, t: nat, t2: Tid, y: Thread, sh': Shared)
    requires SharedOk(sh) && ThreadOk(sh, t2, y) && t2 != tid
    requires forall it :: it in its ==> PlaceIs(sh, it, Held(tid))
    requires Reg(y) ==> forall s :: s in Seens(y) && Old(s.at.w) in its ==> s.world.ts < t
    requires y.pc.Walk? && y.pc.phase.Null? ==> y.pc.phase.batch !! its
    requires sh' == Assign(sh, its, t)
    ensures Rely(sh, sh', t2, y)
  {
    forall it | it in Duties(y) ensures PlaceIs(sh', it, Held(t2)) && it !in its {
      assert PlaceIs(sh, it, Held(t2));
    }
    forall it | it in Trash(y) || (y.pc.Walk? && y.pc.phase.Null? && it in y.pc.phase.batch)
      ensures it in sh.slot ==> Slotted(sh', it, sh.slot[it])
    {
      if it in Trash(y) { assert it in Duties(y); }
    }
  }

  lemma FinishOk(sh: Shared, it: Item)
    requires SharedOk(sh) && it in sh.place && (sh.place[it].Held? || sh.place[it].Alone?)
    requires it != Old(sh.cur.w)
    ensures SharedOk(Finish(sh, it))
  {
  }

  lemma FinishRely(sh: Shared, it: Item, t2: Tid, y: Thread)
    requires SharedOk(sh) && ThreadOk(sh, t2, y)
    requires it in sh.place && sh.place[it] != Held(t2) && sh.place[it] != Alone(t2)
    requires it != Old(sh.cur.w)
    requires forall s :: s in Seens(y) ==> Old(s.at.w) != it
    requires y.pc.Walk? && y.pc.phase.Null? ==> it !in y.pc.phase.batch
    ensures Rely(sh, Finish(sh, it), t2, y)
  {
    var sh' := Finish(sh, it);
    forall o | o in Duties(y) ensures PlaceIs(sh', o, Held(t2)) && o != it {
      assert PlaceIs(sh, o, Held(t2));
    }
    forall o | o in Trash(y) || (y.pc.Walk? && y.pc.phase.Null? && o in y.pc.phase.batch)
      ensures o in sh.slot ==> Slotted(sh', o, sh.slot[o])
    {
      if o in Trash(y) { assert o in Duties(y); }
    }
  }

  lemma MoveAllOk(sh: Shared, its: set<Item>, p: Place)
    requires SharedOk(sh) && p.Held?
    requires forall it :: it in its ==> it in sh.place && sh.place[it].Listed?
    ensures SharedOk(MoveAll(sh, its, p))
  {
    assert MoveAll(sh, its, p).place.Keys == sh.place.Keys;
  }

  lemma MoveAllRely(sh: Shared, its: set<Item>, p: Place, t2: Tid, y: Thread)
    requires SharedOk(sh) && ThreadOk(sh, t2, y) && p.Held?
    requires forall it :: it in its ==> it in sh.place && sh.place[it].Listed?
    ensures Rely(sh, MoveAll(sh, its, p), t2, y)
  {
    forall o | o in Duties(y) ensures PlaceIs(MoveAll(sh, its, p), o, Held(t2)) {
      assert PlaceIs(sh, o, Held(t2));
    }
  }

  lemma FinishAllOk(sh: Shared, a: Addr, tid: Tid)
    requires SharedOk(sh) && PlaceIs(sh, Old(a), Held(tid)) && a != sh.cur.w
    ensures SharedOk(FinishAll(sh, a))
  {
    var its := sh.leaks + {Old(a)};
    var sh' := FinishAll(sh, a);
    assert forall it :: it in sh.leaks ==> sh.place[it] == Leaked;
    assert Old(sh.cur.w) !in its;
    assert forall it :: it in sh'.place <==> it in sh.place && it !in its;
  }

  lemma FinishAllRely(sh: Shared, a: Addr, tid: Tid, t2: Tid, y: Thread)
    requires SharedOk(sh) && PlaceIs(sh, Old(a), Held(tid)) && a != sh.cur.w && tid != t2
    requires ThreadOk(sh, t2, y) && !Reg(y)
    ensures Rely(sh, FinishAll(sh, a), t2, y)
  {
    var its := sh.leaks + {Old(a)};
    var sh' := FinishAll(sh, a);
    assert forall it :: it in sh.leaks ==> sh.place[it] == Leaked;
    assert Old(sh.cur.w) !in its;
    forall o | o in Duties(y) ensures PlaceIs(sh', o, Held(t2)) && o !in its {
      assert PlaceIs(sh, o, Held(t2));
    }
    forall s | s in Seens(y) ensures s.at.w in sh'.heap && sh'.heap[s.at.w] == sh.heap[s.at.w] {
      assert SeenOk(sh, s);
      assert Old(s.at.w) in Duties(y);
    }
  }
}
