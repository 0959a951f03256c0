/** How a step moves items: only out of the stepping thread's own hands, and into them only from a
    list it has drained. */
module Places {
  import opened AbaTypes
  import opened Protocol
  import opened Invariant
  import opened ThreadSteps

  /** Everything that is recorded as held by the thread is in its hands. */
  ghost predicate Mine(sh: Shared, tid: Tid, x: Thread) {
    && (forall it :: it in sh.place && sh.place[it] == Held(tid) ==> it in Duties(x))
    && (forall it :: it in sh.place && sh.place[it] == Alone(tid) ==>
          x.pc.Free? && x.pc.stage == Immediate(it))
  }

  predicate MovedOk(sh: Shared, sh': Shared, tid: Tid, op: Op, it: Item)
    requires it in sh'.place
  {
    match sh'.place[it]
    case Held(t) => t == tid || PlaceIs(sh, it, Held(t))
    case Alone(t) => t == tid || PlaceIs(sh, it, Alone(t))
    case Listed(t) =>
      (PlaceIs(sh, it, Listed(t)) && !(op.Wipe? && op.t == t)) || (op.Push? && op.t == t && op.it == it)
    case _ => true
  }

  ghost predicate Moves(sh: Shared, sh': Shared, tid: Tid, x': Thread, op: Op) {
    && Mine(sh', tid, x')
    && (forall it :: it in sh'.place ==> MovedOk(sh, sh', tid, op, it))
    && (forall it :: it in sh.place && sh.place[it].Listed? ==>
          (op.Wipe? && op.t == sh.place[it].ts)
          || (PlaceIs(sh', it, sh.place[it]) && (it in sh.slot ==> Slotted(sh', it, sh.slot[it]))))
    && (op.Push? ==> PlaceIs(sh', op.it, Listed(op.t)) && Slotted(sh', op.it, op.t))
  }

  /** Before a step. */
  ghost predicate Before(sh: Shared, tid: Tid, x: Thread) {
    SharedOk(sh) && Mine(sh, tid, x)
  }

  /** Nothing moves and nothing leaves the thread's hands. */
  lemma StayMoves(sh: Shared, tid: Tid, x: Thread, x': Thread, op: Op)
    requires Mine(sh, tid, x) && Duties(x) <= Duties(x') && !op.Push? && !op.Wipe?
    requires x.pc.Free? && x.pc.stage.Immediate? ==> x' == x
    ensures Moves(sh, sh, tid, x', op)
  {
  }

  lemma LockMoves(sh: Shared, tid: Tid, x: Thread, x': Thread, sh': Shared)
    requires Before(sh, tid, x) && !sh.cur.lock && sh' == SetLock(sh, tid)
    requires Duties(x') == Duties(x) + {Old(sh.cur.w)} && !x.pc.Free?
    ensures Moves(sh, sh', tid, x', Nop)
  {
  }

  lemma UnlockMoves(sh: Shared, tid: Tid, x: Thread, x': Thread, sh': Shared)
    requires Before(sh, tid, x) && PlaceIs(sh, Old(sh.cur.w), Held(tid)) && sh' == ClearLock(sh)
    requires Duties(x') == Duties(x) - {Old(sh.cur.w)} && !x.pc.Free?
    ensures Moves(sh, sh', tid, x', Nop)
  {
  }

  /** Publishing moves the world that is replaced and places the new one; everything else stays. */
  lemma PublishPlace(sh: Shared, tid: Tid, a: Addr, w: World, bit: bool, lock: bool, it: Item)
    requires SharedOk(sh) && a !in sh.heap
    ensures var sh' := Publish(sh, tid, a, w, bit, lock);
      if it == Old(a) then it !in sh.place && PlaceIs(sh', it, if lock then Held(tid) else Current)
      else if it == Old(sh.cur.w) && !sh.cur.lock then PlaceIs(sh, it, Current) && PlaceIs(sh', it, Held(tid))
      else (it in sh'.place <==> it in sh.place) && (it in sh.place ==> sh'.place[it] == sh.place[it])
  {
    assert Old(a) !in sh.place;
  }

  /** Publishing a world puts the one it replaces into the thread's hands, unless another thread had
      it locked. */
  lemma PublishMoves(sh: Shared, tid: Tid, x: Thread, a: Addr, w: World, bit: bool, lock: bool, sh': Shared,
      x': Thread, op: Op)
    requires Before(sh, tid, x) && a !in sh.heap && !op.Push? && !op.Wipe? && sh' == Publish(sh, tid, a, w, bit, lock)
    requires x.pc.Free? ==> !x.pc.stage.Immediate?
    requires Duties(x) <= Duties(x') && (!sh.cur.lock ==> Old(sh.cur.w) in Duties(x'))
    requires lock ==> Old(a) in Duties(x')
    ensures Moves(sh, sh', tid, x', op)
  {
    forall it ensures
      if it == Old(a) then it !in sh.place && PlaceIs(sh', it, if lock then Held(tid) else Current)
      else if it == Old(sh.cur.w) && !sh.cur.lock then PlaceIs(sh, it, Current) && PlaceIs(sh', it, Held(tid))
      else (it in sh'.place <==> it in sh.place) && (it in sh.place ==> sh'.place[it] == sh.place[it])
    {
      PublishPlace(sh, tid, a, w, bit, lock, it);
    }
    PlacedMoves(sh, tid, x, a, lock, sh', x', op);
  }

  lemma PlacedMoves(sh: Shared, tid: Tid, x: Thread, a: Addr, lock: bool, sh': Shared, x': Thread, op: Op)
    requires Mine(sh, tid, x) && !op.Push? && !op.Wipe? && sh'.slot == sh.slot
    requires x.pc.Free? ==> !x.pc.stage.Immediate?
    requires Duties(x) <= Duties(x') && (!sh.cur.lock ==> Old(sh.cur.w) in Duties(x'))
    requires lock ==> Old(a) in Duties(x')
    requires forall it ::
      if it == Old(a) then it !in sh.place && PlaceIs(sh', it, if lock then Held(tid) else Current)
      else if it == Old(sh.cur.w) && !sh.cur.lock then PlaceIs(sh, it, Current) && PlaceIs(sh', it, Held(tid))
      else (it in sh'.place <==> it in sh.place) && (it in sh.place ==> sh'.place[it] == sh.place[it])
    ensures Moves(sh, sh', tid, x', op)
  {
  }

  /** Choosing lists for items that are on none moves nothing. */
  lemma ThenAssign(sh: Shared, mid: Shared, tid: Tid, sh': Shared, x': Thread, op: Op, its: set<Item>, t: nat)
    requires Moves(sh, mid, tid, x', op) && !op.Push? && !op.Wipe? && sh' == Assign(mid, its, t)
    requires forall it :: it in its && it in sh.place ==> !sh.place[it].Listed?
    ensures Moves(sh, sh', tid, x', op)
  {
    forall it | it in sh'.place ensures MovedOk(sh, sh', tid, op, it) { assert MovedOk(sh, mid, tid, op, it); }
  }

  lemma AssignMoves(sh: Shared, tid: Tid, x: Thread, it: Item, sh': Shared, x': Thread)
    requires Before(sh, tid, x) && PlaceIs(sh, it, Held(tid)) && Duties(x) == Duties(x') && sh' == AssignIfClear(sh, it)
    requires x.pc.Free? ==> !x.pc.stage.Immediate?
    ensures Moves(sh, sh', tid, x', Nop)
  {
  }

  lemma AloneMoves(sh: Shared, tid: Tid, x: Thread, it: Item, sh': Shared, x': Thread)
    requires Before(sh, tid, x) && PlaceIs(sh, it, Held(tid)) && Duties(x) - {it} <= Duties(x')
    requires x.pc.Free? && Open(x.pc.stage, it) && x'.pc.Free? && x'.pc.stage == Immediate(it)
    requires sh' == Move(sh, it, Alone(tid))
    ensures Moves(sh, sh', tid, x', Nop)
  {
  }

  lemma CallFreeMoves(sh: Shared, tid: Tid, x: Thread, it: Item, sh': Shared, x': Thread)
    requires Before(sh, tid, x) && it !in sh.place && it in Duties(x') && Duties(x) <= Duties(x') && !x.pc.Free?
    requires sh' == Move(sh, it, Held(tid))
    ensures Moves(sh, sh', tid, x', Nop)
  {
  }

  lemma PushMoves(sh: Shared, tid: Tid, x: Thread, it: Item, sh': Shared, x': Thread, op: Op)
    requires Before(sh, tid, x) && PlaceIs(sh, it, Held(tid)) && op.Push? && op.it == it && Slotted(sh, it, op.t)
    requires Duties(x) - {it} <= Duties(x') && x.pc.Free? && !x.pc.stage.Immediate? && sh' == Move(sh, it, Listed(op.t))
    ensures Moves(sh, sh', tid, x', op)
  {
  }

  lemma FinishMoves(sh: Shared, tid: Tid, x: Thread, it: Item, sh': Shared, x': Thread)
    requires Before(sh, tid, x) && it in sh.place && (sh.place[it] == Held(tid) || sh.place[it] == Alone(tid))
    requires Duties(x) - {it} <= Duties(x') && sh' == Finish(sh, it)
    requires x.pc.Free? && x.pc.stage.Immediate? ==> x.pc.stage.it == it
    ensures Moves(sh, sh', tid, x', Nop)
  {
  }

  lemma WipeMoves(sh: Shared, tid: Tid, x: Thread, its: set<Item>, sh': Shared, x': Thread, op: Op)
    requires Before(sh, tid, x) && x.pc.Walk? && Duties(x) + its <= Duties(x') && op.Wipe?
    requires (forall it :: it in its <==> PlaceIs(sh, it, Listed(op.t))) && sh' == MoveAll(sh, its, Held(tid))
    ensures Moves(sh, sh', tid, x', op)
  {
    forall it | it in sh.place && sh.place[it].Listed? ensures
      sh.place[it].ts == op.t || (PlaceIs(sh', it, sh.place[it]) && (it in sh.slot ==> Slotted(sh', it, sh.slot[it])))
    {
      if it in its { assert PlaceIs(sh, it, Listed(op.t)); }
    }
  }

  lemma LeakMoves(sh: Shared, tid: Tid, x: Thread, it: Item, sh': Shared, x': Thread)
    requires Before(sh, tid, x) && PlaceIs(sh, it, Held(tid)) && Duties(x) - {it} <= Duties(x') && !x.pc.Free?
    requires sh' == Move(sh, it, Leaked).(leaks := sh.leaks + {it})
    ensures Moves(sh, sh', tid, x', Nop)
  {
  }

  lemma CleanMoves(sh: Shared, tid: Tid, x: Thread, a: Addr, sh': Shared, x': Thread, op: Op)
    requires Before(sh, tid, x) && PlaceIs(sh, Old(a), Held(tid)) && Duties(x) - {Old(a)} <= Duties(x') && !x.pc.Free?
    requires !op.Push? && !op.Wipe? && sh' == FinishAll(sh, a)
    ensures Moves(sh, sh', tid, x', op)
  {
    assert forall it :: it in sh.leaks ==> sh.place[it] == Leaked;
  }
}
