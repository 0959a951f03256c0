/** The states of runs as objects: a free may start on the world of any state of any run. */
module Represented {
  import opened AbaTypes
  import opened Protocol
  import opened Entries
  import opened Windows
  import opened Storages
  import opened Refinement
  import opened Simulation
  import opened WorldObjects
  import opened ReuseLoop
  import opened TimeRange
  import opened WorldSwaps
  import opened MakingRoom
  import opened RealRefinement
  import opened Runs
  import opened Transitions
  import opened NeverStuck
  import opened Accounting

  /** The objects are what the world pointer of the state leads to. */
  ghost predicate Shows(q: Aba, c: Real)
    requires CurOk(c.sh)
    reads q, q.world, q.world.storage, set i | 0 <= i < q.world.storage.Length :: q.world.storage[i]
  {
    && StoresValid(q.world) && q.world.Value() == W(c.sh) && Ptr(q.at, q.bit, q.lock) == c.sh.cur
    && forall s :: s in q.world.Storages() ==> s.id in c.ss && s.Value() == c.ss[s.id]
  }

  /** What a free asks of the world it starts on. */
  ghost predicate Startable(c: Real) {
    && CurOk(c.sh) && WorldWinOk(W(c.sh)) && There(c.ss, W(c.sh).win)
    && (W(c.sh).n > 0 && !c.sh.cur.bit ==> W(c.sh).ts > 0)
  }

  lemma StartableHolds(c: Real, m: Mem)
    requires Joint(c, m)
    ensures Startable(c)
  {
    BitZeroTime(Abstract(c, m));
    SeenThere(m, c.ss, W(c.sh), W(c.sh).win);
  }

  /** The world of every state of every run is one a free may start on. */
  lemma EveryWorldStarts(r: Run, i: nat)
    requires IsRun(r) && i <= |r.turns|
    ensures Startable(r.At(i))
  {
    hide StepAt, Joint, StepOf, StoreStep, OpOf, NextMem;
    var ms := TracksExists(r);
    RunJoint(r, ms, i);
    StartableHolds(r.At(i), MemAt(ms, i));
  }

  /** What is in the storages that the state knows is what the state says. */
  ghost predicate RowsMatch(m: Rows, c: Real) {
    forall s :: s in m ==> s != null && s.id in c.ss && m[s] == c.ss[s.id]
  }

  lemma ShownIsSource(q: Aba, c: Real, id: Sid)
    requires Startable(c) && Shows(q, c) && id !in c.ss
    ensures Source(q.world, Idlers(c.ss), W(c.sh), RowsOf(q.world.Storages())) && id !in W(c.sh).win.stores
    ensures Ptr(q.at, q.bit, q.lock) == c.sh.cur && (W(c.sh).n > 1 && !q.bit ==> W(c.sh).ts > 0)
    ensures RowsMatch(RowsOf(q.world.Storages()), c)
  {
    forall i | 0 <= i < q.world.n
      ensures q.world.storage[i].id in Idlers(c.ss) <==> q.world.storage[i].usage == {}
    {
      assert q.world.storage[i] in q.world.Storages();
    }
  }

  /** Nobody has been at the slot of the timestamp, if its storage is one of those the state knows. */
  ghost predicate Untouched(ss: Stores, v: Window, t: nat) {
    InWindow(v, t) && StoreOf(v, t) in ss ==>
      Column(t) < |ss[StoreOf(v, t)].slots| && ss[StoreOf(v, t)].slots[Column(t)] == PRISTINE
  }

  lemma MatchedIsUntouched(m: Mem, ss: Stores, w: World, v: Window)
    requires Matches(m, ss, w.(win := v))
    ensures Untouched(ss, v, w.ts + 1)
  {
    var t := w.ts + 1;
    if InWindow(v, t) {
      Reach(m, ss, w.(win := v), t);
      assert SlotAt(ss, v, t) == Expected(m, t);
    }
  }

  /** Whatever way a free chooses, nobody has been at the slot of the next timestamp. */
  lemma NextIsUntouched(m: Mem, ss: Stores, w: World, id: Sid, idle: iset<Sid>, next: World)
    requires Matches(m, ss, w) && Suffix(m) && FinishedIsPristine(m) && IdleIs(ss, w.win.stores, idle) && WorldWinOk(w)
    requires Succeeds(w, id, idle, next) && id !in ss
    ensures Untouched(ss, next.win, next.ts)
  {
    hide Matches, Untouched, Extends;
    if InWindow(w.win, w.ts + 1) {
      assert w.(win := next.win) == w;
      MatchedIsUntouched(m, ss, w, next.win);
    } else if Adds(w, idle) {
      AddedIsUntouched(m, ss, w, id, next);
    } else {
      ReorganiseKeeps(m, ss, w, idle);
      MatchedIsUntouched(m, ss, w, next.win);
    }
  }

  lemma AddedIsUntouched(m: Mem, ss: Stores, w: World, id: Sid, next: World)
    requires Matches(m, ss, w) && id !in ss && !InWindow(w.win, w.ts + 1)
    requires next.win == AddStore(w.win, id, next.win.size) && |w.win.stores| < next.win.size && next.ts == w.ts + 1
    ensures Untouched(ss, next.win, next.ts)
  {
    assert id !in w.win.stores;
    AddExtends(w.win, id, next.win.size);
  }

  lemma IdlersAre(m: Mem, ss: Stores, w: World)
    requires Matches(m, ss, w)
    ensures IdleIs(ss, w.win.stores, Idlers(ss)) && WorldWinOk(w)
  {
  }

  lemma StateIsUntouched(c: Real, m: Mem, id: Sid, next: World)
    requires Joint(c, m) && id !in c.ss && Succeeds(W(c.sh), id, Idlers(c.ss), next)
    ensures Untouched(c.ss, next.win, next.ts)
  {
    hide Untouched, Succeeds, Matches, Suffix, FinishedIsPristine, IdleIs;
    MemHolds(c, m);
    SuffixHolds(Abstract(c, m));
    FinishedHolds(Abstract(c, m));
    IdlersAre(m, c.ss, W(c.sh));
    NextIsUntouched(m, c.ss, W(c.sh), id, Idlers(c.ss), next);
  }

  lemma UntouchedInRun(r: Run, i: nat, id: Sid, next: World)
    requires IsRun(r) && i <= |r.turns| && id !in r.At(i).ss
    requires Succeeds(W(r.At(i).sh), id, Idlers(r.At(i).ss), next)
    ensures Untouched(r.At(i).ss, next.win, next.ts)
  {
    hide Succeeds, Joint, Tracks, Untouched;
    var ms := TracksExists(r);
    RunJoint(r, ms, i);
    StateIsUntouched(r.At(i), MemAt(ms, i), id, next);
  }

  /** The slot of the timestamp of a world. */
  ghost predicate HasSlot(w: WorldStruct, slot: Slot)
    reads w, w.storage, set i | 0 <= i < w.storage.Length :: w.storage[i]
  {
    && StoresValid(w) && Holder(w) != null && Holder(w) in w.Storages()
    && Holder(w).slots[Column(w.timestamp)] == slot
  }

  lemma EnteredSlot(q: Aba, it: Item, spare: seq<Addr>, id: Sid, r: Run, i: nat, swaps: nat, rows: Rows, next: World)
    requires IsRun(r) && i <= |r.turns| && id !in r.At(i).ss && RowsMatch(rows, r.At(i))
    requires Deferred(q, it, true, spare, id, Idlers(r.At(i).ss), swaps, W(r.At(i).sh), rows, next)
    ensures HasSlot(q.world, Slot(W(r.At(i).sh).n - 1, multiset{it} + OldItems(spare)))
  {
    hide IsRun;
    UntouchedInRun(r, i, id, next);
    var s := Holder(q.world);
    assert s.id == StoreOf(next.win, next.ts) && s in q.world.Storages();
    assert multiset{} + (multiset{it} + OldItems(spare)) == multiset{it} + OldItems(spare);
  }

  /** A free run alone on the objects of any state of any run: no more is asked than that the address for a
      new storage is not in use. A new timestamp starts with a retain count of one less than the number of
      threads, and with the item and the world that was swapped out on its list. */
  method FreeFromRun(q: Aba, it: Item, id: Sid, a: Addr, ghost r: Run, ghost i: nat)
    returns (immediate: bool, swaps: nat, ghost next: World)
    requires IsRun(r) && i <= |r.turns| && CurOk(r.At(i).sh) && Shows(q, r.At(i)) && id !in r.At(i).ss
    modifies q, q.world.Storages()
    ensures immediate <==> W(r.At(i).sh).n <= 1
    ensures immediate ==> swaps == 0 && unchanged(q) && Contents(q.world.Storages(), old(RowsOf(q.world.Storages())))
    ensures !immediate ==> var c := r.At(i);
      Deferred(q, it, c.sh.cur.bit, if c.sh.cur.lock then [] else [c.sh.cur.w], id, Idlers(c.ss), swaps, W(c.sh),
        old(RowsOf(q.world.Storages())), next)
    ensures !immediate ==> if r.At(i).sh.cur.bit then q.at == a else q.at == old(q.at) && q.world == old(q.world)
    ensures !immediate && r.At(i).sh.cur.bit ==> var sh := r.At(i).sh;
      HasSlot(q.world, Slot(W(sh).n - 1, multiset{it} + OldItems(if sh.cur.lock then [] else [sh.cur.w])))
    ensures old(q.world.Storages()) <= q.world.Storages()
    ensures forall s :: s in q.world.Storages() ==> s in old(q.world.Storages()) || fresh(s)
  {
    hide Shows, Startable, IsRun, Deferred, HasSlot, RowsMatch, RowsOf, Contents, IdleNow;
    ghost var c, spare := r.At(i), if r.At(i).sh.cur.lock then [] else [r.At(i).sh.cur.w];
    EveryWorldStarts(r, i);
    ShownIsSource(q, c, id);
    ghost var rows := RowsOf(q.world.Storages());
    immediate, swaps, next := FreeOwnedPointer(q, it, id, a, Idlers(c.ss), W(c.sh), rows);
    if !immediate && c.sh.cur.bit {
      EnteredSlot(q, it, spare, id, r, i, swaps, rows, next);
    }
  }
}
