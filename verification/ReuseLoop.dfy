/** Looking for storages to reuse, on one copy of a world: counting them, and rotating them. */
module ReuseLoop {
  import opened AbaTypes
  import opened Protocol
  import opened Entries
  import opened Windows
  import opened Storages
  import opened Refinement
  import opened Planning
  import opened WorldObjects

  /** The window keeps its length. */
  predicate LoopShape(w: World, p: Plan) {
    p.Rotating? && p.i <= CurrentRow(w) < |p.win.stores| && |p.win.stores| == |w.win.stores|
  }

  /** The rest of the rotating loop, when the storages in `idle` are the ones without usage bits. */
  ghost function Rotated(w: World, p: Plan, idle: iset<Sid>): (e: Plan)
    requires LoopShape(w, p)
    ensures LoopShape(w, e) && e.i == CurrentRow(w) && p.reused <= e.reused <= p.reused + CurrentRow(w) - p.i
    decreases CurrentRow(w) - p.i
  {
    if p.i == CurrentRow(w) then p else Rotated(w, ReuseNext(w, p, p.win.stores[p.i] in idle), idle)
  }

  /** The counting loop: the number of idle storages from row i to the one of the timestamp. */
  ghost function Counted(v: Window, i: nat, q: nat, idle: iset<Sid>): nat
    requires i <= q <= |v.stores|
    decreases q - i
  {
    if i == q then 0 else (if v.stores[i] in idle then 1 else 0) + Counted(v, i + 1, q, idle)
  }

  ghost function Start(w: World): Plan { Rotating(0, 0, 0, w.win) }

  /** The window that is left has been rotated once for every storage found idle. */
  lemma {:induction false} RotatedShape(w: World, p: Plan, idle: iset<Sid>)
    requires LoopShape(w, p) && p.reused <= p.i && p.win == RotateBy(w.win, p.reused)
    ensures Rotated(w, p, idle).win == RotateBy(w.win, Rotated(w, p, idle).reused)
    decreases CurrentRow(w) - p.i
  {
    if p.i < CurrentRow(w) {
      RotateNext(w.win, p.reused);
      RotatedShape(w, ReuseNext(w, p, p.win.stores[p.i] in idle), idle);
    }
  }

  /** Until the first rotation both loops test the same storages. */
  lemma {:induction false} CountingAgrees(w: World, p: Plan, idle: iset<Sid>)
    requires LoopShape(w, p) && p.reused == 0 && p.win == w.win
    ensures Rotated(w, p, idle).reused > 0 <==> Counted(w.win, p.i, CurrentRow(w), idle) > 0
    decreases CurrentRow(w) - p.i
  {
    if p.i < CurrentRow(w) {
      if p.win.stores[p.i] in idle {
        RotateByNone(w.win);
        RotateNext(w.win, 0);
        RotatedShape(w, ReuseNext(w, p, true), idle);
      } else {
        CountingAgrees(w, ReuseNext(w, p, false), idle);
      }
    }
  }

  /** The counting pass finds something exactly when the rotating pass rotates, and then the next
      timestamp has room. */
  lemma CountMeansRoom(w: World, idle: iset<Sid>)
    requires WorldWinOk(w) && w.ts > 0
    ensures CurrentRow(w) < |w.win.stores|
    ensures var e := Rotated(w, Start(w), idle);
      && e.win == RotateBy(w.win, e.reused) && e.reused <= CurrentRow(w)
      && (e.reused > 0 <==> Counted(w.win, 0, CurrentRow(w), idle) > 0)
      && (e.reused > 0 ==> InWindow(e.win, w.ts) && InWindow(e.win, w.ts + 1))
  {
    RotateByNone(w.win);
    RotatedShape(w, Start(w), idle);
    CountingAgrees(w, Start(w), idle);
    var e := Rotated(w, Start(w), idle);
    if e.reused > 0 {
      RotatedHasRoom(w, e.reused);
      if e.reused < CurrentRow(w) { RowLess(e.reused, CurrentRow(w)); }
    }
  }

  /* ---- no storage in use is rotated away ---- */

  /** The storages without usage bits. */
  ghost predicate IdleIs(ss: Stores, stores: seq<Sid>, idle: iset<Sid>) {
    forall sid :: sid in stores ==> sid in ss && (sid in idle <==> ss[sid].use == {})
  }

  lemma {:induction false} RotatedOk(m: Mem, ss: Stores, w: World, p: Plan, idle: iset<Sid>)
    requires Matches(m, ss, w) && Suffix(m) && IdleIs(ss, w.win.stores, idle) && Extends(w.win, w.win)
    requires PlanLoopOk(m, w, p) && LoopShape(w, p) && (forall sid :: sid in p.win.stores ==> sid in w.win.stores)
    ensures PlanLoopOk(m, w, Rotated(w, p, idle))
    decreases CurrentRow(w) - p.i
  {
    if p.i < CurrentRow(w) {
      var hit := p.win.stores[p.i] in idle;
      ProbeOk(m, ss, w, w, p, hit);
      ReuseOk(m, w, p, hit);
      RotatedOk(m, ss, w, ReuseNext(w, p, hit), idle);
    }
  }

  /** Although it tests storage i and rotates storage 0, the loop rotates at most as many storages as there
      are leading ones with nothing in use, and never the current one; so the rotated window still has
      every timestamp in use, and fresh slots for those to come. */
  lemma ReorganiseKeeps(m: Mem, ss: Stores, w: World, idle: iset<Sid>)
    requires Matches(m, ss, w) && Suffix(m) && FinishedIsPristine(m) && w.ts > 0 && IdleIs(ss, w.win.stores, idle)
    ensures CurrentRow(w) < |w.win.stores|
    ensures var e := Rotated(w, Start(w), idle);
      && e.reused <= CurrentRow(w) && Dead(m, w, e.reused)
      && e.win == RotateBy(w.win, e.reused) && Matches(m, ss, w.(win := e.win))
  {
    assert Extends(w.win, w.win);
    RotateByNone(w.win);
    RotatedOk(m, ss, w, Start(w), idle);
    var e := Rotated(w, Start(w), idle);
    LoopDone(m, w, e.reused, e.first, e.win);
    assert Dead(m, w, 0);
    RotationKeeps(m, ss, w, e.reused);
  }

  lemma RotationKeeps(m: Mem, ss: Stores, w: World, r: nat)
    requires Matches(m, ss, w) && FinishedIsPristine(m) && w.ts > 0 && r <= CurrentRow(w) && Dead(m, w, r)
    ensures Matches(m, ss, w.(win := RotateBy(w.win, r)))
  {
    hide *;
    Refinement.Rotated(m, ss, w, r);
  }

  /* ---- the loop itself ---- */

  ghost predicate IdleNow(w: WorldStruct, idle: iset<Sid>)
    reads w, w.storage, set i | 0 <= i < w.storage.Length :: w.storage[i]
  {
    w.Valid() && forall i :: 0 <= i < w.n ==> (w.storage[i].id in idle <==> w.storage[i].usage == {})
  }

  /** Rotating moves storages around, and their usage bits with them. */
  method RotateOnce(w: WorldStruct, ghost idle: iset<Sid>)
    requires IdleNow(w, idle) && w.n > 0
    modifies w`n, w`offset, w.storage
    ensures IdleNow(w, idle) && w.n == old(w.n) && w.Win() == Rotate(old(w.Win())) && w.Storages() == old(w.Storages())
  {
    ghost var was := w.storage[..w.n];
    w.RotateStorage();
    forall i | 0 <= i < w.n ensures w.storage[i] == was[if i < w.n - 1 then i + 1 else 0] {
      assert w.storage[i] == w.storage[..w.n][i];
    }
  }

  /** The counting pass: how many storages could be reused. It changes nothing. */
  method CountReusable(w: WorldStruct, ghost idle: iset<Sid>) returns (reused: nat)
    requires IdleNow(w, idle) && WorldWinOk(w.Value())
    ensures w.timestamp == 0 ==> reused == 0
    ensures w.timestamp > 0 ==>
      CurrentRow(w.Value()) < |w.Win().stores| && reused == Counted(w.Win(), 0, CurrentRow(w.Value()), idle)
  {
    reused := 0;
    if w.timestamp == 0 { return; }
    var tsIndex := w.GetStorageIndex(w.timestamp);
    var i := 0;
    while i < w.n
      invariant 0 <= i <= tsIndex == CurrentRow(w.Value()) < |w.Win().stores|
      invariant reused + Counted(w.Win(), i, tsIndex, idle) == Counted(w.Win(), 0, tsIndex, idle)
    {
      if i == tsIndex { break; }
      assert w.storage[i].id == w.Win().stores[i];
      if w.storage[i].usage == {} { reused := reused + 1; }
      i := i + 1;
    }
  }

  /** What the rotating loop has done by iteration i. */
  ghost predicate LoopDid(w: WorldStruct, was: World, p: Plan, i: nat, reused: nat, idle: iset<Sid>)
    reads w, w.storage
  {
    && w.Valid() && LoopShape(was, p) && p.i == i && p.reused == reused && w.Win() == p.win
    && Rotated(was, p, idle) == Rotated(was, Start(was), idle)
  }

  /** The rotating pass: it tests storage i, and rotates storage 0. */
  method ReuseStorages(w: WorldStruct, ghost idle: iset<Sid>, ghost was: World) returns (reused: nat)
    requires IdleNow(w, idle) && w.Value() == was && WorldWinOk(was)
    modifies w`n, w`offset, w.storage
    ensures IdleNow(w, idle) && w.Storages() == old(w.Storages())
    ensures w.timestamp == 0 ==> reused == 0 && w.Value() == was
    ensures w.timestamp > 0 ==> CurrentRow(was) < |was.win.stores|
    ensures w.timestamp > 0 ==>
      w.Win() == Rotated(was, Start(was), idle).win && reused == Rotated(was, Start(was), idle).reused
  {
    reused := 0;
    if w.timestamp == 0 { return; }
    var tsIndex := w.GetStorageIndex(w.timestamp);
    ghost var p := Start(was);
    var n := w.n;
    var i := 0;
    while i < n
      invariant 0 <= i <= tsIndex == CurrentRow(was) < n == w.n
      invariant IdleNow(w, idle) && LoopDid(w, was, p, i, reused, idle) && w.Storages() == old(w.Storages())
      decreases n - i
    {
      if i == tsIndex { break; }
      var s := w.storage[i];
      assert s.id == w.Win().stores[i];
      if s.usage == {} {
        RotateOnce(w, idle);
        reused := reused + 1;
      }
      p := ReuseNext(was, p, p.win.stores[i] in idle);
      i := i + 1;
    }
  }
}
