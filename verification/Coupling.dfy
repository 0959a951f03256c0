/** What ties the storages in memory to the protocol, and why no thread ever misses an entry. */
module Coupling {
  import opened AbaTypes
  import opened Protocol
  import opened Invariant
  import opened Entries
  import opened Machine
  import opened Counting
  import opened Windows
  import opened Storages
  import opened Refinement
  import opened Planning

  /** Every world a registered thread may still look through has an earlier window. */
  ghost predicate Windowed(v: Window, x: Thread) {
    Reg(x) ==> forall s :: s in Seens(x) ==> Extends(s.world.win, v)
  }

  ghost predicate Planned(cur: Ptr, m: Mem, ss: Stores, x: Thread) {
    x.pc.Free? && x.pc.stage.Planning? ==>
      PlanOk(m, ss, x.pc.stage.s.at.w == cur.w, x.pc.stage.s.world, x.pc.stage.plan)
  }

  ghost predicate HeapWinOk(heap: map<Addr, World>) { forall a :: a in heap ==> WorldWinOk(heap[a]) }

  predicate Cleans(sh: Shared, x: Thread, sid: Sid) {
    x.pc.Cleaning? && x.pc.a in sh.heap && sid in sh.heap[x.pc.a].win.stores
  }

  /** A storage belongs to the current world, or to the one the last thread is about to clean up. */
  predicate Owned(sh: Shared, th: map<Tid, Thread>, sid: Sid) {
    CurOk(sh) && (sid in W(sh).win.stores || exists i :: i in th && Cleans(sh, th[i], sid))
  }

  ghost predicate Coupled(sh: Shared, th: map<Tid, Thread>, m: Mem, ss: Stores) {
    && CurOk(sh) && HeapWinOk(sh.heap)
    && Matches(m, ss, W(sh))
    && (forall i :: i in th ==> Windowed(W(sh).win, th[i]) && Planned(sh.cur, m, ss, th[i]))
    && (forall sid :: sid in ss ==> Owned(sh, th, sid))
  }

  /* ---- a thread finds what it works on ---- */

  lemma LiveOwed(th: map<Tid, Thread>, m: Mem, i: Tid, t: nat)
    requires i in th && t in m.entries && EntryOk(th, m, t)
    requires Owes(th[i], t) || t in m.sweeper
    ensures Live(m, t)
  {
    if Owes(th[i], t) { assert i in Owe(th, t); }
  }

  lemma SeenReaches(sh: Shared, m: Mem, x: Thread, s: Seen, t: nat)
    requires CurOk(sh) && HeapWinOk(sh.heap) && Windowed(W(sh).win, x) && Reg(x) && s in Seens(x) && SeenOk(sh, s)
    requires Live(m, t) && 1 <= t <= s.world.ts
    ensures Reaching(m, W(sh), s.world.win, t)
  {
    assert WorldWinOk(s.world);
  }

  /** Every timestamp a thread still has to decrement has a valid index in the window it walks. */
  lemma WalkReaches(s: State, i: Tid)
    requires Inv(s) && HeapWinOk(s.sh.heap) && i in s.th && Windowed(W(s.sh).win, s.Th(i))
    requires var x := s.Th(i); x.pc.Walk? && (x.pc.phase == Dec ==> x.pc.t <= x.pc.upto) && !x.pc.phase.Run?
    ensures Reaching(s.mem, W(s.sh), s.Th(i).pc.s.world.win, s.Th(i).pc.t)
  {
    var x := s.Th(i);
    ThreadHolds(s, i);
    WalkerSees(s.sh, i, x);
    WalkedLive(s.th, s.mem, W(s.sh).ts, i, x.pc.t);
    SeenReaches(s.sh, s.mem, x, x.pc.s, x.pc.t);
  }

  lemma WalkerSees(sh: Shared, i: Tid, x: Thread)
    requires ThreadOk(sh, i, x) && x.pc.Walk? && (x.pc.phase == Dec ==> x.pc.t <= x.pc.upto)
    ensures Reg(x) && x.pc.s in Seens(x) && SeenOk(sh, x.pc.s) && 1 <= x.pc.t <= x.pc.s.world.ts <= W(sh).ts
    ensures x.pc.phase == Dec ==> Owes(x, x.pc.t)
  {
    assert x.pc.s in Seens(x) && SeenFresh(sh, Limit(x), x.pc.s);
  }

  lemma WalkedLive(th: map<Tid, Thread>, m: Mem, ts: nat, i: Tid, t: nat)
    requires MemOk(th, m, ts) && i in th && th[i].pc.Walk? && !th[i].pc.phase.Run? && th[i].pc.t == t && 1 <= t <= ts
    requires th[i].pc.phase == Dec ==> Owes(th[i], t)
    ensures Live(m, t)
  {
    assert HandOk(th, m, i, th[i]) && EntryOk(th, m, t);
    LiveOwed(th, m, i, t);
  }

  /** And so has the timestamp a free adds to or appends to. */
  lemma AppendReaches(s: State, i: Tid)
    requires Inv(s) && HeapWinOk(s.sh.heap) && i in s.th && Windowed(W(s.sh).win, s.Th(i))
    requires var x := s.Th(i); x.pc.Free? && (x.pc.stage.Appending? || x.pc.stage.Trailing? || x.pc.stage.Adding?)
    ensures Reaching(s.mem, W(s.sh), s.Th(i).pc.stage.s.world.win, s.Th(i).pc.stage.s.world.ts)
  {
    hide StepOf, StoreStep, OpOf, NextMem;
    var x := s.Th(i);
    assert ThreadOk(s.sh, i, x);
    AppendingOwes(s.sh, i, x);
    var t := x.pc.stage.s.world.ts;
    assert x.pc.stage.s in Seens(x);
    assert EntryOk(s.th, s.mem, t);
    LiveOwed(s.th, s.mem, i, t);
    SeenReaches(s.sh, s.mem, x, x.pc.stage.s, t);
  }
}
