/** Running on the storages in memory is running on the entries the protocol means. */
module Simulation {
  import opened AbaTypes
  import opened Protocol
  import opened Invariant
  import opened Entries
  import opened Machine
  import opened Windows
  import opened Storages
  import opened Refinement
  import opened Planning

  predicate SlotOp(op: Op) {
    op.FetchSub? || op.FetchAdd? || op.Push? || op.PeekList? || op.Wipe? || op.Unuse?
  }

  lemma SameMultiset<T>(a: set<T>, b: set<T>)
    requires multiset(a) == multiset(b)
    ensures a == b
  {
    forall x ensures x in a <==> x in b { assert x in a <==> x in multiset(a); assert x in b <==> x in multiset(b); }
  }

  /** One operation on one slot is the operation on the entry. */
  lemma SlotSim(m: Mem, ss: Stores, w: World, tid: Tid, op: Op, ss': Stores)
    requires Matches(m, ss, w) && SlotOp(op) && Reaching(m, w, op.win, op.t) && StoreStep(ss, op, ss')
    requires op.Push? ==> op.it !in m.entries[op.t].list
    ensures MemStep(m, tid, op, NextMem(m, tid, op)) && Matches(NextMem(m, tid, op), ss', w)
  {
    hide Inv, StepOf, StoreStep, OpOf, NextMem;
    Addressable(m, ss, w, op.win, op.t);
    SlotSim2(m, ss, w, tid, op, ss');
  }

  /** The slot of an entry, before and after. */
  function Image(e: Entry): Slot { Slot(e.rc, multiset(e.list)) }

  lemma SlotSim2(m: Mem, ss: Stores, w: World, tid: Tid, op: Op, ss': Stores)
    requires Matches(m, ss, w) && SlotOp(op) && op.t in m.entries && InWindow(w.win, op.t)
    requires Reaches(ss, op.win, op.t) && StoreOf(op.win, op.t) == StoreOf(w.win, op.t) && StoreStep(ss, op, ss')
    requires op.Push? ==> op.it !in m.entries[op.t].list
    ensures MemStep(m, tid, op, NextMem(m, tid, op)) && Matches(NextMem(m, tid, op), ss', w)
  {
    var m' := NextMem(m, tid, op);
    assert SlotAt(ss, op.win, op.t) == Image(m.entries[op.t]);
    EntrySim(m, ss, w.win, tid, op, ss');
    if op.Unuse? {
      UseCleared(m, ss, w, op.t, m');
    } else if !op.PeekList? {
      SlotWritten(m, ss, w, op.t, m'.entries[op.t], Image(m'.entries[op.t]), m');
    }
  }

  lemma EntrySim(m: Mem, ss: Stores, v: Window, tid: Tid, op: Op, ss': Stores)
    requires SlotOp(op) && op.t in m.entries && InWindow(v, op.t)
    requires Reaches(ss, op.win, op.t) && StoreOf(op.win, op.t) == StoreOf(v, op.t) && StoreStep(ss, op, ss')
    requires SlotAt(ss, op.win, op.t) == Image(m.entries[op.t])
    requires op.Push? ==> op.it !in m.entries[op.t].list
    ensures MemStep(m, tid, op, NextMem(m, tid, op))
    ensures op.PeekList? ==> ss' == ss
    ensures op.Unuse? ==> ss' == SetUse(ss, v, op.t, false)
    ensures !op.PeekList? && !op.Unuse? ==> ss' == SetSlot(ss, v, op.t, Image(NextMem(m, tid, op).entries[op.t]))
    ensures !op.Unuse? ==> NextMem(m, tid, op).entries[op.t].live == m.entries[op.t].live
  {
    var e := m.entries[op.t];
    if op.PeekList? {
      SameMultiset(op.list, e.list);
    } else if op.Push? {
      assert multiset(e.list + {op.it}) == multiset(e.list) + multiset{op.it};
    } else if op.Wipe? {
      var none: set<Item> := {};
      assert multiset(none) == multiset{};
    }
  }

  lemma OnlyUnuseClears(ss: Stores, op: Op, ss': Stores, v: Window, t: nat)
    requires SlotOp(op) && StoreStep(ss, op, ss') && Used(ss, v, t)
    requires op.Unuse? && Reaches(ss, op.win, op.t) && StoreOf(v, t) == StoreOf(op.win, op.t) ==>
      Column(t) != Column(op.t)
    ensures Used(ss', v, t)
  {
  }

  /* ---- what the invariant of the protocol gives ---- */

  /** Timestamps finish in order. */
  lemma SuffixFrom(th: map<Tid, Thread>, m: Mem, ts: nat)
    requires MemOk(th, m, ts) && forall i :: i in th && th[i].pc.Walk? ==> Reg(th[i])
    ensures Suffix(m)
  {
    forall t: nat, t': nat | Live(m, t) && t < t' && t' in m.entries ensures Live(m, t') {
      assert EntryOk(th, m, t) && EntryOk(th, m, t');
      OweGrows(th, t, t');
      if t in m.sweeper { assert m.sweeper[t] in Owe(th, t'); }
    }
  }

  lemma SuffixHolds(s: State)
    requires Inv(s)
    ensures Suffix(s.mem)
  {
    forall i | i in s.th && s.Th(i).pc.Walk? ensures Reg(s.Th(i)) { assert Local(s.Th(i)); }
    SuffixFrom(s.th, s.mem, W(s.sh).ts);
  }

  /** An entry that somebody still has to add to is in use. */
  lemma AdderOwes(th: map<Tid, Thread>, m: Mem, t: nat)
    requires t in m.entries && EntryOk(th, m, t)
    ensures t in m.adder ==> Owe(th, t) != {}
  {
    assert t in m.adder ==> m.adder[t] in Owe(th, t);
  }

  lemma FinishedHolds(s: State)
    requires Inv(s)
    ensures FinishedIsPristine(s.mem)
  {
    forall t: nat | t in s.mem.entries && !Live(s.mem, t) ensures Expected(s.mem, t) == PRISTINE {
      assert EntryOk(s.th, s.mem, t);
      AdderOwes(s.th, s.mem, t);
      assert multiset(s.mem.entries[t].list) == multiset{};
    }
  }
}
