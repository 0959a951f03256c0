/** The protocol as a state machine over any finite set of threads, and its invariant. */
module Machine {
  import opened AbaTypes
  import opened Protocol
  import opened Invariant
  import opened SharedSteps
  import opened ThreadSteps
  import opened Interference
  import opened Places
  import opened Entries

  datatype State = State(sh: Shared, th: map<Tid, Thread>, mem: Mem) {
    function Th(i: Tid): Thread { if i in th then th[i] else NOBODY }
  }

  /** One unlocked empty world, every thread idle and unregistered. */
  ghost predicate Init(s: State) {
    && !s.sh.cur.bit && !s.sh.cur.lock
    && CurOk(s.sh) && s.sh.heap.Keys == {s.sh.cur.w}
    && (exists size: nat :: size > 0 && W(s.sh) == World(0, 0, Window(0, size, [])))
    && s.sh.leaks == {} && s.sh.slot == map[] && s.sh.place == map[Old(s.sh.cur.w) := Current]
    && (forall i :: i in s.th ==> s.Th(i) == Thread(0, Idle, {}))
    && s.mem == EMPTY_MEM
  }

  ghost predicate Step(s: State, tid: Tid, act: Act, s': State) {
    match s
    case State(sh, th, mem) =>
      && tid in th && tid in s'.th
      && s'.th == th[tid := s'.Th(tid)]
      && ThreadStep(act, sh, tid, th[tid], s'.sh, s'.Th(tid))
      && MemStep(mem, tid, OpOf(act, sh, th[tid]), s'.mem)
  }

  /** An item is on the list of a timestamp exactly if its place says so, and it was assigned there. */
  ghost predicate ListsOk(sh: Shared, m: Mem) {
    && (forall it :: it in sh.place && sh.place[it].Listed? ==>
          sh.place[it].ts in m.entries && it in m.entries[sh.place[it].ts].list)
    && (forall t, it :: t in m.entries && it in m.entries[t].list ==> PlaceIs(sh, it, Listed(t)) && Slotted(sh, it, t))
  }

  /** Items are with threads there are. */
  ghost predicate HoldersIn(sh: Shared, ids: set<Tid>) {
    && (forall it :: it in sh.place && sh.place[it].Held? ==> sh.place[it].t in ids)
    && (forall it :: it in sh.place && sh.place[it].Alone? ==> sh.place[it].t in ids)
  }

  ghost predicate Inv(s: State) {
    match s
    case State(sh, th, mem) =>
      && SharedOk(sh)
      && (forall i :: i in th ==> ThreadOk(sh, i, th[i]) && Mine(sh, i, th[i]))
      && HoldersIn(sh, th.Keys)
      && ListsOk(sh, mem)
      && W(sh).n == |Regs(th)|
      && MemOk(th, mem, W(sh).ts)
  }

  lemma InitInv(s: State)
    requires Init(s)
    ensures Inv(s)
  {
    assert Regs(s.th) == {};
    assert Old(s.sh.cur.w) in s.sh.place;
  }

  lemma ThreadHolds(s: State, i: Tid)
    requires Inv(s) && i in s.th
    ensures SharedOk(s.sh) && ThreadOk(s.sh, i, s.Th(i))
  {
    hide Step;
  }

  lemma OtherStays(s: State, tid: Tid, act: Act, s': State, i: Tid)
    requires Step(s, tid, act, s') && i in s.th && i != tid
    ensures i in s'.th && s'.Th(i) == s.Th(i)
  {
    hide StepOf, OpOf, NextMem;
  }

  /* ---- what the invariant says about pairs of threads ---- */

  lemma RegsCount(th: map<Tid, Thread>, i: Tid, j: Tid)
    requires i in th && j in th && i != j
    ensures Reg(th[i]) || Reg(th[j]) ==> |Regs(th)| >= 1
    ensures Reg(th[i]) && Reg(th[j]) ==> |Regs(th)| >= 2
  {
    var r := Regs(th);
    if Reg(th[i]) { CardMonotone({i}, r); }
    if Reg(th[j]) { CardMonotone({j}, r); }
    if Reg(th[i]) && Reg(th[j]) { CardMonotone({i, j}, r); }
  }

  lemma CensusHolds(s: State, i: Tid, j: Tid)
    requires Inv(s) && i in s.th && j in s.th && i != j
    ensures Census(s.sh, s.Th(i), s.Th(j))
  {
    RegsCount(s.th, i, j);
  }

  lemma CardMonotone<T>(a: set<T>, b: set<T>)
    requires a <= b
    ensures |a| <= |b|
  {
    assert b == a + (b - a);
  }

  lemma NullIsListed(s: State, i: Tid)
    requires Inv(s) && i in s.th
    ensures NullListed(s.sh, s.Th(i))
  {
    assert HandOk(s.th, s.mem, i, s.Th(i));
  }

  lemma PairHolds(s: State, i: Tid, j: Tid)
    requires Inv(s) && i in s.th && j in s.th && i != j
    ensures Pair(s.sh, i, s.Th(i), j, s.Th(j))
  {
    CensusHolds(s, i, j);
    NullIsListed(s, i);
    NullIsListed(s, j);
  }

  /** While a thread runs the callbacks of a timestamp, nobody owes that timestamp. */
  lemma DrainedMeansPassed(s: State, i: Tid, j: Tid)
    requires Inv(s) && i in s.th && j in s.th && s.Th(i).pc.Walk? && s.Th(i).pc.phase != Dec && Reg(s.Th(j))
    ensures Next(s.Th(j)) > s.Th(i).pc.t
  {
    assert HandOk(s.th, s.mem, i, s.Th(i));
    assert j !in Owe(s.th, s.Th(i).pc.t);
  }

  lemma SomeoneRegistered(s: State, i: Tid)
    requires Inv(s) && i in s.th && Reg(s.Th(i))
    ensures W(s.sh).n > 0
  {
    CardMonotone({i}, Regs(s.th));
  }
}
