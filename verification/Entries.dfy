/** The timestamp entries as the protocol means them: one entry per timestamp, without a window.
    An entry counts the threads that still have to check in for its timestamp. */
module Entries {
  import opened AbaTypes
  import opened Protocol
  import opened Invariant

  /** `rc` is biased: it starts at -1 and gets the number of threads added later.
      `live` is the usage bit of a published timestamp. */
  datatype Entry = Entry(rc: int, list: set<Item>, live: bool)

  /** `adder` and `sweeper` are history: who still has to add the number of threads to an entry, and
      who saw the retain count drop to zero and has not cleared the usage bit yet. */
  datatype Mem = Mem(entries: map<nat, Entry>, adder: map<nat, Tid>, sweeper: map<nat, Tid>)

  const EMPTY_MEM := Mem(map[], map[], map[])

  /** The entries after an operation. */
  function NextMem(m: Mem, tid: Tid, op: Op): Mem {
    match op
    case FetchSub(_, t, prev) =>
      if t !in m.entries then m else
      m.(entries := m.entries[t := m.entries[t].(rc := prev - 1)],
         sweeper := if prev == 0 then m.sweeper[t := tid] else m.sweeper)
    case FetchAdd(_, t, n) =>
      if t !in m.entries then m else
      m.(entries := m.entries[t := m.entries[t].(rc := m.entries[t].rc + n)], adder := m.adder - {t})
    case Push(_, t, it) =>
      if t !in m.entries then m else
      m.(entries := m.entries[t := m.entries[t].(list := m.entries[t].list + {it})])
    case Wipe(_, t) =>
      if t !in m.entries then m else m.(entries := m.entries[t := m.entries[t].(list := {})])
    case Unuse(_, t) =>
      if t !in m.entries then m else
      m.(entries := m.entries[t := m.entries[t].(live := false)], sweeper := m.sweeper - {t})
    case Create(_, _, t) => m.(entries := m.entries[t := Entry(-1, {}, true)], adder := m.adder[t := tid])
    case Forget => EMPTY_MEM
    case _ => m
  }

  /** The operation finds its entry, and its answer is right. */
  predicate Applies(m: Mem, op: Op) {
    match op
    case FetchSub(_, t, prev) => t in m.entries && prev == m.entries[t].rc
    case FetchAdd(_, t, _) => t in m.entries
    case Push(_, t, _) => t in m.entries
    case PeekList(_, t, list) => t in m.entries && list == m.entries[t].list
    case Wipe(_, t) => t in m.entries
    case Unuse(_, t) => t in m.entries
    case _ => true
  }

  predicate MemStep(m: Mem, tid: Tid, op: Op, m': Mem) { Applies(m, op) && m' == NextMem(m, tid, op) }

  /* ---- who owes which timestamp ---- */

  predicate Owes(x: Thread, t: nat) { Reg(x) && Next(x) <= t }

  /** The threads that still have to decrement timestamp t. */
  function Owe(th: map<Tid, Thread>, t: nat): set<Tid> {
    set i | i in th && Owes(th[i], t)
  }

  function Regs(th: map<Tid, Thread>): set<Tid> {
    set i | i in th && Reg(th[i])
  }

  predicate AddingAt(x: Thread, t: nat) {
    x.pc.Free? && x.pc.stage.Adding? && x.pc.stage.s.world.ts == t
  }

  /** The thread has seen the count of t drop to zero and has not cleared the usage bit. */
  predicate SweepAt(x: Thread, t: nat) {
    x.pc.Walk? && x.pc.t == t && (x.pc.phase.Peek? || x.pc.phase.Null? || x.pc.phase.Clear?)
  }

  /** The retain count of an entry, against the threads that still owe its timestamp. */
  ghost predicate CountOk(th: map<Tid, Thread>, m: Mem, t: nat)
    requires t in m.entries
  {
    if t in m.adder then
      && m.adder[t] in th && AddingAt(th[m.adder[t]], t) && Owes(th[m.adder[t]], t)
      && var n := th[m.adder[t]].pc.stage.s.world.n;
      && m.entries[t].rc + 1 + n == |Owe(th, t)| && |Owe(th, t)| <= n
    else
      m.entries[t].rc + 1 == |Owe(th, t)|
  }

  ghost predicate EntryOk(th: map<Tid, Thread>, m: Mem, t: nat)
    requires t in m.entries
  {
    && CountOk(th, m, t)
    && (m.entries[t].live <==> Owe(th, t) != {} || t in m.sweeper)
    && (!m.entries[t].live ==> m.entries[t].list == {})
    && (t in m.sweeper ==> Owe(th, t) == {} && m.sweeper[t] in th && SweepAt(th[m.sweeper[t]], t))
  }

  /** What a thread that adds or sweeps knows about the entry. */
  ghost predicate HandOk(th: map<Tid, Thread>, m: Mem, i: Tid, x: Thread) {
    && (x.pc.Free? && x.pc.stage.Adding? ==>
          var t := x.pc.stage.s.world.ts; t in m.entries && t in m.adder && m.adder[t] == i)
    && (x.pc.Walk? && x.pc.phase != Dec ==> x.pc.t in m.entries && Owe(th, x.pc.t) == {})
    && (x.pc.Walk? && SweepAt(x, x.pc.t) ==> x.pc.t in m.sweeper && m.sweeper[x.pc.t] == i)
    && (x.pc.Walk? && x.pc.phase.Null? ==> x.pc.t in m.entries && m.entries[x.pc.t].list == x.pc.phase.batch)
    && (x.pc.Walk? && x.pc.phase.Clear? ==> x.pc.t in m.entries && m.entries[x.pc.t].list == {})
  }

  ghost predicate MemOk(th: map<Tid, Thread>, m: Mem, ts: nat) {
    && (forall t: nat :: t in m.entries <==> 1 <= t <= ts)
    && m.adder.Keys <= m.entries.Keys && m.sweeper.Keys <= m.entries.Keys
    && (forall t :: t in m.entries ==> EntryOk(th, m, t))
    && (forall i :: i in th ==> HandOk(th, m, i, th[i]))
  }

  /** Every entry is in order after a turn that leaves open who owes what. */
  ghost predicate EntriesKept(th: map<Tid, Thread>, m: Mem, th': map<Tid, Thread>, m': Mem) {
    forall t :: t in m'.entries ==> t in m.entries && Owe(th', t) == Owe(th, t) && EntryOk(th', m', t)
  }

  ghost predicate HandsOk(th: map<Tid, Thread>, m: Mem) { forall j :: j in th ==> HandOk(th, m, j, th[j]) }

  lemma CollectKept(th: map<Tid, Thread>, m: Mem, ts: nat, th': map<Tid, Thread>, m': Mem)
    requires forall t: nat :: t in m'.entries <==> 1 <= t <= ts
    requires m'.adder.Keys <= m'.entries.Keys && m'.sweeper.Keys <= m'.entries.Keys
    requires EntriesKept(th, m, th', m') && HandsOk(th', m')
    ensures MemOk(th', m', ts)
  {
  }

  /* ---- how the set of owing threads changes ---- */

  lemma OweSame(th: map<Tid, Thread>, i: Tid, x': Thread, t: nat)
    requires i in th && Owes(th[i], t) == Owes(x', t)
    ensures Owe(th[i := x'], t) == Owe(th, t)
  {
  }

  lemma OweLess(th: map<Tid, Thread>, i: Tid, x': Thread, t: nat)
    requires i in th && Owes(th[i], t) && !Owes(x', t)
    ensures Owe(th[i := x'], t) == Owe(th, t) - {i}
    ensures |Owe(th[i := x'], t)| == |Owe(th, t)| - 1
  {
    assert Owe(th[i := x'], t) == Owe(th, t) - {i};
    assert i in Owe(th, t);
  }

  /** A thread that owes a timestamp owes every later one. */
  lemma OweGrows(th: map<Tid, Thread>, t: nat, t': nat)
    requires t <= t'
    ensures Owe(th, t) <= Owe(th, t')
  {
  }

  /* ---- one lemma per operation on the entries ---- */

  /** The step does not touch an entry, nor what the thread owes, adds or sweeps. */
  predicate Quiet(x: Thread, x': Thread, ts: nat) {
    && (forall t: nat :: 1 <= t <= ts ==> Owes(x, t) == Owes(x', t))
    && (x.pc.Free? && x.pc.stage.Adding? ==> x' == x)
    && !(x'.pc.Free? && x'.pc.stage.Adding? && x' != x)
    && (x.pc.Walk? && x.pc.phase != Dec && !x.pc.phase.Run? ==> x' == x)
    && (x'.pc.Walk? && x'.pc.phase != Dec ==>
          x' == x || (x.pc.Walk? && x.pc.t == x'.pc.t && x.pc.phase.Run? && x'.pc.phase.Run?))
  }

  lemma QuietOk(th: map<Tid, Thread>, m: Mem, ts: nat, i: Tid, x': Thread)
    requires MemOk(th, m, ts) && i in th && Quiet(th[i], x', ts)
    ensures MemOk(th[i := x'], m, ts)
  {
    var th' := th[i := x'];
    forall t | t in m.entries ensures Owe(th', t) == Owe(th, t) && EntryOk(th', m, t) {
      OweSame(th, i, x', t);
    }
    forall j | j in th' ensures HandOk(th', m, j, th'[j]) {
      assert HandOk(th, m, j, th[j]);
    }
  }

  /** The last thread to decrement, and nobody before it, gets to see a retain count of zero. */
  lemma ZeroMeansLast(th: map<Tid, Thread>, m: Mem, ts: nat, i: Tid, t: nat)
    requires MemOk(th, m, ts) && i in th && t in m.entries && Owes(th[i], t) && !AddingAt(th[i], t)
    ensures m.entries[t].rc == 0 <==> Owe(th, t) == {i}
    ensures m.entries[t].rc == 0 ==> t !in m.adder
  {
    assert EntryOk(th, m, t);
    assert i in Owe(th, t);
    if t in m.adder {
      assert m.adder[t] in Owe(th, t);
    } else if |Owe(th, t)| == 1 {
      assert |Owe(th, t) - {i}| == 0;
      assert Owe(th, t) == {i};
    }
  }

  predicate SubTurn(x: Thread, x': Thread, op: Op) {
    && op.FetchSub? && x.pc.Walk? && x.pc.phase == Dec && x.pc.t == op.t && Owes(x, op.t)
    && x' == x.(pc := if op.prev != 0 then AtWalk(x.pc, op.t + 1, Dec) else AtWalk(x.pc, op.t, Peek))
  }

  lemma SubEntry(th: map<Tid, Thread>, m: Mem, ts: nat, i: Tid, x': Thread, op: Op, m': Mem)
    requires MemOk(th, m, ts) && i in th && SubTurn(th[i], x', op) && MemStep(m, i, op, m')
    ensures EntryOk(th[i := x'], m', op.t)
  {
    ZeroMeansLast(th, m, ts, i, op.t);
    OweLess(th, i, x', op.t);
    assert EntryOk(th, m, op.t) && i in Owe(th, op.t);
  }

  lemma SubOther(th: map<Tid, Thread>, m: Mem, i: Tid, x': Thread, op: Op, m': Mem, t: nat)
    requires i in th && SubTurn(th[i], x', op) && MemStep(m, i, op, m') && t in m.entries && t != op.t
    requires EntryOk(th, m, t)
    ensures Owe(th[i := x'], t) == Owe(th, t) && EntryOk(th[i := x'], m', t)
  {
    OweSame(th, i, x', t);
  }

  lemma SubHands(th: map<Tid, Thread>, m: Mem, ts: nat, i: Tid, x': Thread, op: Op, m': Mem, j: Tid)
    requires MemOk(th, m, ts) && i in th && SubTurn(th[i], x', op) && MemStep(m, i, op, m') && j in th
    ensures HandOk(th[i := x'], m', j, th[i := x'][j])
  {
    assert HandOk(th, m, j, th[j]);
    ZeroMeansLast(th, m, ts, i, op.t);
    OweLess(th, i, x', op.t);
    assert i in Owe(th, op.t);
    if j != i && th[j].pc.Walk? && th[j].pc.phase != Dec { OweSame(th, i, x', th[j].pc.t); }
  }

  lemma SubOk(th: map<Tid, Thread>, m: Mem, ts: nat, i: Tid, x': Thread, op: Op, m': Mem)
    requires MemOk(th, m, ts) && i in th && SubTurn(th[i], x', op) && MemStep(m, i, op, m')
    ensures MemOk(th[i := x'], m', ts)
  {
    hide StepOf;
    forall t | t in m'.entries ensures EntryOk(th[i := x'], m', t) {
      if t == op.t {
        SubEntry(th, m, ts, i, x', op, m');
      } else {
        SubOther(th, m, i, x', op, m', t);
      }
    }
    var th' := th[i := x'];
    forall j | j in th' ensures HandOk(th', m', j, th'[j]) {
      SubHands(th, m, ts, i, x', op, m', j);
    }
  }

  /** The creator of a timestamp adds the number of threads. */
  predicate AddTurn(x: Thread, x': Thread, op: Op) {
    && op.FetchAdd? && AddingAt(x, op.t) && op.n == x.pc.stage.s.world.n
    && x'.pc.Free? && x'.pc.stage.Appending? && x' == x.(pc := x'.pc)
  }

  lemma AddEntries(th: map<Tid, Thread>, m: Mem, i: Tid, x': Thread, op: Op, m': Mem, t: nat)
    requires i in th && AddTurn(th[i], x', op) && MemStep(m, i, op, m') && HandOk(th, m, i, th[i])
    requires t in m.entries && EntryOk(th, m, t)
    ensures Owe(th[i := x'], t) == Owe(th, t) && EntryOk(th[i := x'], m', t)
  {
    OweSame(th, i, x', t);
  }

  lemma AddHands(th: map<Tid, Thread>, m: Mem, i: Tid, x': Thread, op: Op, m': Mem, j: Tid)
    requires i in th && AddTurn(th[i], x', op) && MemStep(m, i, op, m') && j in th
    requires HandOk(th, m, i, th[i]) && HandOk(th, m, j, th[j])
    requires forall t :: t in m.entries ==> Owe(th[i := x'], t) == Owe(th, t)
    ensures HandOk(th[i := x'], m', j, th[i := x'][j])
  {
  }

  lemma AddEntriesOk(th: map<Tid, Thread>, m: Mem, ts: nat, i: Tid, x': Thread, op: Op, m': Mem)
    requires MemOk(th, m, ts) && i in th && AddTurn(th[i], x', op) && MemStep(m, i, op, m')
    ensures EntriesKept(th, m, th[i := x'], m')
  {
    var th' := th[i := x'];
    forall t | t in m'.entries ensures t in m.entries && Owe(th', t) == Owe(th, t) && EntryOk(th', m', t) {
      AddEntries(th, m, i, x', op, m', t);
    }
  }

  lemma AddHandsOk(th: map<Tid, Thread>, m: Mem, ts: nat, i: Tid, x': Thread, op: Op, m': Mem)
    requires MemOk(th, m, ts) && i in th && AddTurn(th[i], x', op) && MemStep(m, i, op, m')
    requires forall t :: t in m.entries ==> Owe(th[i := x'], t) == Owe(th, t)
    ensures HandsOk(th[i := x'], m')
  {
    forall j | j in th ensures HandOk(th[i := x'], m', j, th[i := x'][j]) {
      AddHands(th, m, i, x', op, m', j);
    }
  }

  lemma AddOk(th: map<Tid, Thread>, m: Mem, ts: nat, i: Tid, x': Thread, op: Op, m': Mem)
    requires MemOk(th, m, ts) && i in th && AddTurn(th[i], x', op) && MemStep(m, i, op, m')
    ensures MemOk(th[i := x'], m', ts)
  {
    AddEntriesOk(th, m, ts, i, x', op, m');
    AddHandsOk(th, m, ts, i, x', op, m');
    CollectKept(th, m, ts, th[i := x'], m');
  }

  /** A thread that owes a timestamp finds its list still in use. */
  lemma PushOk(th: map<Tid, Thread>, m: Mem, ts: nat, i: Tid, x': Thread, op: Op, m': Mem)
    requires MemOk(th, m, ts) && i in th && op.Push? && MemStep(m, i, op, m') && Owes(th[i], op.t)
    requires Quiet(th[i], x', ts)
    ensures MemOk(th[i := x'], m', ts)
  {
    QuietOk(th, m, ts, i, x');
    var th' := th[i := x'];
    OweSame(th, i, x', op.t);
    assert i in Owe(th, op.t);
    forall t | t in m'.entries ensures EntryOk(th', m', t) { assert EntryOk(th', m, t); }
    forall j | j in th' ensures HandOk(th', m', j, th'[j]) { assert HandOk(th', m, j, th'[j]); }
  }

  /** The sweeper reads the list of its drained entry. */
  predicate PeekTurn(x: Thread, x': Thread, op: Op) {
    && op.PeekList? && x.pc.Walk? && op.t == x.pc.t && x.pc.phase == Peek
    && x' == x.(pc := AtWalk(x.pc, op.t, Null(op.list)))
  }

  lemma PeekEntries(th: map<Tid, Thread>, m: Mem, i: Tid, x': Thread, op: Op, m': Mem, t: nat)
    requires i in th && PeekTurn(th[i], x', op) && MemStep(m, i, op, m') && t in m.entries && EntryOk(th, m, t)
    ensures Owe(th[i := x'], t) == Owe(th, t) && EntryOk(th[i := x'], m', t)
  {
    OweSame(th, i, x', t);
  }

  lemma PeekHands(th: map<Tid, Thread>, m: Mem, i: Tid, x': Thread, op: Op, m': Mem, j: Tid)
    requires i in th && PeekTurn(th[i], x', op) && MemStep(m, i, op, m') && j in th
    requires HandOk(th, m, i, th[i]) && HandOk(th, m, j, th[j])
    requires forall t :: t in m.entries ==> Owe(th[i := x'], t) == Owe(th, t)
    ensures HandOk(th[i := x'], m', j, th[i := x'][j])
  {
  }

  lemma PeekEntriesOk(th: map<Tid, Thread>, m: Mem, ts: nat, i: Tid, x': Thread, op: Op, m': Mem)
    requires MemOk(th, m, ts) && i in th && PeekTurn(th[i], x', op) && MemStep(m, i, op, m')
    ensures EntriesKept(th, m, th[i := x'], m')
  {
    var th' := th[i := x'];
    forall t | t in m'.entries ensures t in m.entries && Owe(th', t) == Owe(th, t) && EntryOk(th', m', t) {
      PeekEntries(th, m, i, x', op, m', t);
    }
  }

  lemma PeekHandsOk(th: map<Tid, Thread>, m: Mem, ts: nat, i: Tid, x': Thread, op: Op, m': Mem)
    requires MemOk(th, m, ts) && i in th && PeekTurn(th[i], x', op) && MemStep(m, i, op, m')
    requires forall t :: t in m.entries ==> Owe(th[i := x'], t) == Owe(th, t)
    ensures HandsOk(th[i := x'], m')
  {
    forall j | j in th ensures HandOk(th[i := x'], m', j, th[i := x'][j]) {
      PeekHands(th, m, i, x', op, m', j);
    }
  }

  lemma PeekOk(th: map<Tid, Thread>, m: Mem, ts: nat, i: Tid, x': Thread, op: Op, m': Mem)
    requires MemOk(th, m, ts) && i in th && PeekTurn(th[i], x', op) && MemStep(m, i, op, m')
    ensures MemOk(th[i := x'], m', ts)
  {
    PeekEntriesOk(th, m, ts, i, x', op, m');
    PeekHandsOk(th, m, ts, i, x', op, m');
    CollectKept(th, m, ts, th[i := x'], m');
  }

  /** The sweeper takes the list off. */
  predicate WipeTurn(x: Thread, x': Thread, op: Op) {
    && op.Wipe? && x.pc.Walk? && op.t == x.pc.t && x.pc.phase.Null?
    && x' == x.(pc := AtWalk(x.pc, op.t, Clear(x.pc.phase.batch)))
  }

  lemma WipeEntries(th: map<Tid, Thread>, m: Mem, i: Tid, x': Thread, op: Op, m': Mem, t: nat)
    requires i in th && WipeTurn(th[i], x', op) && MemStep(m, i, op, m') && t in m.entries && EntryOk(th, m, t)
    ensures Owe(th[i := x'], t) == Owe(th, t) && EntryOk(th[i := x'], m', t)
  {
    OweSame(th, i, x', t);
  }

  lemma WipeHands(th: map<Tid, Thread>, m: Mem, i: Tid, x': Thread, op: Op, m': Mem, j: Tid)
    requires i in th && WipeTurn(th[i], x', op) && MemStep(m, i, op, m') && j in th
    requires HandOk(th, m, i, th[i]) && HandOk(th, m, j, th[j])
    requires forall t :: t in m.entries ==> Owe(th[i := x'], t) == Owe(th, t)
    ensures HandOk(th[i := x'], m', j, th[i := x'][j])
  {
  }

  lemma WipeEntriesOk(th: map<Tid, Thread>, m: Mem, ts: nat, i: Tid, x': Thread, op: Op, m': Mem)
    requires MemOk(th, m, ts) && i in th && WipeTurn(th[i], x', op) && MemStep(m, i, op, m')
    ensures EntriesKept(th, m, th[i := x'], m')
  {
    var th' := th[i := x'];
    forall t | t in m'.entries ensures t in m.entries && Owe(th', t) == Owe(th, t) && EntryOk(th', m', t) {
      WipeEntries(th, m, i, x', op, m', t);
    }
  }

  lemma WipeHandsOk(th: map<Tid, Thread>, m: Mem, ts: nat, i: Tid, x': Thread, op: Op, m': Mem)
    requires MemOk(th, m, ts) && i in th && WipeTurn(th[i], x', op) && MemStep(m, i, op, m')
    requires forall t :: t in m.entries ==> Owe(th[i := x'], t) == Owe(th, t)
    ensures HandsOk(th[i := x'], m')
  {
    forall j | j in th ensures HandOk(th[i := x'], m', j, th[i := x'][j]) {
      WipeHands(th, m, i, x', op, m', j);
    }
  }

  lemma WipeOk(th: map<Tid, Thread>, m: Mem, ts: nat, i: Tid, x': Thread, op: Op, m': Mem)
    requires MemOk(th, m, ts) && i in th && WipeTurn(th[i], x', op) && MemStep(m, i, op, m')
    ensures MemOk(th[i := x'], m', ts)
  {
    WipeEntriesOk(th, m, ts, i, x', op, m');
    WipeHandsOk(th, m, ts, i, x', op, m');
    CollectKept(th, m, ts, th[i := x'], m');
  }

  /** The sweeper clears the usage bit: the entry is finished. */
  predicate UnuseTurn(x: Thread, x': Thread, op: Op) {
    && op.Unuse? && x.pc.Walk? && op.t == x.pc.t && x.pc.phase.Clear?
    && x' == x.(pc := AtWalk(x.pc, op.t, Run(x.pc.phase.batch)))
  }

  lemma UnuseEntries(th: map<Tid, Thread>, m: Mem, i: Tid, x': Thread, op: Op, m': Mem, t: nat)
    requires i in th && UnuseTurn(th[i], x', op) && MemStep(m, i, op, m') && HandOk(th, m, i, th[i])
    requires t in m.entries && EntryOk(th, m, t)
    ensures Owe(th[i := x'], t) == Owe(th, t) && EntryOk(th[i := x'], m', t)
  {
    OweSame(th, i, x', t);
    if t != op.t { assert m'.entries[t] == m.entries[t]; }
  }

  lemma UnuseHands(th: map<Tid, Thread>, m: Mem, i: Tid, x': Thread, op: Op, m': Mem, j: Tid)
    requires i in th && UnuseTurn(th[i], x', op) && MemStep(m, i, op, m') && HandOk(th, m, i, th[i])
    requires j in th && j != i && HandOk(th, m, j, th[j])
    requires forall t :: t in m.entries ==> Owe(th[i := x'], t) == Owe(th, t)
    ensures HandOk(th[i := x'], m', j, th[j])
  {
    assert th[j].pc.Walk? && SweepAt(th[j], th[j].pc.t) ==> th[j].pc.t != op.t;
  }

  lemma UnuseEntriesOk(th: map<Tid, Thread>, m: Mem, ts: nat, i: Tid, x': Thread, op: Op, m': Mem)
    requires MemOk(th, m, ts) && i in th && UnuseTurn(th[i], x', op) && MemStep(m, i, op, m')
    ensures EntriesKept(th, m, th[i := x'], m')
  {
    var th' := th[i := x'];
    forall t | t in m'.entries ensures t in m.entries && Owe(th', t) == Owe(th, t) && EntryOk(th', m', t) {
      UnuseEntries(th, m, i, x', op, m', t);
    }
  }

  lemma UnuseHandsOk(th: map<Tid, Thread>, m: Mem, ts: nat, i: Tid, x': Thread, op: Op, m': Mem)
    requires MemOk(th, m, ts) && i in th && UnuseTurn(th[i], x', op) && MemStep(m, i, op, m')
    requires forall t :: t in m.entries ==> Owe(th[i := x'], t) == Owe(th, t)
    ensures HandsOk(th[i := x'], m')
  {
    forall j | j in th ensures HandOk(th[i := x'], m', j, th[i := x'][j]) {
      if j != i { UnuseHands(th, m, i, x', op, m', j); }
    }
  }

  lemma UnuseOk(th: map<Tid, Thread>, m: Mem, ts: nat, i: Tid, x': Thread, op: Op, m': Mem)
    requires MemOk(th, m, ts) && i in th && UnuseTurn(th[i], x', op) && MemStep(m, i, op, m')
    ensures MemOk(th[i := x'], m', ts)
  {
    UnuseEntriesOk(th, m, ts, i, x', op, m');
    UnuseHandsOk(th, m, ts, i, x', op, m');
    CollectKept(th, m, ts, th[i := x'], m');
  }

  /** The creator swaps in the world of a new timestamp. */
  ghost predicate CreateTurn(th: map<Tid, Thread>, ts: nat, i: Tid, x': Thread, op: Op) {
    && op.Create? && op.t == ts + 1 && i in th
    && (forall j :: j in th && Reg(th[j]) ==> Next(th[j]) <= ts + 1)
    && Reg(th[i]) && Reg(x') && Next(x') == Next(th[i])
    && th[i].pc.Free? && !th[i].pc.stage.Adding?
    && AddingAt(x', ts + 1) && x'.pc.stage.s.world.n == |Regs(th)|
  }

  lemma CreateOld(th: map<Tid, Thread>, m: Mem, ts: nat, i: Tid, x': Thread, op: Op, m': Mem, t: nat)
    requires CreateTurn(th, ts, i, x', op) && MemStep(m, i, op, m') && t in m.entries && t <= ts && EntryOk(th, m, t)
    ensures Owe(th[i := x'], t) == Owe(th, t) && EntryOk(th[i := x'], m', t)
  {
    OweSame(th, i, x', t);
  }

  lemma CreateNew(th: map<Tid, Thread>, m: Mem, ts: nat, i: Tid, x': Thread, op: Op, m': Mem)
    requires CreateTurn(th, ts, i, x', op) && MemStep(m, i, op, m') && ts + 1 !in m.sweeper
    ensures EntryOk(th[i := x'], m', ts + 1)
  {
    var th' := th[i := x'];
    assert Owe(th', ts + 1) == Regs(th);
    assert i in Owe(th', ts + 1);
  }

  lemma CreateHands(th: map<Tid, Thread>, m: Mem, ts: nat, i: Tid, x': Thread, op: Op, m': Mem, j: Tid)
    requires CreateTurn(th, ts, i, x', op) && MemStep(m, i, op, m') && ts + 1 !in m.entries && j in th
    requires HandOk(th, m, j, th[j]) && forall t :: t in m.entries ==> Owe(th[i := x'], t) == Owe(th, t)
    ensures HandOk(th[i := x'], m', j, th[i := x'][j])
  {
  }

  /** A new timestamp: every registered thread owes it, and the creator still has to add their number. */
  lemma CreateOk(th: map<Tid, Thread>, m: Mem, ts: nat, i: Tid, x': Thread, op: Op, m': Mem)
    requires MemOk(th, m, ts) && CreateTurn(th, ts, i, x', op) && MemStep(m, i, op, m')
    ensures MemOk(th[i := x'], m', ts + 1)
  {
    hide StepOf;
    var th' := th[i := x'];
    forall t | t in m.entries ensures EntryOk(th', m', t) && Owe(th', t) == Owe(th, t) {
      CreateOld(th, m, ts, i, x', op, m', t);
    }
    CreateNew(th, m, ts, i, x', op, m');
    forall j | j in th' ensures HandOk(th', m', j, th'[j]) {
      CreateHands(th, m, ts, i, x', op, m', j);
    }
  }
}
