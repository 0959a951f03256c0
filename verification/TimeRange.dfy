/** Checking in for a range of timestamps: the loop as it runs on the objects, and what it amounts to. */
module TimeRange {
  import opened AbaTypes
  import opened Protocol
  import opened Windows
  import opened Storages
  import opened WorldObjects

  /** Storages after checking in, and the items whose callbacks are due. */
  datatype Swept = Swept(ss: Stores, freed: multiset<Item>)

  /** The storages stay allocated, with as many slots. */
  ghost predicate SameShape(ss: Stores, ss': Stores) {
    ss'.Keys == ss.Keys && forall sid :: sid in ss ==> |ss'[sid].slots| == |ss[sid].slots|
  }

  /** One timestamp: count down, and if nobody is left take the list and clear the usage bit. */
  function WalkOne(ss: Stores, v: Window, t: nat): (r: Swept)
    requires Reaches(ss, v, t)
    ensures SameShape(ss, r.ss)
  {
    var s := SlotAt(ss, v, t);
    var counted := SetSlot(ss, v, t, Less(s));
    Swept(if s.rc == 0 then SetUse(counted, v, t, false) else counted, Taken(s))
  }

  ghost predicate AllReached(ss: Stores, v: Window, t: nat, upto: nat) {
    forall t' :: t <= t' <= upto ==> Reaches(ss, v, t')
  }

  lemma StillReached(ss: Stores, ss': Stores, v: Window, t: nat, upto: nat)
    requires SameShape(ss, ss') && AllReached(ss, v, t, upto)
    ensures AllReached(ss', v, t, upto) && AllReached(ss', v, t + 1, upto)
  {
    forall t' | t <= t' <= upto ensures Reaches(ss', v, t') {
      assert Reaches(ss, v, t');
      assert StoreOf(v, t') in ss && StoreOf(v, t') in ss'.Keys;
    }
  }

  ghost function WalkRange(ss: Stores, v: Window, t: nat, upto: nat): Swept
    requires AllReached(ss, v, t, upto)
    decreases upto + 1 - t
  {
    if t > upto then Swept(ss, multiset{}) else
    var one := WalkOne(ss, v, t);
    StillReached(ss, one.ss, v, t, upto);
    var rest := WalkRange(one.ss, v, t + 1, upto);
    Swept(rest.ss, one.freed + rest.freed)
  }

  lemma SetSlotTwice(ss: Stores, v: Window, t: nat, a: Slot, b: Slot)
    requires Reaches(ss, v, t)
    ensures Reaches(SetSlot(ss, v, t, a), v, t) && SetSlot(SetSlot(ss, v, t, a), v, t, b) == SetSlot(ss, v, t, b)
  {
    var st := ss[StoreOf(v, t)];
    assert st.slots[Column(t) := a][Column(t) := b] == st.slots[Column(t) := b];
  }

  /** One timestamp is the steps that a walking thread takes for it, with no other step in between. */
  lemma WalkOneIsSteps(ss: Stores, v: Window, t: nat)
    requires Reaches(ss, v, t)
    ensures var s := SlotAt(ss, v, t);
      var counted := SetSlot(ss, v, t, s.(rc := s.rc - 1));
      var wiped := SetSlot(ss, v, t, Slot(s.rc - 1, multiset{}));
      && StoreStep(ss, FetchSub(v, t, s.rc), counted)
      && (s.rc != 0 ==> WalkOne(ss, v, t) == Swept(counted, multiset{}))
      && (s.rc == 0 ==>
            && StoreStep(counted, Wipe(v, t), wiped) && StoreStep(wiped, Unuse(v, t), WalkOne(ss, v, t).ss)
            && WalkOne(ss, v, t).freed == SlotAt(counted, v, t).list)
  {
    hide StepOf;
    var s := SlotAt(ss, v, t);
    var counted := SetSlot(ss, v, t, s.(rc := s.rc - 1));
    SetSlotTwice(ss, v, t, s.(rc := s.rc - 1), Slot(s.rc - 1, multiset{}));
  }

  /** A timestamp of the window is affected by one iteration only if it is the one. */
  lemma WalkOneAt(ss: Stores, v: Window, t: nat, t2: nat)
    requires WinOk(v) && Reaches(ss, v, t) && Reaches(ss, v, t2)
    ensures var r := WalkOne(ss, v, t); var s := SlotAt(ss, v, t2);
      && Reaches(r.ss, v, t2)
      && SlotAt(r.ss, v, t2) == (if t2 == t then Less(s) else s)
      && (Column(t2) in r.ss[StoreOf(v, t2)].use <==>
            Column(t2) in ss[StoreOf(v, t2)].use && !(t2 == t && s.rc == 0))
  {
    if t2 != t && StoreOf(v, t2) == StoreOf(v, t) && Column(t2) == Column(t) {
      Injective(v, t, t2);
    }
  }

  /** What the whole loop does to the entry of any timestamp: one down for those in the range; the list
      and the usage bit go where the count was zero; everything else stays. */
  ghost predicate RangeEffect(ss: Stores, r: Stores, v: Window, t: nat, upto: nat, t2: nat)
    requires Reaches(ss, v, t2)
  {
    var s := SlotAt(ss, v, t2);
    && Reaches(r, v, t2)
    && SlotAt(r, v, t2) == (if t <= t2 <= upto then Less(s) else s)
    && (Column(t2) in r[StoreOf(v, t2)].use <==>
          Column(t2) in ss[StoreOf(v, t2)].use && !(t <= t2 <= upto && s.rc == 0))
  }

  lemma {:induction false} WalkRangeAt(ss: Stores, v: Window, t: nat, upto: nat, t2: nat)
    requires WinOk(v) && AllReached(ss, v, t, upto) && Reaches(ss, v, t2)
    ensures RangeEffect(ss, WalkRange(ss, v, t, upto).ss, v, t, upto, t2)
    decreases upto + 1 - t
  {
    if t <= upto {
      WalkOneAt(ss, v, t, t2);
      StillReached(ss, WalkOne(ss, v, t).ss, v, t, upto);
      WalkRangeAt(WalkOne(ss, v, t).ss, v, t + 1, upto, t2);
    }
  }

  /** And what is taken is what the lists of the drained timestamps held, each of them once. */
  ghost function AllTaken(ss: Stores, v: Window, t: nat, upto: nat): multiset<Item>
    requires AllReached(ss, v, t, upto)
    decreases upto + 1 - t
  {
    if t > upto then multiset{} else Taken(SlotAt(ss, v, t)) + AllTaken(ss, v, t + 1, upto)
  }

  lemma TakenNext(ss: Stores, v: Window, t: nat, u: nat, last: nat)
    requires AllReached(ss, v, t, last) && t <= last && u == t + 1
    ensures AllReached(ss, v, u, last) && AllTaken(ss, v, t, last) == Taken(SlotAt(ss, v, t)) + AllTaken(ss, v, u, last)
  {
  }

  lemma TakenSame(ss: Stores, r: Stores, v: Window, t: nat, u: nat, upto: nat)
    requires AllReached(ss, v, t, upto) && AllReached(r, v, t, upto) && t <= upto && u == t + 1
    requires SlotAt(ss, v, t) == SlotAt(r, v, t)
    requires AllReached(ss, v, u, upto) && AllReached(r, v, u, upto)
    requires AllTaken(r, v, u, upto) == AllTaken(ss, v, u, upto)
    ensures AllTaken(r, v, t, upto) == AllTaken(ss, v, t, upto)
  {
    TakenNext(ss, v, t, u, upto);
    TakenNext(r, v, t, u, upto);
  }

  lemma {:induction false} TakenElsewhere(ss: Stores, v: Window, t0: nat, t: nat, upto: nat)
    requires WinOk(v) && t0 < t && Reaches(ss, v, t0) && AllReached(ss, v, t, upto)
    ensures AllReached(WalkOne(ss, v, t0).ss, v, t, upto)
    ensures AllTaken(WalkOne(ss, v, t0).ss, v, t, upto) == AllTaken(ss, v, t, upto)
    decreases upto + 1 - t
  {
    StillReached(ss, WalkOne(ss, v, t0).ss, v, t, upto);
    if t <= upto {
      var u := t + 1;
      WalkOneAt(ss, v, t0, t);
      TakenElsewhere(ss, v, t0, u, upto);
      TakenSame(ss, WalkOne(ss, v, t0).ss, v, t, u, upto);
    }
  }

  lemma WalkNext(ss: Stores, v: Window, t: nat, u: nat, last: nat)
    requires AllReached(ss, v, t, last) && t <= last && u == t + 1
    ensures AllReached(WalkOne(ss, v, t).ss, v, u, last)
    ensures var rest := WalkRange(WalkOne(ss, v, t).ss, v, u, last);
      WalkRange(ss, v, t, last) == Swept(rest.ss, WalkOne(ss, v, t).freed + rest.freed)
  {
    StillReached(ss, WalkOne(ss, v, t).ss, v, t, last);
  }

  lemma {:induction false} WalkRangeTakes(ss: Stores, v: Window, t: nat, upto: nat)
    requires WinOk(v) && AllReached(ss, v, t, upto)
    ensures WalkRange(ss, v, t, upto).freed == AllTaken(ss, v, t, upto)
    decreases upto + 1 - t
  {
    if t <= upto {
      var u := t + 1;
      WalkNext(ss, v, t, u, upto);
      TakenNext(ss, v, t, u, upto);
      WalkRangeTakes(WalkOne(ss, v, t).ss, v, u, upto);
      TakenElsewhere(ss, v, t, u, upto);
    }
  }

  /* ---- the loop on the objects ---- */

  ghost predicate StoresValid(w: WorldStruct)
    reads w, w.storage, set i | 0 <= i < w.storage.Length :: w.storage[i]
  {
    w.Valid() && forall i :: 0 <= i < w.n ==> w.storage[i].Valid()
  }

  ghost function Values(w: WorldStruct): (vals: seq<Store>)
    reads w, w.storage, set i | 0 <= i < w.storage.Length :: w.storage[i]
    requires w.Valid()
    ensures |vals| == w.n && forall i :: 0 <= i < w.n ==> vals[i] == w.storage[i].Value()
  {
    seq(w.n, i requires 0 <= i < w.n && w.Valid()
               reads w, w.storage, set j | 0 <= j < w.storage.Length :: w.storage[j] =>
      w.storage[i].Value())
  }

  function ByAddress(ids: seq<Sid>, vals: seq<Store>): (ss: Stores)
    requires |ids| == |vals| && Distinct(ids)
    ensures ss.Keys == Elems(ids) && forall i :: 0 <= i < |ids| ==> ids[i] in ss && ss[ids[i]] == vals[i]
  {
    map i | 0 <= i < |ids| :: ids[i] := vals[i]
  }

  lemma ByAddressUpdated(ids: seq<Sid>, vals: seq<Store>, i: nat, st: Store)
    requires |ids| == |vals| && Distinct(ids) && i < |ids|
    ensures ByAddress(ids, vals[i := st]) == ByAddress(ids, vals)[ids[i] := st]
  {
    var one, two := ByAddress(ids, vals[i := st]), ByAddress(ids, vals)[ids[i] := st];
    forall sid | sid in one ensures sid in two && one[sid] == two[sid] {
      var j :| 0 <= j < |ids| && ids[j] == sid;
    }
    assert one.Keys == two.Keys;
  }

  /** The storage after one of its entries has been counted down. */
  function Checked(st: Store, index: nat): Store
    requires index < |st.slots|
  {
    Store(if st.slots[index].rc == 0 then st.use - {index} else st.use, st.slots[index := Less(st.slots[index])])
  }

  lemma WalkOneSets(ss: Stores, v: Window, t: nat)
    requires Reaches(ss, v, t)
    ensures WalkOne(ss, v, t).ss == ss[StoreOf(v, t) := Checked(ss[StoreOf(v, t)], Column(t))]
  {
  }

  lemma WalkOneIs(v: Window, vals: seq<Store>, t: nat, i: nat)
    requires |vals| == |v.stores| && Distinct(v.stores) && InWindow(v, t) && i == RowAt(v, t) && |vals[i].slots| == N
    ensures Reaches(ByAddress(v.stores, vals), v, t)
    ensures WalkOne(ByAddress(v.stores, vals), v, t) ==
      Swept(ByAddress(v.stores, vals[i := Checked(vals[i], Column(t))]), Taken(vals[i].slots[Column(t)]))
  {
    WalkOneSets(ByAddress(v.stores, vals), v, t);
    ByAddressUpdated(v.stores, vals, i, Checked(vals[i], Column(t)));
  }

  /** What the objects of a world amount to: its window, and its storages in window order. */
  ghost predicate View(w: WorldStruct, v: Window, vals: seq<Store>)
    reads w, w.storage, set i | 0 <= i < w.storage.Length :: w.storage[i]
  {
    StoresValid(w) && w.Win() == v && Values(w) == vals
  }

  method CheckStored(w: WorldStruct, i: nat, index: nat, ghost v: Window, ghost vals: seq<Store>)
    returns (freed: multiset<Item>)
    requires View(w, v, vals) && i < w.n && index < N
    modifies w.storage[i]
    ensures View(w, v, vals[i := Checked(vals[i], index)])
    ensures freed == Taken(vals[i].slots[index])
  {
    var s := w.storage[i];
    freed := s.CheckEntry(index);
    assert s.Value() == Checked(vals[i], index);
  }

  /* ---- the loop on the values of the storages ---- */

  datatype Pass = Pass(vals: seq<Store>, freed: multiset<Item>)

  predicate RowsOk(v: Window, vals: seq<Store>) {
    |vals| == |v.stores| && Distinct(v.stores) && forall i :: 0 <= i < |vals| ==> |vals[i].slots| == N
  }

  predicate AllInWindow(v: Window, t: nat, last: nat) { t <= last ==> InWindow(v, t) && InWindow(v, last) }

  function CheckedRange(v: Window, vals: seq<Store>, t: nat, last: nat): (r: Pass)
    requires RowsOk(v, vals) && AllInWindow(v, t, last)
    ensures RowsOk(v, r.vals)
    decreases last + 1 - t
  {
    if t > last then Pass(vals, multiset{}) else
    var i := RowAt(v, t);
    var rest := CheckedRange(v, vals[i := Checked(vals[i], Column(t))], t + 1, last);
    Pass(rest.vals, Taken(vals[i].slots[Column(t)]) + rest.freed)
  }

  lemma RowsReached(v: Window, vals: seq<Store>, t: nat, last: nat)
    requires RowsOk(v, vals) && AllInWindow(v, t, last)
    ensures AllReached(ByAddress(v.stores, vals), v, t, last)
  {
    forall t' | t <= t' <= last ensures Reaches(ByAddress(v.stores, vals), v, t') {
      assert v.stores[RowAt(v, t')] == StoreOf(v, t');
    }
  }

  /** It is the loop on the storages by address. */
  ghost predicate SamePass(v: Window, r: Pass, walk: Swept)
    requires RowsOk(v, r.vals)
  {
    ByAddress(v.stores, r.vals) == walk.ss && r.freed == walk.freed
  }

  lemma CheckedNext(v: Window, vals: seq<Store>, t: nat, u: nat, last: nat)
    requires RowsOk(v, vals) && AllInWindow(v, t, last) && t <= last && u == t + 1
    ensures var i := RowAt(v, t);
      var rest := CheckedRange(v, vals[i := Checked(vals[i], Column(t))], u, last);
      CheckedRange(v, vals, t, last) == Pass(rest.vals, Taken(vals[i].slots[Column(t)]) + rest.freed)
  {
  }

  lemma PassNext(v: Window, vals: seq<Store>, t: nat, last: nat, next: seq<Store>, u: nat)
    requires RowsOk(v, vals) && AllInWindow(v, t, last) && t <= last && u == t + 1 && AllInWindow(v, u, last)
    requires next == vals[RowAt(v, t) := Checked(vals[RowAt(v, t)], Column(t))] && RowsOk(v, next)
    requires AllReached(ByAddress(v.stores, vals), v, t, last) && AllReached(ByAddress(v.stores, next), v, u, last)
    requires SamePass(v, CheckedRange(v, next, u, last), WalkRange(ByAddress(v.stores, next), v, u, last))
    ensures SamePass(v, CheckedRange(v, vals, t, last), WalkRange(ByAddress(v.stores, vals), v, t, last))
  {
    WalkOneIs(v, vals, t, RowAt(v, t));
    CheckedNext(v, vals, t, u, last);
    WalkNext(ByAddress(v.stores, vals), v, t, u, last);
  }

  lemma {:induction false} CheckedRangeIsWalk(v: Window, vals: seq<Store>, t: nat, last: nat)
    requires RowsOk(v, vals) && AllInWindow(v, t, last)
    ensures AllReached(ByAddress(v.stores, vals), v, t, last)
    ensures SamePass(v, CheckedRange(v, vals, t, last), WalkRange(ByAddress(v.stores, vals), v, t, last))
    decreases last + 1 - t
  {
    RowsReached(v, vals, t, last);
    if t <= last {
      var u, next := t + 1, vals[RowAt(v, t) := Checked(vals[RowAt(v, t)], Column(t))];
      CheckedRangeIsWalk(v, next, u, last);
      PassNext(v, vals, t, last, next, u);
    }
  }

  /** What is still to do, and what has been taken. */
  ghost predicate Remaining(all: Pass, v: Window, vals: seq<Store>, t: nat, last: nat, freed: multiset<Item>) {
    && RowsOk(v, vals) && AllInWindow(v, t, last)
    && all.vals == CheckedRange(v, vals, t, last).vals && all.freed == freed + CheckedRange(v, vals, t, last).freed
  }

  lemma RemainingNext(all: Pass, v: Window, vals: seq<Store>, t: nat, last: nat, freed: multiset<Item>,
      vals': seq<Store>, t': nat, freed': multiset<Item>)
    requires Remaining(all, v, vals, t, last, freed) && t <= last && t' == t + 1
    requires var i := RowAt(v, t);
      vals' == vals[i := Checked(vals[i], Column(t))] && freed' == freed + Taken(vals[i].slots[Column(t)])
    ensures Remaining(all, v, vals', t', last, freed')
  {
  }

  lemma ViewRows(w: WorldStruct, v: Window, vals: seq<Store>)
    requires View(w, v, vals)
    ensures RowsOk(v, vals)
  {
  }

  /** The window and the set of storage objects do not change. */
  ghost predicate Owner(w: WorldStruct, owned: set<TimestampStorage?>)
    reads w, w.storage
  {
    w.Valid() && w.Storages() == owned
  }

  method CheckOne(w: WorldStruct, t: nat, ghost owned: set<TimestampStorage?>, ghost v: Window, ghost vals: seq<Store>)
    returns (freed: multiset<Item>)
    requires Owner(w, owned) && View(w, v, vals) && InWindow(v, t)
    modifies owned
    ensures RowAt(v, t) < |vals| && |vals[RowAt(v, t)].slots| == N
    ensures Owner(w, owned) && View(w, v, vals[RowAt(v, t) := Checked(vals[RowAt(v, t)], Column(t))])
    ensures freed == Taken(vals[RowAt(v, t)].slots[Column(t)])
  {
    var i := w.GetStorageIndex(t);
    freed := CheckStored(w, i, Column(t), v, vals);
  }

  /** Counts down every timestamp of the range, and gives back what the drained ones held. */
  method CheckTimerange(w: WorldStruct, first: nat, last: nat,
      ghost owned: set<TimestampStorage?>, ghost v: Window, ghost vals: seq<Store>) returns (freed: multiset<Item>)
    requires Owner(w, owned) && View(w, v, vals) && (w.timestamp > 0 ==> AllInWindow(v, first, last))
    modifies owned
    ensures RowsOk(v, vals)
    ensures w.timestamp == 0 ==> View(w, v, vals) && freed == multiset{}
    ensures w.timestamp > 0 ==>
      View(w, v, CheckedRange(v, vals, first, last).vals) && freed == CheckedRange(v, vals, first, last).freed
  {
    ViewRows(w, v, vals);
    freed := multiset{};
    if w.timestamp == 0 { return; }
    ghost var now, all := vals, CheckedRange(v, vals, first, last);
    var t := first;
    while t <= last
      invariant Owner(w, owned) && View(w, v, now) && Remaining(all, v, now, t, last, freed)
      decreases last + 1 - t
    {
      ghost var was, before, taken := now, t, freed;
      now := now[RowAt(v, t) := Checked(now[RowAt(v, t)], Column(t))];
      var list := CheckOne(w, t, owned, v, was);
      freed := freed + list;
      t := t + 1;
      RemainingNext(all, v, was, before, last, taken, now, t, freed);
    }
  }
}
