/** The entries in memory are the entries the protocol means: the window never lets go of a timestamp
    somebody still has to check in for, and never gives out an entry twice. */
module Refinement {
  import opened AbaTypes
  import opened Entries
  import opened Windows
  import opened Storages

  /** What the slot of timestamp t must hold. */
  function Expected(m: Mem, t: nat): Slot {
    if t in m.entries then Slot(m.entries[t].rc, multiset(m.entries[t].list)) else PRISTINE
  }

  predicate Live(m: Mem, t: nat) { t in m.entries && m.entries[t].live }

  /** The storages of the current world hold the entries of the timestamps in its window, untouched
      slots for the timestamps to come, and a usage bit for every timestamp still in use. */
  ghost predicate Matches(m: Mem, ss: Stores, w: World) {
    && WorldWinOk(w)
    && (forall t: nat :: t in m.entries <==> 1 <= t <= w.ts)
    && (forall sid :: sid in w.win.stores ==> sid in ss && |ss[sid].slots| == N)
    && (forall t: nat :: Live(m, t) ==> w.win.offset <= t)
    && (forall t: nat :: InWindow(w.win, t) ==> SlotAt(ss, w.win, t) == Expected(m, t))
    && (forall t: nat :: InWindow(w.win, t) && Live(m, t) ==> Column(t) in ss[StoreOf(w.win, t)].use)
  }

  lemma Reach(m: Mem, ss: Stores, w: World, t: nat)
    requires Matches(m, ss, w) && InWindow(w.win, t)
    ensures Reaches(ss, w.win, t)
  {
    assert StoreOf(w.win, t) in w.win.stores;
  }

  /** Through any earlier window, a timestamp in use is found where it really is. */
  lemma Addressable(m: Mem, ss: Stores, w: World, v: Window, t: nat)
    requires Matches(m, ss, w) && Reaching(m, w, v, t)
    ensures Reaches(ss, v, t) && InWindow(w.win, t) && StoreOf(v, t) == StoreOf(w.win, t)
  {
    assert InWindow(v, t);
    assert InWindow(w.win, t);
    Reach(m, ss, w, t);
  }

  /** `v` is an earlier window than that of `w`, and reaches up to a timestamp in use. */
  ghost predicate Reaching(m: Mem, w: World, v: Window, t: nat) {
    Live(m, t) && Extends(v, w.win) && t < End(v)
  }

  /** Writing one slot through the current window writes the entry of one timestamp. */
  lemma SlotWritten(m: Mem, ss: Stores, w: World, t: nat, e: Entry, s: Slot, m': Mem)
    requires Matches(m, ss, w) && t in m.entries && InWindow(w.win, t) && Reaches(ss, w.win, t)
    requires s == Slot(e.rc, multiset(e.list)) && e.live == m.entries[t].live
    requires m'.entries == m.entries[t := e]
    ensures Matches(m', SetSlot(ss, w.win, t, s), w)
  {
    var ss' := SetSlot(ss, w.win, t, s);
    forall t2: nat | InWindow(w.win, t2) ensures Reaches(ss', w.win, t2) && SlotAt(ss', w.win, t2) == Expected(m', t2) {
      Reach(m, ss, w, t2);
      if t2 != t && StoreOf(w.win, t2) == StoreOf(w.win, t) && Column(t2) == Column(t) {
        Injective(w.win, t, t2);
      }
    }
    forall t2: nat | InWindow(w.win, t2) && Live(m', t2) ensures Column(t2) in ss'[StoreOf(w.win, t2)].use {
      assert Live(m, t2);
    }
    forall t2: nat | Live(m', t2) ensures w.win.offset <= t2 { assert Live(m, t2); }
  }

  /** Clearing a usage bit ends the use of one timestamp only. */
  lemma UseCleared(m: Mem, ss: Stores, w: World, t: nat, m': Mem)
    requires Matches(m, ss, w) && t in m.entries && InWindow(w.win, t) && Reaches(ss, w.win, t)
    requires m'.entries == m.entries[t := m.entries[t].(live := false)]
    ensures Matches(m', SetUse(ss, w.win, t, false), w)
  {
    var ss' := SetUse(ss, w.win, t, false);
    forall t2: nat | InWindow(w.win, t2) ensures Reaches(ss', w.win, t2) && SlotAt(ss', w.win, t2) == Expected(m', t2) {
      Reach(m, ss, w, t2);
    }
    forall t2: nat | InWindow(w.win, t2) && Live(m', t2) ensures Column(t2) in ss'[StoreOf(w.win, t2)].use {
      assert Live(m, t2) && t2 != t;
      if StoreOf(w.win, t2) == StoreOf(w.win, t) && Column(t2) == Column(t) {
        Injective(w.win, t, t2);
      }
    }
    forall t2: nat | Live(m', t2) ensures w.win.offset <= t2 { assert Live(m, t2); }
  }

  /** Setting one never hurts. */
  lemma UseSet(m: Mem, ss: Stores, w: World, v: Window, t: nat)
    requires Matches(m, ss, w) && Reaches(ss, v, t)
    ensures Matches(m, SetUse(ss, v, t, true), w)
  {
    var ss' := SetUse(ss, v, t, true);
    forall t2: nat | InWindow(w.win, t2) ensures Reaches(ss', w.win, t2) && SlotAt(ss', w.win, t2) == Expected(m, t2) {
      Reach(m, ss, w, t2);
    }
    forall t2: nat | InWindow(w.win, t2) && Live(m, t2) ensures Column(t2) in ss'[StoreOf(w.win, t2)].use {
      assert Live(m, t2);
    }
  }

  /* ---- reorganising ---- */

  /** Nothing up to the timestamp of `s` is in use in its first k storages. */
  ghost predicate Dead(m: Mem, s: World, k: nat) {
    forall t: nat :: Live(m, t) && t <= s.ts ==> s.win.offset + k * N <= t
  }

  /** A timestamp that is in use keeps every later one in use. */
  ghost predicate Suffix(m: Mem) {
    forall t: nat, t': nat :: Live(m, t) && t <= t' && t' in m.entries ==> Live(m, t')
  }

  /** A finished entry is as good as new. */
  ghost predicate FinishedIsPristine(m: Mem) {
    forall t: nat :: t in m.entries && !Live(m, t) ==> Expected(m, t) == PRISTINE
  }

  /** An idle storage in row j, at or before the row of the timestamp: it and all before it are dead. */
  lemma IdleMeansDead(m: Mem, ss: Stores, w: World, s: World, j: nat)
    requires Matches(m, ss, w) && WorldWinOk(s) && Extends(s.win, w.win) && Suffix(m)
    requires s.ts > 0 && s.ts <= w.ts && j <= CurrentRow(s) && j < |s.win.stores|
    requires s.win.stores[j] in ss && ss[s.win.stores[j]].use == {}
    ensures Dead(m, s, j + 1)
  {
    var lo := s.win.offset + j * N;
    assert (j + 1) * N == j * N + N;
    forall t: nat | Live(m, t) && t <= s.ts ensures lo + N <= t {
      if t < lo + N {
        RowBefore(s, j);
        if t < lo {
          assert Live(m, lo);
          IdleRow(m, ss, w, s, j, lo);
        } else {
          IdleRow(m, ss, w, s, j, t);
        }
      }
    }
  }

  lemma RowBefore(s: World, j: nat)
    requires WorldWinOk(s) && s.ts > 0 && j <= CurrentRow(s)
    ensures s.win.offset + j * N <= s.ts
  {
    if j < CurrentRow(s) { RowLess(j, CurrentRow(s)); }
  }

  /** No timestamp of an idle row is in use. */
  lemma IdleRow(m: Mem, ss: Stores, w: World, s: World, j: nat, t: nat)
    requires Matches(m, ss, w) && WorldWinOk(s) && Extends(s.win, w.win)
    requires j < |s.win.stores| && s.win.stores[j] in ss && ss[s.win.stores[j]].use == {}
    requires s.win.offset + j * N <= t < s.win.offset + j * N + N && t <= s.ts
    ensures !Live(m, t)
  {
    RowAtIs(s.win, t, j);
    if Live(m, t) { Addressable(m, ss, w, s.win, t); }
  }

  /** Rotating dead storages keeps the entries of everything in use, and what comes in is pristine. */
  lemma Rotated(m: Mem, ss: Stores, w: World, r: nat)
    requires Matches(m, ss, w) && FinishedIsPristine(m) && w.ts > 0
    requires r <= CurrentRow(w) && Dead(m, w, r)
    ensures var v := w.(win := RotateBy(w.win, r)); Matches(m, ss, v) && Extends(w.win, v.win)
  {
    var v := w.(win := RotateBy(w.win, r));
    assert CurrentRow(w) < |w.win.stores|;
    RotateExtends(w.win, r);
    RowBefore(w, r);
    assert |v.win.stores| == |w.win.stores|;
    assert InWindow(v.win, w.ts);
    forall sid | sid in v.win.stores ensures sid in ss && |ss[sid].slots| == N { assert sid in w.win.stores; }
    forall t: nat | InWindow(v.win, t)
      ensures Reaches(ss, v.win, t) && SlotAt(ss, v.win, t) == Expected(m, t)
      ensures Live(m, t) ==> Column(t) in ss[StoreOf(v.win, t)].use
    {
      assert StoreOf(v.win, t) in v.win.stores;
      if t < End(w.win) {
        RotatedStays(w.win, r, t);
      } else {
        RotatedEnters(w.win, r, t);
        var t' := t - |w.win.stores| * N;
        Reach(m, ss, w, t');
        assert t' < w.win.offset + r * N <= w.ts;
        assert !Live(m, t');
        assert SlotAt(ss, w.win, t') == Expected(m, t') == PRISTINE;
        assert t !in m.entries;
      }
    }
  }

  /** Adding a fresh storage at the end. */
  lemma Added(m: Mem, ss: Stores, w: World, sid: Sid, size: nat, ss': Stores)
    requires Matches(m, ss, w) && |w.win.stores| < size && sid !in ss
    requires sid in ss' && ss' == ss[sid := ss'[sid]] && FreshStore(ss'[sid])
    ensures var v := AddStore(w.win, sid, size);
      && Extends(w.win, v) && WinOk(v) && InWindow(v, w.ts)
      && (forall t: nat :: InWindow(v, t) ==> Reaches(ss', v, t) && SlotAt(ss', v, t) == Expected(m, t))
      && (forall t: nat :: InWindow(v, t) && Live(m, t) ==> Column(t) in ss'[StoreOf(v, t)].use)
  {
    var v := AddStore(w.win, sid, size);
    assert sid !in w.win.stores;
    AddExtends(w.win, sid, size);
    forall t: nat | InWindow(v, t)
      ensures Reaches(ss', v, t) && SlotAt(ss', v, t) == Expected(m, t)
      ensures Live(m, t) ==> Column(t) in ss'[StoreOf(v, t)].use
    {
      if t < End(w.win) {
        Reach(m, ss, w, t);
        assert StoreOf(v, t) == StoreOf(w.win, t);
      } else {
        assert StoreOf(v, t) == sid;
        assert t !in m.entries;
      }
    }
  }

  /** A new timestamp: its slot was pristine, its usage bit is set. */
  lemma Created(m: Mem, ss: Stores, w: World, w': World, m': Mem)
    requires WinOk(w'.win) && w'.ts == w.ts + 1 && InWindow(w'.win, w.ts + 1)
    requires forall t: nat :: t in m.entries <==> 1 <= t <= w.ts
    requires forall t: nat :: Live(m, t) ==> w'.win.offset <= t
    requires forall sid :: sid in w'.win.stores ==> sid in ss && |ss[sid].slots| == N
    requires forall t: nat :: InWindow(w'.win, t) ==> Reaches(ss, w'.win, t) && SlotAt(ss, w'.win, t) == Expected(m, t)
    requires forall t: nat :: InWindow(w'.win, t) && Live(m, t) ==> Column(t) in ss[StoreOf(w'.win, t)].use
    requires Column(w'.ts) in ss[StoreOf(w'.win, w'.ts)].use
    requires m'.entries == m.entries[w'.ts := Entry(-1, {}, true)]
    ensures Matches(m', ss, w')
  {
    forall t: nat | Live(m', t) && t != w'.ts ensures Live(m, t) {}
    forall t: nat | InWindow(w'.win, t)
      ensures SlotAt(ss, w'.win, t) == Expected(m', t)
      ensures Live(m', t) ==> Column(t) in ss[StoreOf(w'.win, t)].use
    {
      assert t != w'.ts && Live(m', t) ==> Live(m, t);
    }
  }
}
