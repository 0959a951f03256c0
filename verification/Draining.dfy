/** When the last thread leaves nothing is left behind: every callback has run, every list is empty and
    every storage goes back. */
module Draining {
  import opened AbaTypes
  import opened Protocol
  import opened Invariant
  import opened Entries
  import opened Machine
  import opened Induction
  import opened Storages
  import opened Refinement
  import opened Coupling
  import opened RealInduction
  import opened RealRefinement
  import opened Runs
  import opened History
  import opened ExactlyOnce
  import opened Whereabouts

  /** Only a registered thread in the middle of a free or a walk has user pointers in hand. */
  lemma UserNeedsReg(x: Thread, k: nat)
    requires Local(x) && HeldOld(x)
    requires User(k) in Duties(x) || (x.pc.Free? && x.pc.stage == Immediate(User(k)))
    ensures Reg(x) && (x.pc.Free? || x.pc.Walk?)
  {
  }

  lemma UsersRun(s: State, tid: Tid, act: Act, s': State, j: Tid, k: nat)
    requires Inv(s) && Step(s, tid, act, s') && act.RemoveLast? && j in s.th && HeldOld(s.Th(j))
    ensures User(k) !in Duties(s.Th(j)) && !(s.Th(j).pc.Free? && s.Th(j).pc.stage == Immediate(User(k)))
  {
    hide StepAt, Joint, RealStep, Step;
    assert ThreadOk(s.sh, j, s.Th(j));
    if j == tid {
      SwapActs(s, tid, act, s');
      UserNotInHand(s.Th(j), k);
    } else {
      GoneAlone(s, tid, act, s', j);
      UserNotInHand(s.Th(j), k);
    }
  }

  lemma UserNotInHand(x: Thread, k: nat)
    requires Local(x) && HeldOld(x) && (!Reg(x) || x.pc.Removing?)
    ensures User(k) !in Duties(x) && !(x.pc.Free? && x.pc.stage == Immediate(User(k)))
  {
    hide *;
    if User(k) in Duties(x) || (x.pc.Free? && x.pc.stage == Immediate(User(k))) {
      UserNeedsReg(x, k);
    }
  }

  lemma ListsEmpty(s: State, tid: Tid, act: Act, s': State)
    requires Inv(s) && Step(s, tid, act, s') && act.RemoveLast?
    ensures forall t :: t in s.mem.entries ==> s.mem.entries[t].list == {}
  {
    hide StepAt, Joint, RealStep, Step;
    SwapActs(s, tid, act, s');
    ListsDrained(s, tid, act.a, s'.sh, s'.Th(tid));
  }

  lemma SlotsEmpty(m: Mem, ss: Stores, w: World, t: nat)
    requires Matches(m, ss, w) && forall t2 :: t2 in m.entries ==> m.entries[t2].list == {}
    ensures Reaches(ss, w.win, t) ==> SlotAt(ss, w.win, t).list == multiset{}
  {
    var none: set<Item> := {};
    assert multiset(none) == multiset{};
  }

  /** In the state the last unregister swap starts from, every pointer ever given to free has had its
      callback run, and every slot of the window has an empty list. */
  lemma NothingLeft(r: Run, i: nat, k: nat, t: nat)
    requires IsRun(r) && i < |r.turns| && r.TurnAt(i).act.RemoveLast?
    ensures CurOk(r.At(i).sh)
    ensures Finals(r, i, k) == Calls(r, i, k)
    ensures var c := r.At(i); Reaches(c.ss, W(c.sh).win, t) ==> SlotAt(c.ss, W(c.sh).win, t).list == multiset{}
  {
    hide StepAt, Joint, RealStep, Step, Tracks, Inv, Coupled;
    var ms := TracksExists(r);
    RunJoint(r, ms, i);
    RunStep(r, ms, i);
    Conservation(r, i, k);
    RunOldOnly(r, i);
    NowhereLeft(r.At(i), MemAt(ms, i), r.TurnAt(i).tid, r.TurnAt(i).act, Meant(r, ms, i + 1), k, t);
  }

  lemma NowhereLeft(c: Real, m: Mem, tid: Tid, act: Act, s': State, k: nat, t: nat)
    requires Joint(c, m) && OldOnly(c.sh, c.th) && Step(Abstract(c, m), tid, act, s') && act.RemoveLast?
    ensures CurOk(c.sh)
    ensures !exists p :: IsAt(c, User(k), p)
    ensures Reaches(c.ss, W(c.sh).win, t) ==> SlotAt(c.ss, W(c.sh).win, t).list == multiset{}
  {
    hide StepOf;
    ListsEmpty(Abstract(c, m), tid, act, s');
    SlotsEmpty(m, c.ss, W(c.sh), t);
    if p :| IsAt(c, User(k), p) {
      NotAt(c, m, tid, act, s', k, p);
    }
  }

  lemma NotAt(c: Real, m: Mem, tid: Tid, act: Act, s': State, k: nat, p: Place)
    requires Joint(c, m) && OldOnly(c.sh, c.th) && Step(Abstract(c, m), tid, act, s') && act.RemoveLast?
    ensures !IsAt(c, User(k), p)
  {
    hide StepOf;
    if p.Held? && p.t in c.th { UsersRun(Abstract(c, m), tid, act, s', p.t, k); }
    if p.Alone? && p.t in c.th { UsersRun(Abstract(c, m), tid, act, s', p.t, k); }
    if p.Listed? {
      ListsEmpty(Abstract(c, m), tid, act, s');
      SlotsEmpty(m, c.ss, W(c.sh), p.ts);
    }
  }

  /** The thread that has cleaned up still has the world pointer locked, so nobody else cleans. */
  lemma NobodyElseCleans(sh: Shared, tid: Tid, x: Thread, j: Tid, y: Thread)
    requires SharedOk(sh) && ThreadOk(sh, tid, x) && ThreadOk(sh, j, y) && x.pc.Reopening?
    requires j == tid ==> y == x
    ensures !y.pc.Cleaning? && W(sh).ts == 0
  {
    assert LockedOk(sh, x) && Old(x.pc.b) in Duties(x);
    if y.pc.Cleaning? { CleanerHolds(sh, j, y); }
  }

  lemma NoStoresOwned(c: Real, m: Mem, tid: Tid, sid: Sid)
    requires Joint(c, m) && tid in c.th && c.Th(tid).pc.Reopening?
    ensures sid !in c.ss
  {
    hide StepOf, StoreStep, OpOf, NextMem;
    assert ThreadOk(c.sh, tid, c.Th(tid));
    if sid in c.ss {
      assert Owned(c.sh, c.th, sid);
      NobodyElseCleans(c.sh, tid, c.Th(tid), tid, c.Th(tid));
      assert W(c.sh).win.stores == [];
      var j :| j in c.th && Cleans(c.sh, c.Th(j), sid);
      assert ThreadOk(c.sh, j, c.Th(j));
      NobodyElseCleans(c.sh, tid, c.Th(tid), j, c.Th(j));
    }
  }

  /** After the last thread has cleaned up no storage is allocated any more. */
  lemma StoragesFreed(r: Run, i: nat, tid: Tid)
    requires IsRun(r) && i <= |r.turns|
    requires tid in r.At(i).th && r.At(i).Th(tid).pc.Reopening?
    ensures r.At(i).ss == map[]
  {
    hide *;
    var ms := TracksExists(r);
    RunJoint(r, ms, i);
    forall sid ensures sid !in r.At(i).ss { NoStoresOwned(r.At(i), MemAt(ms, i), tid, sid); }
  }
}
