/** A lock on the world pointer is short: the thread that has it gives it up, or loses it, within three
    turns of its own. */
module Locks {
  import opened AbaTypes
  import opened Protocol
  import opened Invariant
  import opened Entries
  import opened Places
  import opened Machine
  import opened Storages
  import opened RealRefinement
  import opened Runs
  import opened NeverStuck

  /** The world pointer is locked, and it is this thread that has locked it. */
  predicate HoldsLock(c: Real, tid: Tid) {
    c.sh.cur.lock && tid in c.th && Old(c.sh.cur.w) in LockedItems(c.Th(tid).pc)
  }

  /** The number of turns a thread needs at most to take off its lock. */
  function LockTurns(pc: Pc): nat {
    match pc
    case Registering(_) => 1
    case Removing(_, _) => 3
    case Unlocking(_) => 1
    case Cleaning(_, _) => 2
    case Reopening(_) => 1
    case _ => 0
  }

  lemma RegisterReleases(act: Act, sh: Shared, tid: Tid, x: Thread, sh': Shared, x': Thread)
    requires CurOk(sh) && LockedOk(sh, x) && Old(sh.cur.w) in LockedItems(x.pc)
    requires RegisterAct(act) && RegisterStep(act, sh, tid, x, sh', x')
    ensures !sh'.cur.lock
  {
  }

  lemma UnregisterReleases(act: Act, sh: Shared, tid: Tid, x: Thread, sh': Shared, x': Thread)
    requires CurOk(sh) && LockedOk(sh, x) && Old(sh.cur.w) in LockedItems(x.pc)
    requires UnregisterAct(act) && UnregisterStep(act, sh, tid, x, sh', x')
    ensures !sh'.cur.lock || LockTurns(x'.pc) < LockTurns(x.pc)
  {
  }

  lemma HolderTurn(act: Act, sh: Shared, tid: Tid, x: Thread, sh': Shared, x': Thread)
    requires ThreadStep(act, sh, tid, x, sh', x') && CurOk(sh) && LockedOk(sh, x) && Old(sh.cur.w) in LockedItems(x.pc)
    ensures !sh'.cur.lock || LockTurns(x'.pc) < LockTurns(x.pc)
  {
    hide StepAt, Joint, RealStep, Step, StoreStep, StepOf, OpOf, NextMem;
    RegistersOrLeaves(act, sh, tid, x, sh', x');
    if RegisterAct(act) {
      RegisterShape(act, sh, tid, x, sh', x');
      RegisterReleases(act, sh, tid, x, sh', x');
    } else {
      UnregisterShape(act, sh, tid, x, sh', x');
      UnregisterReleases(act, sh, tid, x, sh', x');
    }
  }

  lemma LockedHolds(c: Real, m: Mem, tid: Tid)
    requires Joint(c, m) && tid in c.th
    ensures CurOk(c.sh) && LockedOk(c.sh, c.Th(tid))
  {
    ThreadHolds(Abstract(c, m), tid);
  }

  lemma LockerHolds(c: Real, m: Mem) returns (tid: Tid)
    requires Joint(c, m) && c.sh.cur.lock
    ensures HoldsLock(c, tid)
  {
    tid := c.sh.place[Old(c.sh.cur.w)].t;
    assert PlaceIs(c.sh, Old(c.sh.cur.w), Held(tid));
    assert tid in c.th;
    assert ThreadOk(c.sh, tid, c.Th(tid)) && Mine(c.sh, tid, c.Th(tid));
    assert Old(c.sh.cur.w) in Duties(c.Th(tid));
  }

  /** Nobody waits for a lock that no thread will take off: another thread has it, and can go on. */
  lemma LockIsHeld(r: Run, i: nat, tid: Tid) returns (holder: Tid)
    requires IsRun(r) && i <= |r.turns| && tid in r.At(i).th && Waits(r.At(i).sh, r.At(i).Th(tid))
    ensures holder != tid && HoldsLock(r.At(i), holder) && CanStep(r.At(i), holder)
  {
    hide StepAt, Joint, RealStep, Step, Tracks, Inv;
    var ms := TracksExists(r);
    RunJoint(r, ms, i);
    holder := LockerHolds(r.At(i), MemAt(ms, i));
    NeverStuck.NeverStuck(r, i, holder);
  }

  /** The number of turns of a thread in part of a run. */
  function TurnsOf(r: Run, i: nat, j: nat, tid: Tid): nat {
    if i >= j then 0 else TurnsOf(r, i, j - 1, tid) + if r.TurnAt(j - 1).tid == tid then 1 else 0
  }

  lemma StillHolding(r: Run, ms: seq<Mem>, j: nat, tid: Tid)
    requires IsRun(r) && Tracks(r, ms) && j < |r.turns| && HoldsLock(r.At(j), tid)
    requires HoldsLock(r.At(j + 1), tid)
    ensures var turn := if r.TurnAt(j).tid == tid then 1 else 0;
      LockTurns(r.At(j + 1).Th(tid).pc) + turn <= LockTurns(r.At(j).Th(tid).pc)
  {
    hide StepOf, StoreStep, OpOf, NextMem;
    assert StepAt(r, j);
    if r.TurnAt(j).tid == tid {
      RunJoint(r, ms, j);
      LockedHolds(r.At(j), MemAt(ms, j), tid);
      HolderTurn(r.TurnAt(j).act, r.At(j).sh, tid, r.At(j).Th(tid), r.At(j + 1).sh, r.At(j + 1).Th(tid));
    }
  }

  lemma {:induction false} TurnsSpent(r: Run, ms: seq<Mem>, i: nat, j: nat, tid: Tid)
    requires IsRun(r) && Tracks(r, ms) && i <= j <= |r.turns|
    requires HoldsLock(r.At(i), tid) && HoldsLock(r.At(j), tid)
    requires forall k :: i < k < j ==> HoldsLock(r.At(k), tid)
    ensures LockTurns(r.At(j).Th(tid).pc) + TurnsOf(r, i, j, tid) <= LockTurns(r.At(i).Th(tid).pc)
  {
    hide StepAt, Joint, RealStep, Step, Tracks, Inv;
    if i < j {
      TurnsSpent(r, ms, i, j - 1, tid);
      StillHolding(r, ms, j - 1, tid);
    }
  }

  /** In any part of any run in which the thread that has locked the world pointer takes as many turns as
      its place allows for, three at most, it has given the lock up or lost it. */
  lemma LockEnds(r: Run, i: nat, j: nat, tid: Tid)
    requires IsRun(r) && i <= j <= |r.turns| && HoldsLock(r.At(i), tid)
    requires TurnsOf(r, i, j, tid) >= LockTurns(r.At(i).Th(tid).pc)
    ensures LockTurns(r.At(i).Th(tid).pc) <= 3
    ensures exists k :: i < k <= j && !HoldsLock(r.At(k), tid)
  {
    hide StepAt, Joint, RealStep, Step, Tracks, Inv;
    if forall k :: i < k <= j ==> HoldsLock(r.At(k), tid) {
      var ms := TracksExists(r);
      TurnsSpent(r, ms, i, j, tid);
    }
  }
}
