/** Over whole runs: every pointer given to free has its callback run at most once, is in exactly one
    place until then, and none is left when the last thread leaves. */
module ExactlyOnce {
  import opened AbaTypes
  import opened Protocol
  import opened Invariant
  import opened Entries
  import opened Machine
  import opened Storages
  import opened Runs
  import opened History

  /** How often, in the first i turns, pointer k was given to free. */
  ghost function Calls(r: Run, i: nat, k: nat): nat {
    if i == 0 then 0 else Calls(r, i - 1, k) + (if r.TurnAt(i - 1).act == CallFree(k) then 1 else 0)
  }

  /** How often its callback has run. */
  ghost function Finals(r: Run, i: nat, k: nat): nat {
    if i == 0 then 0 else Finals(r, i - 1, k) + (if FinalAt(r, i - 1, k) then 1 else 0)
  }

  ghost predicate FinalAt(r: Run, i: nat, k: nat) {
    Final(r.TurnAt(i).act, r.At(i).Th(r.TurnAt(i).tid), k)
  }

  lemma {:induction false} RunOldOnly(r: Run, i: nat)
    requires IsRun(r) && i <= |r.turns|
    ensures OldOnly(r.At(i).sh, r.At(i).th)
  {
    hide StepOf, StoreStep, OpOf;
    if i > 0 {
      RunOldOnly(r, i - 1);
      assert StepAt(r, i - 1);
      OldOnlyNext(r.At(i - 1), r.TurnAt(i - 1).tid, r.TurnAt(i - 1).act, r.At(i));
    }
  }

  lemma OldOnlyNext(c: Real, tid: Tid, act: Act, c': Real)
    requires OldOnly(c.sh, c.th) && RealStep(c, tid, act, c')
    ensures OldOnly(c'.sh, c'.th)
  {
    hide StepOf, StoreStep, OpOf;
    StepHistory(act, c.sh, tid, c.Th(tid), c'.sh, c'.Th(tid));
  }

  lemma RealFate(c: Real, m: Mem, tid: Tid, act: Act, c': Real, k: nat)
    requires OldOnly(c.sh, c.th) && RealStep(c, tid, act, c') && Inv(Abstract(c, m))
    ensures Fate(act, c.sh, c.Th(tid), c'.sh, k)
  {
    hide StepAt, Inv, StepOf, StoreStep, OpOf, NextMem;
    HandsHold(Abstract(c, m), tid);
    StepFate(act, c.sh, tid, c.Th(tid), c'.sh, c'.Th(tid), k);
  }

  /** Callbacks run and pointers taken in, against what the history says. */
  lemma {:induction false} Tally(r: Run, ms: seq<Mem>, i: nat, k: nat)
    requires IsRun(r) && Tracks(r, ms) && i <= |r.turns|
    ensures Calls(r, i, k) == if User(k) in r.At(i).sh.place then 1 else 0
    ensures Finals(r, i, k) == if PlaceIs(r.At(i).sh, User(k), Ran) then 1 else 0
  {
    hide Inv, OldOnly, StepOf, StoreStep, OpOf, NextMem;
    if i > 0 {
      Tally(r, ms, i - 1, k);
      RunOldOnly(r, i - 1);
      RunInv(r, ms, i - 1);
      assert StepAt(r, i - 1);
      RealFate(r.At(i - 1), MemAt(ms, i - 1), r.TurnAt(i - 1).tid, r.TurnAt(i - 1).act, r.At(i), k);
    }
  }
}
