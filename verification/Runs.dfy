/** Runs of the protocol on storages in memory, by any number of threads in any interleaving. */
module Runs {
  import opened AbaTypes
  import opened Protocol
  import opened Entries
  import opened Machine
  import opened Storages
  import opened Simulation
  import opened RealRefinement

  /** A step: which thread, and what it does. */
  datatype Turn = Turn(tid: Tid, act: Act)

  datatype Run = Run(states: seq<Real>, turns: seq<Turn>) {
    function At(i: int): Real { if 0 <= i < |states| then states[i] else NOWHERE }

    function TurnAt(i: int): Turn { if 0 <= i < |turns| then turns[i] else Turn(0, Lock) }
  }

  const NOWHERE := Real(Shared(Ptr(0, false, false), map[], {}, map[], map[]), map[], map[])

  function MemAt(ms: seq<Mem>, i: int): Mem { if 0 <= i < |ms| then ms[i] else EMPTY_MEM }

  ghost predicate IsRun(r: Run) {
    && |r.states| == |r.turns| + 1
    && RealInit(r.At(0))
    && forall i :: 0 <= i < |r.turns| ==> StepAt(r, i)
  }

  ghost predicate StepAt(r: Run, i: int) {
    RealStep(r.At(i), r.TurnAt(i).tid, r.TurnAt(i).act, r.At(i + 1))
  }

  /** The threads of a run are the same in all its states. */
  lemma {:induction false} ThreadsStay(r: Run, i: nat)
    requires IsRun(r) && i <= |r.turns|
    ensures r.At(i).th.Keys == r.At(0).th.Keys
  {
    hide StepOf, StoreStep, OpOf;
    if i > 0 {
      ThreadsStay(r, i - 1);
      assert StepAt(r, i - 1);
    }
  }

  /** `MemAt(ms, i)` is the map of entries of all timestamps, without a window, as the operations of the first
      i turns leave it. */
  ghost predicate Tracks(r: Run, ms: seq<Mem>) {
    && |ms| == |r.states| && MemAt(ms, 0) == EMPTY_MEM
    && forall i :: 0 <= i < |r.turns| ==> MemAt(ms, i + 1) == AfterTurn(r, i, MemAt(ms, i))
  }

  ghost function AfterTurn(r: Run, i: int, m: Mem): Mem {
    NextMem(m, r.TurnAt(i).tid, OpOf(r.TurnAt(i).act, r.At(i).sh, r.At(i).Th(r.TurnAt(i).tid)))
  }

  /** Every run has such a map. */
  lemma TracksExists(r: Run) returns (ms: seq<Mem>)
    requires IsRun(r)
    ensures Tracks(r, ms)
  {
    hide StepAt, OpOf, NextMem;
    ms := [EMPTY_MEM];
    while |ms| < |r.states|
      invariant 1 <= |ms| <= |r.states| && MemAt(ms, 0) == EMPTY_MEM
      invariant forall i :: 0 <= i < |ms| - 1 ==> MemAt(ms, i + 1) == AfterTurn(r, i, MemAt(ms, i))
    {
      ghost var was := ms;
      ms := ms + [AfterTurn(r, |ms| - 1, MemAt(ms, |ms| - 1))];
      assert forall i :: 0 <= i < |was| ==> MemAt(ms, i) == MemAt(was, i);
    }
  }

  function Abstract(c: Real, m: Mem): State { State(c.sh, c.th, m) }

  /** The invariant and the coupling hold in every state of every run. */
  lemma {:induction false} RunJoint(r: Run, ms: seq<Mem>, i: nat)
    requires IsRun(r) && Tracks(r, ms) && i <= |r.turns|
    ensures Joint(r.At(i), MemAt(ms, i))
  {
    hide StepOf, StoreStep, OpOf, NextMem;
    if i == 0 {
      RealInitOk(r.At(0), MemAt(ms, 0));
    } else {
      RunJoint(r, ms, i - 1);
      assert StepAt(r, i - 1);
      RealStepOk(r.At(i - 1), MemAt(ms, i - 1), r.TurnAt(i - 1).tid, r.TurnAt(i - 1).act, r.At(i), MemAt(ms, i));
    }
  }

  /** What state i means, with entries for all timestamps. */
  function Meant(r: Run, ms: seq<Mem>, i: int): State { Abstract(r.At(i), MemAt(ms, i)) }

  ghost predicate MeantStep(r: Run, ms: seq<Mem>, i: int) {
    Step(Meant(r, ms, i), r.TurnAt(i).tid, r.TurnAt(i).act, Meant(r, ms, i + 1))
  }

  /** Every run on storages in memory is a run of the protocol on an unbounded map of entries. */
  lemma RunRefines(r: Run, ms: seq<Mem>)
    requires IsRun(r) && Tracks(r, ms)
    ensures Init(Meant(r, ms, 0))
    ensures forall i :: 0 <= i < |r.turns| ==> MeantStep(r, ms, i)
  {
    hide StepAt, Joint, RealStep, Step, StoreStep, StepOf, OpOf, NextMem;
    forall i | 0 <= i < |r.turns| ensures MeantStep(r, ms, i) {
      RunStep(r, ms, i);
    }
  }

  lemma RunInv(r: Run, ms: seq<Mem>, i: nat)
    requires IsRun(r) && Tracks(r, ms) && i <= |r.turns|
    ensures Inv(Meant(r, ms, i))
  {
    hide StepOf, StoreStep, OpOf, NextMem;
    RunJoint(r, ms, i);
  }

  lemma RunStep(r: Run, ms: seq<Mem>, i: nat)
    requires IsRun(r) && Tracks(r, ms) && i < |r.turns|
    ensures Step(Meant(r, ms, i), r.TurnAt(i).tid, r.TurnAt(i).act, Meant(r, ms, i + 1))
  {
    hide StepOf;
    RunJoint(r, ms, i);
    assert StepAt(r, i);
    RealStepOk(r.At(i), MemAt(ms, i), r.TurnAt(i).tid, r.TurnAt(i).act, r.At(i + 1), MemAt(ms, i + 1));
  }
}
