/** The check-in loop among other threads: while a thread is registered it counts down every timestamp
    exactly once, in ascending order, however its steps are interleaved. */
module Walks {
  import opened AbaTypes
  import opened Protocol
  import opened Invariant
  import opened Entries
  import opened Runs
  import opened GracePeriod

  /** Only a decrement moves a thread on, by one timestamp, the one it decrements. */
  ghost predicate MovesOn(act: Act, x: Thread, x': Thread) {
    Reg(x) && Reg(x') ==>
      if act.Decrement? then x.pc.Walk? && x.pc.t == Next(x) && Next(x') == Next(x) + 1 else Next(x') == Next(x)
  }

  lemma RegisterMovesOn(act: Act, sh: Shared, tid: Tid, x: Thread, sh': Shared, x': Thread)
    requires RegisterAct(act) && RegisterStep(act, sh, tid, x, sh', x') && Local(x)
    ensures MovesOn(act, x, x')
  {
  }

  lemma FreeMovesOn(act: Act, sh: Shared, tid: Tid, x: Thread, sh': Shared, x': Thread)
    requires FreeAct(act) && FreeStep(act, sh, tid, x, sh', x') && Local(x)
    ensures MovesOn(act, x, x')
  {
  }

  lemma CheckinMovesOn(act: Act, sh: Shared, tid: Tid, x: Thread, sh': Shared, x': Thread)
    requires CheckinAct(act) && CheckinStep(act, sh, tid, x, sh', x') && Local(x)
    ensures MovesOn(act, x, x')
  {
  }

  lemma WalkMovesOn(act: Act, sh: Shared, tid: Tid, x: Thread, sh': Shared, x': Thread)
    requires WalkAct(act) && WalkingStep(act, sh, tid, x, sh', x') && Local(x)
    ensures MovesOn(act, x, x')
  {
  }

  lemma UnregisterMovesOn(act: Act, sh: Shared, tid: Tid, x: Thread, sh': Shared, x': Thread)
    requires UnregisterAct(act) && UnregisterStep(act, sh, tid, x, sh', x') && Local(x)
    ensures MovesOn(act, x, x')
  {
  }

  lemma StepMovesOn(act: Act, sh: Shared, tid: Tid, x: Thread, sh': Shared, x': Thread)
    requires ThreadStep(act, sh, tid, x, sh', x') && Local(x)
    ensures MovesOn(act, x, x')
  {
    if RegisterAct(act) {
      RegisterShape(act, sh, tid, x, sh', x');
      RegisterMovesOn(act, sh, tid, x, sh', x');
    } else if FreeAct(act) {
      FreeShape(act, sh, tid, x, sh', x');
      FreeMovesOn(act, sh, tid, x, sh', x');
    } else if CheckinAct(act) {
      CheckinShape(act, sh, tid, x, sh', x');
      CheckinMovesOn(act, sh, tid, x, sh', x');
    } else if WalkAct(act) {
      WalkShape(act, sh, tid, x, sh', x');
      WalkMovesOn(act, sh, tid, x, sh', x');
    } else {
      UnregisterShape(act, sh, tid, x, sh', x');
      UnregisterMovesOn(act, sh, tid, x, sh', x');
    }
  }

  /** In turn i thread g decrements the count of timestamp t. */
  ghost predicate CountsDown(r: Run, i: nat, g: Tid, t: nat) {
    && r.TurnAt(i).tid == g && r.TurnAt(i).act.Decrement?
    && g in r.At(i).th && r.At(i).Th(g).pc.Walk? && r.At(i).Th(g).pc.t == t
  }

  ghost function Countdowns(r: Run, i: nat, j: nat, g: Tid, t: nat): nat {
    if i >= j then 0 else Countdowns(r, i, j - 1, g, t) + if CountsDown(r, j - 1, g, t) then 1 else 0
  }

  ghost predicate Registered(r: Run, i: nat, j: nat, g: Tid) {
    forall k :: i <= k <= j ==> g in r.At(k).th && Reg(r.At(k).Th(g))
  }

  lemma TurnMovesOn(r: Run, ms: seq<Mem>, i: nat, g: Tid)
    requires IsRun(r) && Tracks(r, ms) && i < |r.turns| && g in r.At(i).th
    ensures g in r.At(i + 1).th
    ensures if r.TurnAt(i).tid == g then MovesOn(r.TurnAt(i).act, r.At(i).Th(g), r.At(i + 1).Th(g))
            else r.At(i + 1).Th(g) == r.At(i).Th(g)
  {
    hide StepOf;
    assert StepAt(r, i);
    if r.TurnAt(i).tid == g {
      RunInv(r, ms, i);
      LocalHolds(Meant(r, ms, i), g);
      StepMovesOn(r.TurnAt(i).act, r.At(i).sh, g, r.At(i).Th(g), r.At(i + 1).sh, r.At(i + 1).Th(g));
    }
  }

  /** In any part of any run in which a thread is registered throughout, it counts down exactly the timestamps
      between where it was and where it is, each once. */
  lemma {:induction false} EachOnce(r: Run, ms: seq<Mem>, i: nat, j: nat, g: Tid, t: nat)
    requires IsRun(r) && Tracks(r, ms) && i <= j <= |r.turns| && Registered(r, i, j, g)
    ensures g in r.At(i).th && g in r.At(j).th && Next(r.At(i).Th(g)) <= Next(r.At(j).Th(g))
    ensures Countdowns(r, i, j, g, t) == if Next(r.At(i).Th(g)) <= t < Next(r.At(j).Th(g)) then 1 else 0
  {
    hide StepAt, Tracks;
    if i < j {
      assert Registered(r, i, j - 1, g);
      EachOnce(r, ms, i, j - 1, g, t);
      TurnMovesOn(r, ms, j - 1, g);
    }
  }

  lemma DoneAtEnd(r: Run, ms: seq<Mem>, j: nat, g: Tid)
    requires IsRun(r) && Tracks(r, ms) && j < |r.turns| && r.TurnAt(j) == Turn(g, WalkDone)
    ensures g in r.At(j).th && r.At(j).Th(g).pc.Walk?
    ensures Next(r.At(j).Th(g)) == r.At(j).Th(g).pc.upto + 1
  {
    assert StepAt(r, j);
    RunInv(r, ms, j);
    LocalHolds(Meant(r, ms, j), g);
    WalkShape(r.TurnAt(j).act, r.At(j).sh, g, r.At(j).Th(g), r.At(j + 1).sh, r.At(j + 1).Th(g));
  }

  /** A whole walk, from its start in state i to its last turn j: each timestamp of its range is counted down
      once, and no other. */
  lemma WalkCountsEachOnce(r: Run, i: nat, j: nat, g: Tid, t: nat)
    requires IsRun(r) && i <= j < |r.turns| && r.TurnAt(j) == Turn(g, WalkDone) && Registered(r, i, j, g)
    requires g in r.At(i).th && r.At(i).Th(g).pc.Walk? && r.At(i).Th(g).pc.phase == Dec
    requires r.At(i).Th(g).pc.t == r.At(i).Th(g).last
    ensures g in r.At(j).th && r.At(j).Th(g).pc.Walk?
    ensures Countdowns(r, i, j, g, t) == if r.At(i).Th(g).last <= t <= r.At(j).Th(g).pc.upto then 1 else 0
  {
    hide StepAt, Tracks;
    var ms := TracksExists(r);
    EachOnce(r, ms, i, j, g, t);
    DoneAtEnd(r, ms, j, g);
  }
}
