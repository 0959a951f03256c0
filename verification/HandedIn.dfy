/** The guarantee from the caller's side: it counts from the call of free, not from the later turn in which
    the list of the pointer is fixed. */
module HandedIn {
  import opened AbaTypes
  import opened Protocol
  import opened Invariant
  import opened Entries
  import opened Storages
  import opened RealRefinement
  import opened Runs
  import opened Progress
  import opened ExactlyOnce
  import opened Slots
  import opened GracePeriod

  /** Calls add up. */
  lemma {:induction false} CallsGrow(r: Run, i: nat, j: nat, k: nat)
    requires IsRun(r) && i <= j <= |r.turns|
    ensures Calls(r, i, k) <= Calls(r, j, k)
  {
    hide StepAt;
    if i < j { CallsGrow(r, i, j - 1, k); }
  }

  /** A pointer is known to the library only after the turn in which it was handed in. */
  lemma KnownAfter(r: Run, ms: seq<Mem>, c: nat, i: nat, k: nat)
    requires IsRun(r) && Tracks(r, ms) && c < |r.turns| && r.TurnAt(c).act == CallFree(k)
    requires i <= |r.turns| && User(k) in r.At(i).sh.place
    ensures c < i
  {
    hide StepAt, Joint, RealStep, Tracks;
    if i <= c {
      Tally(r, ms, i, k);
      CallsGrow(r, i, c, k);
      Tally(r, ms, c + 1, k);
    }
  }

  lemma SlottedPlaced(c: Real, m: Mem, k: nat)
    requires Joint(c, m) && User(k) in c.sh.slot
    ensures User(k) in c.sh.place
  {
  }

  /** In turn m thread g leaves. */
  ghost predicate LeavesIn(r: Run, m: nat, g: Tid) {
    r.TurnAt(m).tid == g && g in r.At(m).th && Leaves(r.TurnAt(m).act)
  }

  lemma {:induction false} LeftBetween(r: Run, ms: seq<Mem>, a: nat, b: nat, g: Tid) returns (m: nat)
    requires IsRun(r) && Tracks(r, ms) && a <= b <= |r.turns| && g in r.At(a).th && g in r.At(b).th
    requires Reg(r.At(a).Th(g)) && !Reg(r.At(b).Th(g))
    ensures a <= m < b && LeavesIn(r, m, g)
  {
    hide StepAt, Joint, RealStep, Tracks;
    assert a < b;
    m := b - 1;
    SameThreads(r, a, b - 1, g);
    TurnAdvance(r, ms, b - 1, g);
    if !Reg(r.At(b - 1).Th(g)) { m := LeftBetween(r, ms, a, b - 1, g); }
  }

  /** Every thread but the freeing one that was registered in turn c has left before turn j. */
  ghost predicate OthersLeft(r: Run, c: nat, j: nat) {
    forall g :: g in r.At(c).th && Reg(r.At(c).Th(g)) && g != r.TurnAt(c).tid ==>
      exists m: nat :: c < m < j && LeavesIn(r, m, g)
  }

  /** Every thread that was registered in turn c has given up timestamp t, or has left, before turn j. */
  ghost predicate AllGaveUp(r: Run, c: nat, j: nat, t: nat) {
    forall g :: g in r.At(c).th && Reg(r.At(c).Th(g)) ==> exists m: nat :: c < m < j && GivesUp(r, m, g, t)
  }

  lemma CallPlaces(r: Run, ms: seq<Mem>, c: nat, k: nat)
    requires IsRun(r) && Tracks(r, ms) && c < |r.turns| && r.TurnAt(c).act == CallFree(k)
    ensures User(k) in r.At(c + 1).sh.place
  {
    hide StepAt, Joint, RealStep, Tracks;
    Tally(r, ms, c + 1, k);
  }

  /** There is one call of free for a pointer. */
  lemma OneCall(r: Run, ms: seq<Mem>, c: nat, c': nat, k: nat)
    requires IsRun(r) && Tracks(r, ms) && c < |r.turns| && r.TurnAt(c).act == CallFree(k)
    requires c' < |r.turns| && r.TurnAt(c').act == CallFree(k)
    ensures c == c'
  {
    hide *;
    CallPlaces(r, ms, c, k);
    CallPlaces(r, ms, c', k);
    KnownAfter(r, ms, c, c' + 1, k);
    KnownAfter(r, ms, c', c + 1, k);
  }

  /** A thread that has not fixed a list yet is the one that was called. */
  lemma {:induction false} WasCalled(r: Run, ms: seq<Mem>, i: nat, tid: Tid, k: nat) returns (c: nat)
    requires IsRun(r) && Tracks(r, ms) && i <= |r.turns| && tid in r.At(i).th
    requires Unfixed(r.At(i).Th(tid), User(k))
    ensures c < i && r.TurnAt(c) == Turn(tid, CallFree(k))
  {
    hide StepAt, Joint, RealStep, Tracks;
    assert i > 0;
    c := i - 1;
    TurnSlots(r, ms, i - 1, k);
    if r.TurnAt(c) != Turn(tid, CallFree(k)) {
      c := WasCalled(r, ms, i - 1, tid, k);
    }
  }

  lemma LeftAlone(r: Run, ms: seq<Mem>, c: nat, i: nat, j: nat, k: nat, g: Tid) returns (m: nat)
    requires IsRun(r) && Tracks(r, ms) && c < i < j < |r.turns| && r.TurnAt(c).act == CallFree(k)
    requires g in r.At(c).th && Reg(r.At(c).Th(g)) && g in r.At(i).th && !Reg(r.At(i).Th(g))
    ensures c < m < j && LeavesIn(r, m, g)
  {
    hide StepAt, Joint, RealStep, Tracks;
    m := LeftBetween(r, ms, c, i, g);
  }

  lemma AloneSinceCall(r: Run, ms: seq<Mem>, c: nat, i: nat, j: nat, k: nat)
    requires IsRun(r) && Tracks(r, ms) && c < j < |r.turns| && r.TurnAt(c).act == CallFree(k) && i < j
    requires AloneAt(r, i, k)
    ensures OthersLeft(r, c, j)
  {
    hide StepAt, Joint, RealStep, Tracks;
    assert StepAt(r, i);
    var c' := WasCalled(r, ms, i, r.TurnAt(i).tid, k);
    OneCall(r, ms, c, c', k);
    forall g | g in r.At(c).th && Reg(r.At(c).Th(g)) && g != r.TurnAt(c).tid
      ensures exists m: nat :: c < m < j && LeavesIn(r, m, g)
    {
      SameThreads(r, c, i, g);
      var m := LeftAlone(r, ms, c, i, j, k, g);
    }
  }

  lemma FixingTurn(r: Run, i: nat, k: nat, t: nat)
    requires IsRun(r) && i < |r.turns| && FixedAt(r, i, k, t)
    ensures User(k) in r.At(i + 1).sh.slot && r.TurnAt(i).act != CallFree(k)
  {
    hide StepAt;
  }

  lemma ListedPlaced(r: Run, ms: seq<Mem>, i: nat, k: nat)
    requires IsRun(r) && Tracks(r, ms) && i <= |r.turns| && User(k) in r.At(i).sh.slot
    ensures User(k) in r.At(i).sh.place
  {
    hide *;
    RunJoint(r, ms, i);
    SlottedPlaced(r.At(i), MemAt(ms, i), k);
  }

  lemma FixedAfterCall(r: Run, ms: seq<Mem>, c: nat, i: nat, k: nat, t: nat)
    requires IsRun(r) && Tracks(r, ms) && c < |r.turns| && r.TurnAt(c).act == CallFree(k)
    requires i < |r.turns| && FixedAt(r, i, k, t)
    ensures c < i
  {
    hide *;
    FixingTurn(r, i, k, t);
    ListedPlaced(r, ms, i + 1, k);
    KnownAfter(r, ms, c, i + 1, k);
  }

  lemma GaveUpSince(r: Run, ms: seq<Mem>, c: nat, i: nat, j: nat, k: nat, t: nat, g: Tid) returns (m: nat)
    requires IsRun(r) && Tracks(r, ms) && c < i < j < |r.turns| && r.TurnAt(c).act == CallFree(k)
    requires AllGaveUp(r, i, j, t)
    requires g in r.At(c).th && Reg(r.At(c).Th(g))
    ensures c < m < j && GivesUp(r, m, g, t)
  {
    hide StepAt, Joint, RealStep, Tracks;
    SameThreads(r, c, i, g);
    if Reg(r.At(i).Th(g)) {
      m :| i < m < j && GivesUp(r, m, g, t);
    } else {
      m := LeftAlone(r, ms, c, i, j, k, g);
    }
  }

  lemma FixedSinceCall(r: Run, ms: seq<Mem>, c: nat, i: nat, j: nat, k: nat, t: nat)
    requires IsRun(r) && Tracks(r, ms) && c < i < j < |r.turns| && r.TurnAt(c).act == CallFree(k)
    requires AllGaveUp(r, i, j, t)
    ensures AllGaveUp(r, c, j, t)
  {
    hide StepAt, Joint, RealStep, Tracks;
    forall g | g in r.At(c).th && Reg(r.At(c).Th(g))
      ensures exists m: nat :: c < m < j && GivesUp(r, m, g, t)
    {
      var m := GaveUpSince(r, ms, c, i, j, k, t, g);
    }
  }

  /** The turn in which the list was fixed, or in which the thread was found alone. */
  lemma HowItEnded(r: Run, j: nat, k: nat) returns (alone: bool, i: nat, t: nat)
    requires IsRun(r) && j < |r.turns| && FinalAt(r, j, k)
    ensures i < j && if alone then AloneAt(r, i, k) else FixedAt(r, i, k, t) && AllGaveUp(r, i, j, t)
  {
    hide StepAt;
    SafeReclamation(r, j, k);
    alone, t := exists i: nat :: i < j && AloneAt(r, i, k), 0;
    if alone {
      i :| i < j && AloneAt(r, i, k);
    } else {
      i, t :| i < j && FixedAt(r, i, k, t) && AllGaveUp(r, i, j, t);
    }
  }

  /** Between the call of free and the callback every other thread that was registered at the call has left,
      or every thread that was has given up the pointer or left: it has set or seen the bit in a checkin
      that covers the timestamp whose list the pointer is on. */
  lemma SafeSinceCall(r: Run, c: nat, j: nat, k: nat)
    requires IsRun(r) && c < j < |r.turns| && r.TurnAt(c).act == CallFree(k) && FinalAt(r, j, k)
    ensures OthersLeft(r, c, j) || exists i: nat, t: nat :: c < i < j && FixedAt(r, i, k, t) && AllGaveUp(r, c, j, t)
  {
    hide *;
    var ms := TracksExists(r);
    var alone, i, t := HowItEnded(r, j, k);
    if alone {
      AloneSinceCall(r, ms, c, i, j, k);
    } else {
      FixedAfterCall(r, ms, c, i, k, t);
      FixedSinceCall(r, ms, c, i, j, k, t);
    }
  }
}
