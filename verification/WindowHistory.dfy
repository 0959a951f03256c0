/** The window over whole runs: a view of an unbounded map from timestamps to entries, that moves
    forward without ever losing an entry that is still in use. */
module WindowHistory {
  import opened AbaTypes
  import opened Protocol
  import opened Invariant
  import opened Entries
  import opened Machine
  import opened Windows
  import opened Storages
  import opened Refinement
  import opened Simulation
  import opened RealWindows
  import opened RealInduction
  import opened RealRefinement
  import opened Runs

  /** Every slot of the current window holds the entry of its timestamp in the unbounded map, or is
      untouched if the timestamp has not come yet; and no entry in use is outside of the window. */
  lemma WindowIsMap(r: Run, ms: seq<Mem>, i: nat, t: nat)
    requires IsRun(r) && Tracks(r, ms) && i <= |r.turns|
    ensures CurOk(r.At(i).sh)
    ensures var w := W(r.At(i).sh).win;
      && (InWindow(w, t) ==> Reaches(r.At(i).ss, w, t) && SlotAt(r.At(i).ss, w, t) == Expected(MemAt(ms, i), t))
      && (Live(MemAt(ms, i), t) ==> InWindow(w, t))
  {
    hide *;
    RunJoint(r, ms, i);
    MapHolds(r.At(i), MemAt(ms, i), t);
  }

  lemma MapHolds(c: Real, m: Mem, t: nat)
    requires Joint(c, m)
    ensures CurOk(c.sh)
    ensures InWindow(W(c.sh).win, t) ==> Reaches(c.ss, W(c.sh).win, t) && SlotAt(c.ss, W(c.sh).win, t) == Expected(m, t)
    ensures Live(m, t) ==> InWindow(W(c.sh).win, t)
  {
    if InWindow(W(c.sh).win, t) { Reach(m, c.ss, W(c.sh), t); }
  }

  lemma TurnExtends(r: Run, ms: seq<Mem>, i: nat)
    requires IsRun(r) && Tracks(r, ms) && i < |r.turns|
    ensures CurOk(r.At(i).sh) && WindowStep(r.At(i).sh, r.TurnAt(i).act, r.At(i + 1).sh)
  {
    hide StepOf;
    assert StepAt(r, i);
    RunJoint(r, ms, i);
    RunJoint(r, ms, i + 1);
    RunStep(r, ms, i);
    StepExtends(r.At(i), MemAt(ms, i), r.TurnAt(i).tid, r.TurnAt(i).act, r.At(i + 1), MemAt(ms, i + 1));
  }

  lemma StepExtends(c: Real, m: Mem, tid: Tid, act: Act, c': Real, m': Mem)
    requires Joint(c, m) && Joint(c', m') && RealStep(c, tid, act, c')
    requires Step(Abstract(c, m), tid, act, Abstract(c', m'))
    requires m' == NextMem(m, tid, OpOf(act, c.sh, c.Th(tid)))
    ensures CurOk(c.sh) && WindowStep(c.sh, act, c'.sh)
  {
    hide StepOf, StoreStep, OpOf, NextMem;
    JointCur(c, m);
    JointCur(c', m');
    NextMatches(Abstract(c, m), c.ss, tid, act, Abstract(c', m'), c'.ss);
  }

  lemma JointCur(c: Real, m: Mem)
    requires Joint(c, m)
    ensures CurOk(c.sh)
  {
  }

  lemma NoResetWhile(r: Run, ms: seq<Mem>, i: nat, g: Tid)
    requires IsRun(r) && Tracks(r, ms) && i < |r.turns| && g in r.At(i).th && g in r.At(i + 1).th
    requires Reg(r.At(i).Th(g)) && Reg(r.At(i + 1).Th(g))
    ensures !r.TurnAt(i).act.RemoveLast?
  {
    hide StepAt, Joint, RealStep, Step, Tracks, Inv;
    if r.TurnAt(i).act.RemoveLast? {
      assert StepAt(r, i);
      RunInv(r, ms, i);
      RunStep(r, ms, i);
      if g == r.TurnAt(i).tid {
        LastWorld(Meant(r, ms, i), g, r.TurnAt(i).act, Meant(r, ms, i + 1));
      } else {
        GoneAlone(Meant(r, ms, i), r.TurnAt(i).tid, r.TurnAt(i).act, Meant(r, ms, i + 1),
          g);
      }
    }
  }

  ghost predicate StaysRegistered(r: Run, g: Tid, i: nat, j: nat) {
    forall k :: i <= k <= j ==> g in r.At(k).th && Reg(r.At(k).Th(g))
  }

  lemma OneTurnLater(r: Run, ms: seq<Mem>, j: nat, g: Tid, v: Window)
    requires IsRun(r) && Tracks(r, ms) && j < |r.turns| && StaysRegistered(r, g, j, j + 1)
    requires CurOk(r.At(j).sh) && Extends(v, W(r.At(j).sh).win)
    ensures CurOk(r.At(j + 1).sh) && Extends(v, W(r.At(j + 1).sh).win)
  {
    hide StepAt, Joint, RealStep, Step, Tracks, Inv;
    assert g in r.At(j).th && g in r.At(j + 1).th;
    TurnExtends(r, ms, j);
    NoResetWhile(r, ms, j, g);
    ExtendsTrans(v, W(r.At(j).sh).win, W(r.At(j + 1).sh).win);
  }

  lemma {:induction false} WindowsExtend(r: Run, ms: seq<Mem>, i: nat, j: nat, g: Tid)
    requires IsRun(r) && Tracks(r, ms) && i <= j <= |r.turns| && StaysRegistered(r, g, i, j)
    ensures CurOk(r.At(i).sh) && CurOk(r.At(j).sh)
    ensures Extends(W(r.At(i).sh).win, W(r.At(j).sh).win)
  {
    hide StepAt, Joint, RealStep, Step, Tracks, Inv;
    if i == j {
      RunJoint(r, ms, i);
      JointCur(r.At(i), MemAt(ms, i));
      ExtendsItself(W(r.At(i).sh).win);
    } else {
      WindowsExtend(r, ms, i, j - 1, g);
      OneTurnLater(r, ms, j - 1, g, W(r.At(i).sh).win);
    }
  }

  /** As long as a thread stays registered, each window is an extension of every earlier one: entries stay
      where they are, and the number of storages does not shrink. */
  lemma WindowsGrow(r: Run, i: nat, j: nat, g: Tid)
    requires IsRun(r) && i <= j <= |r.turns| && StaysRegistered(r, g, i, j)
    ensures CurOk(r.At(i).sh) && CurOk(r.At(j).sh)
    ensures Extends(W(r.At(i).sh).win, W(r.At(j).sh).win)
    ensures |W(r.At(i).sh).win.stores| <= |W(r.At(j).sh).win.stores|
  {
    hide *;
    var ms := TracksExists(r);
    WindowsExtend(r, ms, i, j, g);
    LongerWindow(r, ms, i, W(r.At(j).sh).win);
  }

  lemma LongerWindow(r: Run, ms: seq<Mem>, i: nat, w: Window)
    requires IsRun(r) && Tracks(r, ms) && i <= |r.turns| && CurOk(r.At(i).sh) && Extends(W(r.At(i).sh).win, w)
    ensures |W(r.At(i).sh).win.stores| <= |w.stores|
  {
    hide *;
    RunJoint(r, ms, i);
    CurDistinct(r.At(i), MemAt(ms, i));
    Longer(W(r.At(i).sh).win, w);
  }

  lemma CurDistinct(c: Real, m: Mem)
    requires Joint(c, m)
    ensures CurOk(c.sh) && Distinct(W(c.sh).win.stores)
  {
  }

  /** Distinct storages that are all in another window are no more than that has. */
  lemma Longer(v: Window, w: Window)
    requires Distinct(v.stores) && Extends(v, w)
    ensures |v.stores| <= |w.stores|
  {
    DistinctCount(v.stores);
    ElemsCount(w.stores);
    assert Elems(v.stores) <= Elems(w.stores);
    CardMonotone(Elems(v.stores), Elems(w.stores));
  }

  lemma {:induction false} DistinctCount(s: seq<Sid>)
    requires Distinct(s)
    ensures |Elems(s)| == |s|
  {
    if s != [] {
      var k := |s| - 1;
      DistinctCount(s[..k]);
      assert s == s[..k] + [s[k]];
      assert Elems(s) == Elems(s[..k]) + {s[k]};
      assert s[k] !in s[..k];
    }
  }

  lemma {:induction false} ElemsCount(s: seq<Sid>)
    ensures |Elems(s)| <= |s|
  {
    if s != [] {
      var k := |s| - 1;
      ElemsCount(s[..k]);
      assert s == s[..k] + [s[k]];
      assert Elems(s) == Elems(s[..k]) + {s[k]};
    }
  }
}
