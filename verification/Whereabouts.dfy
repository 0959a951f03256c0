/** Where worlds and pointers really are: current, in a thread's hands, on the list of a slot, on the
    leak list. Every one of them is in exactly one place. */
module Whereabouts {
  import opened AbaTypes
  import opened Protocol
  import opened Invariant
  import opened Entries
  import opened Places
  import opened Machine
  import opened Windows
  import opened Storages
  import opened Refinement
  import opened RealRefinement
  import opened Runs
  import opened ExactlyOnce

  ghost predicate IsAt(c: Real, it: Item, p: Place) {
    match p
    case Current => it == Old(c.sh.cur.w) && !c.sh.cur.lock
    case Held(t) => t in c.th && it in Duties(c.Th(t))
    case Alone(t) => t in c.th && c.Th(t).pc.Free? && c.Th(t).pc.stage == Immediate(it)
    case Listed(t) => CurOk(c.sh) && Reaches(c.ss, W(c.sh).win, t) && it in SlotAt(c.ss, W(c.sh).win, t).list
    case Leaked => it in c.sh.leaks
    case Ran => false
  }

  lemma ListedIs(th: map<Tid, Thread>, sh: Shared, m: Mem, ss: Stores, it: Item, t: nat)
    requires CurOk(sh) && Matches(m, ss, W(sh)) && ListsOk(sh, m) && MemOk(th, m, W(sh).ts)
    ensures Reaches(ss, W(sh).win, t) && it in SlotAt(ss, W(sh).win, t).list <==> PlaceIs(sh, it, Listed(t))
  {
    if PlaceIs(sh, it, Listed(t)) {
      assert EntryOk(th, m, t);
      assert Live(m, t);
      assert InWindow(W(sh).win, t);
      Reach(m, ss, W(sh), t);
    }
  }

  lemma ListedAt(c: Real, m: Mem, it: Item, t: nat)
    requires Joint(c, m)
    ensures IsAt(c, it, Listed(t)) <==> PlaceIs(c.sh, it, Listed(t))
  {
    ListedIs(c.th, c.sh, m, c.ss, it, t);
  }

  lemma HeldAt(c: Real, m: Mem, it: Item, t: Tid)
    requires Joint(c, m)
    ensures IsAt(c, it, Held(t)) <==> PlaceIs(c.sh, it, Held(t))
    ensures IsAt(c, it, Alone(t)) <==> PlaceIs(c.sh, it, Alone(t))
  {
    if t in c.th {
      assert ThreadOk(c.sh, t, c.Th(t)) && Mine(c.sh, t, c.Th(t));
    }
  }

  lemma KnownAt(c: Real, m: Mem, it: Item)
    requires Joint(c, m)
    ensures IsAt(c, it, Current) <==> PlaceIs(c.sh, it, Current)
    ensures IsAt(c, it, Leaked) <==> PlaceIs(c.sh, it, Leaked)
  {
  }

  /** An item is where its history says, and nowhere else. */
  lemma PlaceIsReal(c: Real, m: Mem, it: Item, p: Place)
    requires Joint(c, m)
    ensures IsAt(c, it, p) <==> PlaceIs(c.sh, it, p) && p != Ran
  {
    match p
    case Held(t) => HeldAt(c, m, it, t);
    case Alone(t) => HeldAt(c, m, it, t);
    case Listed(t) => ListedAt(c, m, it, t);
    case _ => KnownAt(c, m, it);
  }

  /** No two places at once. */
  lemma OnePlace(r: Run, i: nat, it: Item, p: Place, q: Place)
    requires IsRun(r) && i <= |r.turns|
    requires IsAt(r.At(i), it, p) && IsAt(r.At(i), it, q)
    ensures p == q
  {
    hide StepAt, Joint, RealStep, Step, Tracks, Inv;
    var ms := TracksExists(r);
    RunJoint(r, ms, i);
    PlaceIsReal(r.At(i), MemAt(ms, i), it, p);
    PlaceIsReal(r.At(i), MemAt(ms, i), it, q);
  }

  lemma SomePlace(c: Real, m: Mem, it: Item)
    requires Joint(c, m)
    ensures (exists p :: IsAt(c, it, p)) <==> it in c.sh.place && c.sh.place[it] != Ran
  {
    hide Joint;
    if it in c.sh.place && c.sh.place[it] != Ran {
      PlaceIsReal(c, m, it, c.sh.place[it]);
    }
    if p :| IsAt(c, it, p) {
      PlaceIsReal(c, m, it, p);
    }
  }

  /** A pointer's callback runs at most once for one call of free; and from the call until then, and at
      no other time, the pointer is somewhere. */
  lemma Conservation(r: Run, i: nat, k: nat)
    requires IsRun(r) && i <= |r.turns|
    ensures Finals(r, i, k) <= Calls(r, i, k) <= 1
    ensures Calls(r, i, k) - Finals(r, i, k) == 1 <==> exists p :: IsAt(r.At(i), User(k), p)
  {
    hide StepAt, Joint, RealStep, Step, Tracks, Inv;
    var ms := TracksExists(r);
    RunJoint(r, ms, i);
    SomePlace(r.At(i), MemAt(ms, i), User(k));
    Tally(r, ms, i, k);
  }

  lemma HeapIsPlaced(c: Real, m: Mem, a: Addr)
    requires Joint(c, m)
    ensures a in c.sh.heap <==> Old(a) in c.sh.place
  {
  }

  /** A world is in memory exactly as long as it is in one of the places. */
  lemma WorldSomewhere(r: Run, i: nat, a: Addr)
    requires IsRun(r) && i <= |r.turns|
    ensures a in r.At(i).sh.heap <==> exists p :: IsAt(r.At(i), Old(a), p)
  {
    hide StepAt, Joint, RealStep, Step, Tracks, Inv;
    var ms := TracksExists(r);
    RunJoint(r, ms, i);
    SomePlace(r.At(i), MemAt(ms, i), Old(a));
    HeapIsPlaced(r.At(i), MemAt(ms, i), a);
    RunOldOnly(r, i);
  }
}
