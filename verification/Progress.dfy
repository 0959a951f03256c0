/** How far a thread has promised to check in, and has checked in, only ever grows while it is
    registered. */
module Progress {
  import opened AbaTypes
  import opened Protocol
  import opened Invariant

  /** The thread sets or sees the bit in a checkin, and so promises to give up everything freed up to
      timestamp `upto`. */
  predicate Commits(act: Act) { act.MarkSeen? || act.MarkOk? || act.CopyOk? }

  /** The thread's unregister swap succeeds. */
  predicate Leaves(act: Act) { act.RemoveOk? || act.RemoveLast? }

  ghost predicate Advance(act: Act, x: Thread, x': Thread) {
    && (Reg(x) && Reg(x') ==> Next(x) <= Next(x') && Limit(x) <= Limit(x'))
    && (Reg(x) && Reg(x') && Limit(x) < Limit(x') ==>
          Commits(act) && (x.pc.Marking? || x.pc.Copying?) && Limit(x') == x.pc.upto + 1)
    && (Reg(x) && !Reg(x') ==> Leaves(act))
    && (!Reg(x) && Reg(x') ==>
          act.RegisterOk? && x.pc.Registering? && Next(x') == x.pc.s.world.ts + 1 && Limit(x') == Next(x'))
  }

  lemma RegisterAdvance(act: Act, sh: Shared, tid: Tid, x: Thread, sh': Shared, x': Thread)
    requires RegisterAct(act) && RegisterStep(act, sh, tid, x, sh', x') && Local(x)
    ensures Advance(act, x, x')
  {
  }

  lemma FreeAdvance(act: Act, sh: Shared, tid: Tid, x: Thread, sh': Shared, x': Thread)
    requires FreeAct(act) && FreeStep(act, sh, tid, x, sh', x') && Local(x)
    ensures Advance(act, x, x')
  {
  }

  lemma CheckinAdvance(act: Act, sh: Shared, tid: Tid, x: Thread, sh': Shared, x': Thread)
    requires CheckinAct(act) && CheckinStep(act, sh, tid, x, sh', x') && Local(x)
    ensures Advance(act, x, x')
  {
  }

  lemma WalkAdvance(act: Act, sh: Shared, tid: Tid, x: Thread, sh': Shared, x': Thread)
    requires WalkAct(act) && WalkingStep(act, sh, tid, x, sh', x') && Local(x)
    ensures Advance(act, x, x')
  {
  }

  lemma UnregisterAdvance(act: Act, sh: Shared, tid: Tid, x: Thread, sh': Shared, x': Thread)
    requires UnregisterAct(act) && UnregisterStep(act, sh, tid, x, sh', x') && Local(x)
    ensures Advance(act, x, x')
  {
  }

  lemma StepAdvance(act: Act, sh: Shared, tid: Tid, x: Thread, sh': Shared, x': Thread)
    requires ThreadStep(act, sh, tid, x, sh', x') && Local(x)
    ensures Advance(act, x, x')
  {
    if RegisterAct(act) {
      RegisterShape(act, sh, tid, x, sh', x');
      RegisterAdvance(act, sh, tid, x, sh', x');
    } else if FreeAct(act) {
      FreeShape(act, sh, tid, x, sh', x');
      FreeAdvance(act, sh, tid, x, sh', x');
    } else if CheckinAct(act) {
      CheckinShape(act, sh, tid, x, sh', x');
      CheckinAdvance(act, sh, tid, x, sh', x');
    } else if WalkAct(act) {
      WalkShape(act, sh, tid, x, sh', x');
      WalkAdvance(act, sh, tid, x, sh', x');
    } else {
      UnregisterShape(act, sh, tid, x, sh', x');
      UnregisterAdvance(act, sh, tid, x, sh', x');
    }
  }

  lemma NextLeLimit(x: Thread)
    requires Local(x)
    ensures Next(x) <= Limit(x)
  {
  }
}
