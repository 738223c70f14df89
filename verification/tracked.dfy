/** What membership changes do to the progress of the members: whoever stays keeps
    it, and whoever comes starts with nothing. */
module TrackedNodes {
  import opened Quorum
  import opened Flow
  import opened Membership
  import opened Reconfiguration
  import opened Restoring

  /** The same progress, whether it is a learner's or not. */
  predicate Same(a: Progress, b: Progress) { b == a.(isLearner := b.isLearner) }

  /** The progress of a member that nothing is known of, except that it is worth
      probing at the end of the log. */
  predicate Starts(k: Limits, pr: Progress) {
    && pr.matched == 0 && pr.next == (if k.lastIndex == 0 then 1 else k.lastIndex) && pr.sentCommit == 0
    && pr.state.StateProbe? && pr.pendingSnapshot == 0 && pr.recentActive && !pr.paused
    && pr.inflights.items == [] && pr.inflights.size == k.maxInflight && pr.inflights.maxBytes == k.maxInflightBytes
  }

  /** A change untracks a node exactly if it removes it and the node does not vote in
      the outgoing half. */
  lemma OneChange(k: Limits, c: Conf, cc: Change, x: Id)
    requires Good(c)
    ensures var c' := ApplyOne(k, c, cc);
            && (x in c.progress && x !in c'.progress <==> x in c.progress && cc == RemoveNode(x) && x !in c.outgoing.Elems())
            && (x in c.progress && x in c'.progress ==> Same(c.progress[x], c'.progress[x]))
            && (x !in c.progress && x in c'.progress ==> Starts(k, c'.progress[x]))
  {
    assert GoodAt(c, x) && GoodAt(c, cc.id);
  }

  /** No change on the way untracks the node. */
  ghost predicate Stays(c: Conf, ccs: seq<Change>, x: Id) {
    x in c.progress && (x in c.outgoing.Elems() || RemoveNode(x) !in ccs)
  }

  /** A node that stays keeps its progress; any other that is tracked in the end has
      started with nothing. */
  lemma {:induction false} EachChange(k: Limits, c: Conf, ccs: seq<Change>, x: Id)
    requires Good(c) && ApplyEach(k, c, ccs).Changed?
    ensures var c' := ApplyEach(k, c, ccs).conf;
            && (Stays(c, ccs, x) ==> x in c'.progress && Same(c.progress[x], c'.progress[x]))
            && (!Stays(c, ccs, x) && x in c'.progress ==> Starts(k, c'.progress[x]))
    decreases |ccs|
  {
    hide Good, ApplyOne, Starts;
    if ccs != [] {
      var c1 := ApplyOne(k, c, ccs[0]);
      OneChange(k, c, ccs[0], x);
      ApplyOneKeeps(k, c, ccs[0]);
      EachChange(k, c1, ccs[1..], x);
      assert RemoveNode(x) in ccs <==> ccs[0] == RemoveNode(x) || RemoveNode(x) in ccs[1..];
      if x !in c.progress && Stays(c1, ccs[1..], x) { SameStarts(k, c1.progress[x], ApplyEach(k, c, ccs).conf.progress[x]); }
    }
  }

  lemma SameStarts(k: Limits, a: Progress, b: Progress)
    requires Starts(k, a) && Same(a, b)
    ensures Starts(k, b)
  {}

  /** Every member of the new configuration has kept its progress or starts with
      nothing. */
  ghost predicate Carried(k: Limits, c: Conf, c': Conf) {
    forall x | x in c'.progress :: (x in c.progress && Same(c.progress[x], c'.progress[x])) || Starts(k, c'.progress[x])
  }

  /** A simple change: the progress of a node is kept exactly if the node was tracked
      and is not removed on the way. */
  lemma SimpleCarries(k: Limits, c: Conf, ccs: seq<Change>, x: Id)
    requires Settled(c) && Simple(k, c, ccs).Changed?
    ensures var c' := Simple(k, c, ccs).conf;
            && (x in c.progress && RemoveNode(x) !in ccs ==> x in c'.progress && Same(c.progress[x], c'.progress[x]))
            && (x in c'.progress && (x !in c.progress || RemoveNode(x) in ccs) ==> Starts(k, c'.progress[x]))
  {
    hide Good, Simple, ApplyEach, SymDiff, VotersAfter, AllKnown, Starts;
    SimpleAccepts(k, c, ccs);
    EachChange(k, c, ccs, x);
  }

  /** Entering a joint configuration: the same, except that voters are not untracked by
      being removed. */
  lemma EnterCarries(k: Limits, c: Conf, autoLeave: bool, ccs: seq<Change>, x: Id)
    requires Settled(c) && EnterJoint(k, c, autoLeave, ccs).Changed?
    ensures var c' := EnterJoint(k, c, autoLeave, ccs).conf; var stays := x in c.incoming || RemoveNode(x) !in ccs;
            && (x in c.progress && stays ==> x in c'.progress && Same(c.progress[x], c'.progress[x]))
            && (x in c'.progress && (x !in c.progress || !stays) ==> Starts(k, c'.progress[x]))
  {
    hide Good, EnterJoint, ApplyEach, VotersAfter, AllKnown, Starts;
    EnterJointAccepts(k, c, autoLeave, ccs);
    var c1 := c.(autoLeave := false, outgoing := Ids(c.incoming));
    OutgoingIsGood(c);
    EachChange(k, c1, ccs, x);
    VotersTracked(c, x);
  }

  lemma OutgoingIsGood(c: Conf)
    requires Good(c) && !c.Joint() && c.incoming != {}
    ensures Good(c.(autoLeave := false, outgoing := Ids(c.incoming)))
  {
    var c1 := c.(autoLeave := false, outgoing := Ids(c.incoming));
    forall x ensures GoodAt(c1, x) { assert GoodAt(c, x); }
  }

  lemma VotersTracked(c: Conf, x: Id)
    requires Good(c)
    ensures x in c.incoming ==> x in c.progress
  {
    assert GoodAt(c, x);
  }

  /** Leaving one: whoever is tracked afterwards was before, with the same progress. */
  lemma LeaveCarries(c: Conf, x: Id)
    requires Settled(c) && LeaveJoint(c).Changed? && x in LeaveJoint(c).conf.progress
    ensures x in c.progress && Same(c.progress[x], LeaveJoint(c).conf.progress[x])
  {
    hide LeaveJoint;
    LeaveJointAccepts(c);
  }

  /** For every successful change. */
  lemma ChangesCarry(k: Limits, c: Conf, c': Conf)
    requires Settled(c) && Step(k, c, c')
    ensures Carried(k, c, c')
  {
    hide Settled, ApplyEach, Simple, EnterJoint, LeaveJoint, Starts, Same;
    if ccs :| Simple(k, c, ccs) == Changed(c') {
      forall x | x in c'.progress
        ensures (x in c.progress && Same(c.progress[x], c'.progress[x])) || Starts(k, c'.progress[x])
      { SimpleCarries(k, c, ccs, x); }
    } else if autoLeave, ccs :| EnterJoint(k, c, autoLeave, ccs) == Changed(c') {
      forall x | x in c'.progress
        ensures (x in c.progress && Same(c.progress[x], c'.progress[x])) || Starts(k, c'.progress[x])
      { EnterCarries(k, c, autoLeave, ccs, x); }
    } else {
      forall x | x in c'.progress ensures x in c.progress && Same(c.progress[x], c'.progress[x]) { LeaveCarries(c, x); }
    }
  }

  function MatchOf(c: Conf, x: Id): nat { if x in c.progress then c.progress[x].matched else 0 }

  /** No change makes any node count as holding more of the log. */
  lemma MatchNeverRises(k: Limits, c: Conf, c': Conf, x: Id)
    requires Settled(c) && Step(k, c, c')
    ensures MatchOf(c', x) <= MatchOf(c, x)
  {
    hide Settled, Step;
    ChangesCarry(k, c, c');
  }

  /** So changes alone never make anyone count as holding anything. */
  lemma {:induction false} MatchFromTheStart(confs: seq<Conf>, i: nat, x: Id)
    requires IsHistory(confs) && i < |confs|
    ensures MatchOf(confs[i], x) == 0
  {
    if i > 0 {
      hide Step, Settled;
      var p: nat := i - 1;
      MatchFromTheStart(confs, p, x);
      ReachableIsSettled(confs, p);
      assert Follows(confs[p], confs[i]);
      var k :| Step(k, confs[p], confs[i]);
      MatchNeverRises(k, confs[p], confs[i], x);
    }
  }

  // --------------------------------------------------------------- restoring

  ghost predicate AllStart(k: Limits, c: Conf) {
    forall x | x in c.progress :: Starts(k, c.progress[x])
  }

  lemma CarriedStarts(k: Limits, c: Conf, c': Conf)
    requires Carried(k, c, c') && AllStart(k, c)
    ensures AllStart(k, c')
  {
    hide Starts;
    forall x | x in c'.progress ensures Starts(k, c'.progress[x]) {
      if !Starts(k, c'.progress[x]) { SameStarts(k, c.progress[x], c'.progress[x]); }
    }
  }

  lemma StartsCarry(k: Limits, c: Conf, c': Conf)
    requires Settled(c) && AllStart(k, c) && Step(k, c, c')
    ensures Settled(c') && AllStart(k, c')
  {
    hide Settled, AllStart, Step, Carried;
    StepKeeps(k, c, c');
    ChangesCarry(k, c, c');
    CarriedStarts(k, c, c');
  }

  lemma {:induction false} SimpleEachStarts(k: Limits, c: Conf, ccs: seq<Change>)
    requires Settled(c) && AllStart(k, c) && SimpleEach(k, c, ccs).Changed?
    ensures Settled(SimpleEach(k, c, ccs).conf) && AllStart(k, SimpleEach(k, c, ccs).conf)
    decreases |ccs|
  {
    hide Settled, AllStart, Simple;
    if ccs != [] {
      var c1 := Simple(k, c, ccs[..1]).conf;
      StartsCarry(k, c, c1);
      SimpleEachStarts(k, c1, ccs[1..]);
    }
  }

  lemma NothingTracked(k: Limits)
    ensures AllStart(k, EMPTY_CONF)
  {}

  /** After a restart or a snapshot nothing is known of any member. */
  lemma RestoredStarts(k: Limits, cs: ConfState)
    requires Restore(k, EMPTY_CONF, cs).Changed?
    ensures AllStart(k, Restore(k, EMPTY_CONF, cs).conf)
  {
    hide Settled, AllStart, Simple, EnterJoint, Outgoing, Incoming;
    EmptyIsSettled();
    NothingTracked(k);
    if Outgoing(cs) == [] { SimpleEachStarts(k, EMPTY_CONF, Incoming(cs)); }
    else {
      SimpleEachStarts(k, EMPTY_CONF, Outgoing(cs));
      var c := SimpleEach(k, EMPTY_CONF, Outgoing(cs)).conf;
      assert EnterJoint(k, c, cs.autoLeave, Incoming(cs)).Changed?;
      StartsCarry(k, c, EnterJoint(k, c, cs.autoLeave, Incoming(cs)).conf);
    }
  }

  // ---------------------------------------------------------------- refusals

  lemma {:induction false} WhyNotEach(k: Limits, c: Conf, ccs: seq<Change>)
    ensures ApplyEach(k, c, ccs).Refused? <==> !AllKnown(ccs)
    ensures ApplyEach(k, c, ccs).Refused? ==> ApplyEach(k, c, ccs) == Refused(UnexpectedType)
    decreases |ccs|
  {
    hide ApplyOne;
    if ccs != [] {
      WhyNotEach(k, ApplyOne(k, c, ccs[0]), ccs[1..]);
      assert forall i | 0 < i < |ccs| :: ccs[i] == ccs[1..][i - 1];
    }
  }

  lemma WhyNotApplied(k: Limits, c: Conf, ccs: seq<Change>)
    ensures Apply(k, c, ccs).Refused? ==> Apply(k, c, ccs).error == if AllKnown(ccs) then RemovedAllVoters else UnexpectedType
  {
    hide ApplyEach, AllKnown;
    WhyNotEach(k, c, ccs);
  }

  /** What a refused change is refused for. */
  lemma SimpleRefuses(k: Limits, c: Conf, ccs: seq<Change>)
    requires Settled(c) && Simple(k, c, ccs).Refused?
    ensures Simple(k, c, ccs).error ==
            if c.Joint() then AlreadyJoint
            else if !AllKnown(ccs) then UnexpectedType
            else if VotersAfter(c.incoming, ccs) == {} then RemovedAllVoters
            else TooManyVoters
  {
    hide Good, CheckInvariants, SymDiff, VotersAfter, AllKnown;
    SimpleAccepts(k, c, ccs);
    CopyPasses(c);
    if !c.Joint() {
      assert c.(autoLeave := false) == c;
      WhyNotApplied(k, c, ccs);
      ApplyAccepts(k, c, ccs);
    }
  }

  lemma EnterRefuses(k: Limits, c: Conf, autoLeave: bool, ccs: seq<Change>)
    requires Settled(c) && EnterJoint(k, c, autoLeave, ccs).Refused?
    ensures EnterJoint(k, c, autoLeave, ccs).error ==
            if c.Joint() then AlreadyJoint
            else if c.incoming == {} then ZeroVoters
            else if !AllKnown(ccs) then UnexpectedType
            else RemovedAllVoters
  {
    hide Good, CheckInvariants, VotersAfter, AllKnown;
    EnterJointAccepts(k, c, autoLeave, ccs);
    CopyPasses(c);
    if !c.Joint() && c.incoming != {} {
      var c1 := c.(autoLeave := false, outgoing := Ids(c.incoming));
      OutgoingIsGood(c);
      WhyNotApplied(k, c1, ccs);
      ApplyAccepts(k, c1, ccs);
    }
  }

  lemma LeaveRefuses(c: Conf)
    requires Settled(c) && LeaveJoint(c).Refused?
    ensures LeaveJoint(c) == Refused(NotJoint)
  {
    hide Good, CheckInvariants;
    LeaveJointAccepts(c);
    CopyPasses(c);
  }
}
