/** What membership changes promise: quorums of adjacent configurations overlap,
    and joint changes end where simple ones do. */
module Reconfiguration {
  import opened Quorum
  import opened Membership

  // ---------------------------------------------------------- quorum overlap

  /** Majorities of sets that differ in at most one member meet. */
  lemma NearMajoritiesMeet(a: set<Id>, b: set<Id>, q1: set<Id>, q2: set<Id>) returns (v: Id)
    requires a != {} && b != {} && SymDiff(a, b) <= 1 && IsMajority(a, q1) && IsMajority(b, q2)
    ensures v in q1 && v in q2 && v in a && v in b
  {
    if a <= b {
      v := SmallerMeets(a, b, q1, q2);
    } else {
      NotSubset(a, b);
      v := SmallerMeets(b, a, q2, q1);
    }
  }

  lemma NotSubset(a: set<Id>, b: set<Id>)
    requires SymDiff(a, b) <= 1 && !(a <= b)
    ensures b <= a && SymDiff(b, a) <= 1
  {
    var x :| x in a && x !in b;
    assert x in a - b;
    assert b - a == {};
    assert b <= a + (b - a);
  }

  lemma SmallerMeets(a: set<Id>, b: set<Id>, q1: set<Id>, q2: set<Id>) returns (v: Id)
    requires a != {} && a <= b && SymDiff(a, b) <= 1 && IsMajority(a, q1) && IsMajority(b, q2)
    ensures v in q1 && v in q2 && v in a
  {
    var s1, s2 := Among(a, q1), Among(b, q2);
    var s := s1 + s2;
    if s1 !! s2 {
      assert |s| == |s1| + |s2|;
      SubsetSize(s, b);
      SizeDiff(a, b);
      assert false;
    }
    v :| v in s1 && v in s2;
  }

  lemma SizeDiff(a: set<Id>, b: set<Id>)
    requires a <= b
    ensures |b| == |a| + |b - a|
  {
    assert b == a + (b - a);
  }

  /** After every successful change, a quorum of the old configuration and a
      quorum of the new one have a member in common that is a voter of both. */
  lemma AdjacentQuorumsOverlap(k: Limits, c: Conf, c': Conf, q1: set<Id>, q2: set<Id>) returns (v: Id)
    requires Settled(c) && c.incoming != {} && Step(k, c, c')
    requires IsQuorum(c.Voters(), q1) && IsQuorum(c'.Voters(), q2)
    ensures v in q1 && v in q2 && v in c.Voters().Ids() && v in c'.Voters().Ids()
  {
    hide Settled, IsMajority, ApplyEach, Simple, EnterJoint, LeaveJoint, SymDiff;
    if ccs :| Simple(k, c, ccs) == Changed(c') {
      SimpleAccepts(k, c, ccs);
      v := NearMajoritiesMeet(c.incoming, c'.incoming, q1, q2);
    } else if autoLeave, ccs :| EnterJoint(k, c, autoLeave, ccs) == Changed(c') {
      EnterJointAccepts(k, c, autoLeave, ccs);
      v := MajoritiesMeet(c.incoming, q1, q2);
    } else {
      LeaveJointAccepts(c);
      v := MajoritiesMeet(c.incoming, q1, q2);
    }
  }

  /** In terms of elections: a vote won before a change and one won after it have
      a supporter in common that votes in both. */
  lemma AdjacentElectionsOverlap(k: Limits, c: Conf, c': Conf, votes1: map<Id, bool>, votes2: map<Id, bool>)
      returns (v: Id)
    requires Settled(c) && c.incoming != {} && Step(k, c, c')
    requires JointVote(c.Voters(), votes1) == VoteWon && JointVote(c'.Voters(), votes2) == VoteWon
    ensures v in votes1 && votes1[v] && v in votes2 && votes2[v] && v in c.Voters().Ids() && v in c'.Voters().Ids()
  {
    WonIsQuorum(c.Voters(), votes1);
    WonIsQuorum(c'.Voters(), votes2);
    v := AdjacentQuorumsOverlap(k, c, c', YesVotes(votes1), YesVotes(votes2));
  }

  // ------------------------------------------------------ simple versus joint

  /** The working copy of a joint change, compared with the configuration that
      simple changes have reached: the same voters, and the same learners except
      that outgoing voters among them are staged. */
  ghost predicate MirrorsAt(s: Conf, j: Conf, id: Id) {
    && (id in j.incoming <==> id in s.incoming)
    && (id in j.learners.Elems() <==> id in s.learners.Elems() && id !in j.outgoing.Elems())
    && (id in j.learnersNext.Elems() <==> id in s.learners.Elems() && id in j.outgoing.Elems())
  }

  ghost predicate Mirrors(s: Conf, j: Conf) {
    && Settled(s) && !s.Joint() && Good(j)
    && forall id :: MirrorsAt(s, j, id)
  }

  /** What each change does to the voters and learners of a good configuration. */
  lemma VoterEffect(k: Limits, c: Conf, id: Id, x: Id)
    requires Good(c)
    ensures var c' := MakeVoter(k, c, id);
            && (x in c'.incoming <==> x == id || x in c.incoming)
            && (x in c'.learners.Elems() <==> x != id && x in c.learners.Elems())
            && (x in c'.learnersNext.Elems() <==> x != id && x in c.learnersNext.Elems())
  {
    assert GoodAt(c, id) && GoodAt(c, x);
  }

  lemma RemoveEffect(c: Conf, id: Id, x: Id)
    requires Good(c)
    ensures var c' := Remove(c, id);
            && (x in c'.incoming <==> x != id && x in c.incoming)
            && (x in c'.learners.Elems() <==> x != id && x in c.learners.Elems())
            && (x in c'.learnersNext.Elems() <==> x != id && x in c.learnersNext.Elems())
  {
    assert GoodAt(c, id) && GoodAt(c, x);
  }

  lemma LearnerEffect(k: Limits, c: Conf, id: Id, x: Id)
    requires Good(c)
    ensures var c', out := MakeLearner(k, c, id), id in c.outgoing.Elems();
            && (x in c'.incoming <==> x != id && x in c.incoming)
            && (x in c'.learners.Elems() <==> (x == id && !out) || (x != id && x in c.learners.Elems()))
            && (x in c'.learnersNext.Elems() <==> (x == id && out) || (x != id && x in c.learnersNext.Elems()))
  {
    assert GoodAt(c, id) && GoodAt(c, x);
  }

  lemma MirrorsOne(k: Limits, s: Conf, j: Conf, cc: Change)
    requires Mirrors(s, j) && !ApplyOne(k, s, cc).autoLeave
    ensures Mirrors(ApplyOne(k, s, cc), ApplyOne(k, j, cc))
  {
    hide Good, MakeVoter, MakeLearner, Remove;
    ApplyOneKeeps(k, s, cc);
    ApplyOneKeeps(k, j, cc);
    var s', j' := ApplyOne(k, s, cc), ApplyOne(k, j, cc);
    forall x ensures MirrorsAt(s', j', x) {
      assert MirrorsAt(s, j, x);
      VoterEffect(k, s, cc.id, x);
      VoterEffect(k, j, cc.id, x);
      RemoveEffect(s, cc.id, x);
      RemoveEffect(j, cc.id, x);
      LearnerEffect(k, s, cc.id, x);
      LearnerEffect(k, j, cc.id, x);
    }
  }

  /** Changes applied one at a time, each as a simple change. */
  ghost function SimpleEach(k: Limits, c: Conf, ccs: seq<Change>): Outcome
    decreases |ccs|
  {
    if ccs == [] then Changed(c)
    else
      var r := Simple(k, c, ccs[..1]);
      if r.Refused? then r else SimpleEach(k, r.conf, ccs[1..])
  }

  lemma SimpleOne(k: Limits, c: Conf, ccs: seq<Change>)
    requires Settled(c) && ccs != [] && Simple(k, c, ccs[..1]).Changed?
    ensures !IsUnexpected(ccs[0]) && Simple(k, c, ccs[..1]).conf == ApplyOne(k, c, ccs[0])
    ensures ApplyOne(k, c, ccs[0]).incoming != {} && Settled(ApplyOne(k, c, ccs[0])) && !ApplyOne(k, c, ccs[0]).Joint()
  {
    hide Simple, Good, ApplyOne, SymDiff;
    SimpleAccepts(k, c, ccs[..1]);
    assert ccs[..1][0] == ccs[0] && ccs[..1][1..] == [];
    assert ApplyEach(k, ApplyOne(k, c, ccs[0]), []) == Changed(ApplyOne(k, c, ccs[0]));
  }

  lemma {:induction false} MirrorsEach(k: Limits, s: Conf, j: Conf, ccs: seq<Change>)
    requires Mirrors(s, j) && s.incoming != {} && SimpleEach(k, s, ccs).Changed?
    ensures var r := ApplyEach(k, j, ccs);
            && r.Changed? && Mirrors(SimpleEach(k, s, ccs).conf, r.conf)
            && SimpleEach(k, s, ccs).conf.incoming != {} && r.conf.outgoing == j.outgoing
    decreases |ccs|
  {
    hide Good, ApplyOne, Simple, MirrorsAt;
    if ccs != [] {
      SimpleOne(k, s, ccs);
      MirrorsOne(k, s, j, ccs[0]);
      ApplyOneKeeps(k, j, ccs[0]);
      MirrorsEach(k, ApplyOne(k, s, ccs[0]), ApplyOne(k, j, ccs[0]), ccs[1..]);
    }
  }

  /** The same members with the same roles. */
  ghost predicate SameMembers(a: Conf, b: Conf) {
    && a.incoming == b.incoming && a.outgoing == b.outgoing && a.learners == b.learners && a.learnersNext == b.learnersNext
    && a.autoLeave == b.autoLeave && a.progress.Keys == b.progress.Keys
    && forall id | id in a.progress && id in b.progress :: a.progress[id].isLearner == b.progress[id].isLearner
  }

  /** Good configurations with the same voters and learners have the same
      members. */
  lemma SameRoles(a: Conf, b: Conf)
    requires Good(a) && Good(b) && a.autoLeave == b.autoLeave
    requires forall id ::
               && (id in a.incoming <==> id in b.incoming) && (id in a.outgoing.Elems() <==> id in b.outgoing.Elems())
               && (id in a.learners.Elems() <==> id in b.learners.Elems())
               && (id in a.learnersNext.Elems() <==> id in b.learnersNext.Elems())
    ensures SameMembers(a, b)
  {
    assert a.incoming == b.incoming;
    SameNilSet(a.outgoing, b.outgoing);
    SameNilSet(a.learners, b.learners);
    SameNilSet(a.learnersNext, b.learnersNext);
    forall id ensures (id in a.progress <==> id in b.progress) &&
                      (id in a.progress && id in b.progress ==> a.progress[id].isLearner == b.progress[id].isLearner)
    {
      assert GoodAt(a, id) && GoodAt(b, id);
    }
    assert a.progress.Keys == b.progress.Keys;
  }

  lemma SameNilSet(a: NilSet, b: NilSet)
    requires a.Canonical() && b.Canonical() && forall id :: id in a.Elems() <==> id in b.Elems()
    ensures a == b
  {
    assert a.Elems() == b.Elems();
  }

  /** If a list of changes can be made one at a time, it can be made at once
      through a joint configuration, with the same result. */
  lemma JointEqualsSimple(k: Limits, c: Conf, autoLeave: bool, ccs: seq<Change>)
    requires Settled(c) && !c.Joint() && c.incoming != {} && SimpleEach(k, c, ccs).Changed?
    ensures var j := EnterJoint(k, c, autoLeave, ccs);
            && j.Changed? && LeaveJoint(j.conf).Changed?
            && SameMembers(LeaveJoint(j.conf).conf, SimpleEach(k, c, ccs).conf)
  {
    hide EnterJoint, LeaveJoint, SimpleEach, ApplyEach, Good, Left, VotersAfter, AllKnown;
    var j0 := c.(autoLeave := false, outgoing := Ids(c.incoming));
    StartsMirrored(c);
    MirrorsEach(k, c, j0, ccs);
    SameVoters(SimpleEach(k, c, ccs).conf, ApplyEach(k, j0, ccs).conf);
    ApplyAccepts(k, j0, ccs);
    EnterJointAccepts(k, c, autoLeave, ccs);
    var s, j := SimpleEach(k, c, ccs).conf, EnterJoint(k, c, autoLeave, ccs).conf;
    LeaveJointAccepts(j);
    LeftMirrors(s, ApplyEach(k, j0, ccs).conf, j);
  }

  lemma SameVoters(s: Conf, j: Conf)
    requires Mirrors(s, j)
    ensures s.incoming == j.incoming
  {
    forall x ensures x in s.incoming <==> x in j.incoming { assert MirrorsAt(s, j, x); }
  }

  lemma StartsMirrored(c: Conf)
    requires Settled(c) && !c.Joint()
    ensures Mirrors(c, c.(autoLeave := false, outgoing := Ids(c.incoming))) || c.incoming == {}
  {
    var j := c.(autoLeave := false, outgoing := Ids(c.incoming));
    forall x ensures GoodAt(j, x) && MirrorsAt(c, j, x) { assert GoodAt(c, x); }
  }

  lemma LeftMirrors(s: Conf, a: Conf, j: Conf)
    requires Mirrors(s, a) && j == a.(autoLeave := j.autoLeave) && Settled(Left(j))
    ensures SameMembers(Left(j), s)
  {
    hide Good;
    var l := Left(j);
    forall id ensures
      && (id in l.incoming <==> id in s.incoming) && (id in l.outgoing.Elems() <==> id in s.outgoing.Elems())
      && (id in l.learners.Elems() <==> id in s.learners.Elems())
      && (id in l.learnersNext.Elems() <==> id in s.learnersNext.Elems())
    {
      assert MirrorsAt(s, a, id);
      NothingStaged(s, id);
    }
    SameRoles(l, s);
  }

  lemma NothingStaged(s: Conf, id: Id)
    requires Good(s) && !s.Joint()
    ensures id !in s.learnersNext.Elems() && id !in s.outgoing.Elems()
  {
    assert GoodAt(s, id);
  }
}
