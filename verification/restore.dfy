/** Rebuilding a configuration from its ConfState. */
module Restoring {
  import opened Quorum
  import opened Membership
  import opened Reconfiguration

  datatype ConfState = ConfState(
    voters: seq<Id>, votersOutgoing: seq<Id>, learners: seq<Id>, learnersNext: seq<Id>, autoLeave: bool)

  /** cs lists the members of c, in any order. */
  ghost predicate Describes(cs: ConfState, c: Conf) {
    && (forall id :: id in cs.voters <==> id in c.incoming)
    && (forall id :: id in cs.votersOutgoing <==> id in c.outgoing.Elems())
    && (forall id :: id in cs.learners <==> id in c.learners.Elems())
    && (forall id :: id in cs.learnersNext <==> id in c.learnersNext.Elems())
    && cs.autoLeave == c.autoLeave
  }

  // ------------------------------------------------------------ change lists

  function Adds(ids: seq<Id>): seq<Change> { seq(|ids|, i requires 0 <= i < |ids| => AddNode(ids[i])) }

  function Removes(ids: seq<Id>): seq<Change> { seq(|ids|, i requires 0 <= i < |ids| => RemoveNode(ids[i])) }

  function AddLearners(ids: seq<Id>): seq<Change> { seq(|ids|, i requires 0 <= i < |ids| => AddLearnerNode(ids[i])) }

  /** The changes that first make the outgoing voters the configuration, and those
      that then turn it into the described one. */
  function Outgoing(cs: ConfState): seq<Change> { Adds(cs.votersOutgoing) }

  function Incoming(cs: ConfState): seq<Change> {
    Removes(cs.votersOutgoing) + Adds(cs.voters) + AddLearners(cs.learners) + AddLearners(cs.learnersNext)
  }

  method ToConfChangeSingle(cs: ConfState) returns (out: seq<Change>, inc: seq<Change>)
    ensures out == Outgoing(cs) && inc == Incoming(cs)
  {
    out, inc := [], [];
    for i := 0 to |cs.votersOutgoing|
      invariant out == Adds(cs.votersOutgoing)[..i]
    {
      out := out + [AddNode(cs.votersOutgoing[i])];
    }
    for i := 0 to |cs.votersOutgoing|
      invariant inc == Removes(cs.votersOutgoing)[..i]
    {
      inc := inc + [RemoveNode(cs.votersOutgoing[i])];
    }
    ghost var base := inc;
    for i := 0 to |cs.voters|
      invariant inc == base + Adds(cs.voters)[..i]
    {
      inc := inc + [AddNode(cs.voters[i])];
    }
    base := inc;
    for i := 0 to |cs.learners|
      invariant inc == base + AddLearners(cs.learners)[..i]
    {
      inc := inc + [AddLearnerNode(cs.learners[i])];
    }
    base := inc;
    for i := 0 to |cs.learnersNext|
      invariant inc == base + AddLearners(cs.learnersNext)[..i]
    {
      inc := inc + [AddLearnerNode(cs.learnersNext[i])];
    }
  }

  /** Without outgoing voters the changes are made one by one; otherwise the
      outgoing voters are added one by one and the joint configuration entered. */
  ghost function Restore(k: Limits, c: Conf, cs: ConfState): Outcome {
    if Outgoing(cs) == [] then SimpleEach(k, c, Incoming(cs))
    else
      var r := SimpleEach(k, c, Outgoing(cs));
      if r.Refused? then r else EnterJoint(k, r.conf, cs.autoLeave, Incoming(cs))
  }

  // ------------------------------------------------- simple changes, one by one

  /** Some voter remains after each change. */
  ghost predicate KeepsVoters(k: Limits, c: Conf, ccs: seq<Change>)
    decreases |ccs|
  {
    ccs == [] ||
    (!IsUnexpected(ccs[0]) && ApplyOne(k, c, ccs[0]).incoming != {} && KeepsVoters(k, ApplyOne(k, c, ccs[0]), ccs[1..]))
  }

  /** One change moves at most one voter. */
  lemma OneVoterAtMost(k: Limits, c: Conf, cc: Change)
    ensures SymDiff(c.incoming, ApplyOne(k, c, cc).incoming) <= 1
  {
    var a, b := c.incoming, ApplyOne(k, c, cc).incoming;
    assert a - b <= {cc.id} && b - a <= {cc.id};
    AtMostOne(a - b, cc.id);
    AtMostOne(b - a, cc.id);
    if cc.id in a { assert b - a == {}; } else { assert a - b == {}; }
  }

  lemma AtMostOne(s: set<Id>, id: Id)
    requires s <= {id}
    ensures |s| <= 1
  {
    SubsetSize(s, {id});
  }

  /** Changes made one at a time are all accepted exactly if none is unknown and
      each leaves a voter, and then are just applied in turn. */
  lemma {:induction false} SimpleEachAccepts(k: Limits, c: Conf, ccs: seq<Change>)
    requires Settled(c) && !c.Joint()
    ensures SimpleEach(k, c, ccs).Changed? <==> KeepsVoters(k, c, ccs)
    ensures KeepsVoters(k, c, ccs) ==> SimpleEach(k, c, ccs) == ApplyEach(k, c, ccs)
    decreases |ccs|
  {
    hide Good, Simple, ApplyOne, SymDiff, VotersAfter, AllKnown;
    if ccs != [] {
      SimpleAccepts(k, c, ccs[..1]);
      ApplyAccepts(k, c, ccs[..1]);
      assert ccs[..1][0] == ccs[0] && ccs[..1][1..] == [];
      assert ApplyEach(k, ApplyOne(k, c, ccs[0]), []) == Changed(ApplyOne(k, c, ccs[0]));
      OneVoterAtMost(k, c, ccs[0]);
      if !IsUnexpected(ccs[0]) && ApplyOne(k, c, ccs[0]).incoming != {} {
        SimpleEachAccepts(k, ApplyOne(k, c, ccs[0]), ccs[1..]);
      }
    }
  }

  lemma {:induction false} Concatenated(k: Limits, c: Conf, a: seq<Change>, b: seq<Change>)
    requires ApplyEach(k, c, a).Changed?
    ensures ApplyEach(k, c, a + b) == ApplyEach(k, ApplyEach(k, c, a).conf, b)
    ensures KeepsVoters(k, c, a) && KeepsVoters(k, ApplyEach(k, c, a).conf, b) ==> KeepsVoters(k, c, a + b)
    decreases |a|
  {
    hide ApplyOne;
    if a == [] {
      assert a + b == b;
    } else {
      assert (a + b)[0] == a[0] && (a + b)[1..] == a[1..] + b;
      Concatenated(k, ApplyOne(k, c, a[0]), a[1..], b);
    }
  }

  // -------------------------------------------------- effects of change lists

  lemma {:induction false} AddsEffect(k: Limits, c: Conf, ids: seq<Id>)
    requires Good(c) && NONE !in ids
    ensures var r := ApplyEach(k, c, Adds(ids));
            && r.Changed? && Good(r.conf) && r.conf.outgoing == c.outgoing && r.conf.autoLeave == c.autoLeave
            && KeepsVoters(k, c, Adds(ids))
            && forall x ::
                 && (x in r.conf.incoming <==> x in ids || x in c.incoming)
                 && (x in r.conf.learners.Elems() <==> x !in ids && x in c.learners.Elems())
                 && (x in r.conf.learnersNext.Elems() <==> x !in ids && x in c.learnersNext.Elems())
    decreases |ids|
  {
    hide Good, MakeVoter;
    if ids != [] {
      var c1 := MakeVoter(k, c, ids[0]);
      assert Adds(ids)[0] == AddNode(ids[0]) && Adds(ids)[1..] == Adds(ids[1..]);
      ApplyOneKeeps(k, c, AddNode(ids[0]));
      AddsEffect(k, c1, ids[1..]);
      forall x ensures
        && (x in c1.incoming <==> x == ids[0] || x in c.incoming)
        && (x in c1.learners.Elems() <==> x != ids[0] && x in c.learners.Elems())
        && (x in c1.learnersNext.Elems() <==> x != ids[0] && x in c.learnersNext.Elems())
      {
        VoterEffect(k, c, ids[0], x);
      }
      assert ids[0] in c1.incoming;
    }
  }

  lemma {:induction false} RemovesEffect(k: Limits, c: Conf, ids: seq<Id>)
    requires Good(c) && NONE !in ids
    ensures var r := ApplyEach(k, c, Removes(ids));
            && r.Changed? && Good(r.conf) && r.conf.outgoing == c.outgoing && r.conf.autoLeave == c.autoLeave
            && forall x ::
                 && (x in r.conf.incoming <==> x !in ids && x in c.incoming)
                 && (x in r.conf.learners.Elems() <==> x !in ids && x in c.learners.Elems())
                 && (x in r.conf.learnersNext.Elems() <==> x !in ids && x in c.learnersNext.Elems())
    decreases |ids|
  {
    hide Good, Remove;
    if ids != [] {
      var c1 := Remove(c, ids[0]);
      assert Removes(ids)[0] == RemoveNode(ids[0]) && Removes(ids)[1..] == Removes(ids[1..]);
      ApplyOneKeeps(k, c, RemoveNode(ids[0]));
      RemovesEffect(k, c1, ids[1..]);
      forall x ensures
        && (x in c1.incoming <==> x != ids[0] && x in c.incoming)
        && (x in c1.learners.Elems() <==> x != ids[0] && x in c.learners.Elems())
        && (x in c1.learnersNext.Elems() <==> x != ids[0] && x in c.learnersNext.Elems())
      {
        RemoveEffect(c, ids[0], x);
      }
    }
  }

  lemma {:induction false} LearnersEffect(k: Limits, c: Conf, ids: seq<Id>)
    requires Good(c) && NONE !in ids
    ensures var r := ApplyEach(k, c, AddLearners(ids));
            && r.Changed? && Good(r.conf) && r.conf.outgoing == c.outgoing && r.conf.autoLeave == c.autoLeave
            && forall x ::
                 && (x in r.conf.incoming <==> x !in ids && x in c.incoming)
                 && (x in r.conf.learners.Elems() <==> if x in ids then x !in c.outgoing.Elems() else x in c.learners.Elems())
                 && (x in r.conf.learnersNext.Elems() <==> if x in ids then x in c.outgoing.Elems() else x in c.learnersNext.Elems())
    decreases |ids|
  {
    hide Good, MakeLearner;
    if ids != [] {
      var c1 := MakeLearner(k, c, ids[0]);
      assert AddLearners(ids)[0] == AddLearnerNode(ids[0]) && AddLearners(ids)[1..] == AddLearners(ids[1..]);
      ApplyOneKeeps(k, c, AddLearnerNode(ids[0]));
      LearnersEffect(k, c1, ids[1..]);
      forall x ensures
        && (x in c1.incoming <==> x != ids[0] && x in c.incoming)
        && (x in c1.learners.Elems() <==> if x == ids[0] then x !in c.outgoing.Elems() else x in c.learners.Elems())
        && (x in c1.learnersNext.Elems() <==> if x == ids[0] then x in c.outgoing.Elems() else x in c.learnersNext.Elems())
      {
        LearnerEffect(k, c, ids[0], x);
      }
    }
  }

  /** Making learners of non-voters leaves the voters alone. */
  lemma {:induction false} LearnersKeepVoters(k: Limits, c: Conf, ids: seq<Id>)
    requires Good(c) && NONE !in ids && c.incoming != {} && forall x | x in ids :: x !in c.incoming
    ensures KeepsVoters(k, c, AddLearners(ids))
    decreases |ids|
  {
    hide Good, MakeLearner;
    if ids != [] {
      var c1 := MakeLearner(k, c, ids[0]);
      assert AddLearners(ids)[0] == AddLearnerNode(ids[0]) && AddLearners(ids)[1..] == AddLearners(ids[1..]);
      ApplyOneKeeps(k, c, AddLearnerNode(ids[0]));
      forall x ensures x in c1.incoming <==> x in c.incoming {
        LearnerEffect(k, c, ids[0], x);
      }
      assert c1.incoming == c.incoming;
      LearnersKeepVoters(k, c1, ids[1..]);
    }
  }

  // --------------------------------------------------------------- round trip

  /** The incoming changes, applied to a configuration without learners whose only
      voters are the outgoing ones, give the described members. */
  lemma IncomingEffect(k: Limits, j: Conf, cs: ConfState, c: Conf)
    requires Good(j) && Good(c) && Describes(cs, c) && j.learners == Nil && j.learnersNext == Nil
    requires j.outgoing.Elems() == c.outgoing.Elems() && forall x | x in j.incoming :: x in cs.votersOutgoing
    ensures var r := ApplyEach(k, j, Incoming(cs));
            && r.Changed? && Good(r.conf) && r.conf.outgoing == j.outgoing && r.conf.autoLeave == j.autoLeave
            && SameMembers(r.conf.(autoLeave := c.autoLeave), c)
  {
    hide Good, KeepsVoters, Describes;
    Nonzero(cs, c);
    var r1, ccs1 := ApplyEach(k, j, Removes(cs.votersOutgoing)), Removes(cs.votersOutgoing);
    RemovesEffect(k, j, cs.votersOutgoing);
    var ccs2 := ccs1 + Adds(cs.voters);
    AddsEffect(k, r1.conf, cs.voters);
    Concatenated(k, j, ccs1, Adds(cs.voters));
    var r2 := ApplyEach(k, j, ccs2);
    var ccs3 := ccs2 + AddLearners(cs.learners);
    LearnersEffect(k, r2.conf, cs.learners);
    Concatenated(k, j, ccs2, AddLearners(cs.learners));
    var r3 := ApplyEach(k, j, ccs3);
    LearnersEffect(k, r3.conf, cs.learnersNext);
    Concatenated(k, j, ccs3, AddLearners(cs.learnersNext));
    var r := ApplyEach(k, j, ccs3 + AddLearners(cs.learnersNext));
    forall x ensures
      && (x in r.conf.incoming <==> x in c.incoming) && (x in r.conf.outgoing.Elems() <==> x in c.outgoing.Elems())
      && (x in r.conf.learners.Elems() <==> x in c.learners.Elems())
      && (x in r.conf.learnersNext.Elems() <==> x in c.learnersNext.Elems())
    {
      DescribedAt(cs, c, x);
    }
    AutoLeaveApart(r.conf, c.autoLeave);
    SameRoles(r.conf.(autoLeave := c.autoLeave), c);
  }

  lemma DescribedAt(cs: ConfState, c: Conf, x: Id)
    requires Describes(cs, c) && Good(c)
    ensures (x in cs.voters <==> x in c.incoming) && (x in cs.votersOutgoing <==> x in c.outgoing.Elems())
    ensures (x in cs.learners <==> x in c.learners.Elems()) && (x in cs.learnersNext <==> x in c.learnersNext.Elems())
    ensures x in cs.learners ==> x !in cs.voters && x !in cs.votersOutgoing
    ensures x in cs.learnersNext ==> x in cs.votersOutgoing && x !in cs.voters && x !in cs.learners
  {
    assert GoodAt(c, x);
  }

  lemma Nonzero(cs: ConfState, c: Conf)
    requires Describes(cs, c) && Good(c)
    ensures NONE !in cs.voters && NONE !in cs.votersOutgoing && NONE !in cs.learners && NONE !in cs.learnersNext
  {
    assert GoodAt(c, NONE);
  }

  lemma RestoresSimple(k: Limits, c: Conf, cs: ConfState)
    requires Settled(c) && !c.Joint() && Describes(cs, c) && c.incoming != {}
    ensures KeepsVoters(k, EMPTY_CONF, Incoming(cs)) && cs.votersOutgoing == [] && cs.learnersNext == []
  {
    hide Good, KeepsVoters;
    EmptyIsSettled();
    Nonzero(cs, c);
    NothingOutgoing(cs, c);
    var adds, learns := Adds(cs.voters), AddLearners(cs.learners);
    AddsEffect(k, EMPTY_CONF, cs.voters);
    var c1 := ApplyEach(k, EMPTY_CONF, adds).conf;
    var v :| v in c.incoming;
    assert v in c1.incoming;
    forall x | x in cs.learners ensures x !in c1.incoming { DescribedAt(cs, c, x); }
    LearnersKeepVoters(k, c1, cs.learners);
    Concatenated(k, EMPTY_CONF, adds, learns);
    assert Incoming(cs) == adds + learns;
  }

  lemma NothingOutgoing(cs: ConfState, c: Conf)
    requires Settled(c) && !c.Joint() && Describes(cs, c)
    ensures cs.votersOutgoing == [] && cs.learnersNext == []
  {
    if cs.votersOutgoing != [] { DescribedAt(cs, c, cs.votersOutgoing[0]); }
    if cs.learnersNext != [] { DescribedAt(cs, c, cs.learnersNext[0]); }
  }

  /** For every settled configuration, restoring its ConfState on an empty tracker
      gives back the same members in the same roles. */
  lemma RestoreRoundTrip(k: Limits, c: Conf, cs: ConfState)
    requires Settled(c) && Describes(cs, c) && (c == EMPTY_CONF || c.incoming != {})
    ensures Restore(k, EMPTY_CONF, cs).Changed? && SameMembers(Restore(k, EMPTY_CONF, cs).conf, c)
  {
    if c.Joint() { JointRoundTrip(k, c, cs); }
    else if c.incoming == {} { EmptyRoundTrip(k, cs); }
    else { SimpleRoundTrip(k, c, cs); }
  }

  lemma EmptyRoundTrip(k: Limits, cs: ConfState)
    requires Describes(cs, EMPTY_CONF)
    ensures Restore(k, EMPTY_CONF, cs) == Changed(EMPTY_CONF)
  {
    SomeMember(cs.voters);
    SomeMember(cs.votersOutgoing);
    SomeMember(cs.learners);
    SomeMember(cs.learnersNext);
    assert Incoming(cs) == [];
  }

  lemma SomeMember(ids: seq<Id>)
    ensures ids == [] || exists id :: id in ids
  {
    if ids != [] { assert ids[0] in ids; }
  }

  lemma SimpleRoundTrip(k: Limits, c: Conf, cs: ConfState)
    requires Settled(c) && Describes(cs, c) && !c.Joint() && c.incoming != {}
    ensures Restore(k, EMPTY_CONF, cs).Changed? && SameMembers(Restore(k, EMPTY_CONF, cs).conf, c)
  {
    hide Good, KeepsVoters, Describes, SimpleEach, ApplyEach, Incoming, SameMembers;
    EmptyIsSettled();
    RestoresSimple(k, c, cs);
    SimpleEachAccepts(k, EMPTY_CONF, Incoming(cs));
    IncomingEffect(k, EMPTY_CONF, cs, c);
  }

  lemma JointRoundTrip(k: Limits, c: Conf, cs: ConfState)
    requires Settled(c) && Describes(cs, c) && c.Joint() && c.incoming != {}
    ensures Restore(k, EMPTY_CONF, cs).Changed? && SameMembers(Restore(k, EMPTY_CONF, cs).conf, c)
  {
    hide Good, KeepsVoters, Describes, SimpleEach, ApplyEach, Incoming, EnterJoint, VotersAfter, AllKnown;
    EmptyIsSettled();
    Nonzero(cs, c);
    AddsEffect(k, EMPTY_CONF, cs.votersOutgoing);
    SimpleEachAccepts(k, EMPTY_CONF, Outgoing(cs));
    var c1 := ApplyEach(k, EMPTY_CONF, Outgoing(cs)).conf;
    forall x ensures x in c1.incoming <==> x in c.outgoing.Elems() { DescribedAt(cs, c, x); }
    assert c1.incoming == c.outgoing.Elems();
    var j := c1.(autoLeave := false, outgoing := Ids(c1.incoming));
    OutgoingOnly(c1, j);
    ApplyAccepts(k, j, Incoming(cs));
    EnterJointAccepts(k, c1, cs.autoLeave, Incoming(cs));
    IncomingEffect(k, j, cs, c);
    SameAutoLeave(cs, c);
  }

  lemma SameAutoLeave(cs: ConfState, c: Conf)
    requires Describes(cs, c)
    ensures cs.autoLeave == c.autoLeave
  {}

  lemma OutgoingOnly(c1: Conf, j: Conf)
    requires Good(c1) && c1.outgoing == Nil && c1.incoming != {}
    requires forall x :: x !in c1.learners.Elems() && x !in c1.learnersNext.Elems()
    requires j == c1.(autoLeave := false, outgoing := Ids(c1.incoming))
    ensures Good(j) && j.learners == Nil && j.learnersNext == Nil
  {
    forall x ensures GoodAt(j, x) { assert GoodAt(c1, x); }
    assert c1.learners.Elems() == {} && c1.learnersNext.Elems() == {};
  }

  /** The round trip for everything the changer can reach. */
  lemma ReachableRoundTrip(k: Limits, confs: seq<Conf>, i: nat, cs: ConfState)
    requires IsHistory(confs) && i < |confs| && Describes(cs, confs[i])
    ensures Restore(k, EMPTY_CONF, cs).Changed? && SameMembers(Restore(k, EMPTY_CONF, cs).conf, confs[i])
  {
    ReachableIsSettled(confs, i);
    RestoreRoundTrip(k, confs[i], cs);
  }
}
