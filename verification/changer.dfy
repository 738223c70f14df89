/** The changer as the program runs it: it works on a copy of the tracker, which
    it mutates step by step, and never touches the tracker itself. */
module ConfChange {
  import opened Quorum
  import opened Logs
  import opened Flow
  import opened Membership
  import Reconfiguration
  import Restoring
  import TrackedNodes

  class ProgressTracker {
    var incoming: set<Id>
    var outgoing: NilSet
    var autoLeave: bool
    var learners: NilSet
    var learnersNext: NilSet
    var progress: map<Id, Progress>
    const maxInflight: nat
    const maxInflightBytes: nat

    function View(): Conf
      reads this
    {
      Conf(incoming, outgoing, autoLeave, learners, learnersNext, progress)
    }

    constructor (maxInflight: nat, maxInflightBytes: nat)
      ensures View() == EMPTY_CONF && this.maxInflight == maxInflight && this.maxInflightBytes == maxInflightBytes
    {
      incoming, outgoing, autoLeave, learners, learnersNext, progress := {}, Nil, false, Nil, Nil, map[];
      this.maxInflight, this.maxInflightBytes := maxInflight, maxInflightBytes;
    }
  }

  /** Whether every id has a progress. */
  method Tracked(ids: set<Id>, progress: map<Id, Progress>) returns (ok: bool)
    ensures ok <==> AllTracked(ids, progress)
  {
    var todo := ids;
    while todo != {}
      invariant todo <= ids && forall id | id in ids && id !in todo :: id in progress
      decreases |todo|
    {
      var id :| id in todo;
      if id !in progress { return false; }
      todo := todo - {id};
    }
    return true;
  }

  /** Whether every id is staged rightly: an outgoing voter not marked as a
      learner. */
  method Staged(ids: set<Id>, outgoing: set<Id>, progress: map<Id, Progress>) returns (ok: bool)
    requires AllTracked(ids, progress)
    ensures ok <==> forall id | id in ids :: id in outgoing && !progress[id].isLearner
  {
    var todo := ids;
    while todo != {}
      invariant todo <= ids && forall id | id in ids && id !in todo :: id in outgoing && !progress[id].isLearner
      decreases |todo|
    {
      var id :| id in todo;
      if id !in outgoing || progress[id].isLearner { return false; }
      todo := todo - {id};
    }
    return true;
  }

  /** Whether every id is marked as a learner and votes nowhere. */
  method OnlyLearners(ids: set<Id>, incoming: set<Id>, outgoing: set<Id>, progress: map<Id,
      Progress>) returns (ok: bool)
    requires AllTracked(ids, progress)
    ensures ok <==> forall id | id in ids :: id !in outgoing && id !in incoming && progress[id].isLearner
  {
    var todo := ids;
    while todo != {}
      invariant todo <= ids
      invariant forall id | id in ids && id !in todo :: id !in outgoing && id !in incoming && progress[id].isLearner
      decreases |todo|
    {
      var id :| id in todo;
      if id in outgoing || id in incoming || !progress[id].isLearner { return false; }
      todo := todo - {id};
    }
    return true;
  }

  /** Counts the members that only one of the sets has. */
  method CountDifference(a: set<Id>, b: set<Id>) returns (n: nat)
    ensures n == SymDiff(a, b)
  {
    var n1 := CountMissing(a, b);
    var n2 := CountMissing(b, a);
    return n1 + n2;
  }

  method CountMissing(a: set<Id>, b: set<Id>) returns (n: nat)
    ensures n == |a - b|
  {
    n := 0;
    var todo := a;
    while todo != {}
      invariant todo <= a && n + |todo - b| == |a - b|
      decreases |todo|
    {
      var id :| id in todo;
      if id !in b {
        assert todo - b == ((todo - {id}) - b) + {id};
        n := n + 1;
      } else {
        assert todo - b == (todo - {id}) - b;
      }
      todo := todo - {id};
    }
  }

  // --------------------------------------------- one step of the leaving loops

  lemma JoinOne(s: NilSet, done: set<Id>, id: Id)
    ensures s.AddAll(done + {id}) == s.AddAll(done).Add(id)
  {
    assert s.Elems() + (done + {id}) == (s.Elems() + done) + {id};
  }

  lemma JoinNone(s: NilSet)
    ensures s.AddAll({}) == s
  {}

  lemma MarkNone(ps: map<Id, Progress>)
    ensures Marked(ps, {}) == ps
  {}

  lemma MarkOne(ps: map<Id, Progress>, done: set<Id>, id: Id)
    ensures id in Marked(ps, done) <==> id in ps
    ensures var m := Marked(ps, done);
            Marked(ps, done + {id}) == if id in ps then m[id := m[id].(isLearner := true)] else m
  {}

  lemma ForgetNone(ps: map<Id, Progress>, voters: set<Id>, learners: set<Id>)
    ensures ps - Idle({}, voters, learners) == ps
  {}

  lemma ForgetOne(ps: map<Id, Progress>, done: set<Id>, voters: set<Id>, learners: set<Id>, id: Id)
    ensures var m := ps - Idle(done, voters, learners);
            ps - Idle(done + {id}, voters, learners) == if id !in voters && id !in learners then m - {id} else m
  {}

  /** The copy that changes are made on. */
  class Draft {
    const limits: Limits
    var incoming: set<Id>
    var outgoing: NilSet
    var autoLeave: bool
    var learners: NilSet
    var learnersNext: NilSet
    var progress: map<Id, Progress>

    function View(): Conf
      reads this
    {
      Conf(incoming, outgoing, autoLeave, learners, learnersNext, progress)
    }

    constructor (t: ProgressTracker, lastIndex: nat)
      ensures View() == t.View().(autoLeave := false) && limits == Limits(lastIndex, t.maxInflight, t.maxInflightBytes)
    {
      limits := Limits(lastIndex, t.maxInflight, t.maxInflightBytes);
      incoming, outgoing, autoLeave, learners, learnersNext, progress :=
        t.incoming, t.outgoing, false, t.learners, t.learnersNext, t.progress;
    }

    method InitProgress(id: Id, isLearner: bool)
      requires id !in progress
      modifies this
      ensures View() == if isLearner then Membership.MakeLearner(limits, old(View()), id) else Membership.MakeVoter(limits, old(View()), id)
      ensures progress.Keys == old(progress.Keys) + {id} && progress[id].isLearner == isLearner && TrackedNodes.Starts(limits, progress[id])
      ensures forall x | x in old(progress) :: progress[x] == old(progress[x])
    {
      if !isLearner { incoming := incoming + {id}; } else { learners := learners.Add(id); }
      progress := progress[id := FreshMember(limits, isLearner)];
    }

    method MakeVoter(id: Id)
      modifies this
      ensures View() == Membership.MakeVoter(limits, old(View()), id)
    {
      if id !in progress {
        InitProgress(id, false);
        return;
      }
      progress := progress[id := progress[id].(isLearner := false)];
      learners := learners.Delete(id);
      learnersNext := learnersNext.Delete(id);
      incoming := incoming + {id};
    }

    method Remove(id: Id)
      modifies this
      ensures View() == Membership.Remove(old(View()), id)
    {
      if id !in progress { return; }
      incoming := incoming - {id};
      learners := learners.Delete(id);
      learnersNext := learnersNext.Delete(id);
      if id !in outgoing.Elems() { progress := progress - {id}; }
    }

    method MakeLearner(id: Id)
      modifies this
      ensures View() == Membership.MakeLearner(limits, old(View()), id)
    {
      if id !in progress {
        InitProgress(id, true);
        return;
      }
      var pr := progress[id];
      if pr.isLearner { return; }
      Remove(id);
      if id in outgoing.Elems() {
        learnersNext := learnersNext.Add(id);
      } else {
        pr := pr.(isLearner := true);
        learners := learners.Add(id);
      }
      progress := progress[id := pr];
    }

    /** Makes the changes in turn. */
    method Apply(ccs: seq<Change>) returns (err: Option<ChangeError>)
      modifies this
      ensures match err
              case None => Membership.Apply(limits, old(View()), ccs) == Changed(View())
              case Some(e) => Membership.Apply(limits, old(View()), ccs) == Refused(e)
    {
      hide Membership.MakeVoter, Membership.MakeLearner, Membership.Remove;
      for i := 0 to |ccs|
        invariant ApplyEach(limits, old(View()), ccs) == ApplyEach(limits, View(), ccs[i..])
      {
        assert ccs[i..][0] == ccs[i] && ccs[i..][1..] == ccs[i + 1..];
        var cc := ccs[i];
        if cc.id != NONE {
          match cc
          case AddNode(id) => MakeVoter(id);
          case AddLearnerNode(id) => MakeLearner(id);
          case RemoveNode(id) => Remove(id);
          case UpdateNode(_) =>
          case UnknownChange(_) => return Some(UnexpectedType);
        }
      }
      if incoming == {} { return Some(RemovedAllVoters); }
      return None;
    }

    method CheckInvariants() returns (r: Outcome)
      ensures r == Membership.CheckInvariants(View())
    {
      var voters := Tracked(incoming + outgoing.Elems(), progress);
      var learnersOk := Tracked(learners.Elems(), progress);
      var nextOk := Tracked(learnersNext.Elems(), progress);
      if !voters || !learnersOk || !nextOk { return Refused(NoProgress); }
      var staged := Staged(learnersNext.Elems(), outgoing.Elems(), progress);
      if !staged { return Refused(BadLearnersNext); }
      var only := OnlyLearners(learners.Elems(), incoming, outgoing.Elems(), progress);
      if !only { return Refused(BadLearners); }
      if outgoing.Elems() == {} {
        if outgoing.Ids? || learnersNext.Ids? { return Refused(BadNil); }
        if autoLeave { return Refused(BadAutoLeave); }
      }
      return Changed(View());
    }

    predicate Joint()
      reads this
    {
      outgoing.Elems() != {}
    }

    /** Turns staged learners into learners. */
    method StageLearners()
      modifies `learners, `progress
      ensures learners == AllLearners(old(View())) && progress == Marked(old(progress), learnersNext.Elems())
    {
      hide Marked, NilSet.Add, NilSet.AddAll;
      JoinNone(learners);
      ghost var done: set<Id> := {};
      MarkNone(progress);
      var todo := learnersNext.Elems();
      while todo != {}
        invariant done + todo == learnersNext.Elems() && done !! todo
        invariant learners == old(learners).AddAll(done) && progress == Marked(old(progress), done)
        decreases |todo|
      {
        var id :| id in todo;
        JoinOne(old(learners), done, id);
        MarkOne(old(progress), done, id);
        learners := learners.Add(id);
        if id in progress { progress := progress[id := progress[id].(isLearner := true)]; }
        todo, done := todo - {id}, done + {id};
      }
    }

    /** Forgets the outgoing voters that are neither voters nor learners now. */
    method ForgetOutgoing()
      modifies `progress
      ensures progress == old(progress) - Idle(outgoing.Elems(), incoming, learners.Elems())
    {
      hide Idle;
      ghost var done: set<Id> := {};
      ForgetNone(progress, incoming, learners.Elems());
      var todo := outgoing.Elems();
      while todo != {}
        invariant done + todo == outgoing.Elems() && done !! todo
        invariant progress == old(progress) - Idle(done, incoming, learners.Elems())
        decreases |todo|
      {
        var id :| id in todo;
        ForgetOne(old(progress), done, incoming, learners.Elems(), id);
        if id !in incoming && id !in learners.Elems() { progress := progress - {id}; }
        todo, done := todo - {id}, done + {id};
      }
    }

    method Leave()
      modifies this
      ensures View() == Left(old(View()))
    {
      StageLearners();
      learnersNext := Nil;
      ForgetOutgoing();
      outgoing, autoLeave := Nil, false;
    }
  }

  class Changer {
    const tracker: ProgressTracker
    const lastIndex: nat

    constructor (tracker: ProgressTracker, lastIndex: nat)
      ensures this.tracker == tracker && this.lastIndex == lastIndex
    {
      this.tracker, this.lastIndex := tracker, lastIndex;
    }

    ghost function Limits(): Membership.Limits {
      Membership.Limits(lastIndex, tracker.maxInflight, tracker.maxInflightBytes)
    }

    method CheckAndCopy() returns (r: Outcome, draft: Draft)
      ensures fresh(draft) && draft.limits == Limits() && draft.View() == tracker.View().(autoLeave := false)
      ensures r == Membership.CheckAndCopy(tracker.View())
    {
      draft := new Draft(tracker, lastIndex);
      r := draft.CheckInvariants();
    }

    method Simple(ccs: seq<Change>) returns (r: Outcome)
      ensures r == Membership.Simple(Limits(), tracker.View(), ccs)
    {
      hide Membership.Apply, SymDiff, Membership.CheckInvariants;
      var copy, draft := CheckAndCopy();
      PassesAsIs(tracker.View().(autoLeave := false));
      if copy.Refused? { return copy; }
      if draft.Joint() { return Refused(AlreadyJoint); }
      var err := draft.Apply(ccs);
      if err.Some? { return Refused(err.value); }
      var n := CountDifference(tracker.incoming, draft.incoming);
      if n > 1 { return Refused(TooManyVoters); }
      r := draft.CheckInvariants();
    }

    method EnterJoint(autoLeave: bool, ccs: seq<Change>) returns (r: Outcome)
      ensures r == Membership.EnterJoint(Limits(), tracker.View(), autoLeave, ccs)
    {
      hide Membership.Apply, Membership.CheckInvariants;
      var copy, draft := CheckAndCopy();
      PassesAsIs(tracker.View().(autoLeave := false));
      if copy.Refused? { return copy; }
      if draft.Joint() { return Refused(AlreadyJoint); }
      if draft.incoming == {} { return Refused(ZeroVoters); }
      draft.outgoing := Ids(draft.incoming);
      var err := draft.Apply(ccs);
      if err.Some? { return Refused(err.value); }
      draft.autoLeave := autoLeave;
      r := draft.CheckInvariants();
    }

    method LeaveJoint() returns (r: Outcome)
      ensures r == Membership.LeaveJoint(tracker.View())
    {
      hide Left, Membership.CheckInvariants;
      var copy, draft := CheckAndCopy();
      PassesAsIs(tracker.View().(autoLeave := false));
      if copy.Refused? { return copy; }
      if !draft.Joint() { return Refused(NotJoint); }
      draft.Leave();
      r := draft.CheckInvariants();
    }
  }

  // ----------------------------------------------------------------- restoring

  /** Makes the changes one at a time, each on the outcome of the one before. */
  method Chain(t: ProgressTracker, lastIndex: nat, ccs: seq<Change>) returns (err: Option<ChangeError>)
    modifies t
    ensures var r := Reconfiguration.SimpleEach(Limits(lastIndex, t.maxInflight, t.maxInflightBytes), old(t.View()), ccs);
            match err case None => r == Changed(t.View()) case Some(e) => r == Refused(e)
  {
    hide Membership.Simple;
    ghost var k := Limits(lastIndex, t.maxInflight, t.maxInflightBytes);
    for i := 0 to |ccs|
      invariant Reconfiguration.SimpleEach(k, old(t.View()), ccs) == Reconfiguration.SimpleEach(k, t.View(), ccs[i..])
    {
      assert ccs[i..][..1] == [ccs[i]] && ccs[i..][1..] == ccs[i + 1..];
      var chg := new Changer(t, lastIndex);
      var r := chg.Simple([ccs[i]]);
      if r.Refused? { return Some(r.error); }
      Enact(t, r.conf);
    }
    return None;
  }

  method Enact(t: ProgressTracker, c: Conf)
    modifies t
    ensures t.View() == c
  {
    t.incoming, t.outgoing, t.autoLeave, t.learners, t.learnersNext, t.progress :=
      c.incoming, c.outgoing, c.autoLeave, c.learners, c.learnersNext, c.progress;
  }

  /** Rebuilds the described configuration, starting from the tracker's. */
  method Restore(tracker: ProgressTracker, lastIndex: nat, cs: Restoring.ConfState) returns (r: Outcome)
    ensures r == Restoring.Restore(Limits(lastIndex, tracker.maxInflight, tracker.maxInflightBytes), tracker.View(), cs)
  {
    hide Reconfiguration.SimpleEach, Membership.EnterJoint, Restoring.Outgoing, Restoring.Incoming;
    var t := new ProgressTracker(tracker.maxInflight, tracker.maxInflightBytes);
    Enact(t, tracker.View());
    var out, inc := Restoring.ToConfChangeSingle(cs);
    var err := Chain(t, lastIndex, if |out| == 0 then inc else out);
    if err.Some? { return Refused(err.value); }
    if |out| == 0 { return Changed(t.View()); }
    var chg := new Changer(t, lastIndex);
    r := chg.EnterJoint(cs.autoLeave, inc);
  }

  /** A configuration that passes the check is returned as it is. */
  lemma PassesAsIs(c: Conf)
    ensures Membership.CheckInvariants(c).Changed? ==> Membership.CheckInvariants(c).conf == c
  {}
}
