/** Membership configurations and the changes between them. */
module Membership {
  import opened Quorum
  import opened Logs
  import opened Flow

  // ----------------------------------------------------------------- entities

  /** A set of nodes kept in a map that is nil when not in use. */
  datatype NilSet = Nil | Ids(ids: set<Id>) {
    function Elems(): set<Id> { if Nil? then {} else ids }

    function Add(id: Id): NilSet { Ids(Elems() + {id}) }

    function AddAll(more: set<Id>): NilSet { if more == {} then this else Ids(Elems() + more) }

    function Delete(id: Id): NilSet {
      if Nil? || ids - {id} == {} then Nil else Ids(ids - {id})
    }

    /** Never an empty map. */
    predicate Canonical() { Nil? || ids != {} }
  }

  datatype Conf = Conf(
    incoming: set<Id>, outgoing: NilSet, autoLeave: bool, learners: NilSet, learnersNext: NilSet,
    progress: map<Id, Progress>)
  {
    predicate Joint() { outgoing.Elems() != {} }

    /** The voters of both halves as a quorum system. */
    function Voters(): JointConfig { JointConfig(incoming, outgoing.Elems()) }
  }

  /** What new nodes' progress starts from. */
  datatype Limits = Limits(lastIndex: nat, maxInflight: nat, maxInflightBytes: nat)

  datatype Change = AddNode(id: Id) | AddLearnerNode(id: Id) | RemoveNode(id: Id) | UpdateNode(id: Id) | UnknownChange(id: Id)

  datatype ChangeError =
    | NoProgress | BadLearnersNext | BadLearners | BadNil | BadAutoLeave
    | AlreadyJoint | ZeroVoters | NotJoint | UnexpectedType | RemovedAllVoters | TooManyVoters

  datatype Outcome = Changed(conf: Conf) | Refused(error: ChangeError)

  const EMPTY_CONF := Conf({}, Nil, false, Nil, Nil, map[])

  // --------------------------------------------------------- single changes

  function FreshMember(k: Limits, isLearner: bool): Progress {
    Progress(0, Max(k.lastIndex, 1), 0, StateProbe, 0, true, false, Window(k.maxInflight, k.maxInflightBytes, []), isLearner)
  }

  function MakeVoter(k: Limits, c: Conf, id: Id): Conf {
    if id !in c.progress then c.(incoming := c.incoming + {id}, progress := c.progress[id := FreshMember(k, false)])
    else c.(progress := c.progress[id := c.progress[id].(isLearner := false)],
            learners := c.learners.Delete(id), learnersNext := c.learnersNext.Delete(id), incoming := c.incoming + {id})
  }

  function Remove(c: Conf, id: Id): Conf {
    if id !in c.progress then c
    else c.(incoming := c.incoming - {id}, learners := c.learners.Delete(id), learnersNext := c.learnersNext.Delete(id),
            progress := if id in c.outgoing.Elems() then c.progress else c.progress - {id})
  }

  function MakeLearner(k: Limits, c: Conf, id: Id): Conf {
    if id !in c.progress then c.(learners := c.learners.Add(id), progress := c.progress[id := FreshMember(k, true)])
    else if c.progress[id].isLearner then c
    else
      var c1 := Remove(c, id);
      if id in c.outgoing.Elems()
      then c1.(progress := c1.progress[id := c.progress[id]], learnersNext := c1.learnersNext.Add(id))
      else c1.(progress := c1.progress[id := c.progress[id].(isLearner := true)], learners := c1.learners.Add(id))
  }

  /** A change for node 0 is one the application has cancelled. */
  function ApplyOne(k: Limits, c: Conf, cc: Change): Conf {
    if cc.id == NONE then c
    else match cc
      case AddNode(id) => MakeVoter(k, c, id)
      case AddLearnerNode(id) => MakeLearner(k, c, id)
      case RemoveNode(id) => Remove(c, id)
      case _ => c
  }

  predicate IsUnexpected(cc: Change) { cc.id != NONE && cc.UnknownChange? }

  /** Applies the changes up to the first unexpected one. */
  function ApplyEach(k: Limits, c: Conf, ccs: seq<Change>): Outcome
    decreases |ccs|
  {
    if ccs == [] then Changed(c)
    else if IsUnexpected(ccs[0]) then Refused(UnexpectedType)
    else ApplyEach(k, ApplyOne(k, c, ccs[0]), ccs[1..])
  }

  function Apply(k: Limits, c: Conf, ccs: seq<Change>): Outcome {
    var r := ApplyEach(k, c, ccs);
    if r.Refused? then r
    else if r.conf.incoming == {} then Refused(RemovedAllVoters)
    else r
  }

  // ---------------------------------------------------------------- checking

  ghost predicate AllTracked(ids: set<Id>, progress: map<Id, Progress>) {
    forall id | id in ids :: id in progress
  }

  /** What the program checks of a configuration, in its order. */
  ghost function CheckInvariants(c: Conf): Outcome {
    if !(AllTracked(c.Voters().Ids(), c.progress) && AllTracked(c.learners.Elems(), c.progress) &&
         AllTracked(c.learnersNext.Elems(), c.progress)) then Refused(NoProgress)
    else if exists id :: id in c.learnersNext.Elems() && (id !in c.outgoing.Elems() || c.progress[id].isLearner)
      then Refused(BadLearnersNext)
    else if exists id :: id in c.learners.Elems() && (id in c.Voters().Ids() || !c.progress[id].isLearner) then Refused(BadLearners)
    else if !c.Joint() && (c.outgoing.Ids? || c.learnersNext.Ids?) then Refused(BadNil)
    else if !c.Joint() && c.autoLeave then Refused(BadAutoLeave)
    else Changed(c)
  }

  /** The copy that changes are made on does not carry AutoLeave. */
  ghost function CheckAndCopy(c: Conf): Outcome {
    CheckInvariants(c.(autoLeave := false))
  }

  /** Everything that is checked except AutoLeave. */
  ghost predicate ChecksOut(c: Conf) {
    && AllTracked(c.Voters().Ids(), c.progress) && AllTracked(c.learners.Elems(), c.progress)
    && AllTracked(c.learnersNext.Elems(), c.progress)
    && (forall id | id in c.learnersNext.Elems() :: id in c.outgoing.Elems() && !c.progress[id].isLearner)
    && (forall id | id in c.learners.Elems() :: id !in c.Voters().Ids() && c.progress[id].isLearner)
    && (c.Joint() || (c.outgoing.Nil? && c.learnersNext.Nil?))
  }

  /** So a configuration that has AutoLeave without being joint is accepted as an
      input, although the check of it would be refused; that is the only
      difference, and the only input on which this check can fail. */
  lemma CopyMissesAutoLeave(c: Conf)
    ensures CheckAndCopy(c).Changed? <==> ChecksOut(c)
    ensures CheckInvariants(c).Changed? <==> ChecksOut(c) && (c.Joint() || !c.autoLeave)
    ensures CheckInvariants(c) == Refused(BadAutoLeave) <==> ChecksOut(c) && !c.Joint() && c.autoLeave
    ensures CheckAndCopy(c).Refused? ==> CheckAndCopy(c) == CheckInvariants(c)
  {
    var copy := c.(autoLeave := false);
    assert ChecksOut(copy) <==> ChecksOut(c);
  }

  function SymDiff(a: set<Id>, b: set<Id>): nat {
    |a - b| + |b - a|
  }

  // -------------------------------------------------------------- the changer

  ghost function Simple(k: Limits, c: Conf, ccs: seq<Change>): Outcome {
    var copy := CheckAndCopy(c);
    if copy.Refused? then copy
    else if copy.conf.Joint() then Refused(AlreadyJoint)
    else
      var r := Apply(k, copy.conf, ccs);
      if r.Refused? then r
      else if SymDiff(c.incoming, r.conf.incoming) > 1 then Refused(TooManyVoters)
      else CheckInvariants(r.conf)
  }

  ghost function EnterJoint(k: Limits, c: Conf, autoLeave: bool, ccs: seq<Change>): Outcome {
    var copy := CheckAndCopy(c);
    if copy.Refused? then copy
    else if copy.conf.Joint() then Refused(AlreadyJoint)
    else if copy.conf.incoming == {} then Refused(ZeroVoters)
    else
      var r := Apply(k, copy.conf.(outgoing := Ids(copy.conf.incoming)), ccs);
      if r.Refused? then r else CheckInvariants(r.conf.(autoLeave := autoLeave))
  }

  function Marked(progress: map<Id, Progress>, ids: set<Id>): map<Id, Progress> {
    map id | id in progress :: if id in ids then progress[id].(isLearner := true) else progress[id]
  }

  /** The learners once the staged ones are among them. */
  function AllLearners(c: Conf): NilSet {
    c.learners.AddAll(c.learnersNext.Elems())
  }

  /** The nodes that neither vote nor learn. */
  function Idle(ids: set<Id>, voters: set<Id>, learners: set<Id>): set<Id> {
    set id | id in ids && id !in voters && id !in learners
  }

  /** The configuration after leaving a joint one: staged learners become
      learners, and outgoing voters that are neither voters nor learners now are
      forgotten. */
  function Left(c: Conf): Conf {
    Conf(c.incoming, Nil, false, AllLearners(c), Nil,
         Marked(c.progress, c.learnersNext.Elems()) - Idle(c.outgoing.Elems(), c.incoming, AllLearners(c).Elems()))
  }

  ghost function LeaveJoint(c: Conf): Outcome {
    var copy := CheckAndCopy(c);
    if copy.Refused? then copy
    else if !copy.conf.Joint() then Refused(NotJoint)
    else CheckInvariants(Left(copy.conf))
  }

  // ----------------------------------------------------- the strong invariant

  /** A node is tracked exactly if it is a voter or a learner, is marked as a
      learner exactly if it is one and then is no voter, and is staged only while
      it is a voter of the outgoing half alone. */
  ghost predicate GoodAt(c: Conf, id: Id) {
    && (id in c.progress <==> id in c.incoming || id in c.outgoing.Elems() || id in c.learners.Elems())
    && (id in c.progress ==> (c.progress[id].isLearner <==> id in c.learners.Elems()))
    && (id in c.learners.Elems() ==> id !in c.incoming && id !in c.outgoing.Elems())
    && (id in c.learnersNext.Elems() ==> id in c.outgoing.Elems() && id !in c.incoming)
  }

  ghost predicate Good(c: Conf) {
    && (forall id :: GoodAt(c, id)) && NONE !in c.progress
    && c.outgoing.Canonical() && c.learners.Canonical() && c.learnersNext.Canonical()
  }

  /** ... and AutoLeave is only set while joint. */
  ghost predicate Settled(c: Conf) {
    Good(c) && (!c.Joint() ==> !c.autoLeave)
  }

  lemma SettledPasses(c: Conf)
    requires Settled(c)
    ensures CheckInvariants(c) == Changed(c)
  {
    assert forall id | id in c.Voters().Ids() || id in c.learners.Elems() || id in c.learnersNext.Elems() :: GoodAt(c, id);
  }

  lemma AutoLeaveApart(c: Conf, autoLeave: bool)
    requires Good(c)
    ensures Good(c.(autoLeave := autoLeave))
  {
    var c' := c.(autoLeave := autoLeave);
    forall x ensures GoodAt(c', x) { assert GoodAt(c, x); }
  }

  lemma CopyPasses(c: Conf)
    requires Settled(c)
    ensures CheckAndCopy(c) == Changed(c.(autoLeave := false))
  {
    AutoLeaveApart(c, false);
    SettledPasses(c.(autoLeave := false));
  }

  lemma MakeVoterKeeps(k: Limits, c: Conf, id: Id)
    requires Good(c) && id != NONE
    ensures Good(MakeVoter(k, c, id))
  {
    var c' := MakeVoter(k, c, id);
    forall x ensures GoodAt(c', x) { assert GoodAt(c, x); }
  }

  lemma RemoveKeeps(c: Conf, id: Id)
    requires Good(c)
    ensures Good(Remove(c, id))
  {
    var c' := Remove(c, id);
    forall x ensures GoodAt(c', x) { assert GoodAt(c, x); }
  }

  lemma MakeLearnerKeeps(k: Limits, c: Conf, id: Id)
    requires Good(c) && id != NONE
    ensures Good(MakeLearner(k, c, id))
  {
    var c' := MakeLearner(k, c, id);
    forall x ensures GoodAt(c', x) { assert GoodAt(c, x); }
  }

  lemma ApplyOneKeeps(k: Limits, c: Conf, cc: Change)
    requires Good(c)
    ensures Good(ApplyOne(k, c, cc)) && ApplyOne(k, c, cc).outgoing == c.outgoing
            && ApplyOne(k, c, cc).autoLeave == c.autoLeave
  {
    hide Good;
    if cc.id != NONE {
      MakeVoterKeeps(k, c, cc.id);
      MakeLearnerKeeps(k, c, cc.id);
      RemoveKeeps(c, cc.id);
    }
  }

  lemma {:induction false} ApplyEachKeeps(k: Limits, c: Conf, ccs: seq<Change>)
    requires Good(c)
    ensures var r := ApplyEach(k, c, ccs);
            r.Changed? ==> Good(r.conf) && r.conf.outgoing == c.outgoing && r.conf.autoLeave == c.autoLeave
    decreases |ccs|
  {
    hide Good, ApplyOne;
    if ccs != [] && !IsUnexpected(ccs[0]) {
      ApplyOneKeeps(k, c, ccs[0]);
      ApplyEachKeeps(k, ApplyOne(k, c, ccs[0]), ccs[1..]);
    }
  }

  lemma LeftIsGood(c: Conf)
    requires Good(c)
    ensures Settled(Left(c))
  {
    var c' := Left(c);
    forall x ensures GoodAt(c', x) { assert GoodAt(c, x); }
  }

  // ------------------------------------------------- when changes are accepted

  /** The voters after one change, and after a series of them. */
  function VoterStep(voters: set<Id>, cc: Change): set<Id> {
    if cc.id == NONE then voters
    else match cc
      case AddNode(id) => voters + {id}
      case AddLearnerNode(id) => voters - {id}
      case RemoveNode(id) => voters - {id}
      case _ => voters
  }

  function VotersAfter(voters: set<Id>, ccs: seq<Change>): set<Id>
    decreases |ccs|
  {
    if ccs == [] then voters else VotersAfter(VoterStep(voters, ccs[0]), ccs[1..])
  }

  /** What the last change that concerns a node makes of it: a voter or not. */
  function Verdict(ccs: seq<Change>, id: Id): Option<bool>
    decreases |ccs|
  {
    if ccs == [] then None
    else
      var last := ccs[|ccs| - 1];
      if last.id == id && (last.AddNode? || last.AddLearnerNode? || last.RemoveNode?) then Some(last.AddNode?)
      else Verdict(ccs[..|ccs| - 1], id)
  }

  /** A node votes afterwards if the last change that concerns it made it a voter,
      or if none concerns it and it voted before. */
  lemma {:induction false} LastChangeDecides(voters: set<Id>, ccs: seq<Change>, id: Id)
    requires id != NONE
    ensures id in VotersAfter(voters, ccs) <==>
              if Verdict(ccs, id).Some? then Verdict(ccs, id).value else id in voters
    decreases |ccs|
  {
    if ccs != [] {
      var k := |ccs| - 1;
      VotersAfterLast(voters, ccs);
      LastChangeDecides(voters, ccs[..k], id);
    }
  }

  lemma {:induction false} VotersAfterLast(voters: set<Id>, ccs: seq<Change>)
    requires ccs != []
    ensures VotersAfter(voters, ccs) == VoterStep(VotersAfter(voters, ccs[..|ccs| - 1]), ccs[|ccs| - 1])
    decreases |ccs|
  {
    var k := |ccs| - 1;
    if k == 0 {
      assert ccs[1..] == [];
    } else {
      VotersAfterLast(VoterStep(voters, ccs[0]), ccs[1..]);
      assert ccs[1..][..k - 1] == ccs[..k][1..];
    }
  }

  lemma ApplyOneVoters(k: Limits, c: Conf, cc: Change)
    requires Good(c)
    ensures ApplyOne(k, c, cc).incoming == VoterStep(c.incoming, cc)
  {
    assert GoodAt(c, cc.id);
  }

  /** Applying changes succeeds exactly if all of them are known and some voter
      remains, and makes the voters what the changes say. */
  lemma {:induction false} ApplyEachVoters(k: Limits, c: Conf, ccs: seq<Change>)
    requires Good(c)
    ensures var r := ApplyEach(k, c, ccs);
            && (r.Changed? <==> forall i | 0 <= i < |ccs| :: !IsUnexpected(ccs[i]))
            && (r.Changed? ==> r.conf.incoming == VotersAfter(c.incoming, ccs))
    decreases |ccs|
  {
    hide Good, ApplyOne, VoterStep;
    if ccs != [] && !IsUnexpected(ccs[0]) {
      ApplyOneKeeps(k, c, ccs[0]);
      ApplyOneVoters(k, c, ccs[0]);
      ApplyEachVoters(k, ApplyOne(k, c, ccs[0]), ccs[1..]);
      assert forall i | 0 < i < |ccs| :: ccs[i] == ccs[1..][i - 1];
    }
  }

  ghost predicate AllKnown(ccs: seq<Change>) { forall i | 0 <= i < |ccs| :: !IsUnexpected(ccs[i]) }

  lemma ApplyAccepts(k: Limits, c: Conf, ccs: seq<Change>)
    requires Good(c)
    ensures var r := Apply(k, c, ccs);
            && (r.Changed? <==> AllKnown(ccs) && VotersAfter(c.incoming, ccs) != {})
            && (r.Changed? ==> r.conf.incoming == VotersAfter(c.incoming, ccs))
  {
    hide Good, ApplyEach, VotersAfter;
    ApplyEachVoters(k, c, ccs);
  }

  /** A simple change is accepted exactly if the configuration is not joint, all
      changes are known, some voter remains and at most one voter changes; the
      closing check never gets in the way. */
  lemma SimpleAccepts(k: Limits, c: Conf, ccs: seq<Change>)
    requires Settled(c)
    ensures var r, a := Simple(k, c, ccs), Apply(k, c, ccs);
            && (r.Changed? <==> !c.Joint() && AllKnown(ccs) && VotersAfter(c.incoming, ccs) != {}
                                && SymDiff(c.incoming, VotersAfter(c.incoming, ccs)) <= 1)
            && (r.Changed? ==> r == a && r.conf.incoming == VotersAfter(c.incoming, ccs)
                               && Settled(r.conf) && !r.conf.Joint())
  {
    hide Good, CheckInvariants, SymDiff, ApplyEach, VotersAfter, AllKnown;
    ApplyAccepts(k, c, ccs);
    CopyPasses(c);
    if !c.Joint() {
      assert c.(autoLeave := false) == c;
      ApplyEachKeeps(k, c, ccs);
      var a := Apply(k, c, ccs);
      if a.Changed? { SettledPasses(a.conf); }
    }
  }

  /** Entering a joint configuration is accepted exactly if the configuration is
      not joint, has voters, and the changes are known and leave some. */
  lemma EnterJointAccepts(k: Limits, c: Conf, autoLeave: bool, ccs: seq<Change>)
    requires Settled(c)
    ensures var r := EnterJoint(k, c, autoLeave, ccs);
            var a := Apply(k, c.(autoLeave := false, outgoing := Ids(c.incoming)), ccs);
            && (r.Changed? <==> !c.Joint() && c.incoming != {} && AllKnown(ccs) && VotersAfter(c.incoming, ccs) != {})
            && (r.Changed? ==> a.Changed? && r.conf == a.conf.(autoLeave := autoLeave) && Settled(r.conf)
                               && r.conf.incoming == VotersAfter(c.incoming, ccs) && r.conf.outgoing == Ids(c.incoming))
  {
    hide CheckInvariants, ApplyEach, VotersAfter, AllKnown;
    CopyPasses(c);
    if !c.Joint() && c.incoming != {} {
      var c1 := c.(autoLeave := false, outgoing := Ids(c.incoming));
      forall x ensures GoodAt(c1, x) { assert GoodAt(c, x); }
      ApplyEachKeeps(k, c1, ccs);
      ApplyAccepts(k, c1, ccs);
      var a := Apply(k, c1, ccs);
      if a.Changed? {
        AutoLeaveApart(a.conf, autoLeave);
        SettledPasses(a.conf.(autoLeave := autoLeave));
      }
    }
  }

  /** Leaving succeeds on every joint configuration and only there. */
  lemma LeaveJointAccepts(c: Conf)
    requires Settled(c)
    ensures var r := LeaveJoint(c);
            && (r.Changed? <==> c.Joint())
            && (r.Changed? ==> r.conf == Left(c) && Settled(r.conf) && !r.conf.Joint())
  {
    hide CheckInvariants;
    CopyPasses(c);
    LeftIsGood(c);
    assert Left(c.(autoLeave := false)) == Left(c);
    SettledPasses(Left(c));
  }

  /** No change depends on the flag of its input: a wrong one is dropped. */
  lemma AutoLeaveIsIgnored(k: Limits, c: Conf, flag: bool, autoLeave: bool, ccs: seq<Change>)
    ensures var c' := c.(autoLeave := flag);
            && Simple(k, c', ccs) == Simple(k, c, ccs) && EnterJoint(k, c', autoLeave, ccs) == EnterJoint(k, c, autoLeave, ccs)
            && LeaveJoint(c') == LeaveJoint(c)
  {
    hide CheckInvariants, Apply, Left;
    assert c.(autoLeave := flag).(autoLeave := false) == c.(autoLeave := false);
  }

  /** So the first change is accepted on an input that the check refuses. */
  lemma BadAutoLeaveIsAccepted(k: Limits, id: Id)
    requires id != NONE
    ensures var c := EMPTY_CONF.(autoLeave := true); var r := Simple(k, c, [AddNode(id)]);
            && CheckInvariants(c) == Refused(BadAutoLeave)
            && r.Changed? && r.conf.incoming == {id} && CheckInvariants(r.conf) == Changed(r.conf)
  {
    hide Simple, Good, CheckInvariants, SymDiff;
    var ccs := [AddNode(id)];
    CopyMissesAutoLeave(EMPTY_CONF.(autoLeave := true));
    AutoLeaveIsIgnored(k, EMPTY_CONF, true, false, ccs);
    EmptyIsSettled();
    assert ccs[1..] == [] && VotersAfter({id}, []) == {id} && VotersAfter({}, ccs) == {id};
    OneVoter(id);
    SimpleAccepts(k, EMPTY_CONF, ccs);
    SettledPasses(Simple(k, EMPTY_CONF, ccs).conf);
  }

  lemma OneVoter(id: Id)
    ensures SymDiff({}, {id}) == 1
  {
    assert {} - {id} == {} && {id} - {} == {id};
  }

  // -------------------------------------------------------------- reachability

  ghost predicate Step(k: Limits, c: Conf, c': Conf) {
    || (exists ccs :: Simple(k, c, ccs) == Changed(c'))
    || (exists autoLeave, ccs :: EnterJoint(k, c, autoLeave, ccs) == Changed(c'))
    || LeaveJoint(c) == Changed(c')
  }

  /** A series of successful changes, starting from the empty configuration;
      limits may change on the way. */
  ghost predicate IsHistory(confs: seq<Conf>) {
    && |confs| > 0 && confs[0] == EMPTY_CONF
    && forall i, j | 0 <= i && j == i + 1 && j < |confs| :: Follows(confs[i], confs[j])
  }

  /** Some change leads from c to c'. */
  ghost predicate Follows(c: Conf, c': Conf) {
    exists k :: Step(k, c, c')
  }

  /** Every reachable configuration satisfies the strong invariant, and has
      voters unless it is the empty one. */
  lemma {:induction false} ReachableIsSettled(confs: seq<Conf>, i: nat)
    requires IsHistory(confs) && i < |confs|
    ensures Settled(confs[i]) && (confs[i] == EMPTY_CONF || confs[i].incoming != {})
  {
    if i == 0 {
      EmptyIsSettled();
    } else {
      hide Step, Settled;
      var p: nat := i - 1;
      ReachableIsSettled(confs, p);
      assert Follows(confs[p], confs[i]);
      var k :| Step(k, confs[p], confs[i]);
      StepKeeps(k, confs[p], confs[i]);
    }
  }

  lemma EmptyIsSettled()
    ensures Settled(EMPTY_CONF)
  {
    forall x ensures GoodAt(EMPTY_CONF, x) {}
  }

  lemma StepKeeps(k: Limits, c: Conf, c': Conf)
    requires Settled(c) && Step(k, c, c')
    ensures Settled(c') && (c == EMPTY_CONF || c.incoming != {} ==> c'.incoming != {})
  {
    hide Settled, ApplyEach, Simple, EnterJoint, LeaveJoint;
    if ccs :| Simple(k, c, ccs) == Changed(c') {
      SimpleAccepts(k, c, ccs);
    } else if autoLeave, ccs :| EnterJoint(k, c, autoLeave, ccs) == Changed(c') {
      EnterJointAccepts(k, c, autoLeave, ccs);
    } else {
      LeaveJointAccepts(c);
    }
  }
}
