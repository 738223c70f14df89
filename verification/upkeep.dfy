/** What nodes look after besides replicating: who may lead, whether a quorum is active,
    peers that refuse or cannot be reached, nodes left behind in old terms, and the
    start of a new one. */
module Upkeep {
  import opened Quorum
  import opened Logs
  import opened Flow
  import opened ReadQueue
  import opened RaftSpec
  import opened Handling
  import opened History
  import opened Invariant
  import opened Runs
  import opened Safety
  import opened Effects
  import opened AppendLaws
  import opened CommitLaws
  import opened Probing
  import ReadIndex

  // ---------------------------------------------------------------- learner marks

  /** The same members with the same marks. */
  predicate SameMarks(a: map<Id, Progress>, b: map<Id, Progress>) {
    a.Keys == b.Keys && forall p | p in a :: b[p].isLearner == a[p].isLearner
  }

  /** ... and the same members active. */
  predicate SameActivity(a: map<Id, Progress>, b: map<Id, Progress>) {
    SameMarks(a, b) && forall p | p in a :: b[p].recentActive == a[p].recentActive
  }

  /** The leader has heard from p. */
  function Heard(progress: map<Id, Progress>, p: Id): map<Id, Progress>
    requires p in progress
  {
    progress[p := progress[p].(recentActive := true)]
  }

  lemma PeersAlike(n: Node, n': Node)
    requires KeepsPeers(n, n')
    ensures SameActivity(n.progress, n'.progress)
  {}

  lemma SentAlike(n: Node, n': Node)
    requires OnlySent(n, n')
    ensures SameActivity(n.progress, n'.progress)
  {}

  lemma OneAlike(progress: map<Id, Progress>, p: Id, pr: Progress)
    requires p in progress && pr.recentActive == progress[p].recentActive && pr.isLearner == progress[p].isLearner
    ensures SameActivity(progress, progress[p := pr])
  {}

  lemma ActivityTrans(a: map<Id, Progress>, b: map<Id, Progress>, d: map<Id, Progress>)
    requires SameActivity(a, b) && SameActivity(b, d)
    ensures SameActivity(a, d)
  {}

  lemma RejectHears(c: Config, n: Node, m: Message)
    requires m.MsgAppResp? && m.from in n.progress
    ensures SameActivity(n.progress, HandleReject(c, n, m).progress)
  {
    hide SendAppend, OnlySent, NextProbeIndex, Progress.MaybeDecrTo, Progress.BecomeProbe, SameActivity;
    var pr := n.progress[m.from].MaybeDecrTo(m.index, NextProbeIndex(n.log, m.hint)).0;
    SameWhenBackingOff(n.progress[m.from], m.index, NextProbeIndex(n.log, m.hint));
    var pr' := if pr.state.StateReplicate? then pr.BecomeProbe() else pr;
    var n' := SetProgress(n, m.from, pr');
    OneAlike(n.progress, m.from, n.progress[m.from]);
    OneAlike(n.progress, m.from, pr');
    OneAppendSends(c, n', m.from);
    SentAlike(n', SendAppend(c, n', m.from));
    ActivityTrans(n.progress, n'.progress, SendAppend(c, n', m.from).progress);
    assert n.progress == n.progress[m.from := n.progress[m.from]];
  }

  lemma SameWhenBackingOff(pr: Progress, rejected: nat, hint: nat)
    ensures var pr' := pr.MaybeDecrTo(rejected, hint).0;
            && pr'.recentActive == pr.recentActive && pr'.isLearner == pr.isLearner
            && pr'.BecomeProbe().recentActive == pr.recentActive && pr'.BecomeProbe().isLearner == pr.isLearner
  {}

  lemma AckHears(c: Config, n: Node, m: Message)
    requires m.MsgAppResp? && m.from in n.progress
    ensures SameActivity(n.progress, HandleAck(c, n, m).progress)
  {
    hide HandleAck, IsNews, AckedProgress, SameActivity, KeepsPeers, MaybeCommit;
    AckKeepsPeers(c, n, m);
    SameWhenAcked(n.progress[m.from], m.index);
    var n1 := AfterAck(n, m.from, m.index);
    OneAlike(n.progress, m.from, n1.progress[m.from]);
    CommitKeeps(c, n1);
    var counted := if IsNews(n.progress[m.from], m.index) then Counted(c, n, m.from, m.index) else n;
    PeersAlike(counted, HandleAck(c, n, m));
    if counted == n { return; }
    ActivityTrans(n.progress, counted.progress, HandleAck(c, n, m).progress);
  }

  lemma SameWhenAcked(pr: Progress, index: nat)
    ensures var pr' := AckedProgress(pr.MaybeUpdate(index).0, index);
            pr'.recentActive == pr.recentActive && pr'.isLearner == pr.isLearner
  {
    hide Window.FreeLE;
  }

  lemma BeatHears(c: Config, n: Node, m: Message)
    requires m.MsgHeartbeatResp? && m.from in n.progress
    ensures SameActivity(Heard(n.progress, m.from), HandleHeartbeatResp(c, n, m).progress)
  {
    hide HandleHeartbeatResp, AfterBeat, AdvanceReads, ReadOnly.RecvAck, OnlySent, SameActivity, KeepsPeers;
    BeatSplits(c, n, m);
    BeatSends(c, n, m.from);
    var n0 := SetProgress(n, m.from, n.progress[m.from].(recentActive := true, paused := false));
    OneAlike(Heard(n.progress, m.from), m.from, n0.progress[m.from]);
    assert n0.progress == Heard(n.progress, m.from)[m.from := n0.progress[m.from]];
    var n1 := AfterBeat(c, n, m.from);
    SentAlike(n0, n1);
    ActivityTrans(Heard(n.progress, m.from), n0.progress, n1.progress);
    var n2 := n1.(readOnly := n1.readOnly.RecvAck(m.from, m.context));
    AdvanceKeepsPeers(c, n2);
    PeersAlike(n2, AdvanceReads(c, n2));
    ActivityTrans(Heard(n.progress, m.from), n1.progress, AdvanceReads(c, n2).progress);
  }

  /** A response to what a leader sends. */
  predicate Response(m: Message) { m.MsgAppResp? || m.MsgHeartbeatResp? }

  /** What a leader's step does to who is active: a response makes its sender active,
      and nothing else but a check makes any difference. */
  lemma LeaderHears(c: Config, n: Node, m: Message, e: Env)
    requires !m.MsgCheckQuorum?
    ensures SameActivity(if Response(m) && m.from in n.progress then Heard(n.progress, m.from) else n.progress,
                         StepLeader(c, n, m, e).progress)
  {
    hide BcastHeartbeat, BcastAppend, AppendEntry, HandleReadIndex, HandleReject, HandleAck, HandleHeartbeatResp,
      HandleTransfer, OnlySent;
    if m.MsgBeat? {
      BcastHeartbeatSends(n, n.readOnly.HeartbeatCtx(), c.peers);
      SentKeepsPeers(n, StepLeader(c, n, m, e));
    } else if m.MsgProp? {
      ProposalGrowsLog(c, n, m.payloads);
      PeersAlike(n.(log := n.log + Stamped(n, m.payloads)), BcastAppend(c, AppendEntry(n, m.payloads), c.peers));
    } else if m.MsgReadIndex? {
      ReadKeepsPeers(c, n, m);
    } else if m.from in n.progress {
      ResponseHears(c, n, m);
      if m.MsgTransferLeader? { TransferKeepsPeers(c, n, m); }
    }
  }

  lemma ResponseHears(c: Config, n: Node, m: Message)
    requires m.from in n.progress
    ensures m.MsgHeartbeatResp? ==> SameActivity(Heard(n.progress, m.from), HandleHeartbeatResp(c, n, m).progress)
    ensures m.MsgAppResp? ==>
              var n' := SetProgress(n, m.from, n.progress[m.from].(recentActive := true));
              SameActivity(Heard(n.progress, m.from), (if m.reject then HandleReject(c, n', m) else HandleAck(c, n', m)).progress)
  {
    hide HandleReject, HandleAck, HandleHeartbeatResp;
    if m.MsgHeartbeatResp? { BeatHears(c, n, m); }
    if m.MsgAppResp? {
      var n' := SetProgress(n, m.from, n.progress[m.from].(recentActive := true));
      RejectHears(c, n', m);
      AckHears(c, n', m);
    }
  }

  lemma ResetMarks(c: Config, n: Node, term: nat)
    ensures SameMarks(n.progress, Reset(c, n, term).progress) && Reset(c, n, term).id == n.id
  {}

  /** Nobody but the leader itself counts as active any more. */
  function Cleared(progress: map<Id, Progress>, id: Id): map<Id, Progress> {
    map p | p in progress :: if p != id then progress[p].(recentActive := false) else progress[p]
  }

  lemma CheckMarks(c: Config, n: Node)
    ensures SameMarks(n.progress, HandleCheckQuorum(c, n).progress)
  {
    hide JointVote, Reset, SameMarks;
    ResetMarks(c, n, n.term);
    SelfMarks(n.progress);
    var n1 := if JointVote(c.voters, ActiveVotes(n)) != VoteWon then BecomeFollower(c, n, n.term, NONE) else n;
    ClearedMarks(n1.progress, n1.id);
    MarksTrans(n.progress, n1.progress, Cleared(n1.progress, n1.id));
  }

  lemma ClearedMarks(a: map<Id, Progress>, id: Id)
    ensures SameMarks(a, Cleared(a, id))
  {}

  lemma SelfMarks(a: map<Id, Progress>)
    ensures SameMarks(a, a)
  {}

  lemma MarksTrans(a: map<Id, Progress>, b: map<Id, Progress>, d: map<Id, Progress>)
    requires SameMarks(a, b) && SameMarks(b, d)
    ensures SameMarks(a, d)
  {}

  lemma LeaderMarks(c: Config, n: Node, m: Message, e: Env)
    ensures SameMarks(n.progress, StepLeader(c, n, m, e).progress)
  {
    if m.MsgCheckQuorum? {
      hide HandleCheckQuorum;
      CheckMarks(c, n);
    } else {
      hide StepLeader;
      LeaderHears(c, n, m, e);
    }
  }

  lemma HupMarks(c: Config, n: Node, t: CampaignType, e: Env)
    ensures SameMarks(n.progress, Campaign(c, n, t).progress) && SameMarks(n.progress, Hup(c, n, t, e).progress)
  {
    hide SendVoteRequests, Reset, SameMarks;
    SelfMarks(n.progress);
    RequestsSend(BecomeCandidate(c, n), t, n.term + 1, c.voterIds);
    RequestsSend(BecomePreCandidate(n), t, n.term + 1, c.voterIds);
    ResetMarks(c, n, n.term + 1);
  }

  lemma FollowerMarks(c: Config, n: Node, m: Message, e: Env)
    ensures SameMarks(n.progress, StepFollower(c, n, m, e).progress)
  {
    hide Hup, HandleAppendEntries, HandleHeartbeat, SameMarks;
    SelfMarks(n.progress);
    HupMarks(c, n, Transfer, e);
    if m.MsgApp? { AppendKeepsProgress(n.(lead := m.from), m); }
    if m.MsgHeartbeat? { AppendKeepsProgress(n.(lead := m.from), m); }
  }

  lemma AppendKeepsProgress(n: Node, m: Message)
    ensures m.MsgApp? ==> HandleAppendEntries(n, m).progress == n.progress
    ensures m.MsgHeartbeat? ==> HandleHeartbeat(n, m).progress == n.progress
  {
    hide MaybeAppend;
  }

  lemma CountMarks(c: Config, n: Node, from: Id, granted: bool)
    ensures SameMarks(n.progress, CountVote(c, n, from, granted).progress)
  {
    hide JointVote, Campaign, BcastAppend, BecomeLeader, Reset, SameMarks;
    SelfMarks(n.progress);
    var n' := RecordVote(n, from, granted);
    HupMarks(c, n', Election, Env(false, false, false));
    ResetMarks(c, n', n'.term);
    LeadMarks(c, n');
  }

  lemma LeadMarks(c: Config, n: Node)
    ensures SameMarks(n.progress, BcastAppend(c, BecomeLeader(c, n), c.peers).progress)
  {
    hide BcastAppend, OnlySent, Reset;
    ResetMarks(c, n, n.term);
    BcastAppendSends(c, BecomeLeader(c, n), c.peers);
    SentAlike(BecomeLeader(c, n), BcastAppend(c, BecomeLeader(c, n), c.peers));
  }

  lemma CandidateMarks(c: Config, n: Node, m: Message)
    ensures SameMarks(n.progress, StepCandidate(c, n, m).progress)
  {
    hide HandleAppendEntries, HandleHeartbeat, CountVote, Reset, SameMarks;
    SelfMarks(n.progress);
    ResetMarks(c, n, m.term);
    if m.MsgApp? || m.MsgHeartbeat? { AppendKeepsProgress(BecomeFollower(c, n, m.term, m.from), m); }
    else if m.MsgPreVoteResp? || m.MsgVoteResp? { CountMarks(c, n, m.from, !m.reject); }
  }

  lemma KindMarks(c: Config, n: Node, m: Message, e: Env)
    ensures SameMarks(n.progress, StepKind(c, n, m, e).progress)
  {
    hide Hup, HandleVote, StepLeader, StepFollower, StepCandidate, OnlyAnswered, SameMarks;
    SelfMarks(n.progress);
    if m.MsgHup? { HupMarks(c, n, if c.preVote then PreElection else Election, e); }
    else if m.MsgVote? || m.MsgPreVote? { VotesConfirmNone(n, m); AnsweredMarks(n, HandleVote(n, m)); }
    else if n.role.Leader? { LeaderMarks(c, n, m, e); }
    else if n.role.Follower? { FollowerMarks(c, n, m, e); }
    else { CandidateMarks(c, n, m); }
  }

  lemma AnsweredMarks(n: Node, n': Node)
    requires OnlyAnswered(n, n')
    ensures n'.progress == n.progress
  {}

  /** No step changes who is marked as a learner. */
  lemma StepMarks(c: Config, n: Node, m: Message, e: Env)
    ensures SameMarks(n.progress, Step(c, n, m, e).progress)
  {
    hide StepKind, LeaseBlocks, Reset, SameMarks;
    SelfMarks(n.progress);
    KindMarks(c, n, m, e);
    if m.term > n.term {
      var n1 := CatchUp(c, n, m);
      ResetMarks(c, n, m.term);
      KindMarks(c, n1, m, e);
      MarksTrans(n.progress, n1.progress, StepKind(c, n1, m, e).progress);
    }
  }

  ghost predicate MarksAreTrue(c: Config, n: Node) {
    forall p | p in n.progress :: n.progress[p].isLearner <==> p in c.learners
  }

  lemma FirstMarks(c: Config, id: Id)
    requires id in c.peers
    ensures MarksAreTrue(c, NewNode(c, id))
  {}

  lemma RestartMarks(c: Config, n: Node, kept: nat, committed: nat)
    requires kept <= |n.log|
    ensures MarksAreTrue(c, Restarted(c, n, kept, committed))
  {}

  lemma SameMarksTrue(c: Config, n: Node, n': Node)
    requires MarksAreTrue(c, n) && SameMarks(n.progress, n'.progress)
    ensures MarksAreTrue(c, n')
  {}

  /** In every run each node knows who is a learner. */
  lemma {:induction false} MarksInRuns(c: Config, run: seq<Cluster>, i: nat, a: Id)
    requires c.Valid() && IsRun(c, run) && i < |run| && a in run[i].nodes
    ensures MarksAreTrue(c, run[i].nodes[a])
  {
    hide Next, MarksAreTrue, NewNode, SameMarks, Step, Deliverable, Restarted;
    if i == 0 {
      FirstMarks(c, a);
    } else {
      var k: nat := i - 1;
      NodesStay(c, run, k, i);
      MarksInRuns(c, run, k, a);
      StepOf(c, run, k);
      MarksMove(c, run[k], run[i], a);
    }
  }

  lemma MarksMove(c: Config, s: Cluster, s': Cluster, a: Id)
    requires Next(c, s, s') && a in s.nodes && a in s'.nodes && MarksAreTrue(c, s.nodes[a])
    ensures MarksAreTrue(c, s'.nodes[a])
  {
    hide MarksAreTrue, Step, Deliverable, Restarted, SameMarks;
    WhatHappened(c, s, s', a);
    if m, e :| Receives(c, s, s', a, m, e) {
      StepMarks(c, s.nodes[a], m, e);
      SameMarksTrue(c, s.nodes[a], s'.nodes[a]);
    } else if RestartsNode(c, s, s', a) {
      var kept, committed :| Restarts(c, s, s', a, kept, committed);
      RestartMarks(c, s.nodes[a], kept, committed);
    } else {
      AlikeMarks(c, s.nodes[a], s'.nodes[a]);
    }
  }

  lemma AlikeMarks(c: Config, n: Node, n': Node)
    requires MarksAreTrue(c, n) && n'.progress == n.progress
    ensures MarksAreTrue(c, n')
  {}

  lemma HupNeedsVoter(c: Config, n: Node, t: CampaignType, e: Env)
    ensures Hup(c, n, t, e).role.Follower? || !n.role.Follower? || Promotable(n)
  {
    hide Campaign;
  }

  lemma KindNeedsVoter(c: Config, n: Node, m: Message, e: Env)
    ensures StepKind(c, n, m, e).role.Follower? || !n.role.Follower? || Promotable(n)
  {
    hide Hup, HandleVote, HandleAppendEntries, HandleHeartbeat, Promotable, OnlyAnswered;
    HupNeedsVoter(c, n, if c.preVote then PreElection else Election, e);
    HupNeedsVoter(c, n, Transfer, e);
    if m.MsgVote? || m.MsgPreVote? { VotesConfirmNone(n, m); }
    if m.MsgApp? { AppendKeepsRole(n.(lead := m.from), m); }
    if m.MsgHeartbeat? { BeatKeepsRole(n.(lead := m.from), m); }
  }

  lemma StepNeedsVoter(c: Config, n: Node, m: Message, e: Env)
    ensures Step(c, n, m, e).role.Follower? || !n.role.Follower? || Promotable(n)
  {
    hide StepKind, LeaseBlocks, Reset;
    KindNeedsVoter(c, n, m, e);
    if m.term > n.term {
      ResetMarks(c, n, m.term);
      KindNeedsVoter(c, CatchUp(c, n, m), m, e);
    }
  }

  /** In every run only voters stand for election or lead. */
  lemma {:induction false} OnlyVotersLead(c: Config, run: seq<Cluster>, i: nat, a: Id)
    requires c.Valid() && IsRun(c, run) && i < |run| && a in run[i].nodes && !run[i].nodes[a].role.Follower?
    ensures a in c.voters.Ids()
  {
    hide Next, Step, Deliverable, Restarted, Promotable;
    if i > 0 {
      var k: nat := i - 1;
      NodesStay(c, run, k, i);
      if !run[k].nodes[a].role.Follower? { OnlyVotersLead(c, run, k, a); return; }
      StepOf(c, run, k);
      NodesRest(c, run, k, a);
      WhatHappened(c, run[k], run[i], a);
      var m, e :| Receives(c, run[k], run[i], a, m, e);
      StepNeedsVoter(c, run[k].nodes[a], m, e);
      PromotableIsVoter(c, run, k, a);
    }
  }

  lemma PromotableIsVoter(c: Config, run: seq<Cluster>, i: nat, a: Id)
    requires c.Valid() && IsRun(c, run) && i < |run| && a in run[i].nodes
    ensures Promotable(run[i].nodes[a]) <==> a in c.voters.Ids()
  {
    hide IsRun;
    NodesRest(c, run, i, a);
    PeersTracked(c, run, i, a, a);
    MarksInRuns(c, run, i, a);
  }

  // ---------------------------------------------------------------- check quorum

  /** The voters a leader counts as active. */
  ghost function ActiveVoters(c: Config, n: Node): set<Id> {
    set p | p in c.voters.Ids() && p in n.progress && n.progress[p].recentActive
  }

  lemma ActiveIsYes(c: Config, n: Node)
    requires c.Valid() && MarksAreTrue(c, n) && forall p :: p in n.progress <==> p in c.peers
    ensures JointVote(c.voters, ActiveVotes(n)) == VoteWon <==> IsQuorum(c.voters, ActiveVoters(c, n))
  {
    hide JointVote, IsQuorum;
    WonIsQuorum(c.voters, ActiveVotes(n));
    assert YesVotes(ActiveVotes(n)) == ActiveVoters(c, n);
  }

  /** What a leader of a run does when it is to check that a quorum is active. If one
      is, it goes on as before; if not, it becomes a follower of nobody, in the same
      term, with the same log and vote, and forgets the reads it had queued. Either
      way nobody else counts as active afterwards. */
  lemma CheckQuorumRule(c: Config, run: seq<Cluster>, i: nat, a: Id, m: Message, e: Env)
    requires c.Valid() && IsRun(c, run) && i < |run| && a in run[i].nodes && m.MsgCheckQuorum? && m.term == 0
    requires run[i].nodes[a].role.Leader?
    ensures var n := run[i].nodes[a]; var n' := Step(c, n, m, e);
            && n'.term == n.term && n'.vote == n.vote && n'.log == n.log && n'.committed == n.committed && n'.msgs == []
            && (if IsQuorum(c.voters, ActiveVoters(c, n))
                then n' == n.(progress := Cleared(n.progress, a))
                else n'.role.Follower? && n'.lead == NONE && n'.transferee == NONE && n'.readOnly == NO_READS)
            && forall p | p in n'.progress && p != a :: !n'.progress[p].recentActive
  {
    hide IsRun, JointVote, IsQuorum, ActiveVoters, AllFresh;
    var n := run[i].nodes[a];
    NodesRest(c, run, i, a);
    MarksInRuns(c, run, i, a);
    forall p ensures p in n.progress <==> p in c.peers { PeersTracked(c, run, i, a, p); }
    ActiveIsYes(c, n);
  }

  // ---------------------------------------------------- a quorum was heard from

  /** What a leader's step, of any kind, leaves of who is active. */
  lemma StepHears(c: Config, n: Node, m: Message, e: Env, p: Id)
    requires n.role.Leader? && Step(c, n, m, e).role.Leader? && p in n.progress
    ensures var n' := Step(c, n, m, e);
            && p in n'.progress
            && (n'.progress[p].recentActive ==>
                  n.progress[p].recentActive || (Response(m) && m.from == p && n' == StepLeader(c, n, m, e)))
            && (p == n.id && n.progress[p].recentActive ==> n'.progress[p].recentActive)
  {
    hide Step, StepLeader, OnlyAnswered;
    LeaderStays(c, n, m, e);
    if Step(c, n, m, e) == StepLeader(c, n, m, e) {
      if m.MsgCheckQuorum? { CheckHears(c, n, m, e, p); } else { LeaderHears(c, n, m, e); }
    } else {
      AnsweredMarks(n, Step(c, n, m, e));
    }
  }

  lemma CheckHears(c: Config, n: Node, m: Message, e: Env, p: Id)
    requires n.role.Leader? && m.MsgCheckQuorum? && StepLeader(c, n, m, e).role.Leader? && p in n.progress
    ensures var n' := StepLeader(c, n, m, e);
            && p in n'.progress && (n'.progress[p].recentActive ==> n.progress[p].recentActive)
            && (p == n.id ==> n'.progress[p] == n.progress[p])
  {
    hide JointVote, Reset;
  }

  lemma LeadsActive(c: Config, n: Node)
    requires n.id in n.progress
    ensures var n' := BcastAppend(c, BecomeLeader(c, n), c.peers);
            n'.id == n.id && n.id in n'.progress && n'.progress[n.id].recentActive
  {
    hide BcastAppend, OnlySent;
    BcastAppendSends(c, BecomeLeader(c, n), c.peers);
    SentKeepsPeers(BecomeLeader(c, n), BcastAppend(c, BecomeLeader(c, n), c.peers));
  }

  /** A leader of a run always counts itself as active. */
  lemma {:induction false} LeaderIsActive(c: Config, run: seq<Cluster>, i: nat, a: Id)
    requires c.Valid() && IsRun(c, run) && i < |run| && a in run[i].nodes && run[i].nodes[a].role.Leader?
    ensures a in run[i].nodes[a].progress && run[i].nodes[a].progress[a].recentActive
  {
    hide Next, Step, Deliverable, Restarted, BcastAppend, BecomeLeader;
    if i > 0 {
      var k: nat := i - 1;
      var s, s' := run[k], run[i];
      NodesStay(c, run, k, i);
      StepOf(c, run, k);
      NodesRest(c, run, k, a);
      PeersTracked(c, run, k, a, a);
      WhatHappened(c, s, s', a);
      if s.nodes[a].role.Leader? { LeaderIsActive(c, run, k, a); }
      if m, e :| Receives(c, s, s', a, m, e) {
        if s.nodes[a].role.Leader? {
          StepHears(c, s.nodes[a], m, e, a);
        } else {
          NewLeader(c, s.nodes[a], m, e);
          LeadsActive(c, RecordVote(s.nodes[a], m.from, !m.reject));
        }
      }
    }
  }

  ghost predicate HeardBetween(c: Config, s: Cluster, s': Cluster, a: Id, p: Id) {
    exists m, e :: Receives(c, s, s', a, m, e) && Response(m) && m.from == p && m.term == s.nodes[a].term
  }

  /** In step x leader a is sent a response of its term by p. */
  ghost predicate HeardIn(c: Config, run: seq<Cluster>, x: nat, a: Id, p: Id) {
    x + 1 < |run| && HeardBetween(c, run[x], run[x + 1], a, p)
  }

  ghost predicate LeadsThrough(run: seq<Cluster>, i: nat, k: nat, a: Id) {
    i <= k < |run| && forall x | i <= x <= k :: a in run[x].nodes && run[x].nodes[a].role.Leader?
  }

  lemma ResponsesHaveTerms(c: Config, run: seq<Cluster>, i: nat, id: Id, m: Message, e: Env)
    requires c.Valid() && IsRun(c, run) && i < |run| && Deliverable(run[i], id, m) && Response(m) && id in run[i].nodes
    requires run[i].nodes[id].role.Leader? && Step(c, run[i].nodes[id], m, e).role.Leader?
    requires Step(c, run[i].nodes[id], m, e) != run[i].nodes[id]
    ensures m.term == run[i].nodes[id].term
  {
    hide IsRun, HistInv, NodeInv, AckSent, Link, StepLeader, Reset;
    var hs := EveryRun(c, run);
    assert MsgOk(m, hs[i]);
  }

  /** A peer that a leader has come to count as active has sent it a response since. */
  lemma {:induction false} ActiveMeansHeard(c: Config, run: seq<Cluster>, i: nat, k: nat, a: Id, p: Id) returns (x: nat)
    requires c.Valid() && IsRun(c, run) && LeadsThrough(run, i, k, a) && p in run[i].nodes[a].progress && p in run[k].nodes[a].progress
    requires !run[i].nodes[a].progress[p].recentActive && run[k].nodes[a].progress[p].recentActive
    ensures i <= x < k && HeardIn(c, run, x, a, p)
    decreases k
  {
    hide IsRun, Next, Step, StepLeader, Deliverable, Restarted;
    var j: nat := k - 1;
    var s, s' := run[j], run[k];
    StepOf(c, run, j);
    PeersTracked(c, run, j, a, p);
    PeersTracked(c, run, k, a, p);
    if s.nodes[a].progress[p].recentActive {
      x := ActiveMeansHeard(c, run, i, j, a, p);
    } else {
      x := j;
      NodesRest(c, run, j, a);
      WhatHappened(c, s, s', a);
      var m, e :| Receives(c, s, s', a, m, e);
      StepHears(c, s.nodes[a], m, e, p);
      ResponsesHaveTerms(c, run, j, a, m, e);
      assert run[x + 1] == s';
    }
  }

  /** A leader that leads through two checks has in between been sent responses by a
      quorum, itself included. */
  lemma StaysOnlyIfHeard(c: Config, run: seq<Cluster>, i: nat, k: nat, a: Id, m: Message, e: Env, m': Message, e': Env)
    returns (q: set<Id>)
    requires c.Valid() && IsRun(c, run) && LeadsThrough(run, i + 1, k, a) && k + 1 < |run| && a in run[i].nodes
    requires m.MsgCheckQuorum? && m.term == 0 && Receives(c, run[i], run[i + 1], a, m, e) && run[i].nodes[a].role.Leader?
    requires m'.MsgCheckQuorum? && m'.term == 0 && Receives(c, run[k], run[k + 1], a, m', e')
    requires a in run[k + 1].nodes && run[k + 1].nodes[a].role.Leader?
    ensures IsQuorum(c.voters, q) && forall p | p in q && p != a :: exists x: nat | i < x < k :: HeardIn(c, run, x, a, p)
  {
    hide IsRun, Next, Step, Deliverable, HeardIn, IsQuorum;
    q := ActiveVoters(c, run[k].nodes[a]);
    CheckQuorumRule(c, run, i, a, m, e);
    CheckQuorumRule(c, run, k, a, m', e');
    forall p | p in q && p != a ensures exists x: nat | i < x < k :: HeardIn(c, run, x, a, p) {
      var j := i + 1;
      PeersTracked(c, run, j, a, p);
      PeersTracked(c, run, k, a, p);
      var x := ActiveMeansHeard(c, run, j, k, a, p);
    }
  }

  // ------------------------------------------------------------- losing contact

  lemma StepsBack(pr: Progress, rejected: nat, hint: nat)
    requires pr.state.StateReplicate?
    ensures var (back, decreased) := pr.MaybeDecrTo(rejected, hint);
            && decreased == (rejected > pr.matched) && back.state.StateReplicate?
            && (!decreased ==> back == pr)
    ensures var probing := pr.MaybeDecrTo(rejected, hint).0.BecomeProbe();
            && probing.state.StateProbe? && probing.matched == pr.matched && probing.next == pr.matched + 1
            && !probing.paused && probing.inflights.items == []
  {}

  /** A leader of a run that replicates to p and is told that p refused an append past
      Match goes back to probing right after Match, and sends that probe; a refusal
      of what p is known to hold is old and changes nothing. */
  lemma RefusalRule(c: Config, run: seq<Cluster>, i: nat, a: Id, m: Message, e: Env) returns (x: Message)
    requires c.Valid() && IsRun(c, run) && i < |run| && a in run[i].nodes && run[i].nodes[a].role.Leader?
    requires m.MsgAppResp? && m.reject && m.term == run[i].nodes[a].term && m.from in run[i].nodes[a].progress
    requires run[i].nodes[a].progress[m.from].state.StateReplicate?
    ensures var n, p := run[i].nodes[a], m.from; var n' := Step(c, n, m, e); var pr := n.progress[p];
            if m.index <= pr.matched then n' == n.(progress := Heard(n.progress, p))
            else && p in n'.progress && n'.progress[p].state.StateProbe? && n'.progress[p].next == pr.matched + 1
                 && n'.progress[p].matched == pr.matched && n'.msgs == [x] && IsProbe(n', p, x)
  {
    hide IsRun, Step, SendAppend, IsProbe, Progress.MaybeDecrTo, Progress.BecomeProbe, NextProbeIndex;
    x := m;
    var n, p := run[i].nodes[a], m.from;
    NodesRest(c, run, i, a);
    LeaderIsSound(c, run, i, a);
    AckStays(c, n, m, e);
    var n1 := SetProgress(n, p, n.progress[p].(recentActive := true));
    StepsBack(n1.progress[p], m.index, NextProbeIndex(n1.log, m.hint));
    if m.index > n.progress[p].matched {
      var back := n1.progress[p].MaybeDecrTo(m.index, NextProbeIndex(n1.log, m.hint)).0;
      var n2 := SetProgress(n1, p, back.BecomeProbe());
      x := NextProbe(c, n2, p);
      assert Step(c, n, m, e) == SendAppend(c, n2, p);
    }
  }

  /** A leader that cannot reach p stops streaming to it and probes from Match. */
  lemma UnreachableRule(c: Config, n: Node, m: Message, e: Env)
    requires n.role.Leader? && m.MsgUnreachable? && m.term == 0 && m.from in n.progress
    ensures var n', pr := Step(c, n, m, e), n.progress[m.from];
            if !pr.state.StateReplicate? then n' == n
            else && n' == n.(progress := n'.progress) && n'.progress == n.progress[m.from := n'.progress[m.from]]
                 && n'.progress[m.from].state.StateProbe? && n'.progress[m.from].next == pr.matched + 1
                 && n'.progress[m.from].matched == pr.matched && n'.progress[m.from].inflights.items == []
  {
  }

  /** A heartbeat response makes its sender active; and a leader of a run sends it the
      next append if it lacks entries or is being probed, unless it is sent a snapshot. */
  lemma ResponseRule(c: Config, run: seq<Cluster>, i: nat, a: Id, m: Message, e: Env) returns (x: Message)
    requires c.Valid() && IsRun(c, run) && i < |run| && a in run[i].nodes && run[i].nodes[a].role.Leader?
    requires m.MsgHeartbeatResp? && m.term == run[i].nodes[a].term && m.from in run[i].nodes[a].progress
    ensures var n, p := run[i].nodes[a], m.from; var n' := Step(c, n, m, e);
            && n'.role.Leader? && n'.term == n.term && n'.log == n.log && n'.committed == n.committed
            && SameActivity(Heard(n.progress, p), n'.progress)
            && ((n.progress[p].matched < |n.log| || n.progress[p].state.StateProbe?) && !n.progress[p].state.StateSnapshot? ==>
                  x in n'.msgs && IsAppendTo(c, n.(progress := n.progress[p := n.progress[p].(recentActive := true, paused := false)]), p, x))
  {
    hide IsRun, Step, HandleHeartbeatResp, AfterBeat, AdvanceReads, SendAppend, IsAppendTo, KeepsLog, SameActivity;
    var n, p := run[i].nodes[a], m.from;
    BeatTaken(c, n, m, e);
    BeatHears(c, n, m);
    BeatKeepsLog(c, n, m);
    LogKept(n, HandleHeartbeatResp(c, n, m));
    x := m;
    if (n.progress[p].matched < |n.log| || n.progress[p].state.StateProbe?) && !n.progress[p].state.StateSnapshot? {
      var n1 := SetProgress(n, p, n.progress[p].(recentActive := true, paused := false));
      NextInLog(c, run, i, a, p);
      x := SendsOne(c, n1, p);
      BeatAppends(c, n, m, x);
    }
  }

  lemma BeatTaken(c: Config, n: Node, m: Message, e: Env)
    requires n.role.Leader? && m.MsgHeartbeatResp? && m.term == n.term && m.from in n.progress
    ensures Step(c, n, m, e) == HandleHeartbeatResp(c, n, m)
  {
    hide HandleHeartbeatResp;
  }

  lemma LogKept(n: Node, n': Node)
    requires KeepsLog(n, n')
    ensures n'.role == n.role && n'.term == n.term && n'.log == n.log && n'.committed == n.committed
  {}

  lemma BeatAppends(c: Config, n: Node, m: Message, x: Message)
    requires m.MsgHeartbeatResp? && m.from in n.progress
    requires n.progress[m.from].matched < |n.log| || n.progress[m.from].state.StateProbe?
    requires var n1 := SetProgress(n, m.from, n.progress[m.from].(recentActive := true, paused := false)); x in SendAppend(c, n1, m.from).msgs
    ensures x in HandleHeartbeatResp(c, n, m).msgs
  {
    hide HandleHeartbeatResp, SendAppend, AdvanceReads;
    BeatSplits(c, n, m);
    var n1 := AfterBeat(c, n, m.from);
    AdvanceKeepsMsgs(c, n1.(readOnly := n1.readOnly.RecvAck(m.from, m.context)), x);
  }

  lemma AdvanceKeepsMsgs(c: Config, n: Node, x: Message)
    requires x in n.msgs
    ensures x in AdvanceReads(c, n).msgs
  {
    hide RespondAll, JointCommitted, ReadIndex.LocalAnswers, ReadIndex.RemoteAnswers, ReadOnly.MaybeAdvance,
      ReadOnly.Confirmable, ReadOnly.InRange;
    var k := JointCommitted(c.voters, n.readOnly.acks);
    ReadIndex.AnsweredInOrder(n.(readOnly := n.readOnly.MaybeAdvance(c.voters), failed := n.failed || !n.readOnly.InRange(k)),
                              n.readOnly.Confirmable(c.voters));
  }

  // ------------------------------------------------------------------ old terms

  /** A message of an earlier term changes nothing. The only ones answered are a
      pre-vote and, if quorums are checked or pre-votes used, what a leader sends: the
      answer goes back to the sender with the term of the node. */
  lemma StaleRule(c: Config, run: seq<Cluster>, i: nat, id: Id, m: Message, e: Env)
    requires c.Valid() && IsRun(c, run) && i < |run| && id in run[i].nodes && 0 < m.term < run[i].nodes[id].term
    ensures var n := run[i].nodes[id];
            Step(c, n, m, e) == n.(msgs := if (m.MsgApp? || m.MsgHeartbeat?) && (c.checkQuorum || c.preVote)
                                           then [MsgAppResp(id, m.from, n.term, 0, false, EntryID(0, 0))]
                                           else if m.MsgPreVote? then [MsgPreVoteResp(id, m.from, n.term, true)] else [])
  {
    hide IsRun;
    NodesRest(c, run, i, id);
  }

  lemma ToldReached(c: Config, n: Node, x: Message, e: Env)
    requires x.term > n.term && (x.MsgAppResp? || (x.MsgPreVoteResp? && x.reject))
    ensures Step(c, n, x, e) == BecomeFollower(c, n, x.term, NONE)
  {
    hide Hup, HandleVote, HandleAppendEntries, HandleHeartbeat, AllFresh;
  }

  /** So a leader or a candidate left behind learns the later term: the answer to what it
      sent makes it a follower of that term, with its log and commit index. */
  lemma StaleIsTold(c: Config, run: seq<Cluster>, i: nat, id: Id, m: Message, e: Env, j: nat, a: Id, e': Env) returns (x: Message)
    requires c.Valid() && IsRun(c, run) && i < |run| && id in run[i].nodes && 0 < m.term < run[i].nodes[id].term
    requires m.MsgPreVote? || ((m.MsgApp? || m.MsgHeartbeat?) && (c.checkQuorum || c.preVote))
    requires j < |run| && a in run[j].nodes && run[j].nodes[a].term < run[i].nodes[id].term
    ensures x in Step(c, run[i].nodes[id], m, e).msgs && x.to == m.from
    ensures var n := run[j].nodes[a]; var n' := Step(c, n, x, e');
            && n'.role.Follower? && n'.term == run[i].nodes[id].term && n'.vote == NONE && n'.lead == NONE
            && n'.log == n.log && n'.committed == n.committed && n'.msgs == []
  {
    hide IsRun, Step, AllFresh;
    var n := run[i].nodes[id];
    NodesRest(c, run, j, a);
    StaleRule(c, run, i, id, m, e);
    x := if m.MsgPreVote? then MsgPreVoteResp(id, m.from, n.term, true) else MsgAppResp(id, m.from, n.term, 0, false, EntryID(0, 0));
    ToldReached(c, run[j].nodes[a], x, e');
  }

  // ---------------------------------------------------------------- new leaders

  /** The leader before it has told anyone: nothing is known of the others. */
  lemma LeaderStarts(c: Config, n: Node, p: Id)
    requires n.role.Candidate? && n.id in n.progress && p in n.progress && p != n.id && c.maxInflight > 0
    ensures var n1 := BecomeLeader(c, n);
            && n1.id == n.id && n1.term == n.term && n1.committed == n.committed
            && n1.log == n.log + [Entry(n.term, |n.log| + 1, "")]
            && p in n1.progress && n1.progress[p].matched == 0 && n1.progress[p].next == |n.log| + 1
            && CanReceive(n1, n1.progress[p])
  {}

  lemma OnlyEntryLeft(c: Config, n: Node, p: Id, x: Message)
    requires p in n.progress && n.log != [] && n.progress[p].next == |n.log| && CanReceive(n, n.progress[p]) && IsAppendTo(c, n, p, x)
    ensures x.entries == [n.log[|n.log| - 1]]
  {
    assert n.log[|n.log| - 1..] == [n.log[|n.log| - 1]];
  }

  /** A node of a run that becomes leader opens its term with an empty entry and sends it
      to every other peer, anchored at the end of the log it was elected with; it counts
      nobody as holding anything. */
  lemma NewLeaderAnnounces(c: Config, run: seq<Cluster>, i: nat, a: Id, m: Message, e: Env, p: Id) returns (x: Message)
    requires c.Valid() && IsRun(c, run) && i < |run| && a in run[i].nodes && p in c.peers && p != a
    requires !run[i].nodes[a].role.Leader? && Step(c, run[i].nodes[a], m, e).role.Leader?
    ensures var n := run[i].nodes[a]; var n', first := Step(c, n, m, e), Entry(n.term, |n.log| + 1, "");
            && n'.term == n.term && n'.log == n.log + [first] && n'.committed == n.committed
            && p in n'.progress && n'.progress[p].matched == 0
            && x in n'.msgs && x.MsgApp? && x.from == a && x.to == p && x.term == n.term
            && x.prev.index == |n.log| && x.entries == [first] && x.commit == n.committed
  {
    hide IsRun, Step, BcastAppend, BecomeLeader, OnlySent, CanReceive, IsBatch;
    var n := run[i].nodes[a];
    NodesRest(c, run, i, a);
    PeersTracked(c, run, i, a, p);
    NewLeader(c, n, m, e);
    var voted := RecordVote(n, m.from, !m.reject);
    LeaderStarts(c, voted, p);
    var n1 := BecomeLeader(c, voted);
    BcastAppendSends(c, n1, c.peers);
    SentKeepsPeers(n1, BcastAppend(c, n1, c.peers));
    CanReceiveMeans(n1, n1.progress[p]);
    x := BroadcastReaches(c, n1, c.peers, p);
    OnlyEntryLeft(c, n1, p, x);
  }

  lemma CanReceiveMeans(n: Node, pr: Progress)
    requires CanReceive(n, pr)
    ensures !pr.IsPaused() && pr.next <= |n.log|
  {}
}
