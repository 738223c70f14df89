/** What the handlers change, and what they leave alone: the facts about steps that
    are not about safety, on which the laws of the protocol rest. */
module Effects {
  import opened Quorum
  import opened Logs
  import opened Flow
  import opened ReadQueue
  import opened RaftSpec
  import opened Handling

  // ------------------------------------------------------------ sending appends

  /** An append with entries of the node's log, or a heartbeat. */
  predicate Replicates(n: Node, m: Message) {
    m.MsgHeartbeat? || (m.MsgApp? && forall x | x in m.entries :: x in n.log)
  }

  /** The same members, as to what they hold, their state, who is active and who
      learns. */
  predicate SameMatch(a: map<Id, Progress>, b: map<Id, Progress>) {
    && a.Keys == b.Keys
    && forall p | p in a ::
         && b[p].matched == a[p].matched && b[p].state == a[p].state
         && b[p].isLearner == a[p].isLearner && b[p].recentActive == a[p].recentActive
  }

  /** Only appends and heartbeats were sent, and recorded as sent. */
  ghost predicate OnlySent(n: Node, n': Node) {
    && n' == n.(progress := n'.progress, msgs := n'.msgs, failed := n'.failed)
    && SameMatch(n.progress, n'.progress) && n.msgs <= n'.msgs
    && forall x | x in n'.msgs :: x in n.msgs || Replicates(n, x)
  }

  lemma OnlySentTrans(n: Node, n1: Node, n2: Node)
    requires OnlySent(n, n1) && OnlySent(n1, n2)
    ensures OnlySent(n, n2)
  {}

  lemma OneAppendSends(c: Config, n: Node, to: Id)
    requires to in n.progress
    ensures OnlySent(n, SendAppend(c, n, to)) && OnlySent(n, MaybeSendAppend(c, n, to, false).0)
  {
    hide LimitSize, Window.Full;
    EntriesInLog(c, n, to);
    OneSends(c, n, to, true);
    OneSends(c, n, to, false);
  }

  lemma OneSends(c: Config, n: Node, to: Id, sendIfEmpty: bool)
    requires to in n.progress && forall x | x in NextEntries(c, n, to) :: x in n.log
    ensures OnlySent(n, MaybeSendAppend(c, n, to, sendIfEmpty).0)
  {
    hide NextEntries, Window.Full, PayloadsSize;
  }

  lemma EntriesInLog(c: Config, n: Node, to: Id)
    requires to in n.progress
    ensures forall x | x in NextEntries(c, n, to) :: x in n.log
  {}

  lemma {:induction false} BcastAppendSends(c: Config, n: Node, ids: seq<Id>)
    ensures OnlySent(n, BcastAppend(c, n, ids))
    decreases |ids|
  {
    hide SendAppend, OnlySent;
    if ids == [] {
      NothingSent(n);
    } else if ids[0] == n.id || ids[0] !in n.progress {
      BcastAppendSends(c, n, ids[1..]);
    } else {
      OneAppendSends(c, n, ids[0]);
      BcastAppendSends(c, SendAppend(c, n, ids[0]), ids[1..]);
      OnlySentTrans(n, SendAppend(c, n, ids[0]), BcastAppend(c, n, ids));
    }
  }

  lemma NothingSent(n: Node)
    ensures OnlySent(n, n)
  {}

  lemma OneBeatSends(n: Node, to: Id, ctx: nat)
    requires to in n.progress
    ensures OnlySent(n, SendHeartbeat(n, to, ctx))
  {}

  lemma {:induction false} BcastHeartbeatSends(n: Node, ctx: nat, ids: seq<Id>)
    ensures OnlySent(n, BcastHeartbeat(n, ctx, ids))
    decreases |ids|
  {
    hide SendHeartbeat, OnlySent;
    if ids == [] {
      NothingSent(n);
    } else if ids[0] == n.id || ids[0] !in n.progress {
      BcastHeartbeatSends(n, ctx, ids[1..]);
    } else {
      OneBeatSends(n, ids[0], ctx);
      BcastHeartbeatSends(SendHeartbeat(n, ids[0], ctx), ctx, ids[1..]);
      OnlySentTrans(n, SendHeartbeat(n, ids[0], ctx), BcastHeartbeat(n, ctx, ids));
    }
  }

  lemma {:induction false} DrainSends(c: Config, n: Node, to: Id)
    requires to in n.progress
    ensures OnlySent(n, Drain(c, n, to))
    decreases |n.log| + 1 - n.progress[to].next, !n.progress[to].paused
  {
    hide OnlySent;
    OneAppendSends(c, n, to);
    var (n', sent) := MaybeSendAppend(c, n, to, false);
    if sent {
      DrainSends(c, n', to);
      OnlySentTrans(n, n', Drain(c, n', to));
    }
  }

  lemma BeatSends(c: Config, n: Node, p: Id)
    requires p in n.progress
    ensures OnlySent(SetProgress(n, p, n.progress[p].(recentActive := true, paused := false)), AfterBeat(c, n, p))
  {
    hide SendAppend, OnlySent;
    var n' := SetProgress(n, p, n.progress[p].(recentActive := true, paused := false));
    NothingSent(n');
    OneAppendSends(c, n', p);
  }

  // --------------------------------------------------------- no leader by accident

  lemma {:induction false} RequestsSend(n: Node, t: CampaignType, term: nat, ids: seq<Id>)
    ensures var n' := SendVoteRequests(n, t, term, ids); n'.role == n.role && n'.progress == n.progress
    decreases |ids|
  {
    hide Send, VoteRequest;
    if ids != [] {
      SendKeepsRole(n, VoteRequest(n, t, term, ids[0]));
      RequestsSend(Send(n, VoteRequest(n, t, term, ids[0])), t, term, ids[1..]);
    }
  }

  lemma SendKeepsRole(n: Node, m: Message)
    ensures Send(n, m).role == n.role && Send(n, m).progress == n.progress
  {}

  lemma HupLeadsNot(c: Config, n: Node, t: CampaignType, e: Env)
    requires !n.role.Leader?
    ensures !Hup(c, n, t, e).role.Leader?
  {
    hide SendVoteRequests, BecomeCandidate, BecomePreCandidate;
    RequestsSend(BecomeCandidate(c, n), t, n.term + 1, c.voterIds);
    RequestsSend(BecomePreCandidate(n), t, n.term + 1, c.voterIds);
    CandidateRoles(c, n);
  }

  lemma CandidateRoles(c: Config, n: Node)
    ensures BecomeCandidate(c, n).role.Candidate? && BecomePreCandidate(n).role.PreCandidate?
  {}

  /** No message makes a follower a leader at once. */
  lemma FollowerLeadsNot(c: Config, n: Node, m: Message, e: Env)
    requires n.role.Follower?
    ensures !StepKind(c, n, m, e).role.Leader?
  {
    hide Hup, HandleAppendEntries, HandleHeartbeat, HandleVote, Forward, OnlyAnswered;
    HupLeadsNot(c, n, Transfer, e);
    HupLeadsNot(c, n, if c.preVote then PreElection else Election, e);
    if m.MsgVote? || m.MsgPreVote? { VotesConfirmNone(n, m); }
    else if m.MsgApp? { AppendKeepsRole(n.(lead := m.from), m); }
    else if m.MsgHeartbeat? { BeatKeepsRole(n.(lead := m.from), m); }
    else if m.MsgProp? { ForwardKeepsRole(n, m.term, MsgProp(if m.from == NONE then n.id else m.from, n.lead, 0, m.payloads)); }
    else if m.MsgReadIndex? { ForwardKeepsRole(n, m.term, MsgReadIndex(if m.from == NONE then n.id else m.from, n.lead, 0, m.ctx)); }
    else if m.MsgTransferLeader? {
      ForwardKeepsRole(n, m.term, MsgTransferLeader(if m.from == NONE then n.id else m.from, n.lead, n.term));
    }
  }

  lemma ForwardKeepsRole(n: Node, term: nat, m: Message)
    ensures Forward(n, term, m).role == n.role
  {}

  lemma AppendKeepsRole(n: Node, m: Message)
    requires m.MsgApp?
    ensures HandleAppendEntries(n, m).role == n.role
  {
    hide MaybeAppend;
  }

  lemma BeatKeepsRole(n: Node, m: Message)
    requires m.MsgHeartbeat?
    ensures HandleHeartbeat(n, m).role == n.role
  {}

  lemma FollowerNow(c: Config, n: Node, term: nat, lead: Id)
    ensures BecomeFollower(c, n, term, lead).role.Follower?
  {}

  lemma VotesConfirmNone(n: Node, m: Message)
    requires m.MsgVote? || m.MsgPreVote?
    ensures HandleVote(n, m).role == n.role && OnlyAnswered(n, HandleVote(n, m))
  {
    hide IsUpToDate;
  }

  // ---------------------------------------------------------- leaders that stay

  /** Only responses were sent, and perhaps a vote given. */
  ghost predicate OnlyAnswered(n: Node, n': Node) {
    && n' == n.(vote := n'.vote, msgs := n'.msgs, failed := n'.failed) && n.msgs <= n'.msgs
    && forall x | x in n'.msgs :: x in n.msgs || x.MsgVoteResp? || x.MsgPreVoteResp? || x.MsgAppResp?
  }

  lemma PreVotesAnswered(c: Config, n: Node, m: Message, e: Env)
    requires n.role.Leader? && (m.MsgPreVote? || m.MsgPreVoteResp?)
    ensures OnlyAnswered(n, StepKind(c, n, m, e))
  {
    hide HandleVote;
    if m.MsgPreVote? { VotesConfirmNone(n, m); }
  }

  /** A message of a later term either leaves the leader alone or ends its term. */
  lemma LaterTerm(c: Config, n: Node, m: Message, e: Env)
    requires n.role.Leader? && m.term > n.term && StepKind(c, CatchUp(c, n, m), m, e).role.Leader?
    ensures OnlyAnswered(n, StepKind(c, CatchUp(c, n, m), m, e))
  {
    hide StepKind, BecomeFollower, OnlyAnswered;
    if m.MsgPreVote? || (m.MsgPreVoteResp? && !m.reject) {
      PreVotesAnswered(c, n, m, e);
    } else {
      FollowerNow(c, n, m.term, if m.MsgApp? || m.MsgHeartbeat? then m.from else NONE);
      FollowerLeadsNot(c, CatchUp(c, n, m), m, e);
    }
  }

  /** A leader that stays one handles a message of its term as a leader, or does
      nothing but answer. */
  lemma LeaderStays(c: Config, n: Node, m: Message, e: Env)
    requires n.role.Leader? && Step(c, n, m, e).role.Leader?
    ensures Step(c, n, m, e) == StepLeader(c, n, m, e) || OnlyAnswered(n, Step(c, n, m, e))
  {
    hide StepLeader, StepKind, AnswerStale, CatchUp, OnlyAnswered, LeaseBlocks;
    if 0 < m.term < n.term {
      StaleAnswered(c, n, m);
    } else if m.term > n.term {
      if LeaseBlocks(c, n, m, e) { NothingAnswered(n); } else { LaterTerm(c, n, m, e); }
    } else {
      KindStays(c, n, m, e);
    }
  }

  lemma NothingAnswered(n: Node)
    ensures OnlyAnswered(n, n)
  {}

  lemma StaleAnswered(c: Config, n: Node, m: Message)
    ensures OnlyAnswered(n, AnswerStale(c, n, m))
  {}

  lemma KindStays(c: Config, n: Node, m: Message, e: Env)
    requires n.role.Leader?
    ensures StepKind(c, n, m, e) == StepLeader(c, n, m, e) || OnlyAnswered(n, StepKind(c, n, m, e))
  {
    hide StepLeader, HandleVote, OnlyAnswered, Campaign;
    NothingAnswered(n);
    if m.MsgVote? || m.MsgPreVote? { VotesConfirmNone(n, m); }
  }

  // ---------------------------------------------------------------- new leaders

  lemma CampaignLeadsNot(c: Config, n: Node)
    ensures !Campaign(c, n, Election).role.Leader?
  {
    hide SendVoteRequests, BecomeCandidate;
    RequestsSend(BecomeCandidate(c, n), Election, n.term + 1, c.voterIds);
    CandidateRoles(c, n);
  }

  /** Only a candidate that counts a vote becomes a leader. */
  lemma CandidateLeads(c: Config, n: Node, m: Message, e: Env)
    requires (n.role.Candidate? || n.role.PreCandidate?) && StepKind(c, n, m, e).role.Leader?
    ensures n.role.Candidate? && m.MsgVoteResp?
            && StepKind(c, n, m, e) == BcastAppend(c, BecomeLeader(c, RecordVote(n, m.from, !m.reject)), c.peers)
  {
    hide Hup, HandleAppendEntries, HandleHeartbeat, HandleVote, BcastAppend, BecomeLeader, Campaign, JointVote, Reset, OnlyAnswered;
    HupLeadsNot(c, n, if c.preVote then PreElection else Election, e);
    if m.MsgVote? || m.MsgPreVote? { VotesConfirmNone(n, m); }
    else if m.MsgApp? { AppendKeepsRole(BecomeFollower(c, n, m.term, m.from), m); }
    else if m.MsgHeartbeat? { BeatKeepsRole(BecomeFollower(c, n, m.term, m.from), m); }
    else if m.MsgPreVoteResp? && n.role.PreCandidate? { CampaignLeadsNot(c, RecordVote(n, m.from, !m.reject)); }
  }

  lemma NewLeader(c: Config, n: Node, m: Message, e: Env)
    requires !n.role.Leader? && Step(c, n, m, e).role.Leader?
    ensures n.role.Candidate? && m.MsgVoteResp? && m.term <= n.term
            && Step(c, n, m, e) == BcastAppend(c, BecomeLeader(c, RecordVote(n, m.from, !m.reject)), c.peers)
  {
    hide StepKind, BecomeFollower, BcastAppend, BecomeLeader, RecordVote;
    if 0 < m.term < n.term {
    } else if m.term > n.term && !LeaseBlocks(c, n, m, e) {
      if m.MsgPreVote? || (m.MsgPreVoteResp? && !m.reject) {
        NoneLeads(c, n, m, e);
      } else {
        FollowerNow(c, n, m.term, if m.MsgApp? || m.MsgHeartbeat? then m.from else NONE);
        FollowerLeadsNot(c, CatchUp(c, n, m), m, e);
      }
    } else {
      NoneLeads(c, n, m, e);
    }
  }

  lemma NoneLeads(c: Config, n: Node, m: Message, e: Env)
    requires !n.role.Leader?
    ensures StepKind(c, n, m, e).role.Leader? ==>
              && n.role.Candidate? && m.MsgVoteResp?
              && StepKind(c, n, m, e) == BcastAppend(c, BecomeLeader(c, RecordVote(n, m.from, !m.reject)), c.peers)
  {
    hide StepKind, BcastAppend, BecomeLeader, RecordVote;
    if n.role.Follower? { FollowerLeadsNot(c, n, m, e); }
    else if StepKind(c, n, m, e).role.Leader? { CandidateLeads(c, n, m, e); }
  }

  // ----------------------------------------------------- what a leader's step does

  /** The same node as to term, role, log, commit index and what peers hold. */
  ghost predicate KeepsLog(n: Node, n': Node) {
    && n'.id == n.id && n'.term == n.term && n'.role == n.role && n'.log == n.log && n'.committed == n.committed
    && n'.progress.Keys == n.progress.Keys && forall p | p in n.progress :: n'.progress[p].matched == n.progress[p].matched
  }

  lemma KeepsLogTrans(n: Node, n1: Node, n2: Node)
    requires KeepsLog(n, n1) && KeepsLog(n1, n2)
    ensures KeepsLog(n, n2)
  {}

  /** ... and as to everything else that is known of the peers. */
  ghost predicate KeepsPeers(n: Node, n': Node) {
    KeepsLog(n, n') && SameMatch(n.progress, n'.progress)
  }

  lemma SentKeepsPeers(n: Node, n': Node)
    requires OnlySent(n, n')
    ensures KeepsPeers(n, n')
  {}

  lemma QueueKeepsPeers(c: Config, n: Node, req: ReadRequest)
    ensures KeepsPeers(n, QueueRead(c, n, req))
  {
    hide BcastHeartbeat, OnlySent;
    var ro := n.readOnly.AddRequest(n.committed, req);
    var n' := n.(readOnly := ro.RecvAck(n.id, ro.HeartbeatCtx()));
    BcastHeartbeatSends(n', n'.readOnly.HeartbeatCtx(), c.peers);
    SentKeepsPeers(n', QueueRead(c, n, req));
  }

  lemma {:induction false} QueuesKeepPeers(c: Config, n: Node, reqs: seq<ReadRequest>)
    ensures KeepsPeers(n, QueueReads(c, n, reqs))
    decreases |reqs|
  {
    hide QueueRead;
    if reqs != [] {
      QueueKeepsPeers(c, n, reqs[0]);
      QueuesKeepPeers(c, QueueRead(c, n, reqs[0]), reqs[1..]);
    }
  }

  lemma ReleaseKeepsPeers(c: Config, n: Node)
    ensures KeepsPeers(n, ReleasePendingReads(c, n))
  {
    hide QueueReads;
    QueuesKeepPeers(c, n.(pendingReads := []), n.pendingReads);
  }

  lemma CommitSends(c: Config, n: Node, p: Id)
    requires p in n.progress
    ensures KeepsPeers(MaybeCommit(c, n), AfterCommit(c, n, p))
  {
    hide BcastAppend, SendAppend, ReleasePendingReads, Progress.CanBumpCommit, MaybeCommit, OnlySent;
    var n' := MaybeCommit(c, n);
    CommitKeeps(c, n);
    ReleaseKeepsPeers(c, n');
    BcastAppendSends(c, ReleasePendingReads(c, n'), c.peers);
    SentKeepsPeers(ReleasePendingReads(c, n'), BcastAppend(c, ReleasePendingReads(c, n'), c.peers));
    OneAppendSends(c, n', p);
    SentKeepsPeers(n', SendAppend(c, n', p));
  }

  lemma NewsSends(c: Config, n: Node, p: Id)
    requires p in n.progress
    ensures KeepsPeers(MaybeCommit(c, n), AfterNews(c, n, p))
  {
    hide AfterCommit, Drain, OnlySent, MaybeCommit;
    CommitSends(c, n, p);
    var n' := AfterCommit(c, n, p);
    CommitKeeps(c, n);
    DrainSends(c, n', p);
    SentKeepsPeers(n', Drain(c, n', p));
  }

  /** An acknowledgement that is news: the peer's progress, then the commit index. */
  ghost function Counted(c: Config, n: Node, p: Id, index: nat): Node
    requires p in n.progress
  {
    MaybeCommit(c, AfterAck(n, p, index))
  }

  lemma AckKeepsPeers(c: Config, n: Node, m: Message)
    requires m.MsgAppResp? && m.from in n.progress
    ensures KeepsPeers(if IsNews(n.progress[m.from], m.index) then Counted(c, n, m.from, m.index) else n, HandleAck(c, n, m))
  {
    hide HandleAck, AfterNews, MaybeCommit, AfterAck, IsNews;
    AckSplits(c, n, m);
    NewsSends(c, AfterAck(n, m.from, m.index), m.from);
  }

  lemma RejectKeepsLog(c: Config, n: Node, m: Message)
    requires m.MsgAppResp? && m.from in n.progress
    ensures KeepsLog(n, HandleReject(c, n, m))
  {
    hide SendAppend, OnlySent, NextProbeIndex, Progress.MaybeDecrTo, Progress.BecomeProbe;
    var pr := n.progress[m.from].MaybeDecrTo(m.index, NextProbeIndex(n.log, m.hint)).0;
    BackingOff(n.progress[m.from], m.index, NextProbeIndex(n.log, m.hint));
    var n' := SetProgress(n, m.from, if pr.state.StateReplicate? then pr.BecomeProbe() else pr);
    OneAppendSends(c, n', m.from);
    SentKeepsPeers(n', SendAppend(c, n', m.from));
  }

  lemma BackingOff(pr: Progress, rejected: nat, hint: nat)
    ensures pr.MaybeDecrTo(rejected, hint).0.matched == pr.matched
    ensures pr.MaybeDecrTo(rejected, hint).0.BecomeProbe().matched == pr.matched
  {}

  lemma TransferKeepsPeers(c: Config, n: Node, m: Message)
    requires m.MsgTransferLeader? && m.from in n.progress
    ensures KeepsPeers(n, HandleTransfer(c, n, m))
  {
    hide SendAppend, OnlySent;
    OneAppendSends(c, n.(transferee := m.from), m.from);
    SentKeepsPeers(n.(transferee := m.from), SendAppend(c, n.(transferee := m.from), m.from));
  }

  lemma ReadKeepsPeers(c: Config, n: Node, m: Message)
    requires m.MsgReadIndex?
    ensures KeepsPeers(n, HandleReadIndex(c, n, m))
  {
    hide QueueRead;
    QueueKeepsPeers(c, n, ReadRequest(m.from, m.ctx));
  }

  lemma {:induction false} AnswersKeepPeers(n: Node, batch: seq<PendingRead>)
    ensures KeepsPeers(n, RespondAll(n, batch))
    decreases |batch|
  {
    if batch != [] { AnswersKeepPeers(Respond(n, batch[0].req, batch[0].index), batch[1..]); }
  }

  lemma BeatKeepsLog(c: Config, n: Node, m: Message)
    requires m.MsgHeartbeatResp? && m.from in n.progress
    ensures KeepsLog(n, HandleHeartbeatResp(c, n, m))
  {
    hide HandleHeartbeatResp, AfterBeat, AdvanceReads, ReadOnly.RecvAck, OnlySent;
    BeatSplits(c, n, m);
    BeatSends(c, n, m.from);
    var n1 := AfterBeat(c, n, m.from);
    SentKeepsPeers(SetProgress(n, m.from, n.progress[m.from].(recentActive := true, paused := false)), n1);
    AdvanceKeepsPeers(c, n1.(readOnly := n1.readOnly.RecvAck(m.from, m.context)));
  }

  lemma AdvanceKeepsPeers(c: Config, n: Node)
    ensures KeepsPeers(n, AdvanceReads(c, n))
  {
    hide RespondAll, JointCommitted, ReadOnly.Confirmable, ReadOnly.MaybeAdvance, ReadOnly.InRange;
    var k := JointCommitted(c.voters, n.readOnly.acks);
    AnswersKeepPeers(n.(readOnly := n.readOnly.MaybeAdvance(c.voters), failed := n.failed || !n.readOnly.InRange(k)),
                   n.readOnly.Confirmable(c.voters));
  }

  lemma ProposalGrowsLog(c: Config, n: Node, payloads: seq<Payload>)
    ensures KeepsPeers(n.(log := n.log + Stamped(n, payloads)), BcastAppend(c, AppendEntry(n, payloads), c.peers))
  {
    hide BcastAppend, OnlySent;
    BcastAppendSends(c, AppendEntry(n, payloads), c.peers);
    SentKeepsPeers(AppendEntry(n, payloads), BcastAppend(c, AppendEntry(n, payloads), c.peers));
  }

  /** What becomes of a leader's log, commit index and knowledge of its peers: a
      proposal grows the log, an acknowledgement that is news is counted, nothing
      else matters. */
  ghost function Advanced(c: Config, n: Node, m: Message, e: Env): Node {
    if m.MsgProp? && m.payloads != [] && n.id in n.progress && n.transferee == NONE && e.quota then
      n.(log := n.log + Stamped(n, m.payloads))
    else if m.MsgAppResp? && !m.reject && m.from in n.progress && IsNews(n.progress[m.from], m.index) then
      Counted(c, n, m.from, m.index)
    else n
  }

  lemma LeaderAdvances(c: Config, n: Node, m: Message, e: Env)
    requires n.role.Leader? && StepLeader(c, n, m, e).role.Leader?
    ensures KeepsLog(Advanced(c, n, m, e), StepLeader(c, n, m, e))
  {
    hide BcastHeartbeat, BcastAppend, AppendEntry, HandleReadIndex, HandleReject, HandleAck, HandleHeartbeatResp,
      HandleTransfer, OnlySent, Counted, IsNews, HandleCheckQuorum, Progress.BecomeProbe;
    if m.MsgBeat? {
      BcastHeartbeatSends(n, n.readOnly.HeartbeatCtx(), c.peers);
      SentKeepsPeers(n, StepLeader(c, n, m, e));
    } else if m.MsgCheckQuorum? {
      CheckKeepsLog(c, n);
    } else if m.MsgProp? {
      ProposalGrowsLog(c, n, m.payloads);
    } else if m.MsgReadIndex? {
      ReadKeepsPeers(c, n, m);
    } else if m.from in n.progress {
      if m.MsgAppResp? {
        ResponseAdvances(c, n, m);
      } else if m.MsgHeartbeatResp? {
        BeatKeepsLog(c, n, m);
      } else if m.MsgTransferLeader? {
        TransferKeepsPeers(c, n, m);
      } else if m.MsgUnreachable? {
        ProbeKeepsLog(n, m.from);
      }
    }
  }

  lemma CheckKeepsLog(c: Config, n: Node)
    requires HandleCheckQuorum(c, n).role.Leader?
    ensures KeepsLog(n, HandleCheckQuorum(c, n))
  {
    hide JointVote;
  }

  lemma ProbeKeepsLog(n: Node, p: Id)
    requires p in n.progress
    ensures KeepsLog(n, SetProgress(n, p, n.progress[p].BecomeProbe()))
  {}

  /** That a peer is active does not matter to what is counted. */
  lemma ResponseAdvances(c: Config, n: Node, m: Message)
    requires m.MsgAppResp? && m.from in n.progress
    ensures var n' := SetProgress(n, m.from, n.progress[m.from].(recentActive := true));
            KeepsLog(if !m.reject && IsNews(n.progress[m.from], m.index) then Counted(c, n, m.from, m.index) else n,
                     if m.reject then HandleReject(c, n', m) else HandleAck(c, n', m))
  {
    hide HandleReject, HandleAck, MaybeCommit, AckedProgress;
    var p := m.from;
    var n' := SetProgress(n, p, n.progress[p].(recentActive := true));
    if m.reject {
      RejectKeepsLog(c, n', m);
    } else {
      AckKeepsPeers(c, n', m);
      AckRaises(n, p, m.index);
      AckRaises(n', p, m.index);
      CommitAlike(c, AfterAck(n, p, m.index), AfterAck(n', p, m.index));
    }
  }

  lemma AckRaises(n: Node, p: Id, index: nat)
    requires p in n.progress
    ensures AckedProgress(n.progress[p].MaybeUpdate(index).0, index).matched == Max(n.progress[p].matched, index)
  {
    hide Window.FreeLE;
  }

  lemma CommitAlike(c: Config, n: Node, n': Node)
    requires KeepsLog(n, n')
    ensures KeepsLog(MaybeCommit(c, n), MaybeCommit(c, n'))
  {
    hide JointCommitted;
    assert MatchIndexes(n) == MatchIndexes(n');
  }

  /** The same for any step of a leader that stays one. */
  lemma StepAdvances(c: Config, n: Node, m: Message, e: Env)
    requires n.role.Leader? && Step(c, n, m, e).role.Leader?
    ensures KeepsLog(Advanced(c, n, m, e), Step(c, n, m, e)) || KeepsLog(n, Step(c, n, m, e))
  {
    hide Step, StepLeader, Advanced;
    LeaderStays(c, n, m, e);
    if Step(c, n, m, e) == StepLeader(c, n, m, e) { LeaderAdvances(c, n, m, e); }
  }
}
