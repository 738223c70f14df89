/** Nothing comes from nowhere: every entry, request and message that a step leaves
    behind was there before or is taken from the message it handled. */
module Derivation {
  import opened Quorum
  import opened Logs
  import opened Flow
  import opened ReadQueue
  import opened RaftSpec
  import opened Handling
  import opened Effects
  import opened ReadIndex
  import opened VoteLaws

  // ---------------------------------------------------------------- the relation

  /** The entry is in the log or in the message, or is the empty one of a new term. */
  predicate Known(m: Message, n: Node, x: Entry) {
    x in n.log || x.data == "" || (m.MsgApp? && x in m.entries) || (m.MsgProp? && x.data in m.payloads)
  }

  ghost predicate Waits(n: Node, r: ReadRequest) {
    r in n.pendingReads || exists u :: u in n.readOnly.unconfirmed && u.req == r
  }

  /** The read waits at the node or is asked for by the message. */
  ghost predicate KnownRead(m: Message, n: Node, r: ReadRequest) {
    Waits(n, r) || (m.MsgReadIndex? && r == ReadRequest(m.from, m.ctx))
  }

  /** A message that may be sent: it carries known entries, and what it forwards is
      what was to be forwarded, with the one who asked. */
  predicate Made(m: Message, n: Node, x: Message) {
    && (x.MsgApp? ==> forall y | y in x.entries :: Known(m, n, y))
    && (x.MsgProp? ==> m.MsgProp? && x.payloads == m.payloads)
    && (x.MsgReadIndex? ==> m.MsgReadIndex? && x.ctx == m.ctx && x.from == if m.from == NONE then n.id else m.from)
  }

  ghost predicate Derives(m: Message, n: Node, n': Node) {
    && n'.id == n.id
    && (forall x | x in n'.log :: Known(m, n, x))
    && (forall r | r in n'.pendingReads :: KnownRead(m, n, r))
    && (forall u | u in n'.readOnly.unconfirmed :: KnownRead(m, n, u.req))
    && (forall x | x in n'.msgs :: x in n.msgs || Made(m, n, x))
  }

  lemma KnownBefore(m: Message, n: Node, n1: Node, x: Entry)
    requires Derives(m, n, n1) && Known(m, n1, x)
    ensures Known(m, n, x)
  {}

  lemma KnownReadBefore(m: Message, n: Node, n1: Node, r: ReadRequest)
    requires Derives(m, n, n1) && KnownRead(m, n1, r)
    ensures KnownRead(m, n, r)
  {}

  lemma DerivesTrans(m: Message, n: Node, n1: Node, n2: Node)
    requires Derives(m, n, n1) && Derives(m, n1, n2)
    ensures Derives(m, n, n2)
  {
    hide Known, KnownRead;
    forall x | x in n2.log ensures Known(m, n, x) { KnownBefore(m, n, n1, x); }
    forall r | r in n2.pendingReads ensures KnownRead(m, n, r) { KnownReadBefore(m, n, n1, r); }
    forall u | u in n2.readOnly.unconfirmed ensures KnownRead(m, n, u.req) { KnownReadBefore(m, n, n1, u.req); }
    forall x | x in n2.msgs ensures x in n.msgs || Made(m, n, x) {
      if x !in n1.msgs { MadeBefore(m, n, n1, x); }
    }
  }

  lemma MadeBefore(m: Message, n: Node, n1: Node, x: Message)
    requires Derives(m, n, n1) && Made(m, n1, x)
    ensures Made(m, n, x)
  {
    hide Known, KnownRead;
    if x.MsgApp? {
      forall y | y in x.entries ensures Known(m, n, y) { KnownBefore(m, n, n1, y); }
    }
  }

  /** Neither an answer to a read nor the word to campaign. */
  predicate Plain(x: Message) { !x.MsgReadIndexResp? && !x.MsgTimeoutNow? }

  /** No read was answered. */
  ghost predicate NoAnswers(n: Node, n': Node) {
    n'.readStates == n.readStates && forall x | x in n'.msgs :: x in n.msgs || !x.MsgReadIndexResp?
  }

  /** Nobody was told to campaign. */
  ghost predicate NoWord(n: Node, n': Node) {
    forall x | x in n'.msgs :: x in n.msgs || !x.MsgTimeoutNow?
  }

  ghost predicate Quiet(m: Message, n: Node, n': Node) {
    Derives(m, n, n') && NoAnswers(n, n') && NoWord(n, n')
  }

  lemma QuietTrans(m: Message, n: Node, n1: Node, n2: Node)
    requires Quiet(m, n, n1) && Quiet(m, n1, n2)
    ensures Quiet(m, n, n2)
  {
    hide Derives;
    DerivesTrans(m, n, n1, n2);
  }

  /** The log and the reads are as before, and only such messages were sent. */
  ghost predicate Sends(m: Message, n: Node, n': Node) {
    && n'.id == n.id && n'.log == n.log && n'.pendingReads == n.pendingReads && n'.readStates == n.readStates
    && (n'.readOnly.unconfirmed == n.readOnly.unconfirmed || n'.readOnly.unconfirmed == [])
    && forall x | x in n'.msgs :: x in n.msgs || (Plain(x) && Made(m, n, x))
  }

  lemma SendsQuietly(m: Message, n: Node, n': Node)
    requires Sends(m, n, n')
    ensures Quiet(m, n, n')
  {}

  lemma SentQuietly(m: Message, n: Node, n': Node)
    requires OnlySent(n, n')
    ensures Quiet(m, n, n')
  {
    assert Sends(m, n, n');
  }

  // -------------------------------------------------------------- leaders' duties

  lemma {:induction false} QueuesDerive(c: Config, m: Message, n: Node, reqs: seq<ReadRequest>, n0: Node)
    requires Quiet(m, n0, n) && forall r | r in reqs :: KnownRead(m, n0, r)
    ensures Quiet(m, n0, QueueReads(c, n, reqs))
    decreases |reqs|
  {
    hide QueueRead, Quiet, KnownRead;
    if reqs != [] {
      QueueKnown(c, m, n, reqs[0], n0);
      QueuesDerive(c, m, QueueRead(c, n, reqs[0]), reqs[1..], n0);
    }
  }

  /** Queueing a read that was known before. */
  lemma QueueKnown(c: Config, m: Message, n: Node, req: ReadRequest, n0: Node)
    requires Quiet(m, n0, n) && KnownRead(m, n0, req)
    ensures Quiet(m, n0, QueueRead(c, n, req))
  {
    hide BcastHeartbeat, OnlySent, KnownRead;
    var ro := n.readOnly.AddRequest(n.committed, req);
    var n1 := n.(readOnly := ro.RecvAck(n.id, ro.HeartbeatCtx()));
    assert Quiet(m, n0, n1);
    BcastHeartbeatSends(n1, n1.readOnly.HeartbeatCtx(), c.peers);
    SentQuietly(m, n1, QueueRead(c, n, req));
    QuietTrans(m, n0, n1, QueueRead(c, n, req));
  }

  lemma ReleaseDerives(c: Config, m: Message, n: Node)
    ensures Quiet(m, n, ReleasePendingReads(c, n))
  {
    hide QueueReads;
    assert Quiet(m, n, n);
    assert Quiet(m, n, n.(pendingReads := []));
    QueuesDerive(c, m, n.(pendingReads := []), n.pendingReads, n);
  }

  lemma CommitDerives(c: Config, m: Message, n: Node, p: Id)
    requires p in n.progress
    ensures Quiet(m, n, AfterCommit(c, n, p))
  {
    hide BcastAppend, SendAppend, ReleasePendingReads, MaybeCommit, OnlySent, Quiet;
    var n1 := MaybeCommit(c, n);
    CommitKeeps(c, n);
    SendsQuietly(m, n, n1);
    if n1.committed != n.committed {
      var n2 := ReleasePendingReads(c, n1);
      ReleaseDerives(c, m, n1);
      BcastAppendSends(c, n2, c.peers);
      SentQuietly(m, n2, BcastAppend(c, n2, c.peers));
      QuietTrans(m, n, n1, n2);
      QuietTrans(m, n, n2, BcastAppend(c, n2, c.peers));
    } else {
      OneAppendSends(c, n1, p);
      SentQuietly(m, n1, SendAppend(c, n1, p));
      QuietTrans(m, n, n1, SendAppend(c, n1, p));
    }
  }

  lemma NewsDerives(c: Config, m: Message, n: Node, p: Id)
    requires p in n.progress
    ensures Quiet(m, n, AfterNews(c, n, p))
  {
    hide AfterCommit, Drain, OnlySent, Quiet;
    CommitDerives(c, m, n, p);
    var n' := AfterCommit(c, n, p);
    if p in n'.progress {
      DrainSends(c, n', p);
      SentQuietly(m, n', Drain(c, n', p));
      QuietTrans(m, n, n', Drain(c, n', p));
    }
  }

  /** An acknowledgement: only the word to the transferee is not quiet. */
  lemma AckDerives(c: Config, m: Message, n: Node)
    requires m.MsgAppResp? && m.from in n.progress
    ensures Derives(m, n, HandleAck(c, n, m)) && NoAnswers(n, HandleAck(c, n, m))
    ensures HandleAck(c, n, m) == n ||
            exists n2 :: Quiet(m, n, n2) && HandleAck(c, n, m) == Transferred(n2, m.from) && KeepsPeers(Counted(c, n, m.from, m.index), n2)
  {
    hide HandleAck, AfterNews, AckedProgress, IsNews, Derives, MaybeCommit;
    AckSplits(c, n, m);
    NothingDerives(m, n);
    var n1 := AfterAck(n, m.from, m.index);
    SendsQuietly(m, n, n1);
    NewsDerives(c, m, n1, m.from);
    var n2 := AfterNews(c, n1, m.from);
    QuietTrans(m, n, n1, n2);
    NewsSends(c, n1, m.from);
    WordDerives(m, n, n2);
    assert Quiet(m, n, n2) && KeepsPeers(Counted(c, n, m.from, m.index), n2);
  }

  lemma NothingDerives(m: Message, n: Node)
    ensures Quiet(m, n, n)
  {}

  lemma WordDerives(m: Message, n: Node, n': Node)
    requires Quiet(m, n, n') && m.MsgAppResp?
    ensures Derives(m, n, Transferred(n', m.from)) && NoAnswers(n, Transferred(n', m.from))
  {}

  lemma RejectDerives(c: Config, m: Message, n: Node)
    requires m.MsgAppResp? && m.from in n.progress
    ensures Quiet(m, n, HandleReject(c, n, m))
  {
    hide SendAppend, OnlySent, NextProbeIndex, Progress.MaybeDecrTo, Progress.BecomeProbe, Quiet;
    NothingDerives(m, n);
    var pr := n.progress[m.from].MaybeDecrTo(m.index, NextProbeIndex(n.log, m.hint)).0;
    var n' := SetProgress(n, m.from, if pr.state.StateReplicate? then pr.BecomeProbe() else pr);
    SendsQuietly(m, n, n');
    OneAppendSends(c, n', m.from);
    SentQuietly(m, n', SendAppend(c, n', m.from));
    QuietTrans(m, n, n', SendAppend(c, n', m.from));
  }

  lemma TransferDerives(c: Config, m: Message, n: Node)
    requires m.MsgTransferLeader? && m.from in n.progress
    ensures Derives(m, n, HandleTransfer(c, n, m)) && NoAnswers(n, HandleTransfer(c, n, m))
  {
    hide SendAppend, OnlySent;
    var n' := n.(transferee := m.from);
    SendsQuietly(m, n, n');
    OneAppendSends(c, n', m.from);
    SentQuietly(m, n', SendAppend(c, n', m.from));
    QuietTrans(m, n, n', SendAppend(c, n', m.from));
  }

  lemma ReadDerives(c: Config, m: Message, n: Node)
    requires m.MsgReadIndex?
    ensures Derives(m, n, HandleReadIndex(c, n, m)) && NoWord(n, HandleReadIndex(c, n, m))
    ensures !c.IsSingleton() ==> NoAnswers(n, HandleReadIndex(c, n, m))
  {
    hide QueueRead;
    NothingDerives(m, n);
    QueueKnown(c, m, n, ReadRequest(m.from, m.ctx), n);
  }

  lemma AdvanceDerives(c: Config, m: Message, n: Node)
    ensures Derives(m, n, AdvanceReads(c, n)) && NoWord(n, AdvanceReads(c, n))
  {
    hide RespondAll, JointCommitted, LocalAnswers, RemoteAnswers;
    var k, batch := JointCommitted(c.voters, n.readOnly.acks), n.readOnly.Confirmable(c.voters);
    var n1 := n.(readOnly := n.readOnly.MaybeAdvance(c.voters), failed := n.failed || !n.readOnly.InRange(k));
    AnsweredInOrder(n1, batch);
    OnlyResponses(n.id, n.term, batch);
    forall u | u in n1.readOnly.unconfirmed ensures KnownRead(m, n, u.req) {
      assert u in n.readOnly.unconfirmed;
    }
  }

  lemma {:induction false} OnlyResponses(id: Id, term: nat, batch: seq<PendingRead>)
    ensures forall x | x in RemoteAnswers(id, term, batch) :: x.MsgReadIndexResp?
    decreases |batch|
  {
    if batch != [] { OnlyResponses(id, term, batch[1..]); }
  }

  lemma BeatDerives(c: Config, m: Message, n: Node)
    requires m.MsgHeartbeatResp? && m.from in n.progress
    ensures Derives(m, n, HandleHeartbeatResp(c, n, m)) && NoWord(n, HandleHeartbeatResp(c, n, m))
    ensures m.context == 0 ==> NoAnswers(n, HandleHeartbeatResp(c, n, m))
  {
    hide HandleHeartbeatResp, AfterBeat, AdvanceReads, OnlySent, Derives;
    BeatSplits(c, n, m);
    BeatSends(c, n, m.from);
    var n0 := SetProgress(n, m.from, n.progress[m.from].(recentActive := true, paused := false));
    var n1 := AfterBeat(c, n, m.from);
    SendsQuietly(m, n, n0);
    SentQuietly(m, n0, n1);
    QuietTrans(m, n, n0, n1);
    var n2 := n1.(readOnly := n1.readOnly.RecvAck(m.from, m.context));
    SendsQuietly(m, n1, n2);
    AdvanceDerives(c, m, n2);
    DerivesTrans(m, n, n1, n2);
    DerivesTrans(m, n, n2, AdvanceReads(c, n2));
  }

  lemma AppendEntryDerives(m: Message, n: Node, payloads: seq<Payload>)
    requires (m.MsgProp? && m.payloads == payloads) || payloads == [""]
    ensures Quiet(m, n, AppendEntry(n, payloads))
  {
    var n' := AppendEntry(n, payloads);
    forall x | x in n'.log ensures Known(m, n, x) {
      if x !in n.log {
        var i :| 0 <= i < |payloads| && Stamped(n, payloads)[i] == x;
      }
    }
  }

  lemma ProposalDerives(c: Config, m: Message, n: Node, payloads: seq<Payload>)
    requires (m.MsgProp? && m.payloads == payloads) || payloads == [""]
    ensures Quiet(m, n, BcastAppend(c, AppendEntry(n, payloads), c.peers))
  {
    hide BcastAppend, OnlySent, AppendEntry, Quiet;
    var n1 := AppendEntry(n, payloads);
    AppendEntryDerives(m, n, payloads);
    BcastAppendSends(c, n1, c.peers);
    SentQuietly(m, n1, BcastAppend(c, n1, c.peers));
    QuietTrans(m, n, n1, BcastAppend(c, n1, c.peers));
  }

  lemma CheckDerives(c: Config, m: Message, n: Node)
    ensures Quiet(m, n, HandleCheckQuorum(c, n))
  {
    hide JointVote, AllFresh;
    SendsQuietly(m, n, HandleCheckQuorum(c, n));
  }

  /** What a leader does with a message. */
  lemma LeaderDerives(c: Config, n: Node, m: Message, e: Env)
    ensures var n' := StepLeader(c, n, m, e);
            && Derives(m, n, n')
            && (NoAnswers(n, n') || (m.MsgHeartbeatResp? && m.from in n.progress && m.context != 0) || (m.MsgReadIndex? && c.IsSingleton()))
            && (NoWord(n, n') || m.MsgAppResp? || m.MsgTransferLeader?)
  {
    hide BcastHeartbeat, BcastAppend, AppendEntry, HandleReadIndex, HandleReject, HandleAck, HandleHeartbeatResp, HandleTransfer,
      HandleCheckQuorum, Derives, OnlySent, Progress.BecomeProbe;
    NothingDerives(m, n);
    if m.MsgBeat? {
      BcastHeartbeatSends(n, n.readOnly.HeartbeatCtx(), c.peers);
      SentQuietly(m, n, StepLeader(c, n, m, e));
    } else if m.MsgCheckQuorum? {
      CheckDerives(c, m, n);
    } else if m.MsgProp? {
      ProposalDerives(c, m, n, m.payloads);
      SendsQuietly(m, n, n.(failed := true));
    } else if m.MsgReadIndex? {
      ReadDerives(c, m, n);
    } else if m.from in n.progress {
      PeerDerives(c, n, m, e);
    }
  }

  lemma PeerDerives(c: Config, n: Node, m: Message, e: Env)
    requires m.from in n.progress && !m.MsgBeat? && !m.MsgCheckQuorum? && !m.MsgProp? && !m.MsgReadIndex?
    ensures var n' := StepLeader(c, n, m, e);
            && Derives(m, n, n')
            && (NoAnswers(n, n') || (m.MsgHeartbeatResp? && m.context != 0))
            && (NoWord(n, n') || m.MsgAppResp? || m.MsgTransferLeader?)
  {
    hide HandleReject, HandleAck, HandleHeartbeatResp, HandleTransfer, Derives, Progress.BecomeProbe;
    NothingDerives(m, n);
    if m.MsgAppResp? {
      var n1 := SetProgress(n, m.from, n.progress[m.from].(recentActive := true));
      SendsQuietly(m, n, n1);
      RejectDerives(c, m, n1);
      AckDerives(c, m, n1);
      DerivesTrans(m, n, n1, HandleReject(c, n1, m));
      DerivesTrans(m, n, n1, HandleAck(c, n1, m));
    } else if m.MsgHeartbeatResp? {
      BeatDerives(c, m, n);
    } else if m.MsgUnreachable? {
      SendsQuietly(m, n, SetProgress(n, m.from, n.progress[m.from].BecomeProbe()));
    } else if m.MsgTransferLeader? {
      TransferDerives(c, m, n);
    }
  }

  // -------------------------------------------------------------- the other roles

  lemma ResetDerives(c: Config, m: Message, n: Node, term: nat, lead: Id)
    ensures Quiet(m, n, BecomeFollower(c, n, term, lead)) && Quiet(m, n, BecomeCandidate(c, n)) && Quiet(m, n, BecomePreCandidate(n))
  {
    hide AllFresh;
    SendsQuietly(m, n, BecomeFollower(c, n, term, lead));
    SendsQuietly(m, n, BecomeCandidate(c, n));
    SendsQuietly(m, n, BecomePreCandidate(n));
  }

  lemma RequestsDerive(m: Message, n: Node, n0: Node, t: CampaignType, ids: seq<Id>)
    requires n.id == n0.id && n.log == n0.log
    ensures Quiet(m, n, SendVoteRequests(n, t, n0.term + 1, ids))
  {
    hide SendVoteRequests;
    AsksEach(n, n0, t, ids);
    forall x | x in Requests(n0, t, ids) ensures Plain(x) && Made(m, n, x) {}
    SendsQuietly(m, n, SendVoteRequests(n, t, n0.term + 1, ids));
  }

  lemma CampaignDerives(c: Config, m: Message, n: Node, t: CampaignType)
    ensures Quiet(m, n, Campaign(c, n, t))
  {
    hide SendVoteRequests, AllFresh, Quiet;
    ResetDerives(c, m, n, 0, NONE);
    if t.PreElection? {
      RequestsDerive(m, BecomePreCandidate(n), n, t, c.voterIds);
      QuietTrans(m, n, BecomePreCandidate(n), Campaign(c, n, t));
    } else {
      RequestsDerive(m, BecomeCandidate(c, n), n, t, c.voterIds);
      QuietTrans(m, n, BecomeCandidate(c, n), Campaign(c, n, t));
    }
  }

  lemma HupDerives(c: Config, m: Message, n: Node, t: CampaignType, e: Env)
    ensures Quiet(m, n, Hup(c, n, t, e))
  {
    hide Campaign, Quiet;
    NothingDerives(m, n);
    CampaignDerives(c, m, n, t);
  }

  lemma VoteDerives(m: Message, n: Node)
    requires m.MsgVote? || m.MsgPreVote?
    ensures Quiet(m, n, HandleVote(n, m))
  {
    hide IsUpToDate;
    SendsQuietly(m, n, HandleVote(n, m));
  }

  lemma SplicedKnown(m: Message, n: Node)
    requires m.MsgApp?
    ensures forall x | x in Spliced(n.log, m.prev.index, m.entries) :: Known(m, n, x)
  {
    hide FindConflict;
  }

  lemma AppendDerives(m: Message, n: Node)
    requires m.MsgApp?
    ensures Quiet(m, n, HandleAppendEntries(n, m))
  {
    hide Spliced, FindConflict, RejectionHint, MatchTerm;
    SplicedKnown(m, n);
  }

  lemma HeartbeatDerives(m: Message, n: Node)
    requires m.MsgHeartbeat?
    ensures Quiet(m, n, HandleHeartbeat(n, m))
  {
    SendsQuietly(m, n, HandleHeartbeat(n, m));
  }

  lemma StaleDerives(c: Config, m: Message, n: Node)
    ensures Quiet(m, n, AnswerStale(c, n, m))
  {
    SendsQuietly(m, n, AnswerStale(c, n, m));
  }

  lemma ForwardDerives(m: Message, n: Node, x: Message)
    requires Plain(x) && Made(m, n, x)
    ensures Quiet(m, n, Forward(n, m.term, x))
  {
    SendsQuietly(m, n, Forward(n, m.term, x));
  }

  lemma FollowerDerives(c: Config, n: Node, m: Message, e: Env)
    ensures var n' := StepFollower(c, n, m, e); Derives(m, n, n') && NoWord(n, n') && (NoAnswers(n, n') || m.MsgReadIndexResp?)
  {
    hide HandleAppendEntries, HandleHeartbeat, Hup, Forward, Derives;
    NothingDerives(m, n);
    var asker := if m.from == NONE then n.id else m.from;
    if m.MsgProp? {
      ForwardDerives(m, n, MsgProp(asker, n.lead, 0, m.payloads));
    } else if m.MsgApp? {
      LeadDerives(m, n, m.from);
      AppendDerives(m, n.(lead := m.from));
      QuietTrans(m, n, n.(lead := m.from), StepFollower(c, n, m, e));
    } else if m.MsgHeartbeat? {
      LeadDerives(m, n, m.from);
      HeartbeatDerives(m, n.(lead := m.from));
      QuietTrans(m, n, n.(lead := m.from), StepFollower(c, n, m, e));
    } else if m.MsgTransferLeader? {
      ForwardDerives(m, n, MsgTransferLeader(asker, n.lead, n.term));
    } else if m.MsgForgetLeader? {
      LeadDerives(m, n, NONE);
    } else if m.MsgTimeoutNow? {
      HupDerives(c, m, n, Transfer, e);
    } else if m.MsgReadIndex? {
      ForwardDerives(m, n, MsgReadIndex(asker, n.lead, 0, m.ctx));
    } else if m.MsgReadIndexResp? {
      AnsweredDerives(m, n);
    }
  }

  lemma LeadDerives(m: Message, n: Node, lead: Id)
    ensures Quiet(m, n, n.(lead := lead))
  {
    SendsQuietly(m, n, n.(lead := lead));
  }

  lemma AnsweredDerives(m: Message, n: Node)
    requires m.MsgReadIndexResp?
    ensures var n' := n.(readStates := n.readStates + [ReadState(m.index, m.ctx)]); Derives(m, n, n') && NoWord(n, n')
  {}

  lemma WinnerDerives(c: Config, m: Message, n: Node)
    ensures Quiet(m, n, BcastAppend(c, BecomeLeader(c, n), c.peers))
  {
    hide BcastAppend, AppendEntry, Quiet, AllFresh, Progress.BecomeReplicate;
    var n1 := Reset(c, n, n.term).(lead := n.id, role := Leader, failed := n.failed || n.role.Follower? || n.id !in n.progress);
    var n2 := if n.id in n1.progress
              then SetProgress(n1, n.id, n1.progress[n.id].BecomeReplicate().(recentActive := true)) else n1;
    SendsQuietly(m, n, n2);
    ProposalDerives(c, m, n2, [""]);
    QuietTrans(m, n, n2, BcastAppend(c, BecomeLeader(c, n), c.peers));
  }

  lemma CountDerives(c: Config, m: Message, n: Node, from: Id, granted: bool)
    ensures Quiet(m, n, CountVote(c, n, from, granted))
  {
    hide JointVote, Campaign, BcastAppend, BecomeLeader, BecomeFollower, Quiet;
    var n1 := RecordVote(n, from, granted);
    SendsQuietly(m, n, n1);
    CampaignDerives(c, m, n1, Election);
    WinnerDerives(c, m, n1);
    ResetDerives(c, m, n1, n1.term, NONE);
    QuietTrans(m, n, n1, Campaign(c, n1, Election));
    QuietTrans(m, n, n1, BcastAppend(c, BecomeLeader(c, n1), c.peers));
    QuietTrans(m, n, n1, BecomeFollower(c, n1, n1.term, NONE));
  }

  lemma CandidateDerives(c: Config, n: Node, m: Message)
    ensures Quiet(m, n, StepCandidate(c, n, m))
  {
    hide BecomeFollower, HandleAppendEntries, HandleHeartbeat, CountVote, Quiet;
    NothingDerives(m, n);
    var n1 := BecomeFollower(c, n, m.term, m.from);
    ResetDerives(c, m, n, m.term, m.from);
    if m.MsgApp? {
      AppendDerives(m, n1);
      QuietTrans(m, n, n1, HandleAppendEntries(n1, m));
    } else if m.MsgHeartbeat? {
      HeartbeatDerives(m, n1);
      QuietTrans(m, n, n1, HandleHeartbeat(n1, m));
    } else if m.MsgPreVoteResp? || m.MsgVoteResp? {
      CountDerives(c, m, n, m.from, !m.reject);
    }
  }

  /** Who may have answered a read in a step: a leader on a heartbeat response, a
      follower that was sent the answer, or a leader that is the only voter. */
  predicate MayAnswer(c: Config, n: Node, m: Message) {
    || (n.role.Leader? && m.MsgHeartbeatResp? && m.from in n.progress && m.context != 0)
    || (n.role.Follower? && m.MsgReadIndexResp?)
    || (n.role.Leader? && m.MsgReadIndex? && c.IsSingleton())
  }

  lemma KindDerives(c: Config, n: Node, m: Message, e: Env)
    ensures var n' := StepKind(c, n, m, e);
            && Derives(m, n, n') && (NoAnswers(n, n') || MayAnswer(c, n, m))
            && (NoWord(n, n') || (n' == StepLeader(c, n, m, e) && n.role.Leader? && (m.MsgAppResp? || m.MsgTransferLeader?)))
  {
    hide Hup, HandleVote, StepLeader, StepFollower, StepCandidate, Derives;
    if m.MsgHup? { HupDerives(c, m, n, if c.preVote then PreElection else Election, e); }
    else if m.MsgVote? || m.MsgPreVote? { VoteDerives(m, n); }
    else if n.role.Leader? { LeaderDerives(c, n, m, e); }
    else if n.role.Follower? { FollowerDerives(c, n, m, e); }
    else { CandidateDerives(c, n, m); }
  }

  /** The node as it is once the message's term has been dealt with. */
  function InTerm(c: Config, n: Node, m: Message): Node {
    if m.term > n.term then CatchUp(c, n, m) else n
  }

  /** A step as a whole. */
  lemma StepDerives(c: Config, n: Node, m: Message, e: Env)
    ensures var n' := Step(c, n, m, e);
            && Derives(m, n, n')
            && (NoAnswers(n, n') || (MayAnswer(c, InTerm(c, n, m), m) && n' == StepKind(c, InTerm(c, n, m), m, e)))
            && (NoWord(n, n') || (&& n' == StepLeader(c, n, m, e) && n.role.Leader? && (m.MsgAppResp? || m.MsgTransferLeader?)
                                  && (m.term == 0 || m.term == n.term)))
  {
    hide StepKind, AnswerStale, CatchUp, LeaseBlocks, Derives;
    if 0 < m.term < n.term {
      StaleDerives(c, m, n);
    } else if m.term > n.term {
      NothingDerives(m, n);
      CatchUpDerives(c, m, n);
      KindDerives(c, CatchUp(c, n, m), m, e);
      DerivesTrans(m, n, CatchUp(c, n, m), StepKind(c, CatchUp(c, n, m), m, e));
    } else {
      KindDerives(c, n, m, e);
    }
  }

  lemma CatchUpDerives(c: Config, m: Message, n: Node)
    requires m.term > n.term
    ensures Quiet(m, n, CatchUp(c, n, m)) && CatchUp(c, n, m).msgs == n.msgs
    ensures CatchUp(c, n, m).role.Leader? ==> n.role.Leader? && !m.MsgAppResp? && !m.MsgTransferLeader?
  {
    hide AllFresh;
    SendsQuietly(m, n, CatchUp(c, n, m));
  }
}
