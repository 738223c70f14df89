/** Every step of a node, whatever message it handles, keeps the invariant. */
module NodeSteps {
  import opened Quorum
  import opened Logs
  import opened Flow
  import opened FlowLaws
  import opened ReadQueue
  import opened RaftSpec
  import opened History
  import opened Growth
  import opened Invariant
  import opened Stepping
  import opened Elections
  import opened Replication
  import opened Followers
  import opened ReadSafety

  lemma PeerFact(c: Config, n: Node, h: Hist, p: Id)
    requires Ok(c, n, h)
    ensures p in n.progress <==> p in c.peers
    ensures NONE !in c.peers
  {
    hide HistInv, LogFits, CommitFits, AcksFit, PastFits, OutboxOk, Tracks, Leading, Serving, Running;
  }

  /** Messages of the nodes carry a term, unless they say nothing. */
  lemma TermNotZero(c: Config, h: Hist, m: Message)
    requires HistInv(c, h) && MsgOk(m, h)
    ensures m.MsgApp? || m.MsgHeartbeat? || m.MsgVote? || m.MsgPreVote? ==> m.term > 0
    ensures m.MsgVoteResp? && !m.reject ==> m.term > 0
    ensures m.MsgAppResp? && !m.reject && m.index > 0 ==> m.term > 0
    ensures m.MsgHeartbeatResp? && m.context > 0 ==> m.term > 0
  {
    hide HistInv;
    HistParts(c, h);
    if m.MsgApp? || m.MsgHeartbeat? { LeaderAt(c, h, m.term); }
    else if m.MsgVoteResp? && !m.reject { assert BallotOk(h, Key(m.term, m.from)); }
    else if m.MsgAppResp? && !m.reject && m.index > 0 {
      assert AckOk(h, AckRec(m.term, m.from, m.index));
      LeaderAt(c, h, m.term);
    } else if m.MsgHeartbeatResp? && m.context > 0 {
      assert BeatOk(h, BeatRec(m.term, m.from, m.context));
      assert AskedOk(h, Key(m.term, m.context));
      LeaderAt(c, h, m.term);
    }
  }

  lemma MarksActive(c: Config, n: Node, h: Hist, p: Id, peak: nat)
    requires Ok(c, n, h) && n.role.Leader? && p in n.progress
    ensures Steps(c, n, h, SetProgress(n, p, n.progress[p].(recentActive := true)), h, peak)
    ensures Steps(c, n, h, SetProgress(n, p, n.progress[p].(recentActive := true, paused := false)), h, peak)
  {
    hide Ok, Steps;
    LeaderFacts(c, n, h, p);
    SetsProgress(c, n, h, p, n.progress[p].(recentActive := true), peak);
    SetsProgress(c, n, h, p, n.progress[p].(recentActive := true, paused := false), peak);
  }

  // ------------------------------------------------------- an acknowledgement

  /** After the match index moved: commit, release reads, and send. */
  ghost function AfterMatch(c: Config, n1: Node, from: Id): Node
    requires from in n1.progress
  {
    var n2 := MaybeCommit(c, n1);
    if n2.committed != n1.committed then BcastAppend(c, ReleasePendingReads(c, n2), c.peers)
    else if n1.id != from && n2.progress[from].CanBumpCommit(n2.committed) then SendAppend(c, n2, from)
    else n2
  }

  lemma AfterMatches(c: Config, n1: Node, h: Hist, from: Id, peak: nat) returns (h': Hist)
    requires Ok(c, n1, h) && n1.role.Leader? && from in n1.progress && PeakOk(h, peak)
    ensures Steps(c, n1, h, AfterMatch(c, n1, from), h', peak) && AfterMatch(c, n1, from).role.Leader?
  {
    hide Ok, Steps, PeakOk, MaybeCommit, ReleasePendingReads, BcastAppend, MaybeSendAppend;
    var n2 := MaybeCommit(c, n1);
    h' := Commits(c, n1, h, peak);
    StepsOk(c, n1, h, n2, h', peak);
    if n2.committed != n1.committed {
      PeakGrows(h, h', peak) by { GrowsLeaders(h, h'); }
      var h2, n3 := h', ReleasePendingReads(c, n2);
      h' := ReleasesPending(c, n2, h2, peak);
      StepsOk(c, n2, h2, n3, h', peak);
      StepsTrans(c, n1, h, n2, h2, n3, h', peak);
      Broadcasts(c, n3, h', c.peers, peak);
      StepsTrans(c, n1, h, n3, h', AfterMatch(c, n1, from), h', peak);
    } else if n1.id != from && n2.progress[from].CanBumpCommit(n2.committed) {
      SendsAppend(c, n2, h', from, true, peak);
      StepsTrans(c, n1, h, n2, h', AfterMatch(c, n1, from), h', peak);
    }
  }

  /** Drain the window and hand over leadership if that was waiting. */
  ghost function AfterSends(c: Config, n3: Node, from: Id): Node {
    var n4 := if n3.id != from && from in n3.progress then Drain(c, n3, from) else n3;
    if from == n4.transferee && from in n4.progress && n4.progress[from].matched == |n4.log|
    then Send(n4, MsgTimeoutNow(n4.id, from, n4.term)) else n4
  }

  lemma AfterSending(c: Config, n3: Node, h: Hist, from: Id, peak: nat)
    requires Ok(c, n3, h) && n3.role.Leader?
    ensures Steps(c, n3, h, AfterSends(c, n3, from), h, peak)
  {
    hide Ok, Steps, Drain;
    var n4 := if n3.id != from && from in n3.progress then Drain(c, n3, from) else n3;
    Stays(c, n3, h, peak);
    if n3.id != from && from in n3.progress { Drains(c, n3, h, from, peak); }
    StepsOk(c, n3, h, n4, h, peak);
    if from == n4.transferee && from in n4.progress && n4.progress[from].matched == |n4.log| {
      SteeringFact(c, n4, h);
      Sends(c, n4, h, MsgTimeoutNow(n4.id, from, n4.term), peak);
      StepsTrans(c, n3, h, n4, h, AfterSends(c, n3, from), h, peak);
    }
  }

  lemma HandlesAck(c: Config, n: Node, h: Hist, m: Message, peak: nat) returns (h': Hist)
    requires Ok(c, n, h) && n.role.Leader? && m.MsgAppResp? && !m.reject && MsgOk(m, h) && (m.index > 0 ==> m.term == n.term)
    requires m.from in n.progress && PeakOk(h, peak)
    ensures Steps(c, n, h, HandleAck(c, n, m), h', peak)
  {
    hide Ok, Steps, PeakOk, AckedProgress, ProgressFits, MaybeCommit, BcastAppend, ReleasePendingReads, MaybeSendAppend,
      Drain, MsgOk;
    var (pr, updated) := n.progress[m.from].MaybeUpdate(m.index);
    h' := h;
    Stays(c, n, h, peak);
    if updated || (pr.matched == m.index && pr.state.StateProbe?) {
      var n1 := SetProgress(n, m.from, AckedProgress(pr, m.index));
      AckFitsProgress(c, n, h, m);
      SetsProgress(c, n, h, m.from, AckedProgress(pr, m.index), peak);
      StepsOk(c, n, h, n1, h, peak);
      var n3 := AfterMatch(c, n1, m.from);
      h' := AfterMatches(c, n1, h, m.from, peak);
      StepsOk(c, n1, h, n3, h', peak);
      StepsTrans(c, n, h, n1, h, n3, h', peak);
      AfterSending(c, n3, h', m.from, peak);
      StepsTrans(c, n, h, n3, h', AfterSends(c, n3, m.from), h', peak);
      assert AfterSends(c, n3, m.from) == HandleAck(c, n, m);
    }
  }

  lemma HandlesAppResp(c: Config, n: Node, h: Hist, m: Message, peak: nat) returns (h': Hist)
    requires Ok(c, n, h) && n.role.Leader? && m.MsgAppResp? && MsgOk(m, h) && m.to == n.id
    requires (m.term == 0 || m.term == n.term) && m.from in n.progress && PeakOk(h, peak)
    ensures var n' := SetProgress(n, m.from, n.progress[m.from].(recentActive := true));
            Steps(c, n, h, if m.reject then HandleReject(c, n', m) else HandleAck(c, n', m), h', peak)
  {
    hide Ok, Steps, PeakOk, HandleReject, HandleAck;
    var n1 := SetProgress(n, m.from, n.progress[m.from].(recentActive := true));
    MarksActive(c, n, h, m.from, peak);
    StepsOk(c, n, h, n1, h, peak);
    if m.reject {
      h' := h;
      HandlesReject(c, n1, h, m, peak);
      StepsTrans(c, n, h, n1, h, HandleReject(c, n1, m), h, peak);
    } else {
      OkHist(c, n, h);
      TermNotZero(c, h, m);
      h' := HandlesAck(c, n1, h, m, peak);
      StepsTrans(c, n, h, n1, h, HandleAck(c, n1, m), h', peak);
    }
  }

  lemma OkHist(c: Config, n: Node, h: Hist)
    requires Ok(c, n, h)
    ensures HistInv(c, h) && c.Valid()
  {}

  // ----------------------------------------------------- a heartbeat response

  lemma HandlesBeatResp(c: Config, n: Node, h: Hist, m: Message, peak: nat)
    requires Ok(c, n, h) && n.role.Leader? && m.MsgHeartbeatResp? && MsgOk(m, h) && m.to == n.id
    requires (m.term == 0 || m.term == n.term) && m.from in n.progress
    ensures Steps(c, n, h, HandleHeartbeatResp(c, n, m), h, peak)
  {
    hide Ok, Steps, MaybeSendAppend, AdvanceReads, ReadOnly.RecvAck;
    var pr := n.progress[m.from].(recentActive := true, paused := false);
    var n1 := SetProgress(n, m.from, pr);
    MarksActive(c, n, h, m.from, peak);
    StepsOk(c, n, h, n1, h, peak);
    var send := pr.matched < |n.log| || pr.state.StateProbe?;
    var n2 := if send then SendAppend(c, n1, m.from) else n1;
    if send {
      SendsAppend(c, n1, h, m.from, true, peak);
      StepsTrans(c, n, h, n1, h, n2, h, peak);
    }
    if m.context != 0 {
      OkHist(c, n, h);
      TermNotZero(c, h, m);
      StepsOk(c, n, h, n2, h, peak);
      var n3 := n2.(readOnly := n2.readOnly.RecvAck(m.from, m.context));
      CountsBeat(c, n2, h, m.from, m.context, peak);
      StepsOk(c, n2, h, n3, h, peak);
      StepsTrans(c, n, h, n2, h, n3, h, peak);
      AdvancesReads(c, n3, h, peak);
      StepsTrans(c, n, h, n3, h, AdvanceReads(c, n3), h, peak);
    }
  }

  // -------------------------------------------------------------- other duties

  lemma ChecksQuorum(c: Config, n: Node, h: Hist, peak: nat)
    requires Ok(c, n, h) && n.role.Leader?
    ensures Steps(c, n, h, HandleCheckQuorum(c, n), h, peak)
  {
    hide Ok, Steps, BecomeFollower, JointVote;
    var n1 := if JointVote(c.voters, ActiveVotes(n)) != VoteWon then BecomeFollower(c, n, n.term, NONE) else n;
    SteeringFact(c, n, h);
    Follows(c, n, h, n.term, NONE, peak);
    Stays(c, n, h, peak);
    StepsOk(c, n, h, n1, h, peak);
    MarksInactive(c, n1, h, peak);
    StepsTrans(c, n, h, n1, h, HandleCheckQuorum(c, n), h, peak);
  }

  lemma MarksInactive(c: Config, n: Node, h: Hist, peak: nat)
    requires Ok(c, n, h)
    ensures var n' := n.(progress := map id | id in n.progress ::
                           if id != n.id then n.progress[id].(recentActive := false) else n.progress[id]);
            Steps(c, n, h, n', h, peak)
  {
    hide HistInv, LogFits, CommitFits, AcksFit, PastFits, OutboxOk, Running, Leading, Serving, WindowFits;
    var ps := map id | id in n.progress :: if id != n.id then n.progress[id].(recentActive := false) else n.progress[id];
    if n.role.Leader? {
      forall p | p in ps ensures ProgressFits(n.id, n.term, |n.log|, h, p, ps[p]) {
        assert ProgressFits(n.id, n.term, |n.log|, h, p, n.progress[p]);
      }
    }
    Still(n, n.(progress := ps), h, peak);
  }

  lemma Transfers(c: Config, n: Node, h: Hist, m: Message, peak: nat)
    requires Ok(c, n, h) && n.role.Leader? && m.MsgTransferLeader? && m.from in n.progress
    ensures Steps(c, n, h, HandleTransfer(c, n, m), h, peak)
  {
    hide Ok, Steps, MaybeSendAppend;
    Stays(c, n, h, peak);
    SteeringFact(c, n, h);
    PeerFact(c, n, h, m.from);
    if !n.progress[m.from].isLearner && n.transferee != m.from {
      var n1 := n.(transferee := if m.from == n.id then NONE else m.from);
      Steers(c, n, n1, h, peak);
      StepsOk(c, n, h, n1, h, peak);
      if m.from != n.id {
        if n.progress[m.from].matched == |n.log| {
          Sends(c, n1, h, MsgTimeoutNow(n.id, m.from, n.term), peak);
        } else {
          SendsAppend(c, n1, h, m.from, true, peak);
        }
        StepsTrans(c, n, h, n1, h, HandleTransfer(c, n, m), h, peak);
      }
    }
  }

  lemma Unreachable(c: Config, n: Node, h: Hist, p: Id, peak: nat)
    requires Ok(c, n, h) && n.role.Leader? && p in n.progress && n.progress[p].state.StateReplicate?
    ensures Steps(c, n, h, SetProgress(n, p, n.progress[p].BecomeProbe()), h, peak)
  {
    hide Ok, Steps;
    LeaderFacts(c, n, h, p);
    SetsProgress(c, n, h, p, n.progress[p].BecomeProbe(), peak);
  }

  lemma ProposesAll(c: Config, n: Node, h: Hist, payloads: seq<Payload>, peak: nat) returns (h': Hist)
    requires Ok(c, n, h) && n.role.Leader?
    ensures Steps(c, n, h, BcastAppend(c, AppendEntry(n, payloads), c.peers), h', peak)
  {
    hide Ok, Steps, BcastAppend;
    var n1 := AppendEntry(n, payloads);
    h' := Proposes(c, n, h, payloads, peak);
    StepsOk(c, n, h, n1, h', peak);
    Broadcasts(c, n1, h', c.peers, peak);
    StepsTrans(c, n, h, n1, h', BcastAppend(c, n1, c.peers), h', peak);
  }

  lemma ContextFact(c: Config, n: Node, h: Hist)
    requires Ok(c, n, h) && n.role.Leader?
    ensures ContextOk(n.term, n.readOnly.HeartbeatCtx(), h)
  {
    hide HistInv, LogFits, CommitFits, AcksFit, PastFits, OutboxOk, Tracks, Leading;
    if n.readOnly.unconfirmed != [] { assert ReadFits(n.term, n.readOnly, h, n.readOnly.Total()); }
  }

  /** The message's term has been dealt with. */
  ghost predicate TermReady(n: Node, m: Message) {
    m.term == 0 || m.term == n.term ||
    (m.term > n.term && (m.MsgPreVote? || (m.MsgPreVoteResp? && !m.reject)))
  }

  lemma PropHasEntries(m: Message, h: Hist)
    requires MsgOk(m, h) && m.MsgProp?
    ensures m.payloads != []
  {}

  lemma LeaderSteps(c: Config, n: Node, h: Hist, m: Message, e: Env, peak: nat) returns (h': Hist)
    requires Ok(c, n, h) && n.role.Leader? && MsgOk(m, h) && m.to == n.id && TermReady(n, m) && PeakOk(h, peak)
    ensures Steps(c, n, h, StepLeader(c, n, m, e), h', peak)
  {
    hide Ok, Steps, PeakOk, MsgOk, HandleCheckQuorum, BcastHeartbeat, BcastAppend, AppendEntry, HandleReadIndex,
      HandleReject,
      HandleAck, HandleHeartbeatResp, HandleTransfer, Progress.BecomeProbe;
    h' := h;
    Stays(c, n, h, peak);
    if m.MsgBeat? {
      ContextFact(c, n, h);
      Beats(c, n, h, n.readOnly.HeartbeatCtx(), c.peers, peak);
    } else if m.MsgCheckQuorum? {
      ChecksQuorum(c, n, h, peak);
    } else if m.MsgProp? {
      PropHasEntries(m, h);
      if n.id in n.progress && n.transferee == NONE && e.quota { h' := ProposesAll(c, n, h, m.payloads, peak); }
    } else if m.MsgReadIndex? {
      h' := AsksRead(c, n, h, m, peak);
    } else if m.from in n.progress {
      if m.MsgAppResp? {
        h' := HandlesAppResp(c, n, h, m, peak);
      } else if m.MsgHeartbeatResp? {
        HandlesBeatResp(c, n, h, m, peak);
      } else if m.MsgUnreachable? && n.progress[m.from].state.StateReplicate? {
        Unreachable(c, n, h, m.from, peak);
      } else if m.MsgTransferLeader? {
        Transfers(c, n, h, m, peak);
      }
    }
  }

  // ---------------------------------------------------------- candidates

  lemma Tallies(c: Config, n: Node, h: Hist, from: Id, granted: bool, peak: nat) returns (h': Hist)
    requires Ok(c, n, h) && (n.role.Candidate? || n.role.PreCandidate?)
    requires n.role.Candidate? && granted ==> VoteFits(n.id, n.term, h, from)
    ensures Steps(c, n, h, CountVote(c, n, from, granted), h', peak)
  {
    hide Ok, Steps, JointVote, IsQuorum, Campaign, BecomeLeader, BcastAppend, BecomeFollower;
    var n1 := RecordVote(n, from, granted);
    h' := h;
    CountsVote(c, n, h, from, granted, peak);
    StepsOk(c, n, h, n1, h, peak);
    SteeringFact(c, n1, h);
    WonIsQuorum(c.voters, n1.votes);
    var res := JointVote(c.voters, n1.votes);
    if res == VoteWon {
      if n1.role.PreCandidate? {
        h' := Campaigns(c, n1, h, Election, peak);
        StepsTrans(c, n, h, n1, h, Campaign(c, n1, Election), h', peak);
      } else {
        var n2 := BecomeLeader(c, n1);
        h' := Wins(c, n1, h, peak);
        StepsOk(c, n1, h, n2, h', peak);
        StepsTrans(c, n, h, n1, h, n2, h', peak);
        Broadcasts(c, n2, h', c.peers, peak);
        StepsTrans(c, n, h, n2, h', BcastAppend(c, n2, c.peers), h', peak);
      }
    } else if res == VoteLost {
      Follows(c, n1, h, n1.term, NONE, peak);
      StepsTrans(c, n, h, n1, h, BecomeFollower(c, n1, n1.term, NONE), h, peak);
    }
  }

  lemma CandidateSteps(c: Config, n: Node, h: Hist, m: Message, peak: nat) returns (h': Hist)
    requires Ok(c, n, h) && (n.role.Candidate? || n.role.PreCandidate?) && MsgOk(m, h) && m.to == n.id && TermReady(n, m)
    ensures Steps(c, n, h, StepCandidate(c, n, m), h', peak)
  {
    hide Ok, Steps, HandleAppendEntries, HandleHeartbeat, CountVote, HasAck, IsSlice;
    h' := h;
    Stays(c, n, h, peak);
    OkHist(c, n, h);
    TermNotZero(c, h, m);
    if m.MsgApp? || m.MsgHeartbeat? {
      var n1 := BecomeFollower(c, n, m.term, m.from);
      Follows(c, n, h, m.term, m.from, peak);
      StepsOk(c, n, h, n1, h, peak);
      if m.MsgApp? {
        h' := HandlesAppend(c, n1, h, m, peak);
        StepsTrans(c, n, h, n1, h, HandleAppendEntries(n1, m), h', peak);
      } else {
        h' := HandlesHeartbeat(c, n1, h, m, peak);
        StepsTrans(c, n, h, n1, h, HandleHeartbeat(n1, m), h', peak);
      }
    } else if (m.MsgPreVoteResp? && n.role.PreCandidate?) || (m.MsgVoteResp? && n.role.Candidate?) {
      h' := Tallies(c, n, h, m.from, !m.reject, peak);
    }
  }

  // ------------------------------------------------------------- followers

  lemma Hups(c: Config, n: Node, h: Hist, t: CampaignType, e: Env, peak: nat) returns (h': Hist)
    requires Ok(c, n, h)
    ensures Steps(c, n, h, Hup(c, n, t, e), h', peak)
  {
    hide Ok, Steps, Campaign, Promotable;
    h' := h;
    Stays(c, n, h, peak);
    SteeringFact(c, n, h);
    if !n.role.Leader? && Promotable(n) && !e.unappliedConf { h' := Campaigns(c, n, h, t, peak); }
  }

  /** Forwarding a request to the leader, or noting an answer from it. A
      follower does not follow itself, so a leadership transfer that was already
      forwarded to the leader of its term never has to be forwarded again. */
  lemma Forwards(c: Config, n: Node, h: Hist, m: Message, e: Env, peak: nat)
    requires Ok(c, n, h) && n.role.Follower? && MsgOk(m, h) && m.to == n.id && TermReady(n, m)
    requires m.MsgProp? || m.MsgTransferLeader? || m.MsgReadIndex? || m.MsgReadIndexResp? || m.MsgForgetLeader?
    ensures Steps(c, n, h, StepFollower(c, n, m, e), h, peak)
  {
    hide Ok, Steps, HandleAppendEntries, HandleHeartbeat, Hup;
    Stays(c, n, h, peak);
    SteeringFact(c, n, h);
    var n' := StepFollower(c, n, m, e);
    if m.MsgReadIndexResp? || m.MsgForgetLeader? {
      Steers(c, n, n', h, peak);
    } else if n.lead != NONE {
      if m.MsgProp? {
        if c.forwardProposals { Sends(c, n, h, MsgProp(if m.from == NONE then n.id else m.from, n.lead, 0, m.payloads), peak); }
      } else if m.MsgTransferLeader? {
        Sends(c, n, h, MsgTransferLeader(if m.from == NONE then n.id else m.from, n.lead, n.term), peak);
      } else {
        Sends(c, n, h, MsgReadIndex(if m.from == NONE then n.id else m.from, n.lead, 0, m.ctx), peak);
      }
    }
  }

  /** A follower hears from its leader. */
  lemma Hears(c: Config, n: Node, h: Hist, m: Message, peak: nat) returns (h': Hist)
    requires Ok(c, n, h) && n.role.Follower? && MsgOk(m, h) && m.to == n.id && m.term == n.term && (m.MsgApp? || m.MsgHeartbeat?)
    ensures var n1 := n.(lead := m.from);
            Steps(c, n, h, if m.MsgApp? then HandleAppendEntries(n1, m) else HandleHeartbeat(n1, m), h', peak)
  {
    hide Ok, Steps, HandleAppendEntries, HandleHeartbeat, HasAck, IsSlice;
    SteeringFact(c, n, h);
    var n1 := n.(lead := m.from);
    Steers(c, n, n1, h, peak);
    StepsOk(c, n, h, n1, h, peak);
    if m.MsgApp? {
      h' := HandlesAppend(c, n1, h, m, peak);
      StepsTrans(c, n, h, n1, h, HandleAppendEntries(n1, m), h', peak);
    } else {
      h' := HandlesHeartbeat(c, n1, h, m, peak);
      StepsTrans(c, n, h, n1, h, HandleHeartbeat(n1, m), h', peak);
    }
  }

  lemma FollowerSteps(c: Config, n: Node, h: Hist, m: Message, e: Env, peak: nat) returns (h': Hist)
    requires Ok(c, n, h) && n.role.Follower? && MsgOk(m, h) && m.to == n.id && TermReady(n, m)
    ensures Steps(c, n, h, StepFollower(c, n, m, e), h', peak)
  {
    hide Ok, Steps, MsgOk, HandleAppendEntries, HandleHeartbeat, Hup, Forward;
    h' := h;
    Stays(c, n, h, peak);
    OkHist(c, n, h);
    TermNotZero(c, h, m);
    if m.MsgApp? || m.MsgHeartbeat? {
      h' := Hears(c, n, h, m, peak);
    } else if m.MsgTimeoutNow? {
      h' := Hups(c, n, h, Transfer, e, peak);
    } else if m.MsgProp? || m.MsgTransferLeader? || m.MsgReadIndex? || m.MsgReadIndexResp? || m.MsgForgetLeader? {
      Forwards(c, n, h, m, e, peak);
    }
  }

  // ------------------------------------------------------------- all messages

  lemma KindSteps(c: Config, n: Node, h: Hist, m: Message, e: Env, peak: nat) returns (h': Hist)
    requires Ok(c, n, h) && MsgOk(m, h) && m.to == n.id && TermReady(n, m) && PeakOk(h, peak)
    ensures Steps(c, n, h, StepKind(c, n, m, e), h', peak)
  {
    hide Ok, Steps, PeakOk, Hup, HandleVote, StepLeader, StepFollower, StepCandidate, MsgOk;
    OkHist(c, n, h);
    TermNotZero(c, h, m);
    if m.MsgHup? {
      h' := Hups(c, n, h, if c.preVote then PreElection else Election, e, peak);
    } else if m.MsgVote? || m.MsgPreVote? {
      h' := AnswersVote(c, n, h, m, peak);
    } else if n.role.Leader? {
      h' := LeaderSteps(c, n, h, m, e, peak);
    } else if n.role.Follower? {
      h' := FollowerSteps(c, n, h, m, e, peak);
    } else {
      h' := CandidateSteps(c, n, h, m, peak);
    }
  }

  lemma CatchesUp(c: Config, n: Node, h: Hist, m: Message, peak: nat)
    requires Ok(c, n, h) && MsgOk(m, h) && m.to == n.id && m.term > n.term
    ensures Steps(c, n, h, CatchUp(c, n, m), h, peak) && TermReady(CatchUp(c, n, m), m)
  {
    hide Ok, Steps;
    Stays(c, n, h, peak);
    SteeringFact(c, n, h);
    Follows(c, n, h, m.term, if m.MsgApp? || m.MsgHeartbeat? then m.from else NONE, peak);
  }

  lemma AnswersStale(c: Config, n: Node, h: Hist, m: Message, peak: nat)
    requires Ok(c, n, h) && m.term < n.term
    ensures Steps(c, n, h, AnswerStale(c, n, m), h, peak)
  {
    hide Ok, Steps;
    Stays(c, n, h, peak);
    if (c.checkQuorum || c.preVote) && (m.MsgHeartbeat? || m.MsgApp?) {
      Sends(c, n, h, Ack(n, m.from, 0), peak);
    } else if m.MsgPreVote? {
      Sends(c, n, h, MsgPreVoteResp(n.id, m.from, n.term, true), peak);
    }
  }

  /** Any message of the system, handled in any way the environment chooses,
      takes a good node to a good node. */
  lemma NodeStep(c: Config, n: Node, h: Hist, m: Message, e: Env, peak: nat) returns (h': Hist)
    requires Ok(c, n, h) && MsgOk(m, h) && m.to == n.id && PeakOk(h, peak)
    ensures Steps(c, n, h, Step(c, n, m, e), h', peak)
  {
    hide Ok, Steps, PeakOk, StepKind, CatchUp, AnswerStale, MsgOk;
    h' := h;
    Stays(c, n, h, peak);
    if m.term == 0 || m.term == n.term {
      h' := KindSteps(c, n, h, m, e, peak);
    } else if m.term > n.term {
      if !LeaseBlocks(c, n, m, e) {
        var n1 := CatchUp(c, n, m);
        CatchesUp(c, n, h, m, peak);
        StepsOk(c, n, h, n1, h, peak);
        h' := KindSteps(c, n1, h, m, e, peak);
        StepsTrans(c, n, h, n1, h, StepKind(c, n1, m, e), h', peak);
      }
    } else {
      AnswersStale(c, n, h, m, peak);
    }
  }
}
