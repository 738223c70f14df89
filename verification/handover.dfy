/** Handing over the leadership: whom a leader tells to campaign, and when. */
module Handover {
  import opened Quorum
  import opened Logs
  import opened Flow
  import opened ReadQueue
  import opened RaftSpec
  import opened Handling
  import opened Safety
  import opened Effects
  import opened AppendLaws
  import opened Derivation
  import opened ReadLaws
  import opened Upkeep

  // ----------------------------------------------------------------- the request

  lemma TransferReached(c: Config, n: Node, m: Message, e: Env)
    requires n.role.Leader? && m.MsgTransferLeader? && (m.term == 0 || m.term == n.term) && m.from in n.progress
    ensures Step(c, n, m, e) == HandleTransfer(c, n, m)
  {
    hide HandleTransfer;
  }

  lemma TransferSends(c: Config, n: Node, m: Message)
    requires m.MsgTransferLeader? && m.from in n.progress
    ensures var n', p := HandleTransfer(c, n, m), m.from;
            if n.progress[p].isLearner || (n.transferee != NONE && n.transferee == p) then n' == n
            else if p == n.id then n' == n.(transferee := NONE)
            else && n'.transferee == p && KeepsPeers(n, n')
                 && (if n.progress[p].matched == |n.log| then n'.msgs == n.msgs + [MsgTimeoutNow(n.id, p, n.term)]
                     else NoWord(n, n') && n' == SendAppend(c, n.(transferee := p), p))
  {
    hide SendAppend, OnlySent;
    var n1 := n.(transferee := m.from);
    TransferKeepsPeers(c, n, m);
    OneAppendSends(c, n1, m.from);
    SentQuietly(m, n1, SendAppend(c, n1, m.from));
    SentTransferee(n1, SendAppend(c, n1, m.from));
  }

  lemma SentTransferee(n: Node, n': Node)
    requires OnlySent(n, n')
    ensures n'.transferee == n.transferee && n'.id == n.id && n'.term == n.term
  {}

  /** What a leader of a run does when it is asked to hand over to p. It does nothing
      if p is a learner or is being handed over to already; if p is the leader itself,
      the handover under way is called off. Otherwise p is handed over to from now on:
      it is told to campaign at once if it holds the whole log, and sent what it lacks
      otherwise. */
  lemma TransferRule(c: Config, run: seq<Cluster>, i: nat, a: Id, m: Message, e: Env)
    requires c.Valid() && IsRun(c, run) && i < |run| && a in run[i].nodes && run[i].nodes[a].role.Leader?
    requires m.MsgTransferLeader? && (m.term == 0 || m.term == run[i].nodes[a].term) && m.from in c.peers
    ensures var n, p := run[i].nodes[a], m.from; var n' := Step(c, n, m, e);
            && p in n.progress
            && (if p in c.learners || p == n.transferee then n' == n
                else if p == a then n' == n.(transferee := NONE)
                else && n'.transferee == p && KeepsPeers(n, n')
                     && (if n.progress[p].matched == |n.log| then n'.msgs == [MsgTimeoutNow(a, p, n.term)]
                         else NoWord(n, n') && n' == SendAppend(c, n.(transferee := p), p)))
  {
    hide IsRun, Step, HandleTransfer, SendAppend, KeepsPeers;
    var n := run[i].nodes[a];
    NodesRest(c, run, i, a);
    NobodyTracked(c, run, i, a);
    PeersTracked(c, run, i, a, m.from);
    MarksInRuns(c, run, i, a);
    TransferReached(c, n, m, e);
    TransferSends(c, n, m);
  }

  lemma NobodyTracked(c: Config, run: seq<Cluster>, i: nat, a: Id)
    requires c.Valid() && IsRun(c, run) && i < |run| && a in run[i].nodes
    ensures NONE !in run[i].nodes[a].progress && NONE !in c.peers
  {
    hide IsRun;
    PeersTracked(c, run, i, a, NONE);
  }

  // -------------------------------------------------------------------- the word

  lemma NewsKeepsTransferee(c: Config, n: Node, p: Id)
    requires p in n.progress
    ensures AfterNews(c, n, p).transferee == n.transferee
  {
    hide MaybeCommit, QueueReads, BcastAppend, SendAppend, Drain, Progress.CanBumpCommit, OnlySent, CommittedInTerm, Queued;
    var n1 := MaybeCommit(c, n);
    CommitKeeps(c, n);
    QueuesAll(c, n1.(pendingReads := []), n1.pendingReads);
    var n2 := ReleasePendingReads(c, n1);
    BcastAppendSends(c, n2, c.peers);
    SentTransferee(n2, BcastAppend(c, n2, c.peers));
    OneAppendSends(c, n1, p);
    SentTransferee(n1, SendAppend(c, n1, p));
    var n3 := AfterCommit(c, n, p);
    if p in n3.progress {
      DrainSends(c, n3, p);
      SentTransferee(n3, Drain(c, n3, p));
    }
  }

  /** An acknowledgement gives the word exactly if it is news from the node that is
      handed over to and that node now holds the whole log. */
  lemma AckWord(c: Config, n: Node, m: Message, x: Message)
    requires m.MsgAppResp? && m.from in n.progress && n.msgs == [] && x.MsgTimeoutNow?
    ensures x in HandleAck(c, n, m).msgs <==>
            && News(n.progress[m.from], m.index) && m.from == n.transferee
            && Max(n.progress[m.from].matched, m.index) == |n.log| && x == MsgTimeoutNow(n.id, m.from, n.term)
  {
    hide HandleAck, AfterNews, AckedProgress, IsNews, MaybeCommit, KeepsPeers, Quiet, News;
    AckSplits(c, n, m);
    NewsIsNews(n.progress[m.from], m.index);
    var n1 := AfterAck(n, m.from, m.index);
    var n2 := AfterNews(c, n1, m.from);
    AckState(n.progress[m.from], m.index);
    NewsDerives(c, m, n1, m.from);
    NewsKeepsTransferee(c, n1, m.from);
    NewsSends(c, n1, m.from);
    CommitKeeps(c, n1);
    PeersAre(MaybeCommit(c, n1), n2, m.from);
    QuietWord(m, n1, n2);
  }

  lemma PeersAre(n: Node, n': Node, p: Id)
    requires KeepsPeers(n, n') && p in n.progress
    ensures p in n'.progress && n'.progress[p].matched == n.progress[p].matched && n'.log == n.log && n'.id == n.id && n'.term == n.term
  {}

  lemma QuietWord(m: Message, n: Node, n': Node)
    requires Quiet(m, n, n') && n.msgs == []
    ensures forall x | x in n'.msgs :: !x.MsgTimeoutNow?
  {}

  /** What entitles the sender of m to be told to campaign: it asks to be handed over
      to, or is being handed over to and acknowledges; and it holds the whole log. */
  predicate Deserves(c: Config, n: Node, m: Message)
    requires m.from in n.progress
  {
    var pr := n.progress[m.from];
    || (m.MsgTransferLeader? && m.from != n.id && m.from !in c.learners && m.from != n.transferee && pr.matched == |n.log|)
    || (m.MsgAppResp? && !m.reject && m.from == n.transferee && News(pr, m.index) && Max(pr.matched, m.index) == |n.log|)
  }

  lemma NoWordNone(n: Node, n': Node, x: Message)
    requires NoWord(n, n') && n.msgs == [] && x.MsgTimeoutNow?
    ensures x !in n'.msgs
  {}

  lemma LeaderWord(c: Config, n: Node, m: Message, e: Env, x: Message)
    requires m.from in n.progress && n.msgs == [] && x.MsgTimeoutNow? && (m.MsgAppResp? || m.MsgTransferLeader?)
    requires NONE !in n.progress && MarksAreTrue(c, n)
    ensures x in StepLeader(c, n, m, e).msgs <==> Deserves(c, n, m) && x == MsgTimeoutNow(n.id, m.from, n.term)
  {
    hide HandleTransfer, HandleAck, HandleReject, SendAppend, NoWord, News, KeepsPeers;
    if m.MsgTransferLeader? {
      TransferSends(c, n, m);
      var n1 := HandleTransfer(c, n, m);
      if NoWord(n, n1) { NoWordNone(n, n1, x); }
    } else {
      var n1 := SetProgress(n, m.from, n.progress[m.from].(recentActive := true));
      SameNews(n.progress[m.from], m.index);
      if m.reject {
        RejectDerives(c, m, n1);
        NoWordNone(n1, HandleReject(c, n1, m), x);
      } else {
        AckWord(c, n1, m, x);
      }
    }
  }

  lemma SameNews(pr: Progress, index: nat)
    ensures News(pr.(recentActive := true), index) <==> News(pr, index)
  {}

  /** In every run, a step tells a node to campaign exactly if the node that takes it is
      leader and the one that is told sent the message and deserves it. */
  lemma WordRule(c: Config, run: seq<Cluster>, i: nat, a: Id, m: Message, e: Env, x: Message)
    requires c.Valid() && IsRun(c, run) && i < |run| && a in run[i].nodes && x.MsgTimeoutNow?
    ensures var n := run[i].nodes[a];
            x in Step(c, n, m, e).msgs <==>
            && n.role.Leader? && (m.term == 0 || m.term == n.term)
            && m.from in n.progress && Deserves(c, n, m) && x == MsgTimeoutNow(a, m.from, n.term)
  {
    hide IsRun, Step, StepLeader, News, NoWord, Derives, NoAnswers, MayAnswer;
    var n := run[i].nodes[a];
    NodesRest(c, run, i, a);
    NobodyTracked(c, run, i, a);
    MarksInRuns(c, run, i, a);
    StepDerives(c, n, m, e);
    if NoWord(n, Step(c, n, m, e)) { NoWordNone(n, Step(c, n, m, e), x); }
    if n.role.Leader? && (m.term == 0 || m.term == n.term) && (m.MsgAppResp? || m.MsgTransferLeader?) {
      LeaderTakes(c, n, m, e);
      if m.from in n.progress { LeaderWord(c, n, m, e, x); } else { StrangerIgnored(c, n, m, e); }
    }
  }

  lemma LeaderTakes(c: Config, n: Node, m: Message, e: Env)
    requires n.role.Leader? && (m.term == 0 || m.term == n.term) && (m.MsgAppResp? || m.MsgTransferLeader?)
    ensures Step(c, n, m, e) == StepLeader(c, n, m, e)
  {
    hide StepLeader;
  }

  lemma StrangerIgnored(c: Config, n: Node, m: Message, e: Env)
    requires m.from !in n.progress && (m.MsgAppResp? || m.MsgTransferLeader?)
    ensures StepLeader(c, n, m, e) == n
  {}
}
