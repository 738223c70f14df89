/** What becomes of the reads that nodes are asked for. */
module ReadLaws {
  import opened Quorum
  import opened Logs
  import opened Flow
  import opened ReadQueue
  import opened RaftSpec
  import opened Handling
  import opened History
  import opened Invariant
  import opened Runs
  import opened Safety
  import opened Effects
  import opened AppendLaws
  import opened CommitLaws
  import ReadIndex

  // --------------------------------------------------------------- queueing reads

  /** The requests, queued one after the other at the same commit index. */
  function Queued(reqs: seq<ReadRequest>, index: nat): seq<PendingRead> {
    seq(|reqs|, i requires 0 <= i < |reqs| => PendingRead(reqs[i], index))
  }

  /** Queueing adds the read at the end, with the commit index of the moment, and
      the leader itself has acknowledged it. */
  lemma QueuesOne(c: Config, n: Node, req: ReadRequest)
    ensures var n' := QueueRead(c, n, req);
            && n'.readOnly.unconfirmed == n.readOnly.unconfirmed + [PendingRead(req, n.committed)]
            && n'.readOnly.confirmed == n.readOnly.confirmed
            && n'.readOnly.acks == n.readOnly.acks[n.id := Max(AckedIndex(n.readOnly.acks, n.id), n.readOnly.Total() + 1)]
            && n'.pendingReads == n.pendingReads && n'.committed == n.committed && n'.id == n.id && n'.log == n.log && n'.term == n.term
            && n'.transferee == n.transferee
  {
    hide BcastHeartbeat;
    var ro := n.readOnly.AddRequest(n.committed, req);
    var n' := n.(readOnly := ro.RecvAck(n.id, ro.HeartbeatCtx()));
    BcastHeartbeatSends(n', n'.readOnly.HeartbeatCtx(), c.peers);
  }

  /** ... and every other peer is sent a heartbeat that asks to confirm it. */
  lemma QueueAsksAll(c: Config, n: Node, req: ReadRequest, p: Id)
    requires p in c.peers && p in n.progress && p != n.id
    ensures MsgHeartbeat(n.id, p, n.term, Min(n.progress[p].matched, n.committed), n.readOnly.Total() + 1) in QueueRead(c, n, req).msgs
  {
    hide BcastHeartbeat;
    var ro := n.readOnly.AddRequest(n.committed, req);
    var n' := n.(readOnly := ro.RecvAck(n.id, ro.HeartbeatCtx()));
    HeartbeatsReach(n', n'.readOnly.HeartbeatCtx(), c.peers, p);
  }

  lemma {:induction false} QueuesAll(c: Config, n: Node, reqs: seq<ReadRequest>)
    ensures var n' := QueueReads(c, n, reqs);
            && n'.readOnly.unconfirmed == n.readOnly.unconfirmed + Queued(reqs, n.committed)
            && n'.readOnly.confirmed == n.readOnly.confirmed
            && n'.pendingReads == n.pendingReads && n'.committed == n.committed && n'.id == n.id && n'.log == n.log && n'.term == n.term
            && n'.transferee == n.transferee
    decreases |reqs|
  {
    hide QueueRead;
    if reqs != [] {
      var n1 := QueueRead(c, n, reqs[0]);
      QueuesOne(c, n, reqs[0]);
      QueuesAll(c, n1, reqs[1..]);
      assert Queued(reqs, n.committed) == [PendingRead(reqs[0], n.committed)] + Queued(reqs[1..], n.committed);
    }
  }

  /** The last committed entry is of the node's term. */
  predicate HasCommitted(n: Node) {
    0 < n.committed <= |n.log| && n.log[n.committed - 1].term == n.term
  }

  lemma CommittedIsOwn(c: Config, run: seq<Cluster>, i: nat, a: Id)
    requires c.Valid() && IsRun(c, run) && i < |run| && a in run[i].nodes && run[i].nodes[a].role.Leader?
    ensures CommittedInTerm(run[i].nodes[a]) <==> HasCommitted(run[i].nodes[a])
  {
    hide IsRun;
    LeaderIsSound(c, run, i, a);
    NoPanic(c, run, i, a);
  }

  lemma RequestsHaveNoTerm(c: Config, run: seq<Cluster>, i: nat, a: Id, m: Message)
    requires c.Valid() && IsRun(c, run) && i < |run| && Deliverable(run[i], a, m) && (m.MsgReadIndex? || m.MsgProp?)
    ensures m.term == 0
  {
    hide IsRun, HistInv, NodeInv, AckSent, Link;
    var hs := EveryRun(c, run);
    assert m in run[i].net ==> MsgOk(m, hs[i]);
  }

  lemma ReadReached(c: Config, n: Node, m: Message, e: Env)
    requires n.role.Leader? && m.MsgReadIndex? && m.term == 0
    ensures Step(c, n, m, e) == HandleReadIndex(c, n, m)
  {
    hide HandleReadIndex;
  }

  /** What a leader of a run does with a read it is asked for, unless it is the only
      voter. Once it has committed in its term it queues the read at its commit index
      and asks every other peer to confirm; before, it puts the request off. */
  lemma ReadRule(c: Config, run: seq<Cluster>, i: nat, a: Id, m: Message, e: Env)
    requires c.Valid() && IsRun(c, run) && i < |run| && a in run[i].nodes && Deliverable(run[i], a, m)
    requires run[i].nodes[a].role.Leader? && m.MsgReadIndex? && !c.IsSingleton()
    ensures var n, req := run[i].nodes[a], ReadRequest(m.from, m.ctx); var n' := Step(c, n, m, e);
            if HasCommitted(n) then
              && n'.readOnly.unconfirmed == n.readOnly.unconfirmed + [PendingRead(req, n.committed)]
              && n'.readOnly.confirmed == n.readOnly.confirmed && n'.pendingReads == n.pendingReads
              && forall p | p in c.peers && p != a ::
                   p in n.progress
                   && MsgHeartbeat(a, p, n.term, Min(n.progress[p].matched, n.committed), n'.readOnly.Total()) in n'.msgs
            else n' == n.(pendingReads := n.pendingReads + [req])
  {
    hide IsRun, Step, QueueRead, HasCommitted, CommittedInTerm, Deliverable;
    var n, req := run[i].nodes[a], ReadRequest(m.from, m.ctx);
    NodesRest(c, run, i, a);
    CommittedIsOwn(c, run, i, a);
    RequestsHaveNoTerm(c, run, i, a, m);
    ReadReached(c, n, m, e);
    QueuesOne(c, n, req);
    forall p | p in c.peers && p != a
      ensures p in n.progress
      ensures MsgHeartbeat(a, p, n.term, Min(n.progress[p].matched, n.committed), n.readOnly.Total() + 1) in QueueRead(c, n, req).msgs
    {
      PeersTracked(c, run, i, a, p);
      QueueAsksAll(c, n, req, p);
    }
  }

  // ------------------------------------------------------------------ postponed reads

  /** No read is put off once the term has a committed entry. */
  predicate Prompt(n: Node) { CommittedInTerm(n) ==> n.pendingReads == [] }

  lemma PromptAlike(n: Node, n': Node)
    requires Prompt(n) && n'.log == n.log && n'.committed == n.committed && n'.term == n.term && n'.pendingReads == n.pendingReads
    ensures Prompt(n')
  {}

  lemma SentPrompt(n: Node, n': Node)
    requires Prompt(n) && OnlySent(n, n')
    ensures Prompt(n')
  {}

  lemma GrownPrompt(n: Node, payloads: seq<Payload>)
    requires Prompt(n) && n.committed <= |n.log|
    ensures Prompt(AppendEntry(n, payloads))
  {}

  lemma ReadPrompt(c: Config, n: Node, m: Message)
    requires m.MsgReadIndex? && Prompt(n)
    ensures Prompt(HandleReadIndex(c, n, m))
  {
    hide QueueRead;
    QueuesOne(c, n, ReadRequest(m.from, m.ctx));
  }

  lemma ReleaseIsPrompt(c: Config, n: Node)
    ensures Prompt(ReleasePendingReads(c, n))
  {
    hide QueueReads;
    QueuesAll(c, n.(pendingReads := []), n.pendingReads);
  }

  lemma CommitPrompt(c: Config, n: Node, p: Id)
    requires p in n.progress && Prompt(n)
    ensures Prompt(AfterCommit(c, n, p))
  {
    hide MaybeCommit, ReleasePendingReads, BcastAppend, SendAppend, Progress.CanBumpCommit, OnlySent, Prompt;
    var n' := MaybeCommit(c, n);
    CommitKeeps(c, n);
    if n'.committed != n.committed {
      ReleaseIsPrompt(c, n');
      BcastAppendSends(c, ReleasePendingReads(c, n'), c.peers);
      SentPrompt(ReleasePendingReads(c, n'), BcastAppend(c, ReleasePendingReads(c, n'), c.peers));
    } else {
      PromptAlike(n, n');
      OneAppendSends(c, n', p);
      SentPrompt(n', SendAppend(c, n', p));
    }
  }

  lemma AckPrompt(c: Config, n: Node, m: Message)
    requires m.MsgAppResp? && m.from in n.progress && Prompt(n)
    ensures Prompt(HandleAck(c, n, m))
  {
    hide HandleAck, IsNews, AfterCommit, Drain, AckedProgress, OnlySent, Prompt, MaybeCommit;
    AckSplits(c, n, m);
    var p := m.from;
    var n1 := AfterAck(n, p, m.index);
    PromptAlike(n, n1);
    CommitPrompt(c, n1, p);
    var n2 := AfterCommit(c, n1, p);
    if p in n2.progress {
      DrainSends(c, n2, p);
      SentPrompt(n2, Drain(c, n2, p));
    }
    PromptAlike(AfterNews(c, n1, p), Transferred(AfterNews(c, n1, p), p));
  }

  lemma RejectPrompt(c: Config, n: Node, m: Message)
    requires m.MsgAppResp? && m.from in n.progress && Prompt(n)
    ensures Prompt(HandleReject(c, n, m))
  {
    hide SendAppend, OnlySent, NextProbeIndex, Progress.MaybeDecrTo, Progress.BecomeProbe, Prompt;
    var pr := n.progress[m.from].MaybeDecrTo(m.index, NextProbeIndex(n.log, m.hint)).0;
    var n' := SetProgress(n, m.from, if pr.state.StateReplicate? then pr.BecomeProbe() else pr);
    PromptAlike(n, n');
    OneAppendSends(c, n', m.from);
    SentPrompt(n', SendAppend(c, n', m.from));
  }

  lemma BeatPrompt(c: Config, n: Node, m: Message)
    requires m.MsgHeartbeatResp? && m.from in n.progress && Prompt(n)
    ensures Prompt(HandleHeartbeatResp(c, n, m))
  {
    hide HandleHeartbeatResp, AfterBeat, ReadOnly.RecvAck, OnlySent, Prompt, RespondAll, JointCommitted,
      ReadIndex.LocalAnswers, ReadIndex.RemoteAnswers, ReadOnly.MaybeAdvance, ReadOnly.Confirmable, ReadOnly.InRange;
    BeatSplits(c, n, m);
    BeatSends(c, n, m.from);
    var n0 := SetProgress(n, m.from, n.progress[m.from].(recentActive := true, paused := false));
    PromptAlike(n, n0);
    var n1 := AfterBeat(c, n, m.from);
    SentPrompt(n0, n1);
    var n2 := n1.(readOnly := n1.readOnly.RecvAck(m.from, m.context));
    var k := JointCommitted(c.voters, n2.readOnly.acks);
    ReadIndex.AnsweredInOrder(n2.(readOnly := n2.readOnly.MaybeAdvance(c.voters), failed := n2.failed || !n2.readOnly.InRange(k)),
                              n2.readOnly.Confirmable(c.voters));
    PromptAlike(n1, AdvanceReads(c, n2));
  }

  lemma TransferPrompt(c: Config, n: Node, m: Message)
    requires m.MsgTransferLeader? && m.from in n.progress && Prompt(n)
    ensures Prompt(HandleTransfer(c, n, m))
  {
    hide SendAppend, OnlySent;
    OneAppendSends(c, n.(transferee := m.from), m.from);
    SentPrompt(n.(transferee := m.from), SendAppend(c, n.(transferee := m.from), m.from));
  }

  lemma CheckPrompt(c: Config, n: Node)
    requires Prompt(n)
    ensures Prompt(HandleCheckQuorum(c, n))
  {
    hide JointVote, AllFresh;
  }

  lemma LeaderPrompt(c: Config, n: Node, m: Message, e: Env)
    requires Prompt(n) && n.committed <= |n.log|
    ensures Prompt(StepLeader(c, n, m, e))
  {
    hide BcastHeartbeat, BcastAppend, AppendEntry, HandleReadIndex, HandleReject, HandleAck, HandleHeartbeatResp,
      HandleTransfer, OnlySent, Prompt, HandleCheckQuorum, Progress.BecomeProbe;
    if m.MsgBeat? {
      BcastHeartbeatSends(n, n.readOnly.HeartbeatCtx(), c.peers);
      SentPrompt(n, StepLeader(c, n, m, e));
    } else if m.MsgCheckQuorum? {
      CheckPrompt(c, n);
    } else if m.MsgProp? {
      GrownPrompt(n, m.payloads);
      PromptAlike(n, n.(failed := true));
      BcastAppendSends(c, AppendEntry(n, m.payloads), c.peers);
      SentPrompt(AppendEntry(n, m.payloads), BcastAppend(c, AppendEntry(n, m.payloads), c.peers));
    } else if m.MsgReadIndex? {
      ReadPrompt(c, n, m);
    } else if m.from in n.progress {
      PeerPrompt(c, n, m, e);
    }
  }

  lemma PeerPrompt(c: Config, n: Node, m: Message, e: Env)
    requires Prompt(n) && m.from in n.progress
    requires !m.MsgBeat? && !m.MsgCheckQuorum? && !m.MsgProp? && !m.MsgReadIndex?
    ensures Prompt(StepLeader(c, n, m, e))
  {
    hide HandleReject, HandleAck, HandleHeartbeatResp, HandleTransfer, Prompt, Progress.BecomeProbe;
    if m.MsgAppResp? {
      var n' := SetProgress(n, m.from, n.progress[m.from].(recentActive := true));
      PromptAlike(n, n');
      RejectPrompt(c, n', m);
      AckPrompt(c, n', m);
    } else if m.MsgHeartbeatResp? {
      BeatPrompt(c, n, m);
    } else if m.MsgTransferLeader? {
      TransferPrompt(c, n, m);
    } else {
      PromptAlike(n, SetProgress(n, m.from, n.progress[m.from].BecomeProbe()));
    }
  }

  lemma NewPrompt(c: Config, n: Node)
    requires n.term > 0 && n.committed <= |n.log| && forall x | x in n.log :: x.term < n.term
    ensures Prompt(BcastAppend(c, BecomeLeader(c, n), c.peers))
  {
    hide BcastAppend, OnlySent, AllFresh;
    BcastAppendSends(c, BecomeLeader(c, n), c.peers);
    SentPrompt(BecomeLeader(c, n), BcastAppend(c, BecomeLeader(c, n), c.peers));
  }

  lemma AnsweredPrompt(n: Node, n': Node)
    requires Prompt(n) && OnlyAnswered(n, n')
    ensures Prompt(n')
  {}

  lemma MovePrompt(c: Config, run: seq<Cluster>, k: nat, i: nat, a: Id)
    requires c.Valid() && IsRun(c, run) && i == k + 1 < |run| && a in run[k].nodes && a in run[i].nodes
    requires run[k].nodes[a].role.Leader? ==> Prompt(run[k].nodes[a])
    requires run[i].nodes[a].role.Leader?
    ensures Prompt(run[i].nodes[a])
  {
    hide IsRun, Prompt, Step, StepLeader, Deliverable, OnlyAnswered, BcastAppend, BecomeLeader;
    var s, s', n, n' := run[k], run[i], run[k].nodes[a], run[i].nodes[a];
    StepOf(c, run, k);
    NoPanic(c, run, k, a);
    WhatHappened(c, s, s', a);
    if m, e :| Receives(c, s, s', a, m, e) {
      var after := Step(c, n, m, e);
      if n.role.Leader? {
        LeaderStays(c, n, m, e);
        if after == StepLeader(c, n, m, e) { LeaderPrompt(c, n, m, e); } else { AnsweredPrompt(n, after); }
      } else {
        NewLeader(c, n, m, e);
        WinnerIsPrompt(c, run, k, i, a, m, e);
      }
      PromptAlike(after, n');
    } else {
      PromptAlike(n, n');
    }
  }

  lemma WinnerIsPrompt(c: Config, run: seq<Cluster>, k: nat, i: nat, a: Id, m: Message, e: Env)
    requires c.Valid() && IsRun(c, run) && i == k + 1 < |run| && a in run[k].nodes && a in run[i].nodes
    requires Receives(c, run[k], run[i], a, m, e) && m.MsgVoteResp?
    requires !run[k].nodes[a].role.Leader? && run[i].nodes[a].role.Leader?
    requires Step(c, run[k].nodes[a], m, e) ==
             BcastAppend(c, BecomeLeader(c, RecordVote(run[k].nodes[a], m.from, !m.reject)), c.peers)
    ensures Prompt(Step(c, run[k].nodes[a], m, e))
  {
    hide IsRun, Prompt, Step, Deliverable, OnlySent, BcastAppend, BecomeLeader;
    var n := RecordVote(run[k].nodes[a], m.from, !m.reject);
    BcastAppendSends(c, BecomeLeader(c, n), c.peers);
    SentKeepsPeers(BecomeLeader(c, n), BcastAppend(c, BecomeLeader(c, n), c.peers));
    LeaderKeepsTerm(c, n);
    WinnersLog(c, run, k, i, a);
    NoPanic(c, run, k, a);
    LeaderIsSound(c, run, i, a);
    NewPrompt(c, n);
  }

  /** In every run, a leader that has committed an entry of its term has no reads put
      off: all it was asked for are queued or answered. */
  lemma {:induction false} NoReadWaits(c: Config, run: seq<Cluster>, i: nat, a: Id)
    requires c.Valid() && IsRun(c, run) && i < |run| && a in run[i].nodes && run[i].nodes[a].role.Leader?
    ensures HasCommitted(run[i].nodes[a]) ==> run[i].nodes[a].pendingReads == []
    ensures Prompt(run[i].nodes[a])
  {
    hide Next, Prompt, HasCommitted, CommittedInTerm;
    CommittedIsOwn(c, run, i, a);
    if i > 0 {
      var k: nat := i - 1;
      NodesStay(c, run, k, i);
      if run[k].nodes[a].role.Leader? { NoReadWaits(c, run, k, a); }
      MovePrompt(c, run, k, i, a);
    }
    PromptMeans(run[i].nodes[a]);
  }

  lemma PromptMeans(n: Node)
    requires Prompt(n)
    ensures CommittedInTerm(n) ==> n.pendingReads == []
  {}

  // --------------------------------------------------------------- releasing reads

  /** The reads of n' are those of n, and the ones n had put off, queued in their order
      at the new commit index. */
  ghost predicate Released(n: Node, n': Node) {
    && n'.readOnly.unconfirmed == n.readOnly.unconfirmed + Queued(n.pendingReads, n'.committed)
    && n'.readOnly.confirmed == n.readOnly.confirmed && n'.pendingReads == []
  }

  ghost predicate SameReads(n: Node, n': Node) {
    n'.readOnly == n.readOnly && n'.pendingReads == n.pendingReads && n'.committed == n.committed
  }

  lemma ReleaseReleases(c: Config, n: Node)
    requires CommittedInTerm(n)
    ensures Released(n, ReleasePendingReads(c, n))
  {
    hide QueueReads, CommittedInTerm;
    if n.pendingReads == [] {
      assert Queued(n.pendingReads, n.committed) == [];
    } else {
      QueuesAll(c, n.(pendingReads := []), n.pendingReads);
    }
  }

  lemma CommitIsOwn(c: Config, n: Node)
    ensures var n' := MaybeCommit(c, n); n'.committed == n.committed || (n'.committed > n.committed && CommittedInTerm(n'))
  {
    hide JointCommitted, MatchIndexes;
  }

  lemma SentReads(n: Node, n': Node)
    requires OnlySent(n, n')
    ensures SameReads(n, n')
  {}

  lemma ReleasedThen(n: Node, n1: Node, n2: Node)
    requires Released(n, n1) && SameReads(n1, n2)
    ensures Released(n, n2)
  {}

  lemma CommitReleases(c: Config, n: Node, p: Id)
    requires p in n.progress
    ensures var n' := AfterCommit(c, n, p); if n'.committed != n.committed then Released(n, n') else SameReads(n, n')
  {
    hide MaybeCommit, ReleasePendingReads, BcastAppend, SendAppend, Progress.CanBumpCommit, OnlySent, CommittedInTerm;
    var n1 := MaybeCommit(c, n);
    CommitKeeps(c, n);
    if n1.committed != n.committed {
      CommitIsOwn(c, n);
      ReleaseReleases(c, n1);
      var n2 := ReleasePendingReads(c, n1);
      ReleaseKeepsPeers(c, n1);
      BcastAppendSends(c, n2, c.peers);
      SentReads(n2, BcastAppend(c, n2, c.peers));
    } else {
      OneAppendSends(c, n1, p);
      SentReads(n1, SendAppend(c, n1, p));
    }
  }

  lemma AckReleases(c: Config, n: Node, m: Message)
    requires m.MsgAppResp? && m.from in n.progress
    ensures var n' := HandleAck(c, n, m); if n'.committed != n.committed then Released(n, n') else SameReads(n, n')
  {
    hide HandleAck, IsNews, AfterCommit, Drain, AckedProgress, OnlySent, MaybeCommit;
    AckSplits(c, n, m);
    var p := m.from;
    var n1 := AfterAck(n, p, m.index);
    CommitReleases(c, n1, p);
    var n2 := AfterCommit(c, n1, p);
    if p in n2.progress {
      DrainSends(c, n2, p);
      SentReads(n2, Drain(c, n2, p));
    }
  }

  /** An acknowledgement that makes a leader of a run commit queues all the reads it
      had put off; any other leaves the reads alone. */
  lemma ReleaseRule(c: Config, run: seq<Cluster>, i: nat, a: Id, m: Message, e: Env)
    requires c.Valid() && IsRun(c, run) && i < |run| && a in run[i].nodes && m.MsgAppResp? && !m.reject
    requires run[i].nodes[a].role.Leader? && m.term == run[i].nodes[a].term && m.from in run[i].nodes[a].progress
    ensures var n := run[i].nodes[a]; var n' := Step(c, n, m, e);
            if n'.committed > n.committed
            then HasCommitted(n') && Released(n, n')
            else n'.committed == n.committed && n'.readOnly == n.readOnly && n'.pendingReads == n.pendingReads
  {
    hide IsRun, Step, HandleAck, Released, HasCommitted, CommittedInTerm;
    var n := run[i].nodes[a];
    AckReached(c, n, m, e);
    AckStays(c, n, m, e);
    var n1 := SetProgress(n, m.from, n.progress[m.from].(recentActive := true));
    AckReleases(c, n1, m);
    var n' := HandleAck(c, n1, m);
    AckCommits(c, n1, m);
    if n'.committed != n.committed {
      ReleasedAlike(n, n1, n');
      LeaderIsSound(c, run, i, a);
      OwnCommit(n');
    }
  }

  lemma AckCommits(c: Config, n: Node, m: Message)
    requires m.MsgAppResp? && m.from in n.progress
    ensures var n' := HandleAck(c, n, m);
            n'.term == n.term && (n'.committed == n.committed || (n'.committed > n.committed && CommittedInTerm(n')))
  {
    hide HandleAck, IsNews, AckedProgress, MaybeCommit;
    AckKeepsPeers(c, n, m);
    CommitKeeps(c, AfterAck(n, m.from, m.index));
    CommitIsOwn(c, AfterAck(n, m.from, m.index));
  }

  lemma OwnCommit(n: Node)
    requires CommittedInTerm(n) && n.term > 0
    ensures HasCommitted(n)
  {}

  lemma ReleasedAlike(n: Node, n1: Node, n': Node)
    requires Released(n1, n') && n1.readOnly == n.readOnly && n1.pendingReads == n.pendingReads
    ensures Released(n, n')
  {}

  // -------------------------------------------------------------- confirming reads

  lemma ResponseReached(c: Config, n: Node, m: Message, e: Env)
    requires n.role.Leader? && m.MsgHeartbeatResp? && m.term == n.term && m.from in n.progress
    ensures Step(c, n, m, e) == HandleHeartbeatResp(c, n, m)
  {
    hide HandleHeartbeatResp;
  }

  lemma BeatReads(c: Config, n: Node, m: Message)
    requires m.MsgHeartbeatResp? && m.from in n.progress && m.context != 0 && !HandleHeartbeatResp(c, n, m).failed
    ensures var ro := n.readOnly.RecvAck(m.from, m.context);
            HandleHeartbeatResp(c, n, m).readOnly == ro.MaybeAdvance(c.voters) && ro.InRange(JointCommitted(c.voters, ro.acks))
  {
    hide HandleHeartbeatResp, AfterBeat, RespondAll, JointCommitted, ReadIndex.LocalAnswers, ReadIndex.RemoteAnswers,
      ReadOnly.MaybeAdvance, ReadOnly.Confirmable, ReadOnly.InRange;
    BeatSplits(c, n, m);
    BeatSends(c, n, m.from);
    var n1 := AfterBeat(c, n, m.from);
    var n2 := n1.(readOnly := n1.readOnly.RecvAck(m.from, m.context));
    var k := JointCommitted(c.voters, n2.readOnly.acks);
    ReadIndex.AnsweredInOrder(n2.(readOnly := n2.readOnly.MaybeAdvance(c.voters), failed := n2.failed || !n2.readOnly.InRange(k)),
                              n2.readOnly.Confirmable(c.voters));
  }

  /** What a leader of a run makes of a heartbeat response that carries the position of
      a read: its sender has acknowledged every read up to there, and a waiting read is
      confirmed now exactly if a quorum has acknowledged it. */
  lemma ConfirmRule(c: Config, run: seq<Cluster>, i: nat, a: Id, m: Message, e: Env, p: nat)
    requires c.Valid() && IsRun(c, run) && i < |run| && a in run[i].nodes && Deliverable(run[i], a, m)
    requires run[i].nodes[a].role.Leader? && m.MsgHeartbeatResp? && m.term == run[i].nodes[a].term && m.context != 0
    requires m.from in run[i].nodes[a].progress
    requires run[i].nodes[a].readOnly.confirmed < p <= run[i].nodes[a].readOnly.Total()
    ensures var n := run[i].nodes[a]; var n' := Step(c, n, m, e);
            var acks := n.readOnly.acks[m.from := Max(AckedIndex(n.readOnly.acks, m.from), m.context)];
            && n'.readOnly.acks == acks && n'.readOnly.Total() == n.readOnly.Total()
            && (p <= n'.readOnly.confirmed <==> IsQuorum(c.voters, AckedAtLeast(acks, c.voters.Ids(), p)))
  {
    hide IsRun, Step, HandleHeartbeatResp, Deliverable, JointCommitted, IsQuorum, ReadOnly.InRange, AckedAtLeast;
    var n := run[i].nodes[a];
    ResponseReached(c, n, m, e);
    GoesOn(c, run, i, a, m, e);
    BeatReads(c, n, m);
    var ro := n.readOnly.RecvAck(m.from, m.context);
    ReadIndex.AdvanceSplits(ro, c.voters);
    SomeVoter(c);
    ReadIndex.ReleasedByQuorum(ro, c.voters, p);
  }

  // -------------------------------------------------------- requests and answers

  /** What a follower does with a request of its host or of another node: it passes it
      on unchanged to the leader it knows, in the name of whoever asked, and drops it
      otherwise; and an answer it is sent it gives to its host as it is. */
  lemma FollowerServes(c: Config, n: Node, m: Message, e: Env)
    requires n.role.Follower? && (m.term == 0 || m.term == n.term)
    ensures var n', asker := Step(c, n, m, e), if m.from == NONE then n.id else m.from;
            && (m.MsgReadIndex? ==>
                  if n.lead == NONE then n' == n
                  else n'.msgs == n.msgs + [MsgReadIndex(asker, n.lead, 0, m.ctx)] && n' == n.(msgs := n'.msgs, failed := n'.failed))
            && (m.MsgProp? ==>
                  if n.lead == NONE || !c.forwardProposals then n' == n
                  else n'.msgs == n.msgs + [MsgProp(asker, n.lead, 0, m.payloads)] && n' == n.(msgs := n'.msgs, failed := n'.failed))
            && (m.MsgTransferLeader? ==>
                  if n.lead == NONE then n' == n
                  else n'.msgs == n.msgs + [MsgTransferLeader(asker, n.lead, n.term)] && n' == n.(msgs := n'.msgs, failed := n'.failed))
            && (m.MsgReadIndexResp? ==> n' == n.(readStates := n.readStates + [ReadState(m.index, m.ctx)]))
            && (m.MsgForgetLeader? ==> n' == n.(lead := NONE))
  {
    hide Hup, HandleVote, HandleAppendEntries, HandleHeartbeat;
  }

  /** A read asked for at a follower goes to its leader, which queues it as a read of
      that follower; so the answer, which carries the same context, comes back to it. */
  lemma ForwardedReadIsQueued(c: Config, run: seq<Cluster>, i: nat, f: Id, m: Message, e: Env, j: nat, a: Id, e': Env)
    returns (x: Message)
    requires c.Valid() && IsRun(c, run) && !c.IsSingleton() && i < |run| && f in run[i].nodes && m.MsgReadIndex? && m.term == 0
    requires m.from == NONE && run[i].nodes[f].role.Follower? && run[i].nodes[f].lead == a != NONE
    requires j < |run| && a in run[j].nodes && run[j].nodes[a].role.Leader? && HasCommitted(run[j].nodes[a])
    requires Deliverable(run[j], a, MsgReadIndex(f, a, 0, m.ctx))
    ensures Step(c, run[i].nodes[f], m, e).msgs == [x] && x.to == a
    ensures var n := run[j].nodes[a];
            Step(c, n, x, e').readOnly.unconfirmed == n.readOnly.unconfirmed + [PendingRead(ReadRequest(f, m.ctx), n.committed)]
  {
    hide IsRun, Step, Deliverable, HasCommitted;
    NodesRest(c, run, i, f);
    FollowerServes(c, run[i].nodes[f], m, e);
    x := MsgReadIndex(f, a, 0, m.ctx);
    ReadRule(c, run, j, a, x, e');
  }
}
