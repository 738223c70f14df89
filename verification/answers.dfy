/** Who answers reads, and with what: a leader confirms reads only on a heartbeat
    response, and then answers each of them with the index it was queued with. */
module ReadAnswers {
  import opened Quorum
  import opened Logs
  import opened Flow
  import opened ReadQueue
  import opened RaftSpec
  import opened Safety
  import opened ReadIndex
  import opened Handling
  import opened Effects

  // ------------------------------------------------------ what confirms no read

  /** The same leader, with no more reads confirmed. */
  ghost predicate NoneConfirmed(n: Node, n': Node) {
    && n'.id == n.id && n'.role == n.role && n'.term == n.term && n'.progress.Keys == n.progress.Keys
    && OnlyQueued(n.readOnly, n'.readOnly)
  }

  /** No read was confirmed, but some may have been queued. */
  ghost predicate OnlyQueued(ro: ReadOnly, ro': ReadOnly) {
    ro'.confirmed == ro.confirmed && ro.unconfirmed <= ro'.unconfirmed
  }

  lemma QueueConfirmsNone(c: Config, n: Node, req: ReadRequest)
    ensures NoneConfirmed(n, QueueRead(c, n, req))
  {
    var ro := n.readOnly.AddRequest(n.committed, req);
    var n' := n.(readOnly := ro.RecvAck(n.id, ro.HeartbeatCtx()));
    BcastHeartbeatSends(n', n'.readOnly.HeartbeatCtx(), c.peers);
  }

  lemma {:induction false} QueuesConfirmNone(c: Config, n: Node, reqs: seq<ReadRequest>)
    ensures NoneConfirmed(n, QueueReads(c, n, reqs))
    decreases |reqs|
  {
    hide QueueRead;
    if reqs != [] {
      QueueConfirmsNone(c, n, reqs[0]);
      QueuesConfirmNone(c, QueueRead(c, n, reqs[0]), reqs[1..]);
    }
  }

  lemma CommitConfirmsNone(c: Config, n: Node, p: Id)
    requires p in n.progress
    ensures NoneConfirmed(n, AfterCommit(c, n, p))
  {
    hide BcastAppend, SendAppend, QueueReads, Progress.CanBumpCommit, MaybeCommit;
    var n' := MaybeCommit(c, n);
    CommitKeeps(c, n);
    QueuesConfirmNone(c, n'.(pendingReads := []), n'.pendingReads);
    BcastAppendSends(c, ReleasePendingReads(c, n'), c.peers);
    OneAppendSends(c, n', p);
  }

  lemma AckConfirmsNone(c: Config, n: Node, m: Message)
    requires m.MsgAppResp? && m.from in n.progress
    ensures NoneConfirmed(n, HandleAck(c, n, m))
  {
    hide HandleAck, AfterCommit, Drain, Send, AckedProgress, Progress.MaybeUpdate, IsNews;
    AckSplits(c, n, m);
    var n1 := AfterAck(n, m.from, m.index);
    assert NoneConfirmed(n, n1);
    CommitConfirmsNone(c, n1, m.from);
    var n2 := AfterCommit(c, n1, m.from);
    if m.from in n2.progress { DrainSends(c, n2, m.from); }
    SendConfirmsNone(AfterNews(c, n1, m.from), MsgTimeoutNow(n.id, m.from, n.term));
  }

  lemma SendConfirmsNone(n: Node, m: Message)
    ensures NoneConfirmed(n, Send(n, m))
  {}

  lemma RejectConfirmsNone(c: Config, n: Node, m: Message)
    requires m.MsgAppResp? && m.from in n.progress
    ensures NoneConfirmed(n, HandleReject(c, n, m))
  {
    hide SendAppend, Progress.MaybeDecrTo, Progress.BecomeProbe;
    var pr := n.progress[m.from].MaybeDecrTo(m.index, NextProbeIndex(n.log, m.hint)).0;
    OneAppendSends(c, SetProgress(n, m.from, if pr.state.StateReplicate? then pr.BecomeProbe() else pr), m.from);
  }

  lemma TransferConfirmsNone(c: Config, n: Node, m: Message)
    requires m.MsgTransferLeader? && m.from in n.progress
    ensures NoneConfirmed(n, HandleTransfer(c, n, m))
  {
    hide SendAppend;
    OneAppendSends(c, n.(transferee := m.from), m.from);
  }

  lemma ProposalConfirmsNone(c: Config, n: Node, payloads: seq<Payload>)
    ensures NoneConfirmed(n, BcastAppend(c, AppendEntry(n, payloads), c.peers))
  {
    hide BcastAppend;
    BcastAppendSends(c, AppendEntry(n, payloads), c.peers);
  }

  lemma ReadConfirmsNone(c: Config, n: Node, m: Message)
    requires m.MsgReadIndex?
    ensures NoneConfirmed(n, HandleReadIndex(c, n, m))
  {
    hide QueueRead;
    QueueConfirmsNone(c, n, ReadRequest(m.from, m.ctx));
  }

  /** What a leader that stays one does with a message of its term. */
  lemma LeaderConfirms(c: Config, n: Node, m: Message, e: Env)
    requires n.role.Leader? && StepLeader(c, n, m, e).role.Leader?
    ensures OnlyQueued(n.readOnly, StepLeader(c, n, m, e).readOnly) ||
            (m.MsgHeartbeatResp? && m.from in n.progress && m.context != 0 && StepLeader(c, n, m, e) == HandleHeartbeatResp(c, n, m))
  {
    hide BcastHeartbeat, BcastAppend, AppendEntry, HandleReadIndex, HandleReject, HandleAck, HandleHeartbeatResp,
      HandleTransfer, Progress.BecomeProbe, JointVote, AllFresh;
    if m.MsgBeat? {
      BcastHeartbeatSends(n, n.readOnly.HeartbeatCtx(), c.peers);
    } else if m.MsgProp? {
      ProposalConfirmsNone(c, n, m.payloads);
    } else if m.MsgReadIndex? {
      ReadConfirmsNone(c, n, m);
    } else if m.from in n.progress {
      if m.MsgAppResp? {
        var n' := SetProgress(n, m.from, n.progress[m.from].(recentActive := true));
        RejectConfirmsNone(c, n', m);
        AckConfirmsNone(c, n', m);
      } else if m.MsgHeartbeatResp? {
        if m.context == 0 { BeatConfirmsNone(c, n, m); }
      } else if m.MsgTransferLeader? {
        TransferConfirmsNone(c, n, m);
      }
    }
  }

  lemma BeatConfirmsNone(c: Config, n: Node, m: Message)
    requires m.MsgHeartbeatResp? && m.from in n.progress && m.context == 0
    ensures NoneConfirmed(n, HandleHeartbeatResp(c, n, m))
  {
    hide HandleHeartbeatResp, AfterBeat;
    BeatSplits(c, n, m);
    BeatSends(c, n, m.from);
  }

  /** A leader that stays one confirms reads only on a response to a heartbeat. */
  lemma OnlyBeatsConfirm(c: Config, n: Node, m: Message, e: Env)
    requires n.role.Leader? && Step(c, n, m, e).role.Leader?
    ensures OnlyQueued(n.readOnly, Step(c, n, m, e).readOnly) ||
            (m.MsgHeartbeatResp? && m.from in n.progress && m.context != 0 && Step(c, n, m, e) == HandleHeartbeatResp(c, n, m))
  {
    hide Step, StepLeader, HandleHeartbeatResp;
    LeaderStays(c, n, m, e);
    if Step(c, n, m, e) == StepLeader(c, n, m, e) { LeaderConfirms(c, n, m, e); }
  }

  // ------------------------------------------------------------------- answers

  /** The answer to a read of the batch is among the answers. */
  lemma {:induction false} AnswerOf(id: Id, term: nat, batch: seq<PendingRead>, i: nat)
    requires i < |batch|
    ensures var r := batch[i];
            if IsLocal(id, r.req) then ReadState(r.index, r.req.ctx) in LocalAnswers(id, batch)
            else MsgReadIndexResp(id, r.req.from, term, r.index, r.req.ctx) in RemoteAnswers(id, term, batch)
    decreases |batch|
  {
    if i > 0 { AnswerOf(id, term, batch[1..], i - 1); }
  }

  /** What a heartbeat response does to the reads: those it confirms leave the queue
      from the front, and are exactly those answered. */
  lemma BeatAnswers(c: Config, n: Node, m: Message) returns (batch: seq<PendingRead>)
    requires m.MsgHeartbeatResp? && m.from in n.progress && m.context != 0
    ensures var n' := HandleHeartbeatResp(c, n, m);
            && n'.readOnly.confirmed == n.readOnly.confirmed + |batch|
            && batch + n'.readOnly.unconfirmed == n.readOnly.unconfirmed
            && n'.id == n.id && n'.role == n.role && n'.term == n.term
            && n'.readStates == n.readStates + LocalAnswers(n.id, batch)
            && (forall x | x in RemoteAnswers(n.id, n.term, batch) :: x in n'.msgs)
            && (forall x | x in n'.msgs && x.MsgReadIndexResp? :: x in n.msgs || x in RemoteAnswers(n.id, n.term, batch))
  {
    hide HandleHeartbeatResp, AfterBeat, RespondAll, LocalAnswers, RemoteAnswers, JointCommitted;
    BeatSplits(c, n, m);
    BeatSends(c, n, m.from);
    var n1 := AfterBeat(c, n, m.from);
    var n2 := n1.(readOnly := n1.readOnly.RecvAck(m.from, m.context));
    var k := JointCommitted(c.voters, n2.readOnly.acks);
    batch := n2.readOnly.Confirmable(c.voters);
    AdvanceSplits(n2.readOnly, c.voters);
    AnsweredInOrder(n2.(readOnly := n2.readOnly.MaybeAdvance(c.voters), failed := n2.failed || !n2.readOnly.InRange(k)), batch);
  }

  /** Node L confirms its p-th read of term T in the step from s to s'. */
  predicate Confirms(s: Cluster, s': Cluster, L: Id, T: nat, p: nat) {
    Waiting(s, L, T, p) && HasQueued(s', L, T, p) && !Waiting(s', L, T, p)
  }

  function TheRead(s: Cluster, L: Id, T: nat, p: nat): PendingRead
    requires Waiting(s, L, T, p)
  {
    s.nodes[L].readOnly.unconfirmed[p - 1 - s.nodes[L].readOnly.confirmed]
  }

  /** The answer to a read is given: to the host of the leader, or over the network. */
  predicate Answered(s: Cluster, s': Cluster, L: Id, T: nat, r: PendingRead)
    requires L in s.nodes
  {
    && L in s'.nodes && s.nodes[L].readStates <= s'.nodes[L].readStates
    && if IsLocal(L, r.req) then ReadState(r.index, r.req.ctx) in s'.nodes[L].readStates[|s.nodes[L].readStates|..]
       else MsgReadIndexResp(L, r.req.from, T, r.index, r.req.ctx) in s'.net
  }

  lemma BeatConfirms(c: Config, n: Node, m: Message, p: nat) returns (batch: seq<PendingRead>)
    requires m.MsgHeartbeatResp? && m.from in n.progress && m.context != 0
    requires n.readOnly.confirmed < p <= HandleHeartbeatResp(c, n, m).readOnly.confirmed && p <= n.readOnly.Total()
    ensures var n', r := HandleHeartbeatResp(c, n, m), n.readOnly.unconfirmed[p - 1 - n.readOnly.confirmed];
            && n'.readStates == n.readStates + LocalAnswers(n.id, batch)
            && (if IsLocal(n.id, r.req) then ReadState(r.index, r.req.ctx) in LocalAnswers(n.id, batch)
                else MsgReadIndexResp(n.id, r.req.from, n.term, r.index, r.req.ctx) in n'.msgs)
  {
    hide HandleHeartbeatResp, LocalAnswers, RemoteAnswers;
    batch := BeatAnswers(c, n, m);
    AnswerOf(n.id, n.term, batch, p - 1 - n.readOnly.confirmed);
  }

  lemma ConfirmedIsAnswered(c: Config, s: Cluster, s': Cluster, L: Id, T: nat, p: nat)
    requires Next(c, s, s') && L in s.nodes && s.nodes[L].id == L && Confirms(s, s', L, T, p)
    ensures Answered(s, s', L, T, TheRead(s, L, T, p))
  {
    hide Step, HandleHeartbeatResp, LocalAnswers, RemoteAnswers, Deliverable, Restarted;
    var n := s.nodes[L];
    if id, m, e :| Receives(c, s, s', id, m, e) {
      if id == L {
        OnlyBeatsConfirm(c, n, m, e);
        var batch := BeatConfirms(c, n, m, p);
        var states := s'.nodes[L].readStates;
        assert states[|n.readStates|..] == LocalAnswers(L, batch);
      }
    } else if id :| AbortsTransfer(s, s', id) {
    } else {
      var id, kept, committed :| Restarts(c, s, s', id, kept, committed);
      if id == L { RestartsAsFollower(c, n, kept, committed); }
    }
  }

  /** When a leader confirms a read it answers it in that step, to its host or by a
      message, with an index that is not below the commit index of any node at any
      moment up to the one the read was queued. The read is the p-th of leader L in
      term T, queued in step j and confirmed in step k. */
  lemma ConfirmedReadsAreRecent(c: Config, run: seq<Cluster>, i: nat, j: nat, k: nat, L: Id, T: nat, p: nat, q: Id)
    requires c.Valid() && IsRun(c, run) && i <= j < k < |run| - 1 && p > 0 && q in run[i].nodes
    requires !HasQueued(run[j], L, T, p) && HasQueued(run[j + 1], L, T, p) && Confirms(run[k], run[k + 1], L, T, p)
    ensures var r := TheRead(run[k], L, T, p);
            run[i].nodes[q].committed <= r.index && Answered(run[k], run[k + 1], L, T, r)
  {
    hide Next;
    IndexIsRecent(c, run, i, j, k, L, T, p, q);
    NodeIds(c, run, k, L);
    assert Next(c, run[k], run[k + 1]);
    ConfirmedIsAnswered(c, run[k], run[k + 1], L, T, p);
  }
}
