/** Queueing, confirming and releasing reads keep the invariant; a confirmed
    read carries an index that covers every commit known when it was queued. */
module ReadSafety {
  import opened Quorum
  import opened Logs
  import opened ReadQueue
  import opened RaftSpec
  import opened History
  import opened Growth
  import opened Invariant
  import opened Stepping
  import opened Elections
  import opened Replication
  import opened Followers

  /** Some leader committed up to peak. */
  ghost predicate PeakOk(h: Hist, peak: nat) {
    peak == 0 || exists T: nat :: T in h.ldr && peak <= h.ldr[T].commit
  }

  lemma PeakGrows(h: Hist, h': Hist, peak: nat)
    requires PeakOk(h, peak) && LeadersGrow(h, h')
    ensures PeakOk(h', peak)
  {
    if peak != 0 {
      var T: nat :| T in h.ldr && peak <= h.ldr[T].commit;
      assert T in h'.ldr && peak <= h'.ldr[T].commit;
    }
  }

  // ---------------------------------------------------------------- queueing

  /** What an earlier leader committed lies within the log the leader of T was
      elected with. */
  lemma EarlierCommitInBase(c: Config, h: Hist, T1: nat, T: nat)
    requires c.Valid() && HistInv(c, h) && T1 in h.ldr && T in h.ldr && T1 < T
    ensures h.ldr[T1].commit <= |h.ldr[T].base|
  {
    hide HistInv;
    LeaderAt(c, h, T1);
    LeaderAt(c, h, T);
    if h.ldr[T1].commit != 0 {
      var Tc: nat, i: nat :| Covered(c, h, T1, h.ldr[T1].commit, Tc, i);
      LeaderAt(c, h, Tc);
      LeaderCompleteness(c, h, Tc, i, T);
      AgreeAt(h.ldr[T].log, h.ldr[Tc].log, i, i - 1);
    }
  }

  /** A leader that has committed in its own term knows every commit, or a later
      leader's voters have already left its term. */
  lemma IndexCovers(c: Config, n: Node, h: Hist, pos: nat, peak: nat)
    requires Ok(c, n, h) && n.role.Leader? && CommittedInTerm(n) && PeakOk(h, peak) && pos == n.readOnly.Total() + 1
    ensures peak <= n.committed || exists T2: nat :: Outdated(h, n.term, pos, T2)
  {
    hide HistInv, LogFits, CommitFits, AcksFit, PastFits, OutboxOk, Tracks, Serving, Outdated;
    if peak > n.committed {
      var T2: nat :| T2 in h.ldr && peak <= h.ldr[T2].commit;
      if T2 < n.term {
        EarlierCommitInBase(c, h, T2, n.term);
        OwnTermPastBase(c, h, n.term, n.committed);
      } else {
        LaterOutdates(c, n.id, n.term, n.readOnly, h, T2);
        assert Outdated(h, n.term, pos, T2);
      }
    }
  }

  lemma LaterOutdates(c: Config, id: Id, term: nat, ro: ReadOnly, h: Hist, T2: nat)
    requires HistInv(c, h) && Serving(id, term, ro, h) && T2 in h.ldr && term < T2
    ensures Outdated(h, term, ro.Total() + 1, T2)
  {
    hide LeadersOk, CommitsOk, BallotsOk;
    forall b | b in h.beats && b.term == term && b.who in h.ldr[T2].voters ensures b.context < ro.Total() + 1 {
      assert BeatOk(h, b);
    }
  }

  /** The queue after one more read and the leader's own acknowledgement. */
  ghost function Queued(n: Node, req: ReadRequest): ReadOnly {
    var ro := n.readOnly.AddRequest(n.committed, req);
    ro.RecvAck(n.id, ro.HeartbeatCtx())
  }

  lemma QueuedServing(id: Id, term: nat, n: Node, req: ReadRequest, h: Hist, h': Hist, peak: nat)
    requires n.id == id && n.term == term && Serving(id, term, n.readOnly, h)
    requires h' == h.(asked := h.asked[Key(term, n.readOnly.Total() + 1) := ReadRec(n.committed, peak)])
    ensures Serving(id, term, Queued(n, req), h')
  {
    var ro, ro' := n.readOnly, Queued(n, req);
    forall p: nat | 0 < p <= ro'.Total() ensures ReadFits(term, ro', h', p) {
      if p <= ro.Total() { assert ReadFits(term, ro, h, p); }
    }
    forall v | v in ro'.acks ensures BeatFits(id, term, ro'.Total(), h', v, ro'.acks[v]) {
      if v != id { assert BeatFits(id, term, ro.Total(), h, v, ro.acks[v]); }
      else if v in ro.acks { assert BeatFits(id, term, ro.Total(), h, v, ro.acks[v]); }
    }
  }

  lemma NewPosition(c: Config, n: Node, h: Hist)
    requires Ok(c, n, h) && n.role.Leader?
    ensures Key(n.term, n.readOnly.Total() + 1) !in h.asked
  {
    hide HistInv, LogFits, CommitFits, AcksFit, PastFits, OutboxOk, Tracks;
  }

  lemma QueuesOne(c: Config, n: Node, h: Hist, req: ReadRequest, peak: nat) returns (h': Hist)
    requires Ok(c, n, h) && n.role.Leader? && CommittedInTerm(n) && PeakOk(h, peak)
    ensures Steps(c, n, h, n.(readOnly := Queued(n, req)), h', peak)
    ensures Key(n.term, Queued(n, req).Total()) in h'.asked
  {
    hide HistInv, LeadersOk, CommitsOk, BallotsOk, RecordsOk, LeadersGrow, LogFits, CommitFits, AcksFit, PastFits,
      OutboxOk, Tracks, Serving, Grows, OnlyBy, Outdated, PeakOk;
    var pos := n.readOnly.Total() + 1;
    var n' := n.(readOnly := Queued(n, req));
    IndexCovers(c, n, h, pos, peak);
    NewPosition(c, n, h);
    h' := AddAsked(c, h, Key(n.term, pos), ReadRec(n.committed, peak));
    HistParts(c, h);
    GrowFields(c, n.id, n.term, n.log, n.committed, n.msgs, h, h');
    PastSame(n.id, n.term, n.vote, false, h, h');
    TracksGrow(n.id, n.term, |n.log|, |n.log|, n.progress, h, h');
    QueuedServing(n.id, n.term, n, req, h, h', peak);
    assert Moves(n, h, n', h', peak);
  }

  lemma PastSame(id: Id, term: nat, vote: Id, candidate: bool, h: Hist, h': Hist)
    requires PastFits(id, term, vote, candidate, h)
    requires h'.ballots == h.ballots && h'.cands == h.cands && h'.ldr == h.ldr && h'.beats == h.beats
    ensures PastFits(id, term, vote, candidate, h')
  {
    forall k | k in h'.ballots && k.id == id ensures BallotFits(term, vote, h', k) { assert BallotFits(term, vote, h, k); }
  }

  lemma Queues(c: Config, n: Node, h: Hist, req: ReadRequest, peak: nat) returns (h': Hist)
    requires Ok(c, n, h) && n.role.Leader? && CommittedInTerm(n) && PeakOk(h, peak)
    ensures Steps(c, n, h, QueueRead(c, n, req), h', peak)
    ensures PeakOk(h', peak)
    ensures var n' := QueueRead(c, n, req); n'.role.Leader? && CommittedInTerm(n')
  {
    hide Ok, Steps, Grows, PeakOk;
    var n1 := n.(readOnly := Queued(n, req));
    h' := QueuesOne(c, n, h, req, peak);
    StepsOk(c, n, h, n1, h', peak);
    PeakGrows(h, h', peak) by { GrowsLeaders(h, h'); }
    Beats(c, n1, h', n1.readOnly.HeartbeatCtx(), c.peers, peak);
    StepsTrans(c, n, h, n1, h', QueueRead(c, n, req), h', peak);
  }

  lemma {:induction false} QueuesAll(c: Config, n: Node, h: Hist, reqs: seq<ReadRequest>, peak: nat) returns (h': Hist)
    requires Ok(c, n, h) && n.role.Leader? && CommittedInTerm(n) && PeakOk(h, peak)
    ensures Steps(c, n, h, QueueReads(c, n, reqs), h', peak) && QueueReads(c, n, reqs).role.Leader?
    decreases |reqs|
  {
    hide Ok, Steps, PeakOk, QueueRead, CommittedInTerm;
    if reqs == [] {
      h' := h;
      Stays(c, n, h, peak);
    } else {
      var n1 := QueueRead(c, n, reqs[0]);
      var h1 := Queues(c, n, h, reqs[0], peak);
      StepsOk(c, n, h, n1, h1, peak);
      h' := QueuesAll(c, n1, h1, reqs[1..], peak);
      StepsTrans(c, n, h, n1, h1, QueueReads(c, n, reqs), h', peak);
    }
  }

  lemma ReleasesPending(c: Config, n: Node, h: Hist, peak: nat) returns (h': Hist)
    requires Ok(c, n, h) && n.role.Leader? && PeakOk(h, peak)
    ensures Steps(c, n, h, ReleasePendingReads(c, n), h', peak) && ReleasePendingReads(c, n).role.Leader?
  {
    hide Ok, Steps, PeakOk, QueueReads;
    h' := h;
    Stays(c, n, h, peak);
    if n.pendingReads != [] && CommittedInTerm(n) {
      var n1 := n.(pendingReads := []);
      SteeringFact(c, n, h);
      Steers(c, n, n1, h, peak);
      StepsOk(c, n, h, n1, h, peak);
      h' := QueuesAll(c, n1, h, n.pendingReads, peak);
      StepsTrans(c, n, h, n1, h, ReleasePendingReads(c, n), h', peak);
    }
  }

  lemma SteeringFact(c: Config, n: Node, h: Hist)
    requires Ok(c, n, h)
    ensures n.transferee != n.id && n.id != NONE && n.id in n.progress
    ensures (n.role.Leader? || n.lead != n.id) && LeadFits(n.term, n.lead, h)
  {}

  // -------------------------------------------------------------- confirming

  /** Counting a heartbeat response of this term. */
  lemma CountsBeat(c: Config, n: Node, h: Hist, from: Id, ctx: nat, peak: nat)
    requires Ok(c, n, h) && n.role.Leader? && (ctx == 0 || BeatRec(n.term, from, ctx) in h.beats)
    ensures Steps(c, n, h, n.(readOnly := n.readOnly.RecvAck(from, ctx)), h, peak)
  {
    hide HistInv, LeadersOk, CommitsOk, BallotsOk, LogFits, CommitFits, AcksFit, PastFits, OutboxOk, Tracks, Leading,
      AskedOk;
    var ro := n.readOnly.RecvAck(from, ctx);
    if ctx != 0 {
      HistParts(c, h);
      assert BeatOk(h, BeatRec(n.term, from, ctx));
      assert Key(n.term, ctx) in h.asked;
      forall v | v in ro.acks ensures BeatFits(n.id, n.term, ro.Total(), h, v, ro.acks[v]) {
        if v in n.readOnly.acks { assert BeatFits(n.id, n.term, n.readOnly.Total(), h, v, n.readOnly.acks[v]); }
      }
      forall p: nat | 0 < p <= ro.Total() ensures ReadFits(n.term, ro, h, p) { assert ReadFits(n.term, n.readOnly, h, p); }
    }
    Still(n, n.(readOnly := ro), h, peak);
  }

  /** The confirmed count never runs past the queue. */
  lemma ConfirmInRange(c: Config, n: Node, h: Hist)
    requires Ok(c, n, h) && n.role.Leader?
    ensures n.readOnly.InRange(JointCommitted(c.voters, n.readOnly.acks))
  {
    hide HistInv, LogFits, CommitFits, AcksFit, PastFits, OutboxOk, Tracks, Leading, JointCommitted, IsQuorum,
      IsMajority;
    var acks := n.readOnly.acks;
    var k := JointCommitted(c.voters, acks);
    JointCommittedIsExact(c.voters, acks, 0);
    JointCommittedIsExact(c.voters, acks, k.i);
    if k.i > 0 {
      var v := QuorumMember(c.voters, AckedAtLeast(acks, c.voters.Ids(), k.i));
      assert BeatFits(n.id, n.term, n.readOnly.Total(), h, v, acks[v]);
    }
  }

  lemma QuorumMember(c: JointConfig, q: set<Id>) returns (v: Id)
    requires c.incoming != {} && IsQuorum(c, q)
    ensures v in q
  {
    v := QuorumsMeet(c, q, q);
  }

  /** Linearizability of one read: once a quorum has acknowledged its number,
      no later leader can have been elected before it was queued. */
  lemma ConfirmedCovers(c: Config, n: Node, h: Hist, p: nat)
    requires Ok(c, n, h) && n.role.Leader? && 0 < p && Key(n.term, p) in h.asked
    requires IsQuorum(c.voters, AckedAtLeast(n.readOnly.acks, c.voters.Ids(), p))
    ensures h.asked[Key(n.term, p)].peak <= h.asked[Key(n.term, p)].index
  {
    hide HistInv, LeadersOk, CommitsOk, BallotsOk, LogFits, CommitFits, AcksFit, OutboxOk, Tracks, Leading, PastFits,
      IsQuorum, LogOk;
    HistParts(c, h);
    assert AskedOk(h, Key(n.term, p));
    if h.asked[Key(n.term, p)].peak > h.asked[Key(n.term, p)].index {
      var T2: nat :| Outdated(h, n.term, p, T2);
      var b := BeatOfLaterVoter(c, n, h, p, T2);
    }
  }

  /** Some voter of a later leader confirmed the read, in this term. */
  lemma BeatOfLaterVoter(c: Config, n: Node, h: Hist, p: nat, T2: nat) returns (b: BeatRec)
    requires Ok(c, n, h) && n.role.Leader? && 0 < p && T2 in h.ldr && n.term < T2
    requires IsQuorum(c.voters, AckedAtLeast(n.readOnly.acks, c.voters.Ids(), p))
    ensures b in h.beats && b.term == n.term && b.who in h.ldr[T2].voters && b.context >= p
  {
    hide HistInv, LeadersOk, CommitsOk, BallotsOk, LogFits, CommitFits, AcksFit, OutboxOk, Tracks, Leading, PastFits,
      IsQuorum, LogOk;
    var acks := n.readOnly.acks;
    HistParts(c, h);
    LeaderQuorum(c, h, T2);
    var v := QuorumsMeet(c.voters, AckedAtLeast(acks, c.voters.Ids(), p), h.ldr[T2].voters);
    assert BeatFits(n.id, n.term, n.readOnly.Total(), h, v, acks[v]);
    b := BeatRec(n.term, v, acks[v]);
    if v == n.id { NotAVoter(c, n.id, n.term, n.vote, T2, h); }
  }

  lemma LeaderQuorum(c: Config, h: Hist, T: nat)
    requires LeadersOk(c, h) && T in h.ldr
    ensures IsQuorum(c.voters, h.ldr[T].voters)
  {
    assert LeaderOk(c, h, T);
  }

  lemma AdvancedServing(c: Config, n: Node, h: Hist, i: nat)
    requires Ok(c, n, h) && n.role.Leader? && JointCommitted(c.voters, n.readOnly.acks) == At(i)
    requires n.readOnly.confirmed < i <= n.readOnly.Total()
    ensures Serving(n.id, n.term, n.readOnly.MaybeAdvance(c.voters), h)
  {
    hide HistInv, LogFits, CommitFits, AcksFit, PastFits, OutboxOk, Tracks, Leading, JointCommitted, IsQuorum;
    var ro := n.readOnly;
    var ro' := ro.MaybeAdvance(c.voters);
    forall p: nat | 0 < p <= ro'.Total() ensures ReadFits(n.term, ro', h, p) {
      assert ReadFits(n.term, ro, h, p);
      if ro.confirmed < p <= i {
        JointCommittedIsExact(c.voters, ro.acks, p);
        ConfirmedCovers(c, n, h, p);
      }
    }
    forall v | v in ro'.acks ensures BeatFits(n.id, n.term, ro'.Total(), h, v, ro'.acks[v]) {
      assert BeatFits(n.id, n.term, ro.Total(), h, v, ro.acks[v]);
    }
  }

  lemma Advances(c: Config, n: Node, h: Hist, peak: nat)
    requires Ok(c, n, h) && n.role.Leader?
    ensures Steps(c, n, h, n.(readOnly := n.readOnly.MaybeAdvance(c.voters)), h, peak)
  {
    hide HistInv, LogFits, CommitFits, AcksFit, PastFits, OutboxOk, Tracks, Leading, JointCommitted, Serving;
    var k := JointCommitted(c.voters, n.readOnly.acks);
    ConfirmInRange(c, n, h);
    if k.i > n.readOnly.confirmed { AdvancedServing(c, n, h, k.i); }
    Still(n, n.(readOnly := n.readOnly.MaybeAdvance(c.voters)), h, peak);
  }

  lemma Responds(c: Config, n: Node, h: Hist, req: ReadRequest, index: nat, peak: nat)
    requires Ok(c, n, h) && n.role.Leader?
    ensures Steps(c, n, h, Respond(n, req, index), h, peak)
  {
    hide Ok, Steps;
    SteeringFact(c, n, h);
    if req.from == NONE || req.from == n.id {
      Steers(c, n, Respond(n, req, index), h, peak);
    } else {
      Sends(c, n, h, MsgReadIndexResp(n.id, req.from, n.term, index, req.ctx), peak);
    }
  }

  lemma {:induction false} RespondsAll(c: Config, n: Node, h: Hist, batch: seq<PendingRead>, peak: nat)
    requires Ok(c, n, h) && n.role.Leader?
    ensures Steps(c, n, h, RespondAll(n, batch), h, peak)
    decreases |batch|
  {
    hide Ok, Steps;
    if batch == [] {
      Stays(c, n, h, peak);
    } else {
      var n1 := Respond(n, batch[0].req, batch[0].index);
      Responds(c, n, h, batch[0].req, batch[0].index, peak);
      StepsOk(c, n, h, n1, h, peak);
      RespondsAll(c, n1, h, batch[1..], peak);
      StepsTrans(c, n, h, n1, h, RespondAll(n, batch), h, peak);
    }
  }

  lemma AdvancesReads(c: Config, n: Node, h: Hist, peak: nat)
    requires Ok(c, n, h) && n.role.Leader?
    ensures Steps(c, n, h, AdvanceReads(c, n), h, peak)
  {
    hide Ok, Steps, JointCommitted, ReadOnly.InRange, ReadOnly.MaybeAdvance, ReadOnly.Confirmable;
    var n1 := n.(readOnly := n.readOnly.MaybeAdvance(c.voters));
    ConfirmInRange(c, n, h);
    NotFailed(c, n, h);
    Advances(c, n, h, peak);
    StepsOk(c, n, h, n1, h, peak);
    RespondsAll(c, n1, h, n.readOnly.Confirmable(c.voters), peak);
    StepsTrans(c, n, h, n1, h, AdvanceReads(c, n), h, peak);
  }

  lemma AsksRead(c: Config, n: Node, h: Hist, m: Message, peak: nat) returns (h': Hist)
    requires Ok(c, n, h) && n.role.Leader? && m.MsgReadIndex? && PeakOk(h, peak)
    ensures Steps(c, n, h, HandleReadIndex(c, n, m), h', peak)
  {
    hide Ok, Steps, PeakOk, QueueRead;
    var req := ReadRequest(m.from, m.ctx);
    h' := h;
    if c.IsSingleton() {
      Responds(c, n, h, req, n.committed, peak);
    } else if !CommittedInTerm(n) {
      SteeringFact(c, n, h);
      Steers(c, n, n.(pendingReads := n.pendingReads + [req]), h, peak);
    } else {
      h' := Queues(c, n, h, req, peak);
    }
  }
}
