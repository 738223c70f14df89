/** Steps of one node that keep the invariant, and how they compose. */
module Stepping {
  import opened Quorum
  import opened Logs
  import opened RaftSpec
  import opened History
  import opened Growth
  import opened Invariant

  ghost predicate Ok(c: Config, n: Node, h: Hist) {
    c.Valid() && HistInv(c, h) && NodeInv(c, n, h)
  }

  ghost predicate Acks(msgs: seq<Message>, a: AckRec) {
    exists m :: m in msgs && IsAck(m, a)
  }

  /** The node goes from n to n' while the history grows by its doing: new
      acknowledgements are in the outbox, new reads know a commit index of at
      least `peak`, and a new leader's term had no leader before. */
  ghost predicate Moves(n: Node, h: Hist, n': Node, h': Hist, peak: nat) {
    && Grows(h, h') && OnlyBy(h, h', n.id)
    && n'.id == n.id && n.msgs <= n'.msgs && n.committed <= n'.committed
    && (forall a | a in h'.acks && a !in h.acks :: Acks(n'.msgs, a))
    && (forall k | k in h'.asked && k !in h.asked :: peak <= h'.asked[k].peak)
    && (n'.role.Leader? && !LeadsIn(n, n'.term) ==> n'.term !in h.ldr)
  }

  predicate LeadsIn(n: Node, term: nat) {
    n.role.Leader? && n.term == term
  }

  ghost predicate Steps(c: Config, n: Node, h: Hist, n': Node, h': Hist, peak: nat) {
    Ok(c, n', h') && Moves(n, h, n', h', peak)
  }

  lemma MovesTrans(n: Node, h: Hist, n1: Node, h1: Hist, n2: Node, h2: Hist, peak: nat)
    requires Moves(n, h, n1, h1, peak) && Moves(n1, h1, n2, h2, peak)
    ensures Moves(n, h, n2, h2, peak)
  {
    forall a | a in h2.acks && a !in h.acks ensures Acks(n2.msgs, a) {
      if a in h1.acks {
        var m :| m in n1.msgs && IsAck(m, a);
        assert m in n2.msgs;
      }
    }
    OnlyByTrans(h, h1, h2, n.id);
  }

  lemma OnlyByTrans(h: Hist, h1: Hist, h2: Hist, id: Id)
    requires Grows(h, h1) && Grows(h1, h2) && OnlyBy(h, h1, id) && OnlyBy(h1, h2, id)
    ensures OnlyBy(h, h2, id)
  {}

  lemma StepsTrans(c: Config, n: Node, h: Hist, n1: Node, h1: Hist, n2: Node, h2: Hist, peak: nat)
    requires Steps(c, n, h, n1, h1, peak) && Steps(c, n1, h1, n2, h2, peak)
    ensures Steps(c, n, h, n2, h2, peak)
  {
    hide Ok, Moves;
    MovesTrans(n, h, n1, h1, n2, h2, peak);
  }

  /** A step that records nothing. */
  lemma Still(n: Node, n': Node, h: Hist, peak: nat)
    requires n'.id == n.id && n.msgs <= n'.msgs && n.committed <= n'.committed
    requires n'.role.Leader? ==> LeadsIn(n, n'.term)
    ensures Moves(n, h, n', h, peak)
  {}

  /** A step that records no acknowledgement and no read. */
  lemma NothingNew(n: Node, h: Hist, n': Node, h': Hist, peak: nat)
    requires Grows(h, h') && OnlyBy(h, h', n.id) && h'.asked == h.asked && h'.acks == h.acks
    requires n'.id == n.id && n.msgs <= n'.msgs && n.committed <= n'.committed
    requires n'.role.Leader? ==> LeadsIn(n, n'.term)
    ensures Moves(n, h, n', h', peak)
  {}

  /** A step that records one acknowledgement, a, and sends it. */
  lemma AckMoves(n: Node, h: Hist, n': Node, h': Hist, a: AckRec, m: Message, peak: nat)
    requires Grows(h, h') && OnlyBy(h, h', n.id) && h'.asked == h.asked && h'.acks == h.acks + {a}
    requires n'.id == n.id && n.committed <= n'.committed && n'.msgs == n.msgs + [m] && IsAck(m, a)
    requires n'.role.Leader? && !LeadsIn(n, n'.term) ==> n'.term !in h.ldr
    ensures Moves(n, h, n', h', peak)
  {
    assert m in n'.msgs;
  }

  lemma Stays(c: Config, n: Node, h: Hist, peak: nat)
    requires Ok(c, n, h)
    ensures Steps(c, n, h, n, h, peak)
  {
    hide Ok;
  }

  lemma OutboxAppend(msgs: seq<Message>, m: Message, h: Hist)
    requires OutboxOk(msgs, h) && MsgOk(m, h)
    ensures OutboxOk(msgs + [m], h)
  {
    hide MsgOk;
    forall x | x in msgs + [m] ensures MsgOk(x, h) {}
  }

  lemma Sends(c: Config, n: Node, h: Hist, m: Message, peak: nat)
    requires Ok(c, n, h) && MsgOk(m, h) && Sendable(n, m)
    ensures Steps(c, n, h, Send(n, m), h, peak)
  {
    hide HistInv, LeadersOk, CommitsOk, BallotsOk, RecordsOk, LeadersGrow, LogFits, CommitFits, AcksFit, PastFits,
      Running, Leading, Tracks, Serving, OutboxOk, MsgOk;
    OutboxAppend(n.msgs, m, h);
    Still(n, Send(n, m), h, peak);
  }

  /** Changes to the fields that only steer who is asked or answered. */
  lemma Steers(c: Config, n: Node, n': Node, h: Hist, peak: nat)
    requires Ok(c, n, h)
    requires n' == n.(lead := n'.lead, transferee := n'.transferee, pendingReads := n'.pendingReads, readStates := n'.readStates)
    requires (n.role.Leader? || n'.lead != n.id) && n'.transferee != n.id && LeadFits(n'.term, n'.lead, h)
    ensures Steps(c, n, h, n', h, peak)
  {
    hide HistInv, LeadersOk, CommitsOk, BallotsOk, RecordsOk, LeadersGrow, LogFits, CommitFits, AcksFit, PastFits,
      Running, Leading, Tracks, Serving, OutboxOk;
    Still(n, n', h, peak);
  }

  // ----------------------------------------------------------------- followers

  lemma AcksLater(c: Config, id: Id, term: nat, term': nat, log: seq<Entry>, h: Hist)
    requires LeadersOk(c, h) && RecordsOk(h) && AcksFit(id, term, log, h) && term <= term'
    ensures AcksFit(id, term', log, h)
  {
    forall a | a in h.acks && a.who == id ensures AckFits(term', log, h, a) {
      assert AckOk(h, a) && AckFits(term, log, h, a);
      KeepsAckGrows(c, h, h, log, a, term, term');
    }
  }

  lemma CommitLater(term: nat, term': nat, log: seq<Entry>, committed: nat, h: Hist)
    requires CommitFits(term, log, committed, h) && term <= term'
    ensures CommitFits(term', log, committed, h)
  {
    if committed != 0 {
      var T: nat :| CommitFrom(term, log, committed, h, T);
      assert CommitFrom(term', log, committed, h, T);
    }
  }

  lemma PastLater(id: Id, term: nat, term': nat, vote: Id, vote': Id, candidate: bool, h: Hist)
    requires PastFits(id, term, vote, candidate, h) && term <= term'
    requires term == term' ==> vote == vote'
    ensures PastFits(id, term', vote', false, h)
    ensures term < term' ==> PastFits(id, term', vote', true, h)
  {
    forall k | k in h.ballots && k.id == id ensures BallotFits(term', vote', h, k) {
      assert BallotFits(term, vote, h, k);
    }
  }

  /** Adopting a term that is not smaller, as a follower. */
  lemma Follows(c: Config, n: Node, h: Hist, term: nat, lead: Id, peak: nat)
    requires Ok(c, n, h) && term >= n.term && lead != n.id && LeadFits(term, lead, h)
    ensures Steps(c, n, h, BecomeFollower(c, n, term, lead), h, peak)
  {
    hide HistInv, LeadersOk, CommitsOk, BallotsOk, RecordsOk, LeadersGrow, LogFits, CommitFits, AcksFit, PastFits,
      Running, Leading, Tracks, Serving, OutboxOk, FreshProgress;
    var n' := BecomeFollower(c, n, term, lead);
    HistParts(c, h);
    LogLater(n.term, term, n.log, n.committed, h);
    CommitLater(n.term, term, n.log, n.committed, h);
    AcksLater(c, n.id, n.term, term, n.log, h);
    PastLater(n.id, n.term, term, n.vote, n'.vote, n.role.Candidate?, h);
    Still(n, n', h, peak);
  }

  lemma LogLater(term: nat, term': nat, log: seq<Entry>, committed: nat, h: Hist)
    requires LogFits(term, log, committed, h) && term <= term'
    ensures LogFits(term', log, committed, h)
  {}
}
