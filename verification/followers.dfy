/** Appends and heartbeats arriving at a follower keep the invariant, and never
    hit one of the states the code refuses to go on from. */
module Followers {
  import opened Quorum
  import opened Logs
  import opened RaftSpec
  import opened History
  import opened Growth
  import opened Invariant
  import opened Stepping
  import opened Elections

  /** Whatever was committed up to term T1 is in every leader's log from then on. */
  lemma CommittedInLeader(c: Config, term: nat, log: seq<Entry>, committed: nat, h: Hist)
    requires c.Valid() && HistInv(c, h) && CommitFits(term, log, committed, h) && term in h.ldr
    requires committed <= |log|
    ensures Agree(log, h.ldr[term].log, committed)
  {
    hide HistInv;
    if committed != 0 {
      var T1: nat :| CommitFrom(term, log, committed, h, T1);
      LeaderHoldsCommitted(c, h, T1, term);
      AgreeLess(h.ldr[term].log, h.ldr[T1].log, h.ldr[T1].commit, committed);
    }
  }

  /** What leader T1 has committed, every later leader holds. */
  lemma LeaderHoldsCommitted(c: Config, h: Hist, T1: nat, T: nat)
    requires c.Valid() && HistInv(c, h) && T1 in h.ldr && T in h.ldr && T1 <= T
    ensures Agree(h.ldr[T].log, h.ldr[T1].log, h.ldr[T1].commit)
  {
    hide HistInv, LeaderOk;
    LeaderAt(c, h, T1);
    LeaderCommitBound(c, h, T1);
    var k := h.ldr[T1].commit;
    if k != 0 && T1 < T {
      var Tc: nat, i: nat :| Covered(c, h, T1, k, Tc, i);
      if Tc < T {
        LeaderCompleteness(c, h, Tc, i, T);
        AgreeLess(h.ldr[T].log, h.ldr[Tc].log, i, k);
      }
    }
  }

  lemma LeaderCommitBound(c: Config, h: Hist, T: nat)
    requires HistInv(c, h) && T in h.ldr
    ensures h.ldr[T].commit <= |h.ldr[T].log|
  {
    assert LeaderOk(c, h, T);
  }

  // ------------------------------------------------------------ acknowledging

  /** A follower acknowledges a prefix that it shares with the term's leader. */
  lemma AckHist(c: Config, id: Id, term: nat, vote: Id, log: seq<Entry>, i: nat, h: Hist) returns (h': Hist)
    requires HistInv(c, h) && PastFits(id, term, vote, false, h) && AcksFit(id, term, log, h)
    requires term in h.ldr && Agree(log, h.ldr[term].log, i) && i > 0
    ensures h' == h.(acks := h.acks + {AckRec(term, id, i)})
    ensures HistInv(c, h') && Grows(h, h') && OnlyBy(h, h', id)
    ensures PastFits(id, term, vote, false, h') && AcksFit(id, term, log, h')
  {
    hide HistInv, LeadersOk, CommitsOk, BallotsOk, RecordsOk;
    var a := AckRec(term, id, i);
    forall k | k in h.ballots && k.id == id ensures k.term <= term { assert BallotFits(term, vote, h, k); }
    h' := AddAck(c, h, a);
    HistParts(c, h);
    SharedAckFits(h', term, log, a);
    AcksGrow(c, id, term, log, h, h');
    forall k | k in h'.ballots && k.id == id ensures BallotFits(term, vote, h', k) { assert BallotFits(term, vote, h, k); }
  }

  lemma SharedAckFits(h: Hist, term: nat, log: seq<Entry>, a: AckRec)
    requires term in h.ldr && Agree(log, h.ldr[term].log, a.index) && a.term == term
    ensures AckFits(term, log, h, a)
  {
    forall i: nat | 0 < i <= a.index ensures Keeps(h, log, a.term, i, term) {
      AgreeLess(log, h.ldr[term].log, a.index, i);
    }
  }

  /** Sending the acknowledgement of index i (0 says nothing). */
  lemma Acknowledges(c: Config, n: Node, h: Hist, to: Id, i: nat, peak: nat) returns (h': Hist)
    requires Ok(c, n, h) && n.role.Follower? && n.term in h.ldr && Agree(n.log, h.ldr[n.term].log, i)
    ensures Steps(c, n, h, Send(n, Ack(n, to, i)), h', peak)
  {
    hide HistInv, LeadersOk, CommitsOk, BallotsOk, RecordsOk, LeadersGrow, LogFits, CommitFits, AcksFit, PastFits,
      OutboxOk, Grows, OnlyBy, Moves;
    var n' := Send(n, Ack(n, to, i));
    TermInUse(c, h, n.term);
    if i == 0 {
      h' := h;
      Sends(c, n, h, Ack(n, to, i), peak);
    } else {
      h' := AckHist(c, n.id, n.term, n.vote, n.log, i, h);
      HistParts(c, h);
      GrowsLeaders(h, h');
      LogGrows(n.term, n.log, n.committed, h, h');
      CommitGrows(c, n.term, n.log, n.committed, h, h');
      OutboxGrows(n.msgs, h, h');
      OutboxAppend(n.msgs, Ack(n, to, i), h');
      AckMoves(n, h, n', h', AckRec(n.term, n.id, i), Ack(n, to, i), peak);
    }
  }

  // ----------------------------------------------------------------- appending

  /** Overwriting the log with a slice of the leader's log loses nothing that
      was acknowledged, unless that leader displaces it. */
  lemma SpliceKeeps(c: Config, h: Hist, T: nat, log: seq<Entry>, prev: EntryID, ents: seq<Entry>, T0: nat, i: nat)
    requires T in h.ldr && T0 in h.ldr && T0 <= T && Keeps(h, log, T0, i, T)
    requires Matching(log, h.ldr[T].log) && MatchTerm(log, prev) && IsSlice(h.ldr[T].log, prev, ents)
    ensures Keeps(h, Spliced(log, prev.index, ents), T0, i, T)
  {
    hide Matching, MatchTerm, IsSlice, Spliced, FindConflict;
    var L := h.ldr[T].log;
    if Agree(log, h.ldr[T0].log, i) {
      if Agree(L, h.ldr[T0].log, i) {
        AppendKeeps(log, L, prev, ents, i);
      } else {
        assert Breaks(h, T, T0, i);
      }
    }
  }

  lemma SpliceAcks(c: Config, id: Id, T: nat, log: seq<Entry>, prev: EntryID, ents: seq<Entry>, h: Hist)
    requires RecordsOk(h) && AcksFit(id, T, log, h) && T in h.ldr
    requires Matching(log, h.ldr[T].log) && MatchTerm(log, prev) && IsSlice(h.ldr[T].log, prev, ents)
    ensures AcksFit(id, T, Spliced(log, prev.index, ents), h)
  {
    hide Matching, MatchTerm, IsSlice, Spliced, FindConflict, Keeps;
    var log' := Spliced(log, prev.index, ents);
    forall a | a in h.acks && a.who == id ensures AckFits(T, log', h, a) {
      assert AckFits(T, log, h, a) && AckOk(h, a);
      forall i: nat | 0 < i <= a.index ensures Keeps(h, log', a.term, i, T) {
        assert Keeps(h, log, a.term, i, T);
        SpliceKeeps(c, h, T, log, prev, ents, a.term, i);
      }
    }
  }

  lemma SpliceLog(c: Config, T: nat, log: seq<Entry>, prev: EntryID, ents: seq<Entry>, h: Hist)
    requires HistInv(c, h) && LogOk(h, log) && LastTerm(log) <= T && T in h.ldr
    requires MatchTerm(log, prev) && IsSlice(h.ldr[T].log, prev, ents)
    ensures var log' := Spliced(log, prev.index, ents);
            LogOk(h, log') && LastTerm(log') <= T && Agree(log', h.ldr[T].log, prev.index + |ents|)
    ensures Matching(log, h.ldr[T].log)
  {
    hide HistInv, Matching, MatchTerm, LogOk, Spliced, FindConflict;
    LeaderAt(c, h, T);
    var L := h.ldr[T].log;
    var last := prev.index + |ents|;
    LogsMatch(h, log, L);
    AppendFollowsLeader(log, L, prev, ents);
    LogOkPrefix(h, L, last);
    if last > 0 { assert L[..last][last - 1].term <= T; }
  }

  lemma SpliceCommit(c: Config, T: nat, log: seq<Entry>, committed: nat, prev: EntryID, ents: seq<Entry>, to: nat,
      h: Hist)
    requires c.Valid() && HistInv(c, h) && CommitFits(T, log, committed, h) && committed <= |log| && T in h.ldr
    requires Matching(log, h.ldr[T].log) && MatchTerm(log, prev) && IsSlice(h.ldr[T].log, prev, ents)
    requires to <= h.ldr[T].commit && to <= prev.index + |ents|
    requires Agree(Spliced(log, prev.index, ents), h.ldr[T].log, prev.index + |ents|)
    ensures CommitFits(T, Spliced(log, prev.index, ents), CommitTo(committed, to), h)
    ensures CommitTo(committed, to) <= |Spliced(log, prev.index, ents)|
    ensures var ci := FindConflict(log, prev.index, ents); ci == 0 || ci > committed
  {
    hide HistInv, Matching, MatchTerm, Spliced, FindConflict;
    var log', L := Spliced(log, prev.index, ents), h.ldr[T].log;
    CommittedInLeader(c, T, log, committed, h);
    AppendKeeps(log, L, prev, ents, committed);
    if committed < to {
      AgreeLess(log', L, prev.index + |ents|, to);
      assert CommitFrom(T, log', to, h, T);
    } else if committed != 0 {
      var T1: nat :| CommitFrom(T, log, committed, h, T1);
      assert CommitFrom(T, log', committed, h, T1);
    }
  }

  /** The node after the entries went in, before it answers. */
  ghost function Appending(n: Node, m: Message): Node
    requires m.MsgApp?
  {
    n.(log := Spliced(n.log, m.prev.index, m.entries),
       committed := CommitTo(n.committed, Min(m.commit, m.prev.index + |m.entries|)))
  }

  lemma Appends(c: Config, n: Node, h: Hist, m: Message, peak: nat)
    requires Ok(c, n, h) && n.role.Follower? && m.MsgApp? && MsgOk(m, h) && m.term == n.term
    requires MatchTerm(n.log, m.prev)
    ensures Steps(c, n, h, Appending(n, m), h, peak)
    ensures Agree(Appending(n, m).log, h.ldr[n.term].log, m.prev.index + |m.entries|)
    ensures MaybeAppend(n.log, n.committed, m.prev, m.entries, m.commit) ==
            Accepted(Appending(n, m).log, Appending(n, m).committed)
  {
    hide HistInv, LeadersOk, CommitsOk, BallotsOk, RecordsOk, AcksFit, PastFits, CommitFits,
      OutboxOk, MatchTerm, IsSlice, Spliced, FindConflict, LogOk, Matching;
    var n' := Appending(n, m);
    HistParts(c, h);
    SpliceLog(c, n.term, n.log, m.prev, m.entries, h);
    SpliceAcks(c, n.id, n.term, n.log, m.prev, m.entries, h);
    SpliceCommit(c, n.term, n.log, n.committed, m.prev, m.entries, Min(m.commit, m.prev.index + |m.entries|), h);
    Still(n, n', h, peak);
  }

  lemma HandlesAppend(c: Config, n: Node, h: Hist, m: Message, peak: nat) returns (h': Hist)
    requires Ok(c, n, h) && n.role.Follower? && m.MsgApp? && MsgOk(m, h) && m.term == n.term && m.to == n.id
    ensures Steps(c, n, h, HandleAppendEntries(n, m), h', peak)
  {
    hide Ok, Steps, MaybeAppend, MatchTerm, IsSlice, RejectionHint, Spliced;
    h' := h;
    if m.prev.index < n.committed {
      CommitShared(c, n, h);
      h' := Acknowledges(c, n, h, m.from, n.committed, peak);
    } else if MatchTerm(n.log, m.prev) {
      var n1 := Appending(n, m);
      Appends(c, n, h, m, peak);
      StepsOk(c, n, h, n1, h, peak);
      h' := Acknowledges(c, n1, h, m.from, m.prev.index + |m.entries|, peak);
      var n2 := Send(n1, Ack(n1, m.from, m.prev.index + |m.entries|));
      StepsTrans(c, n, h, n1, h, n2, h', peak);
      assert n2 == HandleAppendEntries(n, m);
    } else {
      MismatchRejects(n, m);
      LeadersTerm(c, n, h, m.term);
      Sends(c, n, h, MsgAppResp(n.id, m.from, n.term, m.prev.index, true, RejectionHint(n.log, m.prev)), peak);
    }
  }

  lemma LeadersTerm(c: Config, n: Node, h: Hist, T: nat)
    requires Ok(c, n, h) && T in h.ldr
    ensures T > 0
  {
    hide NodeInv, HistInv;
    TermInUse(c, h, T);
  }

  lemma MismatchRejects(n: Node, m: Message)
    requires m.MsgApp? && !MatchTerm(n.log, m.prev)
    ensures MaybeAppend(n.log, n.committed, m.prev, m.entries, m.commit) == Rejected
  {}

  lemma CommitShared(c: Config, n: Node, h: Hist)
    requires Ok(c, n, h) && n.term in h.ldr
    ensures Agree(n.log, h.ldr[n.term].log, n.committed)
  {
    hide HistInv, AcksFit, PastFits, CommitFits, OutboxOk, LogOk;
    CommittedInLeader(c, n.term, n.log, n.committed, h);
  }

  // ---------------------------------------------------------------- heartbeats

  /** The commit index of a heartbeat is within the follower's log: the leader
      sends it only after an acknowledgement of this term covers it. */
  lemma HeartbeatCommit(c: Config, n: Node, h: Hist, m: Message)
    requires Ok(c, n, h) && m.MsgHeartbeat? && MsgOk(m, h) && m.term == n.term && m.to == n.id
    ensures m.commit <= |n.log| && Agree(n.log, h.ldr[n.term].log, m.commit) && m.commit <= h.ldr[n.term].commit
  {
    hide HistInv, PastFits, CommitFits, OutboxOk, LogOk, Running, Leading, Tracks, Serving;
    if m.commit != 0 {
      var a :| a in h.acks && a.term == m.term && a.who == m.to && a.index >= m.commit;
      assert AckFits(n.term, n.log, h, a);
      assert Keeps(h, n.log, a.term, m.commit, n.term);
    }
  }

  lemma HeartbeatCommits(c: Config, n: Node, h: Hist, m: Message, peak: nat)
    requires Ok(c, n, h) && n.role.Follower? && m.MsgHeartbeat? && MsgOk(m, h) && m.term == n.term && m.to == n.id
    ensures Steps(c, n, h, n.(committed := CommitTo(n.committed, m.commit)), h, peak)
    ensures CommitTo(n.committed, m.commit) <= |n.log|
  {
    hide HistInv, AcksFit, PastFits, OutboxOk, LogOk, KeepsAck, HasAck;
    HeartbeatCommit(c, n, h, m);
    if n.committed < m.commit { assert CommitFrom(n.term, n.log, m.commit, h, n.term); }
    Still(n, n.(committed := CommitTo(n.committed, m.commit)), h, peak);
  }

  /** A heartbeat response with a context goes on record. */
  lemma BeatHist(c: Config, id: Id, term: nat, vote: Id, ctx: nat, h: Hist) returns (h': Hist)
    requires HistInv(c, h) && PastFits(id, term, vote, false, h) && Key(term, ctx) in h.asked
    ensures h' == h.(beats := h.beats + {BeatRec(term, id, ctx)})
    ensures HistInv(c, h') && Grows(h, h') && OnlyBy(h, h', id) && PastFits(id, term, vote, false, h')
  {
    hide HistInv, LeadersOk, CommitsOk, BallotsOk, RecordsOk;
    HistParts(c, h);
    forall T2 | T2 in h.ldr && T2 > term ensures id !in h.ldr[T2].voters {
      if id in h.ldr[T2].voters { NotAVoter(c, id, term, vote, T2, h); }
    }
    h' := AddBeat(c, h, BeatRec(term, id, ctx));
    forall k | k in h'.ballots && k.id == id ensures BallotFits(term, vote, h', k) { assert BallotFits(term, vote, h, k); }
  }

  /** Who elected T2 is in term T2 at least. */
  lemma NotAVoter(c: Config, id: Id, term: nat, vote: Id, T2: nat, h: Hist)
    requires LeadersOk(c, h) && PastFits(id, term, vote, false, h) && T2 in h.ldr && id in h.ldr[T2].voters
    ensures T2 <= term
  {
    assert LeaderOk(c, h, T2);
    assert VoterOk(h, T2, id);
    assert BallotFits(term, vote, h, Key(T2, id));
  }

  lemma AnswersHeartbeat(c: Config, n: Node, h: Hist, to: Id, ctx: nat, peak: nat) returns (h': Hist)
    requires Ok(c, n, h) && n.role.Follower? && to != n.id && n.term in h.ldr && (ctx == 0 || Key(n.term, ctx) in h.asked)
    ensures Steps(c, n, h, Send(n, MsgHeartbeatResp(n.id, to, n.term, ctx)), h', peak)
  {
    hide HistInv, LeadersOk, CommitsOk, BallotsOk, RecordsOk, LeadersGrow, LogFits, CommitFits, AcksFit, PastFits,
      OutboxOk, Grows, OnlyBy, Moves;
    var m := MsgHeartbeatResp(n.id, to, n.term, ctx);
    var n' := Send(n, m);
    TermInUse(c, h, n.term);
    if ctx == 0 {
      h' := h;
      Sends(c, n, h, m, peak);
    } else {
      h' := BeatHist(c, n.id, n.term, n.vote, ctx, h);
      HistParts(c, h);
      GrowFields(c, n.id, n.term, n.log, n.committed, n.msgs, h, h');
      OutboxAppend(n.msgs, m, h');
      NothingNew(n, h, n', h', peak);
    }
  }

  lemma HandlesHeartbeat(c: Config, n: Node, h: Hist, m: Message, peak: nat) returns (h': Hist)
    requires Ok(c, n, h) && n.role.Follower? && m.MsgHeartbeat? && MsgOk(m, h) && m.term == n.term && m.to == n.id
    ensures Steps(c, n, h, HandleHeartbeat(n, m), h', peak)
  {
    hide Ok, Steps, HasAck;
    var n1 := n.(committed := CommitTo(n.committed, m.commit));
    HeartbeatCommits(c, n, h, m, peak);
    StepsOk(c, n, h, n1, h, peak);
    h' := AnswersHeartbeat(c, n1, h, m.from, m.context, peak);
    var n2 := Send(n1, MsgHeartbeatResp(n.id, m.from, n.term, m.context));
    StepsTrans(c, n, h, n1, h, n2, h', peak);
    NotFailed(c, n, h);
    assert n2 == HandleHeartbeat(n, m);
  }

  lemma NotFailed(c: Config, n: Node, h: Hist)
    requires Ok(c, n, h)
    ensures !n.failed
  {}
}
