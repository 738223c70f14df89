/** Proposals, appends, acknowledgements, commits and heartbeats keep the
    invariant. */
module Replication {
  import opened Quorum
  import opened Logs
  import opened Flow
  import opened FlowLaws
  import opened RaftSpec
  import opened History
  import opened Growth
  import opened Invariant
  import opened Stepping
  import opened Elections

  // ------------------------------------------------------------ leader's sends

  lemma SetsProgress(c: Config, n: Node, h: Hist, p: Id, pr: Progress, peak: nat)
    requires Ok(c, n, h) && n.role.Leader? && p in n.progress
    requires ProgressFits(n.id, n.term, |n.log|, h, p, pr)
    ensures Steps(c, n, h, SetProgress(n, p, pr), h, peak)
  {
    hide HistInv, LeadersOk, CommitsOk, BallotsOk, RecordsOk, LeadersGrow, LogFits, CommitFits, AcksFit, PastFits,
      Running, Leading, Tracks, Serving, OutboxOk;
    TracksSet(n.id, n.term, |n.log|, n.progress, h, p, pr);
    Still(n, SetProgress(n, p, pr), h, peak);
  }

  lemma LeaderFacts(c: Config, n: Node, h: Hist, p: Id)
    requires Ok(c, n, h) && n.role.Leader? && p in n.progress
    ensures Leading(n.id, n.term, n.log, n.committed, h)
    ensures ProgressFits(n.id, n.term, |n.log|, h, p, n.progress[p])
  {
    hide HistInv, LeadersOk, CommitsOk, BallotsOk, RecordsOk, LeadersGrow, LogFits, CommitFits, AcksFit, PastFits,
      Running, Serving, OutboxOk, Leading;
  }

  lemma NextEntriesSlice(c: Config, n: Node, to: Id)
    requires to in n.progress && n.progress[to].next <= |n.log| + 1
    ensures var from := n.progress[to].next - 1;
            TermAt(n.log, from).Some? && IsSlice(n.log, EntryID(TermAt(n.log, from).value, from), NextEntries(c, n, to))
  {
    var from := n.progress[to].next - 1;
    var ents := NextEntries(c, n, to);
    if ents != [] {
      assert ents <= n.log[from..];
      assert n.log[from..][..|ents|] == n.log[from..from + |ents|];
    }
  }

  lemma SendsAppend(c: Config, n: Node, h: Hist, to: Id, sendIfEmpty: bool, peak: nat)
    requires Ok(c, n, h) && n.role.Leader? && to in n.progress && to != n.id
    ensures Steps(c, n, h, MaybeSendAppend(c, n, to, sendIfEmpty).0, h, peak)
  {
    hide Ok, Steps, NextEntries, IsSlice, Window.Full, WindowFits;
    LeaderFacts(c, n, h, to);
    NextEntriesSlice(c, n, to);
    var pr, ents := n.progress[to], NextEntries(c, n, to);
    Stays(c, n, h, peak);
    if !pr.IsPaused() && (ents != [] || sendIfEmpty) {
      var m := MsgApp(n.id, to, n.term, EntryID(TermAt(n.log, pr.next - 1).value, pr.next - 1), ents, n.committed);
      FullSendsNothing(c, n, to);
      var pr' := pr.SentEntries(|ents|, PayloadsSize(ents)).SentCommit(n.committed);
      SliceBound(n.log, m.prev, ents);
      SendKeepsOrder(pr, |ents|, PayloadsSize(ents));
      Sends(c, n, h, m, peak);
      StepsOk(c, n, h, Send(n, m), h, peak);
      SetsProgress(c, Send(n, m), h, to, pr', peak);
      StepsTrans(c, n, h, Send(n, m), h, SetProgress(Send(n, m), to, pr'), h, peak);
    }
  }

  lemma SliceBound(L: seq<Entry>, prev: EntryID, ents: seq<Entry>)
    requires IsSlice(L, prev, ents)
    ensures prev.index + |ents| <= |L|
  {}

  /** A full window is only ever sent empty appends. */
  lemma FullSendsNothing(c: Config, n: Node, to: Id)
    requires to in n.progress
    ensures n.progress[to].state.StateReplicate? && NextEntries(c, n, to) != [] ==> !n.progress[to].inflights.Full()
  {}

  lemma {:induction false} Broadcasts(c: Config, n: Node, h: Hist, ids: seq<Id>, peak: nat)
    requires Ok(c, n, h) && n.role.Leader?
    ensures Steps(c, n, h, BcastAppend(c, n, ids), h, peak) && BcastAppend(c, n, ids).role.Leader?
    decreases |ids|
  {
    hide Ok, Steps, MaybeSendAppend;
    if ids == [] {
      Stays(c, n, h, peak);
    } else if ids[0] == n.id || ids[0] !in n.progress {
      Broadcasts(c, n, h, ids[1..], peak);
    } else {
      var n1 := SendAppend(c, n, ids[0]);
      SendsAppend(c, n, h, ids[0], true, peak);
      StepsOk(c, n, h, n1, h, peak);
      Broadcasts(c, n1, h, ids[1..], peak);
      StepsTrans(c, n, h, n1, h, BcastAppend(c, n, ids), h, peak);
    }
  }

  lemma {:induction false} Drains(c: Config, n: Node, h: Hist, to: Id, peak: nat)
    requires Ok(c, n, h) && n.role.Leader? && to in n.progress && to != n.id
    ensures Steps(c, n, h, Drain(c, n, to), h, peak)
    ensures var n' := Drain(c, n, to);
            && n'.role.Leader? && n'.term == n.term && n'.log == n.log
            && n'.transferee == n.transferee && n'.id == n.id && to in n'.progress
    decreases |n.log| + 1 - n.progress[to].next, !n.progress[to].paused
  {
    hide Ok, Steps, MaybeSendAppend;
    var (n1, sent) := MaybeSendAppend(c, n, to, false);
    SendsAppend(c, n, h, to, false, peak);
    if sent {
      StepsOk(c, n, h, n1, h, peak);
      Drains(c, n1, h, to, peak);
      StepsTrans(c, n, h, n1, h, Drain(c, n, to), h, peak);
    }
  }

  // -------------------------------------------------------------- heartbeats

  ghost predicate ContextOk(term: nat, ctx: nat, h: Hist) {
    ctx == 0 || Key(term, ctx) in h.asked
  }

  lemma SendsHeartbeat(c: Config, n: Node, h: Hist, to: Id, ctx: nat, peak: nat)
    requires Ok(c, n, h) && n.role.Leader? && to in n.progress && to != n.id && ContextOk(n.term, ctx, h)
    ensures Steps(c, n, h, SendHeartbeat(n, to, ctx), h, peak)
  {
    hide Ok, Steps;
    LeaderFacts(c, n, h, to);
    var pr := n.progress[to];
    var commit := Min(pr.matched, n.committed);
    var m := MsgHeartbeat(n.id, to, n.term, commit, ctx);
    if commit != 0 {
      assert AckRec(n.term, to, pr.matched) in h.acks;
      assert HasAck(h, n.term, to, commit);
    }
    Sends(c, n, h, m, peak);
    StepsOk(c, n, h, Send(n, m), h, peak);
    SetsProgress(c, Send(n, m), h, to, pr.SentCommit(commit), peak);
    StepsTrans(c, n, h, Send(n, m), h, SendHeartbeat(n, to, ctx), h, peak);
  }

  lemma {:induction false} Beats(c: Config, n: Node, h: Hist, ctx: nat, ids: seq<Id>, peak: nat)
    requires Ok(c, n, h) && n.role.Leader? && ContextOk(n.term, ctx, h)
    ensures Steps(c, n, h, BcastHeartbeat(n, ctx, ids), h, peak)
    ensures var n' := BcastHeartbeat(n, ctx, ids);
            n' == n.(progress := n'.progress, msgs := n'.msgs, failed := n'.failed)
    decreases |ids|
  {
    hide Ok, Steps, ContextOk;
    if ids == [] {
      Stays(c, n, h, peak);
    } else if ids[0] == n.id || ids[0] !in n.progress {
      Beats(c, n, h, ctx, ids[1..], peak);
    } else {
      var n1 := SendHeartbeat(n, ids[0], ctx);
      SendsHeartbeat(c, n, h, ids[0], ctx, peak);
      StepsOk(c, n, h, n1, h, peak);
      Beats(c, n1, h, ctx, ids[1..], peak);
      StepsTrans(c, n, h, n1, h, BcastHeartbeat(n, ctx, ids), h, peak);
    }
  }

  // --------------------------------------------------------------- proposals

  lemma Proposes(c: Config, n: Node, h: Hist, payloads: seq<Payload>, peak: nat) returns (h': Hist)
    requires Ok(c, n, h) && n.role.Leader?
    ensures Steps(c, n, h, AppendEntry(n, payloads), h', peak)
  {
    hide HistInv, LeadersOk, CommitsOk, BallotsOk, RecordsOk, LeadersGrow, LogFits, CommitFits, AcksFit, PastFits,
      Running, Tracks, Serving, OutboxOk, Grows, OnlyBy, Moves, Stamped;
    var n' := AppendEntry(n, payloads);
    h' := ProposalHist(c, n, h, payloads);
    HistParts(c, h);
    LogIsOk(n.term, n.log, n.committed, h);
    LeaderLogFits(c, h', n.term, n.committed);
    CommitGrows(c, n.term, n.log, n.committed, h, h') by { GrowsLeaders(h, h'); }
    LongerCommit(n.term, n.log, n'.log, n.committed, h');
    TracksGrow(n.id, n.term, |n.log|, |n'.log|, n.progress, h, h');
    ServingGrows(n.id, n.term, n.readOnly, h, h');
    OutboxGrows(n.msgs, h, h');
    TermInUse(c, h', n.term);
    OutboxAppend(n.msgs, Ack(n', n.id, |n'.log|), h');
    AckMoves(n, h, n', h', AckRec(n'.term, n.id, |n'.log|), Ack(n', n.id, |n'.log|), peak);
  }

  lemma ProposalHist(c: Config, n: Node, h: Hist, payloads: seq<Payload>) returns (h': Hist)
    requires Ok(c, n, h) && n.role.Leader?
    ensures HistInv(c, h') && Grows(h, h') && OnlyBy(h, h', n.id)
    ensures var log' := n.log + Stamped(n, payloads);
            && Leading(n.id, n.term, log', n.committed, h')
            && h'.acks == h.acks + {AckRec(n.term, n.id, |log'|)} && h'.asked == h.asked
            && PastFits(n.id, n.term, n.vote, false, h') && AcksFit(n.id, n.term, log', h')
  {
    hide HistInv, LeadersOk, CommitsOk, BallotsOk, RecordsOk, LeadersGrow, LogFits, CommitFits, AcksFit, PastFits,
      Running, Tracks, Serving, OutboxOk, Grows, OnlyBy;
    var ents := Stamped(n, payloads);
    var log' := n.log + ents;
    var h1 := GrowLeader(c, h, n.term, ents);
    HistParts(c, h);
    LeaderLogFits(c, h, n.term, 0);
    AcksGrow(c, n.id, n.term, n.log, h, h1);
    LongerAcks(n.id, n.term, n.log, log', h1);
    SameLeaderPast(n.id, n.term, n.vote, h, h1);
    h' := SelfAck(c, n.id, n.term, n.vote, log', h1);
    GrowsTrans(h, h1, h');
    OnlyByTrans(h, h1, h', n.id);
  }

  lemma LongerAcks(id: Id, term: nat, log: seq<Entry>, log': seq<Entry>, h: Hist)
    requires AcksFit(id, term, log, h) && log <= log'
    ensures AcksFit(id, term, log', h)
  {
    forall a | a in h.acks && a.who == id ensures AckFits(term, log', h, a) {
      assert AckFits(term, log, h, a);
      LongerKeeps(h, log, log', a, term);
    }
  }

  lemma SameLeaderPast(id: Id, term: nat, vote: Id, h: Hist, h': Hist)
    requires PastFits(id, term, vote, false, h) && h' == h.(ldr := h'.ldr)
    requires forall T | T in h'.ldr :: T in h.ldr && h'.ldr[T].id == h.ldr[T].id
    ensures PastFits(id, term, vote, false, h')
  {
    forall k | k in h'.ballots && k.id == id ensures BallotFits(term, vote, h', k) { assert BallotFits(term, vote, h, k); }
  }

  // ------------------------------------------------------------------ commits

  /** What a quorum of matched indexes reaches in the leader's own term is a
      commit point. */
  lemma QuorumCommits(c: Config, n: Node, h: Hist, i: nat)
    requires Ok(c, n, h) && n.role.Leader? && JointCommitted(c.voters, MatchIndexes(n)) == At(i)
    requires i > 0 && MatchTerm(n.log, EntryID(n.term, i))
    ensures CommitPoint(c, h, n.term, i)
  {
    hide HistInv, LeadersOk, CommitsOk, BallotsOk, RecordsOk, LeadersGrow, LogFits, CommitFits, AcksFit, PastFits,
      Running, Serving, OutboxOk, JointCommitted, IsQuorum;
    var Q := AckedAtLeast(MatchIndexes(n), c.voters.Ids(), i);
    JointCommittedIsExact(c.voters, MatchIndexes(n), i);
    OwnTermPastBase(c, h, n.term, i);
    forall v | v in Q ensures HasAck(h, n.term, v, i) {
      assert ProgressFits(n.id, n.term, |n.log|, h, v, n.progress[v]);
      assert AckRec(n.term, v, n.progress[v].matched) in h.acks;
    }
    assert CommittedBy(c, h, n.term, i, Q);
  }

  lemma OwnTermPastBase(c: Config, h: Hist, T: nat, i: nat)
    requires HistInv(c, h) && T in h.ldr && i > 0 && MatchTerm(h.ldr[T].log, EntryID(T, i))
    ensures |h.ldr[T].base| < i <= |h.ldr[T].log|
  {
    hide HistInv;
    LeaderAt(c, h, T);
  }

  lemma Commits(c: Config, n: Node, h: Hist, peak: nat) returns (h': Hist)
    requires Ok(c, n, h) && n.role.Leader?
    ensures Steps(c, n, h, MaybeCommit(c, n), h', peak)
    ensures MaybeCommit(c, n) == n.(committed := MaybeCommit(c, n).committed)
    ensures MaybeCommit(c, n).committed != n.committed ==> CommittedInTerm(MaybeCommit(c, n))
  {
    hide HistInv, LeadersOk, CommitsOk, BallotsOk, RecordsOk, LeadersGrow, LogFits, CommitFits, AcksFit, PastFits,
      Running, Tracks, Serving, OutboxOk, Grows, OnlyBy, Moves, CommitPoint;
    var n' := MaybeCommit(c, n);
    h' := h;
    if n'.committed == n.committed {
      Stays(c, n, h, peak);
    } else {
      var i := n'.committed;
      QuorumCommits(c, n, h, i);
      h' := RaiseCommit(c, h, n.term, i);
      HistParts(c, h);
      GrowFields(c, n.id, n.term, n.log, n.committed, n.msgs, h, h');
      LeaderLogFits(c, h', n.term, i);
      OwnCommit(n.term, n.log, i, h');
      SameLeaderPast(n.id, n.term, n.vote, h, h');
      TracksGrow(n.id, n.term, |n.log|, |n.log|, n.progress, h, h');
      ServingGrows(n.id, n.term, n.readOnly, h, h');
      NothingNew(n, h, n', h', peak);
    }
  }

  lemma OwnCommit(term: nat, log: seq<Entry>, i: nat, h: Hist)
    requires term in h.ldr && h.ldr[term].log == log && h.ldr[term].commit == i <= |log|
    ensures CommitFits(term, log, i, h)
  {
    assert CommitFrom(term, log, i, h, term);
  }

  // ------------------------------------------------------- progress on answers

  /** An acknowledgement of the current term raises the match index. */
  lemma AckFitsProgress(c: Config, n: Node, h: Hist, m: Message)
    requires Ok(c, n, h) && n.role.Leader? && m.MsgAppResp? && !m.reject && MsgOk(m, h) && (m.index > 0 ==> m.term == n.term)
    requires m.from in n.progress
    ensures ProgressFits(n.id, n.term, |n.log|, h, m.from,
                         AckedProgress(n.progress[m.from].MaybeUpdate(m.index).0, m.index))
  {
    hide HistInv, LeadersOk, CommitsOk, BallotsOk, RecordsOk, LeadersGrow, LogFits, CommitFits, AcksFit, PastFits,
      Running, Serving, OutboxOk, Tracks;
    LeaderFacts(c, n, h, m.from);
    if m.index > 0 {
      HistParts(c, h);
      assert AckOk(h, AckRec(m.term, m.from, m.index));
    }
    AckInOrder(n.progress[m.from], m.index);
  }

  lemma AckInOrder(pr: Progress, index: nat)
    requires InOrder(pr) && !pr.state.StateSnapshot?
    ensures InOrder(AckedProgress(pr.MaybeUpdate(index).0, index))
  {
    var pr' := pr.MaybeUpdate(index).0;
    if pr.state.StateReplicate? && index > pr.matched {
      AckKeepsOrder(pr, index);
    } else {
      TransitionsKeepOrder(pr', 0);
    }
  }

  lemma RejectFitsProgress(id: Id, term: nat, last: nat, h: Hist, p: Id, pr: Progress, rejected: nat, matchHint: nat)
    requires ProgressFits(id, term, last, h, p, pr)
    ensures var (pr', genuine) := pr.MaybeDecrTo(rejected, matchHint);
            genuine ==> ProgressFits(id, term, last, h, p, if pr'.state.StateReplicate? then pr'.BecomeProbe() else pr')
  {
    hide WindowFits;
    RejectKeepsOrder(pr, rejected, matchHint);
  }

  lemma HandlesReject(c: Config, n: Node, h: Hist, m: Message, peak: nat)
    requires Ok(c, n, h) && n.role.Leader? && m.MsgAppResp? && m.from in n.progress && m.from != n.id
    ensures Steps(c, n, h, HandleReject(c, n, m), h, peak)
  {
    hide Ok, Steps, MaybeSendAppend, ProgressFits, Progress.MaybeDecrTo, Progress.BecomeProbe, NextProbeIndex;
    var hint := NextProbeIndex(n.log, m.hint);
    var (pr, decreased) := n.progress[m.from].MaybeDecrTo(m.index, hint);
    LeaderFacts(c, n, h, m.from);
    RejectFitsProgress(n.id, n.term, |n.log|, h, m.from, n.progress[m.from], m.index, hint);
    Stays(c, n, h, peak);
    if decreased {
      var pr' := if pr.state.StateReplicate? then pr.BecomeProbe() else pr;
      var n1 := SetProgress(n, m.from, pr');
      SetsProgress(c, n, h, m.from, pr', peak);
      StepsOk(c, n, h, n1, h, peak);
      SendsAppend(c, n1, h, m.from, true, peak);
      StepsTrans(c, n, h, n1, h, SendAppend(c, n1, m.from), h, peak);
    }
  }
}
