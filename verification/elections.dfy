/** Campaigns, votes and the election of a leader keep the invariant. */
module Elections {
  import opened Quorum
  import opened Logs
  import opened Flow
  import opened ReadQueue
  import opened RaftSpec
  import opened History
  import opened Growth
  import opened Invariant
  import opened Stepping

  lemma PreCampaigns(c: Config, n: Node, h: Hist, peak: nat)
    requires Ok(c, n, h) && !n.role.Leader? && n.id != NONE
    ensures Steps(c, n, h, BecomePreCandidate(n), h, peak)
  {
    hide HistInv, LeadersOk, CommitsOk, BallotsOk, RecordsOk, LeadersGrow, LogFits, CommitFits, AcksFit, PastFits,
      Running, Leading, Tracks, Serving, OutboxOk;
    PastLater(n.id, n.term, n.term, n.vote, n.vote, n.role.Candidate?, h);
    Still(n, BecomePreCandidate(n), h, peak);
  }

  /** A new candidacy, recorded with the vote the candidate gives itself. */
  lemma RecordCandidacy(c: Config, n: Node, h: Hist) returns (h': Hist)
    requires Ok(c, n, h) && n.id != NONE
    ensures HistInv(c, h') && Grows(h, h') && OnlyBy(h, h', n.id)
    ensures var k := Key(n.term + 1, n.id);
            h' == h.(cands := h.cands[k := n.log], ballots := h.ballots[k := Ballot(n.id, n.log)])
  {
    hide HistInv, LeadersOk, CommitsOk, BallotsOk, RecordsOk, LeadersGrow, LogFits, CommitFits, AcksFit, PastFits,
      Running, Leading, Tracks, Serving, OutboxOk;
    var k := Key(n.term + 1, n.id);
    FreshKey(n.id, n.term, n.vote, n.role.Candidate?, h);
    LogIsOk(n.term, n.log, n.committed, h);
    var h1 := AddCand(c, h, k, n.log);
    LogOkGrows(h, h1, n.log);
    HistParts(c, h);
    AcksLater(c, n.id, n.term, n.term + 1, n.log, h);
    OwnAcksKept(c, n.id, n.term + 1, n.log, h, h1);
    h' := AddBallot(c, h1, k, Ballot(n.id, n.log));
    GrowsTrans(h, h1, h');
    OnlyByTrans(h, h1, h', n.id);
  }

  lemma FreshKey(id: Id, term: nat, vote: Id, candidate: bool, h: Hist)
    requires PastFits(id, term, vote, candidate, h)
    ensures Key(term + 1, id) !in h.cands && Key(term + 1, id) !in h.ballots
  {
    forall k | k in h.ballots && k.id == id ensures k.term <= term { assert BallotFits(term, vote, h, k); }
  }

  lemma LogIsOk(term: nat, log: seq<Entry>, committed: nat, h: Hist)
    requires LogFits(term, log, committed, h)
    ensures LogOk(h, log) && committed <= |log|
  {}

  /** A node's log keeps all it acknowledged, also for the record of a vote. */
  lemma OwnAcksKept(c: Config, id: Id, term: nat, log: seq<Entry>, h: Hist, h': Hist)
    requires LeadersOk(c, h) && RecordsOk(h) && AcksFit(id, term, log, h) && Grows(h, h') && h'.acks == h.acks
    ensures forall a | a in h'.acks && a.who == id && a.term < term :: KeepsAck(h', log, a, term)
  {
    forall a | a in h'.acks && a.who == id && a.term < term ensures KeepsAck(h', log, a, term) {
      assert AckOk(h, a) && AckFits(term, log, h, a);
      KeepsAckGrows(c, h, h', log, a, term, term);
    }
  }

  lemma Campaigning(c: Config, n: Node, h: Hist, peak: nat) returns (h': Hist)
    requires Ok(c, n, h) && !n.role.Leader? && n.id != NONE
    ensures Steps(c, n, h, BecomeCandidate(c, n), h', peak)
    ensures var k := Key(n.term + 1, n.id);
            k in h'.cands && h'.cands[k] == n.log && k in h'.ballots && h'.ballots[k].cand == n.id
  {
    hide HistInv, LeadersOk, CommitsOk, BallotsOk, RecordsOk, LeadersGrow, LogFits, CommitFits, AcksFit, PastFits,
      Leading, Tracks, Serving, OutboxOk, Grows, OnlyBy;
    var n' := BecomeCandidate(c, n);
    h' := RecordCandidacy(c, n, h);
    HistParts(c, h);
    LogLater(n.term, n'.term, n.log, n.committed, h);
    CommitLater(n.term, n'.term, n.log, n.committed, h);
    AcksLater(c, n.id, n.term, n'.term, n.log, h);
    CandidacyFits(n.id, n.term, n.vote, n.role.Candidate?, n.log, h, h');
    GrowFields(c, n'.id, n'.term, n'.log, n'.committed, n'.msgs, h, h');
    FreshKeys(c, n);
    assert Moves(n, h, n', h', peak);
  }

  lemma CandidacyFits(id: Id, term: nat, vote: Id, candidate: bool, log: seq<Entry>, h: Hist, h': Hist)
    requires PastFits(id, term, vote, candidate, h) && h'.ldr == h.ldr && h'.beats == h.beats
    requires var k := Key(term + 1, id);
             h'.cands == h.cands[k := log] && h'.ballots == h.ballots[k := Ballot(id, log)]
    ensures PastFits(id, term + 1, id, true, h')
  {
    forall k | k in h'.ballots && k.id == id ensures BallotFits(term + 1, id, h', k) {
      if k != Key(term + 1, id) { assert BallotFits(term, vote, h, k); }
    }
  }

  /** The aspects that do not mention the role, under growth without new
      acknowledgements. */
  lemma GrowFields(c: Config, id: Id, term: nat, log: seq<Entry>, committed: nat, msgs: seq<Message>, h: Hist, h': Hist)
    requires LeadersOk(c, h) && RecordsOk(h) && Grows(h, h') && h'.acks == h.acks
    requires LogFits(term, log, committed, h) && CommitFits(term, log, committed, h)
    requires AcksFit(id, term, log, h) && OutboxOk(msgs, h)
    ensures LogFits(term, log, committed, h') && CommitFits(term, log, committed, h')
    ensures AcksFit(id, term, log, h') && OutboxOk(msgs, h')
  {
    hide LogFits, CommitFits, AcksFit, OutboxOk;
    LogGrows(term, log, committed, h, h');
    CommitGrows(c, term, log, committed, h, h');
    AcksGrow(c, id, term, log, h, h');
    OutboxGrows(msgs, h, h');
  }

  /** The requests of a campaign are in order... */
  ghost predicate Requests(n: Node, t: CampaignType, term: nat, h: Hist) {
    && term > 0 && n.id != NONE
    && (!t.PreElection? ==>
          var k := Key(term, n.id);
          k in h.cands && h.cands[k] == n.log && k in h.ballots && h.ballots[k].cand == n.id)
  }

  lemma {:induction false} SendsRequests(c: Config, n: Node, h: Hist, t: CampaignType, term: nat, ids: seq<Id>,
      peak: nat)
    requires Ok(c, n, h) && Requests(n, t, term, h)
    ensures Steps(c, n, h, SendVoteRequests(n, t, term, ids), h, peak)
    decreases |ids|
  {
    hide Ok, Steps;
    if ids == [] {
      Stays(c, n, h, peak);
    } else {
      var m := VoteRequest(n, t, term, ids[0]);
      Sends(c, n, h, m, peak);
      StepsOk(c, n, h, Send(n, m), h, peak);
      SendsRequests(c, Send(n, m), h, t, term, ids[1..], peak);
      StepsTrans(c, n, h, Send(n, m), h, SendVoteRequests(n, t, term, ids), h, peak);
    }
  }

  lemma StepsOk(c: Config, n: Node, h: Hist, n': Node, h': Hist, peak: nat)
    requires Steps(c, n, h, n', h', peak)
    ensures Ok(c, n', h') && n'.id == n.id && Grows(h, h')
  {}

  lemma Campaigns(c: Config, n: Node, h: Hist, t: CampaignType, peak: nat) returns (h': Hist)
    requires Ok(c, n, h) && !n.role.Leader? && n.id != NONE
    ensures Steps(c, n, h, Campaign(c, n, t), h', peak)
  {
    hide Ok, Steps, Grows;
    if t.PreElection? {
      h' := h;
      var n1 := BecomePreCandidate(n);
      PreCampaigns(c, n, h, peak);
      StepsOk(c, n, h, n1, h, peak);
      SendsRequests(c, n1, h, t, n.term + 1, c.voterIds, peak);
      StepsTrans(c, n, h, n1, h, Campaign(c, n, t), h, peak);
    } else {
      var n1 := BecomeCandidate(c, n);
      h' := Campaigning(c, n, h, peak);
      StepsOk(c, n, h, n1, h', peak);
      SendsRequests(c, n1, h', t, n.term + 1, c.voterIds, peak);
      StepsTrans(c, n, h, n1, h', Campaign(c, n, t), h', peak);
    }
  }

  // -------------------------------------------------------------------- voting

  /** A vote for m.from in the current term goes on record, unless it is a
      repetition of the vote on record. */
  lemma RecordVoteFor(c: Config, n: Node, h: Hist, m: Message) returns (h': Hist)
    requires Ok(c, n, h) && m.MsgVote? && MsgOk(m, h) && m.term == n.term
    requires CanVote(n, m) && IsUpToDate(n.log, m.last)
    ensures HistInv(c, h') && Grows(h, h') && OnlyBy(h, h', n.id)
    ensures var k := Key(n.term, n.id);
            && k in h'.ballots && h'.ballots[k].cand == m.from
            && h' == h.(ballots := h.ballots[k := h'.ballots[k]])
  {
    hide HistInv, LeadersOk, CommitsOk, BallotsOk, RecordsOk, LeadersGrow, LogFits, CommitFits, AcksFit, PastFits,
      Running, Leading, Tracks, Serving, OutboxOk;
    var k := Key(n.term, n.id);
    GrowsRefl(h, n.id);
    if k in h.ballots {
      VoteOnRecord(c, n.id, n.term, n.vote, n.role.Candidate?, h);
      h' := h;
      assert h.ballots[k := h.ballots[k]] == h.ballots;
    } else {
      LogIsOk(n.term, n.log, n.committed, h);
      HistParts(c, h);
      OwnAcksKept(c, n.id, n.term, n.log, h, h);
      h' := AddBallot(c, h, k, Ballot(m.from, n.log));
    }
  }

  lemma VoteOnRecord(c: Config, id: Id, term: nat, vote: Id, candidate: bool, h: Hist)
    requires PastFits(id, term, vote, candidate, h) && HistInv(c, h) && Key(term, id) in h.ballots
    ensures vote == h.ballots[Key(term, id)].cand && vote != NONE
  {
    HistParts(c, h);
    assert BallotFits(term, vote, h, Key(term, id)) && BallotOk(h, Key(term, id));
  }

  lemma GrantsVote(c: Config, n: Node, h: Hist, m: Message, peak: nat) returns (h': Hist)
    requires Ok(c, n, h) && m.MsgVote? && MsgOk(m, h) && m.term == n.term
    requires CanVote(n, m) && IsUpToDate(n.log, m.last)
    ensures Steps(c, n, h, n.(vote := m.from), h', peak)
    ensures var k := Key(n.term, n.id); k in h'.ballots && h'.ballots[k].cand == m.from
  {
    hide HistInv, LeadersOk, CommitsOk, BallotsOk, RecordsOk, LeadersGrow, LogFits, CommitFits, AcksFit, PastFits,
      Running, Tracks, Serving, OutboxOk, Grows, OnlyBy;
    var n' := n.(vote := m.from);
    h' := RecordVoteFor(c, n, h, m);
    HistParts(c, h);
    GrowFields(c, n.id, n.term, n.log, n.committed, n.msgs, h, h');
    VoteFitsNow(n.id, n.term, n.vote, m.from, n.role.Candidate?, h, h');
    if n.role.Candidate? { RunningGrows(n.id, n.term, n.log, n.votes, h, h'); }
    if n.role.Leader? {
      TracksGrow(n.id, n.term, |n.log|, |n.log|, n.progress, h, h');
      ServingGrows(n.id, n.term, n.readOnly, h, h');
    }
    assert Moves(n, h, n', h', peak);
  }

  lemma VoteFitsNow(id: Id, term: nat, vote: Id, vote': Id, candidate: bool, h: Hist, h': Hist)
    requires PastFits(id, term, vote, candidate, h) && h'.ldr == h.ldr && h'.beats == h.beats && h'.cands == h.cands
    requires var k := Key(term, id);
             k in h'.ballots && h'.ballots[k].cand == vote' && h'.ballots == h.ballots[k := h'.ballots[k]]
    ensures PastFits(id, term, vote', candidate, h')
  {
    forall k | k in h'.ballots && k.id == id ensures BallotFits(term, vote', h', k) {
      if k != Key(term, id) { assert BallotFits(term, vote, h, k); }
    }
  }

  /** Answering a vote or pre-vote request. */
  lemma AnswersVote(c: Config, n: Node, h: Hist, m: Message, peak: nat) returns (h': Hist)
    requires Ok(c, n, h) && (m.MsgVote? || m.MsgPreVote?) && MsgOk(m, h)
    requires m.MsgVote? ==> m.term == n.term
    requires m.term >= n.term
    ensures Steps(c, n, h, HandleVote(n, m), h', peak)
  {
    hide Ok, Steps, Grows;
    h' := h;
    if CanVote(n, m) && IsUpToDate(n.log, m.last) {
      if m.MsgVote? {
        h' := GrantsVote(c, n, h, m, peak);
        var n1, resp := n.(vote := m.from), MsgVoteResp(n.id, m.from, m.term, false);
        StepsOk(c, n, h, n1, h', peak);
        Sends(c, n1, h', resp, peak);
        StepsTrans(c, n, h, n1, h', Send(n1, resp), h', peak);
        assert Send(n1, resp) == HandleVote(n, m);
      } else {
        Sends(c, n, h, MsgPreVoteResp(n.id, m.from, m.term, false), peak);
      }
    } else {
      NoTermNoLog(c, n, h, m);
      if m.MsgVote? {
        Sends(c, n, h, MsgVoteResp(n.id, m.from, n.term, true), peak);
      } else {
        Sends(c, n, h, MsgPreVoteResp(n.id, m.from, n.term, true), peak);
      }
    }
  }

  /** A rejection carries a term: in term 0 the log is empty and every request
      is granted. */
  lemma NoTermNoLog(c: Config, n: Node, h: Hist, m: Message)
    requires Ok(c, n, h) && (m.MsgVote? || m.MsgPreVote?) && MsgOk(m, h)
    requires m.MsgVote? ==> m.term == n.term
    requires !(CanVote(n, m) && IsUpToDate(n.log, m.last))
    ensures n.term != 0
  {
    if n.log != [] { LastTermPositive(c, n.log, h); }
  }

  lemma LastTermPositive(c: Config, log: seq<Entry>, h: Hist)
    requires HistInv(c, h) && LogOk(h, log) && log != []
    ensures LastTerm(log) > 0
  {
    assert EntryOk(h, log, |log| - 1);
    LeaderAt(c, h, LastTerm(log));
  }

  // ------------------------------------------------------------------- winning

  lemma CountsVote(c: Config, n: Node, h: Hist, from: Id, granted: bool, peak: nat)
    requires Ok(c, n, h) && (n.role.Candidate? && granted ==> VoteFits(n.id, n.term, h, from)) && !n.role.Leader?
    ensures Steps(c, n, h, RecordVote(n, from, granted), h, peak)
  {
    hide HistInv, LeadersOk, CommitsOk, BallotsOk, RecordsOk, LeadersGrow, LogFits, CommitFits, AcksFit, PastFits,
      Leading, Tracks, Serving, OutboxOk;
    Still(n, RecordVote(n, from, granted), h, peak);
  }

  /** Two quorums of votes in one term elect the same candidate... */
  lemma SameWinner(c: Config, id: Id, term: nat, log: seq<Entry>, votes: map<Id, bool>, h: Hist)
    requires c.Valid() && HistInv(c, h) && Running(id, term, log, votes, h) && term in h.ldr
    requires IsQuorum(c.voters, YesVotes(votes))
    ensures h.ldr[term].id == id
  {
    LeaderAt(c, h, term);
    var v := QuorumsMeet(c.voters, YesVotes(votes), h.ldr[term].voters);
    assert VoteFits(id, term, h, v) && VoterOk(h, term, v);
  }

  /** ... so a candidate with a quorum of votes finds no leader in its term. */
  lemma NoRival(c: Config, id: Id, term: nat, vote: Id, log: seq<Entry>, votes: map<Id, bool>, h: Hist)
    requires c.Valid() && HistInv(c, h) && Running(id, term, log, votes, h) && PastFits(id, term, vote, true, h)
    requires IsQuorum(c.voters, YesVotes(votes))
    ensures term !in h.ldr
  {
    if term in h.ldr { SameWinner(c, id, term, log, votes, h); }
  }

  /** The log a leader is elected with: entries of earlier terms, in place. */
  lemma BaseOk(c: Config, h: Hist, log: seq<Entry>, T: nat)
    requires LeadersOk(c, h) && LogOk(h, log) && LastTerm(log) <= T && T !in h.ldr
    ensures forall i | 0 <= i < |log| :: log[i].term < T && log[i].index == i + 1
  {
    forall i | 0 <= i < |log| ensures log[i].term < T && log[i].index == i + 1 {
      assert EntryOk(h, log, i);
      LastTermBounds(h, log, i);
      assert LeaderOk(c, h, log[i].term);
      AgreeAt(log, h.ldr[log[i].term].log, i + 1, i);
    }
  }

  ghost function ElectedRec(n: Node): LeaderRec {
    LeaderRec(n.id, n.log, n.log + [Entry(n.term, |n.log| + 1, "")], YesVotes(n.votes), n.committed)
  }

  lemma RecordElection(c: Config, n: Node, h: Hist) returns (h': Hist)
    requires Ok(c, n, h) && n.role.Candidate? && IsQuorum(c.voters, YesVotes(n.votes))
    ensures HistInv(c, h') && Grows(h, h') && OnlyBy(h, h', n.id)
    ensures n.term !in h.ldr && h' == h.(ldr := h.ldr[n.term := ElectedRec(n)])
  {
    hide HistInv, LeadersOk, CommitsOk, BallotsOk, RecordsOk, LeadersGrow, AcksFit, PastFits, Leading, Tracks,
      Serving, OutboxOk, LogOk;
    NoRival(c, n.id, n.term, n.vote, n.log, n.votes, h);
    HistParts(c, h);
    BaseOk(c, h, n.log, n.term);
    var r := ElectedRec(n);
    assert r.log[..|r.base|] == r.base;
    VotersNotBehind(c, n.id, n.term, n.log, n.votes, h);
    CommitBefore(n.term, n.log, n.committed, h);
    h' := Elect(c, h, n.term, r);
  }

  lemma VotersNotBehind(c: Config, id: Id, term: nat, log: seq<Entry>, votes: map<Id, bool>, h: Hist)
    requires BallotsOk(h) && Running(id, term, log, votes, h)
    ensures forall v | v in YesVotes(votes) ::
              Key(term, v) in h.ballots && h.ballots[Key(term, v)].cand == id && NotBehind(log, h.ballots[Key(term, v)].log)
  {
    forall v | v in YesVotes(votes)
      ensures Key(term, v) in h.ballots && h.ballots[Key(term, v)].cand == id
              && NotBehind(log, h.ballots[Key(term, v)].log)
    {
      assert VoteFits(id, term, h, v);
      assert BallotOk(h, Key(term, v));
    }
  }

  lemma CommitBefore(term: nat, log: seq<Entry>, committed: nat, h: Hist)
    requires CommitFits(term, log, committed, h) && term !in h.ldr
    ensures committed == 0 || exists T1 :: T1 in h.ldr && T1 < term && committed <= h.ldr[T1].commit &&
                                           Agree(log, h.ldr[T1].log, committed)
  {
    if committed != 0 {
      var T1: nat :| CommitFrom(term, log, committed, h, T1);
    }
  }

  /** What a log holds it still holds when it gets longer. */
  lemma LongerLog(c: Config, id: Id, term: nat, log: seq<Entry>, log': seq<Entry>, committed: nat, h: Hist)
    requires CommitFits(term, log, committed, h) && AcksFit(id, term, log, h) && log <= log'
    ensures CommitFits(term, log', committed, h) && AcksFit(id, term, log', h)
  {
    if committed != 0 {
      var T: nat :| CommitFrom(term, log, committed, h, T);
      assert log'[..committed] == log[..committed];
      assert CommitFrom(term, log', committed, h, T);
    }
    forall a | a in h.acks && a.who == id ensures AckFits(term, log', h, a) {
      assert AckFits(term, log, h, a);
      LongerKeeps(h, log, log', a, term);
    }
  }

  lemma LongerKeeps(h: Hist, log: seq<Entry>, log': seq<Entry>, a: AckRec, bound: nat)
    requires KeepsAck(h, log, a, bound) && log <= log'
    ensures KeepsAck(h, log', a, bound)
  {
    forall i: nat | 0 < i <= a.index ensures Keeps(h, log', a.term, i, bound) {
      assert Keeps(h, log, a.term, i, bound);
      if Agree(log, h.ldr[a.term].log, i) { assert log'[..i] == log[..i]; }
    }
  }

  /** The leader acknowledges its own log. */
  lemma SelfAck(c: Config, id: Id, term: nat, vote: Id, log: seq<Entry>, h: Hist) returns (h': Hist)
    requires HistInv(c, h) && PastFits(id, term, vote, false, h) && AcksFit(id, term, log, h)
    requires term in h.ldr && h.ldr[term].id == id && h.ldr[term].log == log && log != []
    ensures h' == h.(acks := h.acks + {AckRec(term, id, |log|)})
    ensures HistInv(c, h') && Grows(h, h') && OnlyBy(h, h', id)
    ensures PastFits(id, term, vote, false, h') && AcksFit(id, term, log, h')
  {
    hide HistInv;
    var a := AckRec(term, id, |log|);
    forall k | k in h.ballots && k.id == id ensures k.term <= term { assert BallotFits(term, vote, h, k); }
    h' := AddAck(c, h, a);
    HistParts(c, h);
    OwnAckFits(h', term, log, a);
    AcksGrow(c, id, term, log, h, h');
    forall k | k in h'.ballots && k.id == id ensures BallotFits(term, vote, h', k) { assert BallotFits(term, vote, h, k); }
  }

  lemma OwnAckFits(h: Hist, term: nat, log: seq<Entry>, a: AckRec)
    requires term in h.ldr && h.ldr[term].log == log && a.term == term && a.index <= |log|
    ensures AckFits(term, log, h, a)
  {
    forall i: nat | 0 < i <= a.index ensures Keeps(h, log, a.term, i, term) {
      assert Agree(log, h.ldr[term].log, i);
    }
  }

  lemma FreshTracks(c: Config, n: Node, last: nat, h: Hist)
    requires n.term in h.ldr && h.ldr[n.term].base == n.log && last >= |n.log|
    ensures Tracks(n.id, n.term, last, AllFresh(c, n), h)
  {
    var ps := AllFresh(c, n);
    forall p | p in ps ensures ProgressFits(n.id, n.term, last, h, p, ps[p]) {}
  }

  lemma TracksSet(id: Id, term: nat, last: nat, ps: map<Id, Progress>, h: Hist, p: Id, pr: Progress)
    requires Tracks(id, term, last, ps, h) && ProgressFits(id, term, last, h, p, pr)
    ensures Tracks(id, term, last, ps[p := pr], h)
  {
    var ps' := ps[p := pr];
    forall q | q in ps' ensures ProgressFits(id, term, last, h, q, ps'[q]) {
      if q != p { assert ProgressFits(id, term, last, h, q, ps[q]); }
    }
  }

  /** The records of an election and of the leader's own first entry. */
  lemma ElectionHist(c: Config, n: Node, h: Hist) returns (h': Hist)
    requires Ok(c, n, h) && n.role.Candidate? && IsQuorum(c.voters, YesVotes(n.votes))
    ensures HistInv(c, h') && Grows(h, h') && OnlyBy(h, h', n.id)
    ensures n.term in h'.ldr && h'.ldr[n.term] == ElectedRec(n)
    ensures h'.acks == h.acks + {AckRec(n.term, n.id, |n.log| + 1)} && h'.asked == h.asked
    ensures PastFits(n.id, n.term, n.vote, false, h') && AcksFit(n.id, n.term, ElectedRec(n).log, h')
    ensures n.term !in h.ldr && forall k | k in h'.asked :: k.term != n.term
  {
    hide HistInv, LeadersOk, CommitsOk, BallotsOk, RecordsOk, LeadersGrow, LogFits, CommitFits, AcksFit, PastFits,
      Running, Tracks, Serving, OutboxOk, Grows, OnlyBy;
    var log' := ElectedRec(n).log;
    var h1 := RecordElection(c, n, h);
    HistParts(c, h);
    NoReadsYet(h, n.term);
    AcksGrow(c, n.id, n.term, n.log, h, h1);
    CommitGrows(c, n.term, n.log, n.committed, h, h1) by { GrowsLeaders(h, h1); }
    LongerLog(c, n.id, n.term, n.log, log', n.committed, h1);
    LeaderNow(n.id, n.term, n.vote, h, h1);
    h' := SelfAck(c, n.id, n.term, n.vote, log', h1);
    GrowsTrans(h, h1, h');
    OnlyByTrans(h, h1, h', n.id);
  }

  lemma GrowsLeaders(h: Hist, h': Hist)
    requires Grows(h, h')
    ensures LeadersGrow(h, h')
  {}

  lemma NoReadsYet(h: Hist, T: nat)
    requires RecordsOk(h) && T !in h.ldr
    ensures forall k | k in h.asked :: k.term != T
  {
    forall k | k in h.asked ensures k.term != T { assert AskedOk(h, k); }
  }

  lemma LeaderNow(id: Id, term: nat, vote: Id, h: Hist, h': Hist)
    requires PastFits(id, term, vote, true, h) && h' == h.(ldr := h'.ldr)
    requires forall T | T in h'.ldr && T != term :: T in h.ldr && h'.ldr[T] == h.ldr[T]
    ensures PastFits(id, term, vote, false, h')
  {
    forall k | k in h'.ballots && k.id == id ensures BallotFits(term, vote, h', k) { assert BallotFits(term, vote, h, k); }
  }

  lemma Wins(c: Config, n: Node, h: Hist, peak: nat) returns (h': Hist)
    requires Ok(c, n, h) && n.role.Candidate? && IsQuorum(c.voters, YesVotes(n.votes))
    ensures Steps(c, n, h, BecomeLeader(c, n), h', peak)
    ensures BecomeLeader(c, n).role.Leader?
  {
    hide HistInv, LeadersOk, CommitsOk, BallotsOk, RecordsOk, LeadersGrow, LogFits, CommitFits, AcksFit, PastFits,
      Running, Tracks, Serving, OutboxOk, Grows, OnlyBy, Moves,
      AllFresh, BecomeLeader;
    var n' := BecomeLeader(c, n);
    LeaderShape(c, n);
    h' := ElectionHist(c, n, h);
    HistParts(c, h);
    LogIsOk(n.term, n.log, n.committed, h);
    LeaderLogFits(c, h', n.term, n.committed);
    CommitGrows(c, n.term, n.log, n.committed, h, h') by { GrowsLeaders(h, h'); }
    LongerCommit(n.term, n.log, n'.log, n.committed, h');
    NewTracks(c, n, h');
    FreshServing(n.id, n.term, h');
    OutboxGrows(n.msgs, h, h');
    TermInUse(c, h', n.term);
    OutboxAppend(n.msgs, Ack(n', n.id, |n'.log|), h');
    AckMoves(n, h, n', h', AckRec(n'.term, n.id, |n'.log|), Ack(n', n.id, |n'.log|), peak);
  }

  lemma LeaderShape(c: Config, n: Node)
    requires n.id in n.progress && !n.role.Follower?
    ensures var n' := BecomeLeader(c, n);
            && n'.id == n.id && n'.term == n.term && n'.vote == n.vote && n'.role == Leader && n'.lead == n.id && n'.transferee == NONE
            && n'.log == ElectedRec(n).log && n'.committed == n.committed
            && n'.readOnly == NO_READS && n'.failed == n.failed
            && (forall p :: p in n'.progress <==> p in n.progress)
            && n'.msgs == n.msgs + [Ack(n', n.id, |n'.log|)]
  {}

  lemma FreshKeys(c: Config, n: Node)
    ensures forall p :: p in AllFresh(c, n) <==> p in n.progress
  {}

  lemma LeaderLogFits(c: Config, h: Hist, T: nat, k: nat)
    requires HistInv(c, h) && T in h.ldr && k <= |h.ldr[T].log|
    ensures LogFits(T, h.ldr[T].log, k, h) && h.ldr[T].log != []
  {
    hide HistInv;
    LeaderAt(c, h, T);
  }

  lemma LongerCommit(term: nat, log: seq<Entry>, log': seq<Entry>, committed: nat, h: Hist)
    requires CommitFits(term, log, committed, h) && log <= log'
    ensures CommitFits(term, log', committed, h)
  {
    if committed != 0 {
      var T: nat :| CommitFrom(term, log, committed, h, T);
      assert log'[..committed] == log[..committed];
      assert CommitFrom(term, log', committed, h, T);
    }
  }

  lemma NewTracks(c: Config, n: Node, h: Hist)
    requires n.id in n.progress && n.term in h.ldr && h.ldr[n.term].base == n.log
    ensures Tracks(n.id, n.term, |BecomeLeader(c, n).log|, BecomeLeader(c, n).progress, h)
  {
    hide Tracks;
    var blank := AllFresh(c, n);
    FreshTracks(c, n, |n.log| + 1, h);
    TracksSet(n.id, n.term, |n.log| + 1, blank, h, n.id, blank[n.id].BecomeReplicate().(recentActive := true));
  }

  lemma FreshServing(id: Id, term: nat, h: Hist)
    requires forall k | k in h.asked :: k.term != term
    ensures Serving(id, term, NO_READS, h)
  {}
}
