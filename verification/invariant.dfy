/** The inductive invariant of the cluster, one predicate per aspect of a node,
    of a message and of the whole. */
module Invariant {
  import opened Quorum
  import opened Logs
  import opened Flow
  import opened FlowLaws
  import opened ReadQueue
  import opened RaftSpec
  import opened History
  import opened Growth

  // -------------------------------------------------------------------- nodes

  ghost predicate Basic(c: Config, n: Node) {
    && n.id in c.peers && n.id != NONE && n.transferee != n.id
    && (forall p :: p in n.progress <==> p in c.peers)
    && !n.failed
    && (!n.role.Leader? ==> n.lead != n.id)
  }

  /** A node only follows the leader of its term. */
  ghost predicate LeadFits(term: nat, lead: Id, h: Hist) {
    lead == NONE || (term in h.ldr && h.ldr[term].id == lead)
  }

  ghost predicate LogFits(term: nat, log: seq<Entry>, committed: nat, h: Hist) {
    LogOk(h, log) && LastTerm(log) <= term && committed <= |log|
  }

  /** The commit index is one that leader T committed. */
  ghost predicate CommitFrom(term: nat, log: seq<Entry>, committed: nat, h: Hist, T: nat) {
    T <= term && T in h.ldr && committed <= h.ldr[T].commit && Agree(log, h.ldr[T].log, committed)
  }

  ghost predicate CommitFits(term: nat, log: seq<Entry>, committed: nat, h: Hist) {
    committed == 0 || exists T: nat :: CommitFrom(term, log, committed, h, T)
  }

  ghost predicate AckFits(term: nat, log: seq<Entry>, h: Hist, a: AckRec) {
    a.term <= term && KeepsAck(h, log, a, term)
  }

  ghost predicate AcksFit(id: Id, term: nat, log: seq<Entry>, h: Hist) {
    forall a | a in h.acks && a.who == id :: AckFits(term, log, h, a)
  }

  ghost predicate BallotFits(term: nat, vote: Id, h: Hist, k: Key)
    requires k in h.ballots
  {
    k.term <= term && (k.term == term ==> vote == h.ballots[k].cand)
  }

  /** The node is past everything it did, and no candidate has already won. */
  ghost predicate PastFits(id: Id, term: nat, vote: Id, candidate: bool, h: Hist) {
    && (forall k | k in h.ballots && k.id == id :: BallotFits(term, vote, h, k))
    && (forall k | k in h.cands && k.id == id :: k.term <= term)
    && (forall T | T in h.ldr && h.ldr[T].id == id :: T <= term && (T == term ==> !candidate))
    && (forall b | b in h.beats && b.who == id :: b.term <= term)
  }

  ghost predicate VoteFits(id: Id, term: nat, h: Hist, v: Id) {
    Key(term, v) in h.ballots && h.ballots[Key(term, v)].cand == id
  }

  /** A candidate's log is the one it asked for votes with, and the votes it
      counts were cast. */
  ghost predicate Running(id: Id, term: nat, log: seq<Entry>, votes: map<Id, bool>, h: Hist) {
    && term > 0
    && Key(term, id) in h.cands && h.cands[Key(term, id)] == log
    && forall v | v in votes && votes[v] :: VoteFits(id, term, h, v)
  }

  /** A matched index was acknowledged in this term, except that the leader
      counts the log it was elected with as matched by itself. */
  ghost predicate MatchFits(id: Id, term: nat, h: Hist, p: Id, i: nat) {
    i == 0 || AckRec(term, p, i) in h.acks || (p == id && term in h.ldr && i <= |h.ldr[term].base|)
  }

  ghost predicate ProgressFits(id: Id, term: nat, last: nat, h: Hist, p: Id, pr: Progress) {
    pr.matched < pr.next <= last + 1 && !pr.state.StateSnapshot? && MatchFits(id, term, h, p, pr.matched) && InOrder(pr)
  }

  ghost predicate Tracks(id: Id, term: nat, last: nat, progress: map<Id, Progress>, h: Hist) {
    forall p | p in progress :: ProgressFits(id, term, last, h, p, progress[p])
  }

  /** A leader's log and commit index are the term's. */
  ghost predicate Leading(id: Id, term: nat, log: seq<Entry>, committed: nat, h: Hist) {
    && term in h.ldr && h.ldr[term].id == id
    && h.ldr[term].log == log && h.ldr[term].commit == committed
  }

  ghost predicate ReadFits(term: nat, ro: ReadOnly, h: Hist, p: nat) {
    && Key(term, p) in h.asked
    && (p <= ro.confirmed ==> h.asked[Key(term, p)].peak <= h.asked[Key(term, p)].index)
    && (ro.confirmed < p <= ro.Total() ==> h.asked[Key(term, p)].index == ro.unconfirmed[p - 1 - ro.confirmed].index)
  }

  ghost predicate BeatFits(id: Id, term: nat, total: nat, h: Hist, v: Id, ctx: nat) {
    ctx <= total && (ctx == 0 || v == id || BeatRec(term, v, ctx) in h.beats)
  }

  /** The reads a leader queued, numbered without gaps; confirmed ones carry a
      large enough index. */
  ghost predicate Serving(id: Id, term: nat, ro: ReadOnly, h: Hist) {
    && (forall p: nat | 0 < p <= ro.Total() :: ReadFits(term, ro, h, p))
    && (forall k | k in h.asked && k.term == term :: k.id <= ro.Total())
    && (forall v | v in ro.acks :: BeatFits(id, term, ro.Total(), h, v, ro.acks[v]))
  }

  // ----------------------------------------------------------------- messages

  ghost predicate MsgOk(m: Message, h: Hist) {
    && (m.MsgApp? ==>
          && m.term in h.ldr && m.from == h.ldr[m.term].id && m.from != m.to
          && IsSlice(h.ldr[m.term].log, m.prev, m.entries) && m.commit <= h.ldr[m.term].commit)
    && (m.MsgAppResp? && !m.reject && m.index > 0 ==> AckRec(m.term, m.from, m.index) in h.acks)
    && (m.MsgAppResp? && m.reject ==> m.from != m.to)
    && (m.MsgAppResp? || m.MsgHeartbeatResp? ==> m.term > 0)
    && (m.MsgHeartbeat? ==>
          && m.term in h.ldr && m.from == h.ldr[m.term].id && m.from != m.to
          && m.commit <= h.ldr[m.term].commit && (m.commit == 0 || HasAck(h, m.term, m.to, m.commit))
          && (m.context == 0 || Key(m.term, m.context) in h.asked))
    && (m.MsgHeartbeatResp? ==> m.from != m.to && (m.context == 0 || BeatRec(m.term, m.from, m.context) in h.beats))
    && (m.MsgVote? ==>
          && m.term > 0 && m.from != NONE && Key(m.term, m.from) in h.cands
          && m.last == EntryID(LastTerm(h.cands[Key(m.term, m.from)]), |h.cands[Key(m.term, m.from)]|))
    && (m.MsgVoteResp? && !m.reject ==> Key(m.term, m.from) in h.ballots && h.ballots[Key(m.term, m.from)].cand == m.to)
    && (m.MsgPreVote? ==> m.term > 0)
    && (m.MsgProp? ==> m.term == 0 && m.payloads != [])
    && (m.MsgReadIndex? ==> m.term == 0)
    && (m.MsgTransferLeader? ==> LeadFits(m.term, if m.term == 0 then NONE else m.to, h))
  }

  ghost predicate OutboxOk(msgs: seq<Message>, h: Hist) {
    forall m | m in msgs :: MsgOk(m, h)
  }

  ghost predicate NodeInv(c: Config, n: Node, h: Hist) {
    && Basic(c, n) && LeadFits(n.term, n.lead, h)
    && LogFits(n.term, n.log, n.committed, h)
    && CommitFits(n.term, n.log, n.committed, h)
    && AcksFit(n.id, n.term, n.log, h)
    && PastFits(n.id, n.term, n.vote, n.role.Candidate?, h)
    && (n.role.Candidate? ==> Running(n.id, n.term, n.log, n.votes, h))
    && (n.role.Leader? ==>
          && Leading(n.id, n.term, n.log, n.committed, h)
          && Tracks(n.id, n.term, |n.log|, n.progress, h)
          && Serving(n.id, n.term, n.readOnly, h))
    && OutboxOk(n.msgs, h)
  }

  // -------------------------------------------------------------- the cluster

  ghost predicate IsAck(m: Message, a: AckRec) {
    m.MsgAppResp? && !m.reject && m.from == a.who && m.term == a.term && m.index == a.index
  }

  ghost predicate AckSent(s: Cluster, a: AckRec) {
    exists m :: m in s.net && IsAck(m, a)
  }

  ghost predicate Inv(c: Config, s: Cluster, h: Hist) {
    && c.Valid() && HistInv(c, h)
    && (forall id :: id in s.nodes <==> id in c.peers)
    && (forall id | id in s.nodes :: s.nodes[id].id == id && s.nodes[id].msgs == [] && NodeInv(c, s.nodes[id], h))
    && (forall m | m in s.net :: MsgOk(m, h))
    && (forall a | a in h.acks :: AckSent(s, a))
  }

  // ------------------------------------------------- invariants survive growth

  lemma MsgOkGrows(m: Message, h: Hist, h': Hist)
    requires MsgOk(m, h) && Grows(h, h')
    ensures MsgOk(m, h')
  {
    if m.MsgApp? { SliceGrows(h.ldr[m.term].log, h'.ldr[m.term].log, m.prev, m.entries); }
    if m.MsgHeartbeat? && m.commit != 0 { HasAckGrows(h, h', m.term, m.to, m.commit); }
  }

  lemma SliceGrows(L: seq<Entry>, L': seq<Entry>, prev: EntryID, ents: seq<Entry>)
    requires IsSlice(L, prev, ents) && L <= L'
    ensures IsSlice(L', prev, ents)
  {
    assert L[prev.index..prev.index + |ents|] == L'[prev.index..prev.index + |ents|];
  }

  lemma OutboxGrows(msgs: seq<Message>, h: Hist, h': Hist)
    requires OutboxOk(msgs, h) && Grows(h, h')
    ensures OutboxOk(msgs, h')
  {
    forall m | m in msgs ensures MsgOk(m, h') { MsgOkGrows(m, h, h'); }
  }

  lemma LogGrows(term: nat, log: seq<Entry>, committed: nat, h: Hist, h': Hist)
    requires LogFits(term, log, committed, h) && LeadersGrow(h, h')
    ensures LogFits(term, log, committed, h')
  {
    LogOkGrows(h, h', log);
  }

  lemma LeadGrows(term: nat, lead: Id, h: Hist, h': Hist)
    requires LeadFits(term, lead, h) && LeadersGrow(h, h')
    ensures LeadFits(term, lead, h')
  {}

  lemma CommitGrows(c: Config, term: nat, log: seq<Entry>, committed: nat, h: Hist, h': Hist)
    requires CommitFits(term, log, committed, h) && LeadersGrow(h, h') && LeadersOk(c, h)
    ensures CommitFits(term, log, committed, h')
  {
    if committed != 0 {
      var T: nat :| CommitFrom(term, log, committed, h, T);
      assert LeaderOk(c, h, T);
      AgreeGrows(h, h', log, T, committed);
      assert CommitFrom(term, log, committed, h', T);
    }
  }

  /** What node id newly did fits its state. */
  ghost predicate NewFits(id: Id, term: nat, vote: Id, candidate: bool, log: seq<Entry>, h: Hist, h': Hist) {
    && (forall a | a in h'.acks && a.who == id && a !in h.acks :: AckFits(term, log, h', a))
    && (forall k | k in h'.ballots && k.id == id && k !in h.ballots :: BallotFits(term, vote, h', k))
    && (forall k | k in h'.cands && k.id == id && k !in h.cands :: k.term <= term)
    && (forall T | T in h'.ldr && h'.ldr[T].id == id && T !in h.ldr :: T <= term && (T == term ==> !candidate))
    && (forall b | b in h'.beats && b.who == id && b !in h.beats :: b.term <= term)
  }

  lemma AcksGrow(c: Config, id: Id, term: nat, log: seq<Entry>, h: Hist, h': Hist)
    requires LeadersOk(c, h) && RecordsOk(h) && AcksFit(id, term, log, h) && Grows(h, h')
    requires forall a | a in h'.acks && a.who == id && a !in h.acks :: AckFits(term, log, h', a)
    ensures AcksFit(id, term, log, h')
  {
    forall a | a in h'.acks && a.who == id ensures AckFits(term, log, h', a) {
      if a in h.acks {
        assert AckOk(h, a) && AckFits(term, log, h, a);
        KeepsAckGrows(c, h, h', log, a, term, term);
      }
    }
  }

  lemma PastGrows(id: Id, term: nat, vote: Id, candidate: bool, log: seq<Entry>, h: Hist, h': Hist)
    requires PastFits(id, term, vote, candidate, h) && Grows(h, h') && NewFits(id, term, vote, candidate, log, h, h')
    ensures PastFits(id, term, vote, candidate, h')
  {
    forall k | k in h'.ballots && k.id == id ensures BallotFits(term, vote, h', k) {
      if k in h.ballots { assert BallotFits(term, vote, h, k); }
    }
  }

  lemma RunningGrows(id: Id, term: nat, log: seq<Entry>, votes: map<Id, bool>, h: Hist, h': Hist)
    requires Running(id, term, log, votes, h) && Grows(h, h')
    ensures Running(id, term, log, votes, h')
  {
    forall v | v in votes && votes[v] ensures VoteFits(id, term, h', v) { assert VoteFits(id, term, h, v); }
  }

  lemma TracksGrow(id: Id, term: nat, last: nat, last': nat, progress: map<Id, Progress>, h: Hist, h': Hist)
    requires Tracks(id, term, last, progress, h) && Grows(h, h') && last <= last'
    ensures Tracks(id, term, last', progress, h')
  {
    forall p | p in progress ensures ProgressFits(id, term, last', h', p, progress[p]) {
      assert ProgressFits(id, term, last, h, p, progress[p]);
    }
  }

  lemma ServingGrows(id: Id, term: nat, ro: ReadOnly, h: Hist, h': Hist)
    requires Serving(id, term, ro, h) && Grows(h, h')
    requires forall k | k in h'.asked && k.term == term :: k in h.asked
    ensures Serving(id, term, ro, h')
  {
    forall p: nat | 0 < p <= ro.Total() ensures ReadFits(term, ro, h', p) { assert ReadFits(term, ro, h, p); }
    forall v | v in ro.acks ensures BeatFits(id, term, ro.Total(), h', v, ro.acks[v]) {
      assert BeatFits(id, term, ro.Total(), h, v, ro.acks[v]);
    }
  }

  /** A node is not affected by what the history newly records, as long as its
      own part in it fits. */
  lemma NodeGrows(c: Config, n: Node, h: Hist, h': Hist)
    requires HistInv(c, h) && NodeInv(c, n, h) && Grows(h, h')
    requires NewFits(n.id, n.term, n.vote, n.role.Candidate?, n.log, h, h')
    requires n.role.Leader? ==> Leading(n.id, n.term, n.log, n.committed, h')
    requires n.role.Leader? ==> forall k | k in h'.asked && k.term == n.term :: k in h.asked
    ensures NodeInv(c, n, h')
  {
    hide HistInv, LeadersOk, CommitsOk, BallotsOk, RecordsOk, LeadersGrow, LogFits, CommitFits, AcksFit, PastFits,
      Running, Leading, Tracks, Serving, OutboxOk;
    HistParts(c, h);
    LeadGrows(n.term, n.lead, h, h');
    LogGrows(n.term, n.log, n.committed, h, h');
    CommitGrows(c, n.term, n.log, n.committed, h, h');
    AcksGrow(c, n.id, n.term, n.log, h, h');
    PastGrows(n.id, n.term, n.vote, n.role.Candidate?, n.log, h, h');
    if n.role.Candidate? { RunningGrows(n.id, n.term, n.log, n.votes, h, h'); }
    if n.role.Leader? {
      TracksGrow(n.id, n.term, |n.log|, |n.log|, n.progress, h, h');
      ServingGrows(n.id, n.term, n.readOnly, h, h');
    }
    OutboxGrows(n.msgs, h, h');
  }
}
