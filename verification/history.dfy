/** The history of a run that the safety argument refers to, and the invariants
    that hold of it. None of this is state of the program: a history is
    constructed step by step in the proofs. */
module History {
  import opened Quorum
  import opened Logs
  import opened RaftSpec

  datatype Key = Key(term: nat, id: Id)

  /** Everything a term's leader did: who it was, the log it was elected with,
      its log by now, the voters that elected it and how far it committed. */
  datatype LeaderRec = LeaderRec(id: Id, base: seq<Entry>, log: seq<Entry>, voters: set<Id>, commit: nat)

  /** A vote, with the voter's log when it first cast it. */
  datatype Ballot = Ballot(cand: Id, log: seq<Entry>)

  datatype AckRec = AckRec(term: nat, who: Id, index: nat)

  datatype BeatRec = BeatRec(term: nat, who: Id, context: nat)

  /** A queued read: its index and the largest commit index in the cluster when
      it was queued. */
  datatype ReadRec = ReadRec(index: nat, peak: nat)

  /** Leaders by term, votes by term and voter, candidates' logs by term and
      candidate, acknowledged appends and heartbeats, and reads by term and
      position. */
  datatype Hist = Hist(
    ldr: map<nat, LeaderRec>, ballots: map<Key, Ballot>, cands: map<Key, seq<Entry>>,
    acks: set<AckRec>, beats: set<BeatRec>, asked: map<Key, ReadRec>)

  // ------------------------------------------------------------- single items

  /** Every entry of the log, with all that precedes it, is in the log of the
      leader of the entry's term. */
  ghost predicate EntryOk(h: Hist, log: seq<Entry>, i: nat)
    requires i < |log|
  {
    log[i].term in h.ldr && Agree(log, h.ldr[log[i].term].log, i + 1)
  }

  ghost predicate Sorted(log: seq<Entry>) {
    forall i, j | 0 <= i < j < |log| :: log[i].term <= log[j].term
  }

  ghost predicate LogOk(h: Hist, log: seq<Entry>) {
    Sorted(log) && forall i | 0 <= i < |log| :: EntryOk(h, log, i)
  }

  /** A log that ends like `base` is not behind `voter`. */
  ghost predicate NotBehind(base: seq<Entry>, voter: seq<Entry>) {
    IsUpToDate(voter, EntryID(LastTerm(base), |base|))
  }

  ghost predicate VoterOk(h: Hist, T: nat, v: Id)
    requires T in h.ldr
  {
    && Key(T, v) in h.ballots
    && h.ballots[Key(T, v)].cand == h.ldr[T].id
    && NotBehind(h.ldr[T].base, h.ballots[Key(T, v)].log)
  }

  ghost predicate LeaderLogOk(T: nat, r: LeaderRec) {
    && |r.base| < |r.log| && r.base == r.log[..|r.base|]
    && (forall i | 0 <= i < |r.base| :: r.log[i].term < T)
    && (forall i | |r.base| <= i < |r.log| :: r.log[i].term == T)
    && (forall i | 0 <= i < |r.log| :: r.log[i].index == i + 1)
  }

  ghost predicate LeaderOk(c: Config, h: Hist, T: nat)
    requires T in h.ldr
  {
    && T > 0
    && LeaderLogOk(T, h.ldr[T])
    && LogOk(h, h.ldr[T].log)
    && IsQuorum(c.voters, h.ldr[T].voters)
    && (forall v | v in h.ldr[T].voters :: VoterOk(h, T, v))
    && h.ldr[T].commit <= |h.ldr[T].log|
  }

  ghost predicate AckOk(h: Hist, a: AckRec) {
    a.term in h.ldr && 0 < a.index <= |h.ldr[a.term].log|
  }

  /** The later leader T2 does not hold what leader T had up to i. */
  ghost predicate Breaks(h: Hist, T2: nat, T: nat, i: nat) {
    T in h.ldr && T2 in h.ldr && T < T2 && !Agree(h.ldr[T2].log, h.ldr[T].log, i)
  }

  ghost predicate Superseded(h: Hist, T: nat, i: nat, bound: nat) {
    exists T2: nat :: T2 <= bound && Breaks(h, T2, T, i)
  }

  /** A log still holds leader T's first i entries, unless a leader up to
      `bound` displaced them. */
  ghost predicate Keeps(h: Hist, log: seq<Entry>, T: nat, i: nat, bound: nat) {
    T in h.ldr && (Agree(log, h.ldr[T].log, i) || Superseded(h, T, i, bound))
  }

  /** The log keeps every prefix that was acknowledged. */
  ghost predicate KeepsAck(h: Hist, log: seq<Entry>, a: AckRec, bound: nat) {
    forall i: nat | 0 < i <= a.index :: Keeps(h, log, a.term, i, bound)
  }

  ghost predicate BallotOk(h: Hist, k: Key)
    requires k in h.ballots
  {
    var b := h.ballots[k];
    && k.term > 0 && b.cand != NONE && LogOk(h, b.log)
    && Key(k.term, b.cand) in h.cands && NotBehind(h.cands[Key(k.term, b.cand)], b.log)
  }

  /** A ballot that can still count, or did count, towards an election. */
  ghost predicate Live(h: Hist, k: Key) {
    k.term !in h.ldr || k.id in h.ldr[k.term].voters
  }

  ghost predicate BallotKeeps(h: Hist, k: Key)
    requires k in h.ballots
  {
    Live(h, k) && k.term > 0 ==>
      forall a | a in h.acks && a.who == k.id && a.term < k.term :: KeepsAck(h, h.ballots[k].log, a, k.term - 1)
  }

  ghost predicate HasAck(h: Hist, T: nat, v: Id, i: nat) {
    exists a :: a in h.acks && a.term == T && a.who == v && a.index >= i
  }

  ghost predicate AllAcked(h: Hist, Q: set<Id>, T: nat, i: nat) {
    forall v | v in Q :: HasAck(h, T, v, i)
  }

  ghost predicate CommittedBy(c: Config, h: Hist, T: nat, i: nat, Q: set<Id>) {
    IsQuorum(c.voters, Q) && AllAcked(h, Q, T, i)
  }

  /** Index i holds an entry of the leader's own term T and a quorum has
      acknowledged it in that term. */
  ghost predicate CommitPoint(c: Config, h: Hist, T: nat, i: nat) {
    && T in h.ldr && |h.ldr[T].base| < i <= |h.ldr[T].log|
    && exists Q :: CommittedBy(c, h, T, i, Q)
  }

  /** Leader T's first k entries are covered by a commit point of term Tc. */
  ghost predicate Covered(c: Config, h: Hist, T: nat, k: nat, Tc: nat, i: nat) {
    && T in h.ldr && Tc <= T && k <= i
    && CommitPoint(c, h, Tc, i) && Agree(h.ldr[T].log, h.ldr[Tc].log, k)
  }

  ghost predicate CommitOk(c: Config, h: Hist, T: nat)
    requires T in h.ldr
  {
    h.ldr[T].commit == 0 || exists Tc: nat, i: nat :: Covered(c, h, T, h.ldr[T].commit, Tc, i)
  }

  ghost predicate BeatOk(h: Hist, b: BeatRec) {
    Key(b.term, b.context) in h.asked
  }

  /** A later leader's electorate has left term T without confirming read pos. */
  ghost predicate Outdated(h: Hist, T: nat, pos: nat, T2: nat) {
    && T2 in h.ldr && T2 > T
    && forall b | b in h.beats && b.term == T && b.who in h.ldr[T2].voters :: b.context < pos
  }

  /** A read's index is large enough, or it can never be confirmed. */
  ghost predicate AskedOk(h: Hist, k: Key)
    requires k in h.asked
  {
    k.term in h.ldr && (h.asked[k].peak <= h.asked[k].index || exists T2: nat :: Outdated(h, k.term, k.id, T2))
  }

  // ------------------------------------------------------- the whole history

  ghost predicate LeadersOk(c: Config, h: Hist) {
    forall T | T in h.ldr :: LeaderOk(c, h, T)
  }

  ghost predicate CommitsOk(c: Config, h: Hist) {
    forall T | T in h.ldr :: CommitOk(c, h, T)
  }

  ghost predicate BallotsOk(h: Hist) {
    forall k | k in h.ballots :: BallotOk(h, k) && BallotKeeps(h, k)
  }

  ghost predicate RecordsOk(h: Hist) {
    && (forall a | a in h.acks :: AckOk(h, a))
    && (forall k | k in h.cands :: LogOk(h, h.cands[k]))
    && (forall b | b in h.beats :: BeatOk(h, b))
    && (forall k | k in h.asked :: AskedOk(h, k))
  }

  ghost predicate HistInv(c: Config, h: Hist) {
    LeadersOk(c, h) && CommitsOk(c, h) && BallotsOk(h) && RecordsOk(h)
  }

  const NO_HIST := Hist(map[], map[], map[], {}, {}, map[])

  // -------------------------------------------------- log matching, concretely

  /** Two logs of the system match: equal terms at an index mean equal prefixes. */
  lemma LogsMatch(h: Hist, a: seq<Entry>, b: seq<Entry>)
    requires LogOk(h, a) && LogOk(h, b)
    ensures Matching(a, b)
  {
    forall i | 0 <= i < |a| && i < |b| && a[i].term == b[i].term ensures Agree(a, b, i + 1) {
      assert EntryOk(h, a, i) && EntryOk(h, b, i);
    }
  }

  lemma LogOkPrefix(h: Hist, log: seq<Entry>, k: nat)
    requires LogOk(h, log) && k <= |log|
    ensures LogOk(h, log[..k])
  {
    forall i | 0 <= i < k ensures EntryOk(h, log[..k], i) {
      assert EntryOk(h, log, i);
      assert log[..k][..i + 1] == log[..i + 1];
    }
  }

  lemma LastTermBounds(h: Hist, log: seq<Entry>, i: nat)
    requires LogOk(h, log) && i < |log|
    ensures log[i].term <= LastTerm(log)
  {}

  // ---------------------------------------------------- leader completeness

  /** Whether leader T2 holds leader T's first i entries is settled when T2 is
      elected: what T2 appends later cannot make up for it. */
  lemma BreakIsVisible(c: Config, h: Hist, T2: nat, T: nat, i: nat)
    requires T in h.ldr && T2 in h.ldr && T < T2
    requires LeaderOk(c, h, T) && LeaderOk(c, h, T2) && i <= |h.ldr[T].log|
    ensures Agree(h.ldr[T2].log, h.ldr[T].log, i) <==> Agree(h.ldr[T2].base, h.ldr[T].log, i)
  {
    var r, r2 := h.ldr[T], h.ldr[T2];
    if i <= |r2.base| {
      assert r2.base[..i] == r2.log[..i];
    } else if Agree(r2.log, r.log, i) {
      AgreeAt(r2.log, r.log, i, |r2.base|);
    }
  }

  /** An elected log that is not behind a voter's log holding leader T's entries
      up to i, i being of term T, holds them too, given that all leaders between
      T and the election do. */
  lemma NotBehindHolds(c: Config, h: Hist, T: nat, i: nat, base: seq<Entry>, voter: seq<Entry>)
    requires T in h.ldr && LeaderOk(c, h, T) && |h.ldr[T].base| < i <= |h.ldr[T].log|
    requires LogOk(h, base) && LogOk(h, voter) && NotBehind(base, voter)
    requires Agree(voter, h.ldr[T].log, i)
    requires base != [] ==> !Breaks(h, LastTerm(base), T, i)
    ensures Agree(base, h.ldr[T].log, i)
  {
    var L := h.ldr[T].log;
    AgreeAt(voter, L, i, i - 1);
    assert voter[i - 1].term == T;
    LastTermBounds(h, voter, i - 1);
    assert base != [];
    var t := LastTerm(base);
    assert EntryOk(h, base, |base| - 1);
    if t == LastTerm(voter) {
      assert EntryOk(h, voter, |voter| - 1);
      AgreeTrans(voter, h.ldr[t].log, voter, |voter|);
      AgreeLess(base, h.ldr[t].log, |base|, i);
      AgreeLess(voter, h.ldr[t].log, |voter|, i);
    } else {
      HeldByLater(h, T, i, base, t);
    }
  }

  lemma HeldByLater(h: Hist, T: nat, i: nat, base: seq<Entry>, t: nat)
    requires T in h.ldr && t in h.ldr && T < t && !Breaks(h, t, T, i)
    requires base != [] && LastTerm(base) == t && Agree(base, h.ldr[t].log, |base|)
    requires LeaderLogOk(T, h.ldr[T]) && i <= |h.ldr[T].log|
    ensures Agree(base, h.ldr[T].log, i)
  {
    AgreeAt(base, h.ldr[t].log, |base|, |base| - 1);
    if |base| < i {
      AgreeAt(h.ldr[t].log, h.ldr[T].log, i, |base| - 1);
      assert false;
    }
    AgreeLess(base, h.ldr[t].log, |base|, i);
  }

  /** Some voter that elected T2 had acknowledged the commit point in term T... */
  lemma CommonVoter(c: Config, h: Hist, T: nat, i: nat, T2: nat) returns (v: Id, a: AckRec)
    requires c.voters.incoming != {} && CommitPoint(c, h, T, i) && T2 in h.ldr && LeaderOk(c, h, T2)
    ensures VoterOk(h, T2, v) && v in h.ldr[T2].voters
    ensures a in h.acks && a.term == T && a.who == v && a.index >= i
  {
    var Q :| CommittedBy(c, h, T, i, Q);
    v := QuorumsMeet(c.voters, Q, h.ldr[T2].voters);
    assert HasAck(h, T, v, i);
    a :| a in h.acks && a.term == T && a.who == v && a.index >= i;
  }

  /** ... and its ballot kept it unless a leader in between displaced it. */
  lemma BallotKept(h: Hist, T2: nat, v: Id, a: AckRec, i: nat)
    requires BallotsOk(h) && T2 in h.ldr && v in h.ldr[T2].voters && VoterOk(h, T2, v)
    requires a in h.acks && a.term < T2 && a.who == v && 0 < i <= a.index
    ensures LogOk(h, h.ballots[Key(T2, v)].log)
    ensures Keeps(h, h.ballots[Key(T2, v)].log, a.term, i, T2 - 1)
  {
    var k := Key(T2, v);
    assert BallotOk(h, k) && BallotKeeps(h, k);
    assert KeepsAck(h, h.ballots[k].log, a, T2 - 1);
  }

  /** Leader completeness: what was committed in term T is in the log of every
      later leader. */
  lemma LeaderCompleteness(c: Config, h: Hist, T: nat, i: nat, T2: nat)
    requires c.voters.incoming != {} && HistInv(c, h) && CommitPoint(c, h, T, i) && T2 in h.ldr && T < T2
    ensures Agree(h.ldr[T2].log, h.ldr[T].log, i)
    decreases T2
  {
    assert LeaderOk(c, h, T) && LeaderOk(c, h, T2);
    var v, a := CommonVoter(c, h, T, i, T2);
    BallotKept(h, T2, v, a, i);
    var voter, base := h.ballots[Key(T2, v)].log, h.ldr[T2].base;
    if Superseded(h, T, i, T2 - 1) {
      var t: nat :| t <= T2 - 1 && Breaks(h, t, T, i);
      LeaderCompleteness(c, h, T, i, t);
      assert false;
    }
    LogOkPrefix(h, h.ldr[T2].log, |base|);
    NotBehindHolds(c, h, T, i, base, voter);
    BreakIsVisible(c, h, T2, T, i);
  }
}
