/** How histories grow: what is recorded stays recorded, leaders' logs only get
    longer, and everything the invariants say of a record keeps holding. */
module Growth {
  import opened Quorum
  import opened Logs
  import opened RaftSpec
  import opened History

  ghost predicate Extends(a: LeaderRec, b: LeaderRec) {
    a.id == b.id && a.base == b.base && a.voters == b.voters && a.log <= b.log && a.commit <= b.commit
  }

  ghost predicate LeadersGrow(h: Hist, h': Hist) {
    forall T | T in h.ldr :: T in h'.ldr && Extends(h.ldr[T], h'.ldr[T])
  }

  ghost predicate Grows(h: Hist, h': Hist) {
    && LeadersGrow(h, h')
    && (forall k | k in h.ballots :: k in h'.ballots && h'.ballots[k] == h.ballots[k])
    && (forall k | k in h.cands :: k in h'.cands && h'.cands[k] == h.cands[k])
    && (forall k | k in h.asked :: k in h'.asked && h'.asked[k] == h.asked[k])
    && h.acks <= h'.acks && h.beats <= h'.beats
  }

  /** Everything new was done by node id. */
  ghost predicate OnlyBy(h: Hist, h': Hist, id: Id) {
    && (forall T | T in h'.ldr && h'.ldr[T].id != id :: T in h.ldr && h'.ldr[T] == h.ldr[T])
    && (forall k | k in h'.ballots && k.id != id :: k in h.ballots)
    && (forall k | k in h'.cands && k.id != id :: k in h.cands)
    && (forall a | a in h'.acks && a.who != id :: a in h.acks)
    && (forall b | b in h'.beats && b.who != id :: b in h.beats)
    && (forall k | k in h'.asked && k !in h.asked :: k.term in h'.ldr && h'.ldr[k.term].id == id)
  }

  lemma GrowsTrans(h: Hist, h1: Hist, h2: Hist)
    requires Grows(h, h1) && Grows(h1, h2)
    ensures Grows(h, h2)
  {}

  lemma GrowsRefl(h: Hist, id: Id)
    ensures Grows(h, h) && OnlyBy(h, h, id)
  {}

  lemma AgreeGrows(h: Hist, h': Hist, log: seq<Entry>, T: nat, i: nat)
    requires LeadersGrow(h, h') && T in h.ldr && i <= |h.ldr[T].log|
    ensures Agree(log, h.ldr[T].log, i) <==> Agree(log, h'.ldr[T].log, i)
  {
    AgreePrefix(log, h.ldr[T].log, h'.ldr[T].log, i);
  }

  lemma LogOkGrows(h: Hist, h': Hist, log: seq<Entry>)
    requires LeadersGrow(h, h') && LogOk(h, log)
    ensures LogOk(h', log)
  {
    forall i | 0 <= i < |log| ensures EntryOk(h', log, i) {
      assert EntryOk(h, log, i);
      AgreeGrows(h, h', log, log[i].term, i + 1);
    }
  }

  lemma BreaksGrows(h: Hist, h': Hist, T2: nat, T: nat, i: nat)
    requires LeadersGrow(h, h') && Breaks(h, T2, T, i) && i <= |h.ldr[T].log|
    requires LeaderLogOk(T, h.ldr[T]) && LeaderLogOk(T2, h.ldr[T2])
    ensures Breaks(h', T2, T, i)
  {
    var L, L2 := h.ldr[T].log, h.ldr[T2].log;
    var M, M2 := h'.ldr[T].log, h'.ldr[T2].log;
    assert M[..i] == L[..i];
    if i <= |L2| {
      assert M2[..i] == L2[..i];
    } else {
      var b := |h.ldr[T2].base|;
      assert M2[b] == L2[b] && M[b] == L[b];
      if Agree(M2, M, i) { AgreeAt(M2, M, i, b); }
    }
  }

  lemma SupersededGrows(c: Config, h: Hist, h': Hist, T: nat, i: nat, bound: nat, bound': nat)
    requires LeadersOk(c, h) && LeadersGrow(h, h') && T in h.ldr && i <= |h.ldr[T].log|
    requires Superseded(h, T, i, bound) && bound <= bound'
    ensures Superseded(h', T, i, bound')
  {
    var T2: nat :| T2 <= bound && Breaks(h, T2, T, i);
    assert LeaderOk(c, h, T) && LeaderOk(c, h, T2);
    BreaksGrows(h, h', T2, T, i);
  }

  lemma KeepsGrows(c: Config, h: Hist, h': Hist, log: seq<Entry>, T: nat, i: nat, bound: nat, bound': nat)
    requires LeadersOk(c, h) && LeadersGrow(h, h') && T in h.ldr && i <= |h.ldr[T].log|
    requires Keeps(h, log, T, i, bound) && bound <= bound'
    ensures Keeps(h', log, T, i, bound')
  {
    AgreeGrows(h, h', log, T, i);
    if Superseded(h, T, i, bound) { SupersededGrows(c, h, h', T, i, bound, bound'); }
  }

  lemma KeepsAckGrows(c: Config, h: Hist, h': Hist, log: seq<Entry>, a: AckRec, bound: nat, bound': nat)
    requires LeadersOk(c, h) && LeadersGrow(h, h') && AckOk(h, a)
    requires KeepsAck(h, log, a, bound) && bound <= bound'
    ensures KeepsAck(h', log, a, bound')
  {
    forall i: nat | 0 < i <= a.index ensures Keeps(h', log, a.term, i, bound') {
      KeepsGrows(c, h, h', log, a.term, i, bound, bound');
    }
  }

  lemma HasAckGrows(h: Hist, h': Hist, T: nat, v: Id, i: nat)
    requires h.acks <= h'.acks && HasAck(h, T, v, i)
    ensures HasAck(h', T, v, i)
  {
    var a :| a in h.acks && a.term == T && a.who == v && a.index >= i;
    assert a in h'.acks;
  }

  lemma CommitPointGrows(c: Config, h: Hist, h': Hist, T: nat, i: nat)
    requires Grows(h, h') && CommitPoint(c, h, T, i)
    ensures CommitPoint(c, h', T, i)
  {
    var Q :| CommittedBy(c, h, T, i, Q);
    forall v | v in Q ensures HasAck(h', T, v, i) {
      assert HasAck(h, T, v, i);
      HasAckGrows(h, h', T, v, i);
    }
    assert CommittedBy(c, h', T, i, Q);
  }

  lemma CoveredGrows(c: Config, h: Hist, h': Hist, T: nat, k: nat, Tc: nat, i: nat)
    requires Grows(h, h') && Covered(c, h, T, k, Tc, i)
    ensures Covered(c, h', T, k, Tc, i)
  {
    CommitPointGrows(c, h, h', Tc, i);
    AgreeGrows(h, h', h.ldr[T].log, Tc, k);
    AgreeGrows(h, h', h'.ldr[Tc].log, T, k);
  }

  // ------------------------------------------ records survive growth, by kind

  lemma LeaderOkGrows(c: Config, h: Hist, h': Hist, T: nat)
    requires Grows(h, h') && T in h.ldr && LeaderOk(c, h, T)
    requires h'.ldr[T].log == h.ldr[T].log && h'.ldr[T].commit <= |h.ldr[T].log|
    ensures LeaderOk(c, h', T)
  {
    LogOkGrows(h, h', h.ldr[T].log);
    forall v | v in h'.ldr[T].voters ensures VoterOk(h', T, v) { assert VoterOk(h, T, v); }
  }

  lemma CommitOkGrows(c: Config, h: Hist, h': Hist, T: nat)
    requires Grows(h, h') && T in h.ldr && CommitOk(c, h, T)
    requires h'.ldr[T].commit == h.ldr[T].commit
    ensures CommitOk(c, h', T)
  {
    if h.ldr[T].commit != 0 {
      var Tc: nat, i: nat :| Covered(c, h, T, h.ldr[T].commit, Tc, i);
      CoveredGrows(c, h, h', T, h.ldr[T].commit, Tc, i);
    }
  }

  lemma BallotOkGrows(h: Hist, h': Hist, k: Key)
    requires Grows(h, h') && k in h.ballots && BallotOk(h, k)
    ensures BallotOk(h', k)
  {
    LogOkGrows(h, h', h.ballots[k].log);
  }

  lemma BallotKeepsGrows(c: Config, h: Hist, h': Hist, k: Key)
    requires LeadersOk(c, h) && RecordsOk(h) && Grows(h, h') && k in h.ballots && BallotKeeps(h, k)
    requires forall a | a in h'.acks && a !in h.acks && a.who == k.id :: k.term <= a.term
    ensures BallotKeeps(h', k)
  {
    if Live(h', k) && k.term > 0 {
      assert Live(h, k);
      forall a | a in h'.acks && a.who == k.id && a.term < k.term
        ensures KeepsAck(h', h'.ballots[k].log, a, k.term - 1)
      {
        assert AckOk(h, a) && KeepsAck(h, h.ballots[k].log, a, k.term - 1);
        KeepsAckGrows(c, h, h', h.ballots[k].log, a, k.term - 1, k.term - 1);
      }
    }
  }

  lemma AskedOkGrows(h: Hist, h': Hist, k: Key)
    requires Grows(h, h') && k in h.asked && AskedOk(h, k)
    requires forall b, T2 | b in h'.beats && b !in h.beats && T2 in h.ldr && T2 > b.term :: b.who !in h.ldr[T2].voters
    ensures AskedOk(h', k)
  {
    if h.asked[k].peak > h.asked[k].index {
      var T2: nat :| Outdated(h, k.term, k.id, T2);
      assert Outdated(h', k.term, k.id, T2);
    }
  }

  /** New acknowledgements and heartbeats are of a term the node has not left. */
  ghost predicate InTime(h: Hist, h': Hist) {
    && (forall a, k | a in h'.acks && a !in h.acks && k in h.ballots && k.id == a.who :: k.term <= a.term)
    && (forall b, T2 | b in h'.beats && b !in h.beats && T2 in h.ldr && T2 > b.term :: b.who !in h.ldr[T2].voters)
  }

  lemma BallotsGrow(c: Config, h: Hist, h': Hist)
    requires HistInv(c, h) && Grows(h, h') && InTime(h, h')
    ensures forall k | k in h.ballots :: BallotOk(h', k) && BallotKeeps(h', k)
  {
    forall k | k in h.ballots ensures BallotOk(h', k) && BallotKeeps(h', k) {
      assert BallotOk(h, k) && BallotKeeps(h, k);
      BallotOkGrows(h, h', k);
      BallotKeepsGrows(c, h, h', k);
    }
  }

  lemma RecordsGrow(c: Config, h: Hist, h': Hist)
    requires RecordsOk(h) && Grows(h, h') && InTime(h, h')
    ensures forall a | a in h.acks :: AckOk(h', a)
    ensures forall k | k in h.cands :: LogOk(h', h'.cands[k])
    ensures forall b | b in h.beats :: BeatOk(h', b)
    ensures forall k | k in h.asked :: AskedOk(h', k)
  {
    forall a | a in h.acks ensures AckOk(h', a) { assert AckOk(h, a); }
    forall k | k in h.cands ensures LogOk(h', h'.cands[k]) { LogOkGrows(h, h', h.cands[k]); }
    forall b | b in h.beats ensures BeatOk(h', b) { assert BeatOk(h, b); }
    forall k | k in h.asked ensures AskedOk(h', k) { AskedOkGrows(h, h', k); }
  }

  lemma LeadersStay(c: Config, h: Hist, h': Hist)
    requires LeadersOk(c, h) && CommitsOk(c, h) && Grows(h, h')
    requires forall T | T in h'.ldr && (T !in h.ldr || h'.ldr[T] != h.ldr[T]) :: LeaderOk(c, h', T) && CommitOk(c, h', T)
    ensures LeadersOk(c, h') && CommitsOk(c, h')
  {
    forall T | T in h'.ldr ensures LeaderOk(c, h', T) && CommitOk(c, h', T) {
      if T in h.ldr && h'.ldr[T] == h.ldr[T] {
        assert LeaderOk(c, h, T) && CommitOk(c, h, T);
        LeaderOkGrows(c, h, h', T);
        CommitOkGrows(c, h, h', T);
      }
    }
  }

  /** What is new in h' is in order. */
  ghost predicate NewOk(c: Config, h: Hist, h': Hist) {
    && (forall T | T in h'.ldr && (T !in h.ldr || h'.ldr[T] != h.ldr[T]) :: LeaderOk(c, h', T) && CommitOk(c, h', T))
    && (forall k | k in h'.ballots && k !in h.ballots :: BallotOk(h', k) && BallotKeeps(h', k))
    && (forall a | a in h'.acks && a !in h.acks :: AckOk(h', a))
    && (forall k | k in h'.cands && k !in h.cands :: LogOk(h', h'.cands[k]))
    && (forall b | b in h'.beats && b !in h.beats :: BeatOk(h', b))
    && (forall k | k in h'.asked && k !in h.asked :: AskedOk(h', k))
  }

  lemma HistGrows(c: Config, h: Hist, h': Hist)
    requires HistInv(c, h) && Grows(h, h') && InTime(h, h') && NewOk(c, h, h')
    ensures HistInv(c, h')
  {
    LeadersStay(c, h, h');
    BallotsGrow(c, h, h');
    RecordsGrow(c, h, h');
  }

  lemma HistParts(c: Config, h: Hist)
    requires HistInv(c, h)
    ensures LeadersOk(c, h) && CommitsOk(c, h) && BallotsOk(h) && RecordsOk(h)
  {}

  lemma TermInUse(c: Config, h: Hist, T: nat)
    requires HistInv(c, h) && T in h.ldr
    ensures T > 0
  {
    hide LogOk, VoterOk, LeaderLogOk;
    assert LeaderOk(c, h, T);
  }

  lemma LeaderAt(c: Config, h: Hist, T: nat)
    requires HistInv(c, h) && T in h.ldr
    ensures LeaderOk(c, h, T) && CommitOk(c, h, T)
  {}

  // ------------------------------------------------------ one lemma per record

  lemma AddAck(c: Config, h: Hist, a: AckRec) returns (h': Hist)
    requires HistInv(c, h) && AckOk(h, a)
    requires forall k | k in h.ballots && k.id == a.who :: k.term <= a.term
    ensures h' == h.(acks := h.acks + {a})
    ensures HistInv(c, h') && Grows(h, h') && OnlyBy(h, h', a.who)
  {
    hide HistInv;
    h' := h.(acks := h.acks + {a});
    assert AckOk(h', a);
    HistGrows(c, h, h');
  }

  lemma AddBeat(c: Config, h: Hist, b: BeatRec) returns (h': Hist)
    requires HistInv(c, h) && BeatOk(h, b)
    requires forall T2 | T2 in h.ldr && T2 > b.term :: b.who !in h.ldr[T2].voters
    ensures h' == h.(beats := h.beats + {b})
    ensures HistInv(c, h') && Grows(h, h') && OnlyBy(h, h', b.who)
  {
    hide HistInv;
    h' := h.(beats := h.beats + {b});
    assert BeatOk(h', b);
    HistGrows(c, h, h');
  }

  lemma AddCand(c: Config, h: Hist, k: Key, log: seq<Entry>) returns (h': Hist)
    requires HistInv(c, h) && k !in h.cands && LogOk(h, log)
    ensures h' == h.(cands := h.cands[k := log])
    ensures HistInv(c, h') && Grows(h, h') && OnlyBy(h, h', k.id)
  {
    hide HistInv;
    h' := h.(cands := h.cands[k := log]);
    LogOkGrows(h, h', log);
    HistGrows(c, h, h');
  }

  lemma AddBallot(c: Config, h: Hist, k: Key, b: Ballot) returns (h': Hist)
    requires HistInv(c, h) && k !in h.ballots && k.term > 0 && b.cand != NONE
    requires Key(k.term, b.cand) in h.cands && NotBehind(h.cands[Key(k.term, b.cand)], b.log) && LogOk(h, b.log)
    requires forall a | a in h.acks && a.who == k.id && a.term < k.term :: KeepsAck(h, b.log, a, k.term)
    ensures h' == h.(ballots := h.ballots[k := b])
    ensures HistInv(c, h') && Grows(h, h') && OnlyBy(h, h', k.id)
  {
    hide HistInv;
    h' := h.(ballots := h.ballots[k := b]);
    LogOkGrows(h, h', b.log);
    assert BallotOk(h', k);
    HistParts(c, h);
    NewBallotKeeps(c, h, h', k, b);
    HistGrows(c, h, h');
  }

  lemma NewBallotKeeps(c: Config, h: Hist, h': Hist, k: Key, b: Ballot)
    requires LeadersOk(c, h) && RecordsOk(h) && k !in h.ballots && h' == h.(ballots := h.ballots[k := b])
    requires forall a | a in h.acks && a.who == k.id && a.term < k.term :: KeepsAck(h, b.log, a, k.term)
    ensures BallotKeeps(h', k)
  {
    if Live(h', k) && k.term > 0 {
      assert k.term in h.ldr ==> LeaderOk(c, h, k.term);
      assert k.term in h.ldr && k.id in h.ldr[k.term].voters ==> VoterOk(h, k.term, k.id);
      forall a | a in h'.acks && a.who == k.id && a.term < k.term
        ensures KeepsAck(h', b.log, a, k.term - 1)
      {
        KeepsAckBefore(h, h', b.log, a, k.term);
      }
    }
  }

  /** Where term T has no leader, displacement up to T is displacement before it. */
  lemma KeepsAckBefore(h: Hist, h': Hist, log: seq<Entry>, a: AckRec, T: nat)
    requires T > 0 && T !in h.ldr && h'.ldr == h.ldr && KeepsAck(h, log, a, T)
    ensures KeepsAck(h', log, a, T - 1)
  {
    var b: nat := T - 1;
    forall i: nat | 0 < i <= a.index ensures Keeps(h', log, a.term, i, b) {
      assert Keeps(h, log, a.term, i, T);
      if Superseded(h, a.term, i, T) {
        var T2: nat :| T2 <= T && Breaks(h, T2, a.term, i);
        assert Breaks(h', T2, a.term, i);
      }
    }
  }

  lemma AddAsked(c: Config, h: Hist, k: Key, r: ReadRec) returns (h': Hist)
    requires HistInv(c, h) && k !in h.asked && k.term in h.ldr
    requires r.peak <= r.index || exists T2: nat :: Outdated(h, k.term, k.id, T2)
    ensures h' == h.(asked := h.asked[k := r])
    ensures HistInv(c, h') && Grows(h, h') && OnlyBy(h, h', h.ldr[k.term].id)
  {
    hide HistInv;
    h' := h.(asked := h.asked[k := r]);
    if r.peak > r.index {
      var T2: nat :| Outdated(h, k.term, k.id, T2);
      assert Outdated(h', k.term, k.id, T2);
    }
    HistGrows(c, h, h');
  }

  // --------------------------------------------------------- leaders' records

  /** A leader appends entries of its own term. */
  lemma GrowLeader(c: Config, h: Hist, T: nat, ents: seq<Entry>) returns (h': Hist)
    requires HistInv(c, h) && T in h.ldr
    requires forall i | 0 <= i < |ents| :: ents[i].term == T && ents[i].index == |h.ldr[T].log| + 1 + i
    ensures h' == h.(ldr := h.ldr[T := h.ldr[T].(log := h.ldr[T].log + ents)])
    ensures HistInv(c, h') && Grows(h, h') && OnlyBy(h, h', h.ldr[T].id)
  {
    hide HistInv, Grows, OnlyBy, InTime, CommitOk, LeaderOk;
    var r := h.ldr[T];
    h' := h.(ldr := h.ldr[T := r.(log := r.log + ents)]);
    LeaderChanged(h, T, r.(log := r.log + ents));
    LeaderAt(c, h, T);
    CommitOkGrows(c, h, h', T);
    GrownLeaderOk(c, h, h', T);
    NewLeaderOk(c, h, h', T);
    HistGrows(c, h, h');
  }

  lemma GrownLeaderOk(c: Config, h: Hist, h': Hist, T: nat)
    requires Grows(h, h') && T in h.ldr && LeaderOk(c, h, T) && h'.ldr[T].commit == h.ldr[T].commit
    requires forall i | |h.ldr[T].log| <= i < |h'.ldr[T].log| ::
               h'.ldr[T].log[i].term == T && h'.ldr[T].log[i].index == i + 1
    ensures LeaderOk(c, h', T)
  {
    OwnLogOk(c, h, h', T);
    forall v | v in h'.ldr[T].voters ensures VoterOk(h', T, v) { assert VoterOk(h, T, v); }
  }

  /** A leader's log is in order once its own entries follow its base. */
  lemma OwnLogOk(c: Config, h: Hist, h': Hist, T: nat)
    requires LeadersGrow(h, h') && T in h.ldr && LogOk(h, h.ldr[T].log) && LeaderLogOk(T, h.ldr[T])
    requires forall i | |h.ldr[T].log| <= i < |h'.ldr[T].log| :: h'.ldr[T].log[i].term == T
    ensures LogOk(h', h'.ldr[T].log)
  {
    var log, log' := h.ldr[T].log, h'.ldr[T].log;
    LogOkGrows(h, h', log);
    forall i | 0 <= i < |log'| ensures EntryOk(h', log', i) {
      if i < |log| {
        assert EntryOk(h', log, i);
        assert log'[..i + 1] == log[..i + 1];
      }
    }
  }

  /** A leader commits up to a commit point of its own term. */
  lemma RaiseCommit(c: Config, h: Hist, T: nat, i: nat) returns (h': Hist)
    requires HistInv(c, h) && T in h.ldr && h.ldr[T].commit <= i && CommitPoint(c, h, T, i)
    ensures h' == h.(ldr := h.ldr[T := h.ldr[T].(commit := i)])
    ensures HistInv(c, h') && Grows(h, h') && OnlyBy(h, h', h.ldr[T].id)
  {
    hide HistInv, Grows, OnlyBy, InTime, LeaderOk;
    h' := h.(ldr := h.ldr[T := h.ldr[T].(commit := i)]);
    LeaderAt(c, h, T);
    CommitPointInLog(c, h, T, i);
    LeaderChanged(h, T, h.ldr[T].(commit := i));
    LeaderOkGrows(c, h, h', T);
    CommitPointGrows(c, h, h', T, i);
    assert Covered(c, h', T, i, T, i);
    NewLeaderOk(c, h, h', T);
    HistGrows(c, h, h');
  }

  lemma CommitPointInLog(c: Config, h: Hist, T: nat, i: nat)
    requires CommitPoint(c, h, T, i)
    ensures i <= |h.ldr[T].log|
  {}

  lemma LeaderChanged(h: Hist, T: nat, r: LeaderRec)
    requires T in h.ldr && Extends(h.ldr[T], r)
    ensures var h' := h.(ldr := h.ldr[T := r]); Grows(h, h') && OnlyBy(h, h', r.id) && InTime(h, h')
  {}

  lemma NewLeaderOk(c: Config, h: Hist, h': Hist, T: nat)
    requires T in h'.ldr && LeaderOk(c, h', T) && CommitOk(c, h', T)
    requires h' == h.(ldr := h.ldr[T := h'.ldr[T]])
    ensures NewOk(c, h, h')
  {}

  /** A candidate wins term T: it appends its first entry and becomes the
      term's leader. */
  lemma Elect(c: Config, h: Hist, T: nat, r: LeaderRec) returns (h': Hist)
    requires HistInv(c, h) && T > 0 && T !in h.ldr
    requires LogOk(h, r.base) && LeaderLogOk(T, r) && |r.log| == |r.base| + 1
    requires IsQuorum(c.voters, r.voters)
    requires forall v | v in r.voters ::
               Key(T, v) in h.ballots && h.ballots[Key(T, v)].cand == r.id && NotBehind(r.base, h.ballots[Key(T, v)].log)
    requires r.commit == 0 || exists T1 :: T1 in h.ldr && T1 < T && r.commit <= h.ldr[T1].commit &&
                                           Agree(r.base, h.ldr[T1].log, r.commit)
    requires r.commit <= |r.base|
    ensures h' == h.(ldr := h.ldr[T := r])
    ensures HistInv(c, h') && Grows(h, h') && OnlyBy(h, h', r.id)
  {
    hide HistInv, CommitOk, LogOk, LeaderLogOk, NotBehind, IsQuorum, CommitsOk, LeadersOk, BallotsOk, RecordsOk, Agree;
    h' := h.(ldr := h.ldr[T := r]);
    ElectedLogOk(h, h', T, r);
    forall v | v in r.voters ensures VoterOk(h', T, v) {}
    assert r.commit <= |r.log|;
    assert LeaderOk(c, h', T);
    HistParts(c, h);
    ElectedCommitOk(c, h, h', T, r);
    NewLeaderOk(c, h, h', T);
    HistGrows(c, h, h');
  }

  lemma ElectedLogOk(h: Hist, h': Hist, T: nat, r: LeaderRec)
    requires T !in h.ldr && h' == h.(ldr := h.ldr[T := r])
    requires LogOk(h, r.base) && LeaderLogOk(T, r) && |r.log| == |r.base| + 1
    ensures LogOk(h', r.log)
  {
    LogOkGrows(h, h', r.base);
    forall i | 0 <= i < |r.log| ensures EntryOk(h', r.log, i) {
      if i < |r.base| {
        assert EntryOk(h', r.base, i);
        assert r.log[..i + 1] == r.base[..i + 1];
      }
    }
  }

  lemma ElectedCommitOk(c: Config, h: Hist, h': Hist, T: nat, r: LeaderRec)
    requires CommitsOk(c, h) && T !in h.ldr && h' == h.(ldr := h.ldr[T := r]) && Grows(h, h')
    requires r.commit <= |r.base| && LeaderLogOk(T, r)
    requires r.commit == 0 || exists T1 :: T1 in h.ldr && T1 < T && r.commit <= h.ldr[T1].commit &&
                                           Agree(r.base, h.ldr[T1].log, r.commit)
    ensures CommitOk(c, h', T)
  {
    if r.commit != 0 {
      var T1 :| T1 in h.ldr && T1 < T && r.commit <= h.ldr[T1].commit && Agree(r.base, h.ldr[T1].log, r.commit);
      assert CommitOk(c, h, T1);
      var Tc: nat, i: nat :| Covered(c, h, T1, h.ldr[T1].commit, Tc, i);
      CoveredGrows(c, h, h', T1, h.ldr[T1].commit, Tc, i);
      AgreeLess(h'.ldr[T1].log, h'.ldr[Tc].log, h.ldr[T1].commit, r.commit);
      assert r.log[..r.commit] == r.base[..r.commit];
      assert Covered(c, h', T, r.commit, Tc, i);
    }
  }
}
