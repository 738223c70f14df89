/** When a leader commits: as soon as a quorum is known to hold an entry of its own
    term, and only then. */
module CommitLaws {
  import opened Quorum
  import opened Logs
  import opened RaftSpec
  import opened History
  import opened Invariant
  import Growth
  import opened Runs
  import opened Safety
  import opened Handling
  import opened Effects

  /** Entry k is of the leader's own term, and a quorum is known to hold it. */
  ghost predicate Replicated(c: Config, n: Node, k: nat) {
    0 < k <= |n.log| && n.log[k - 1].term == n.term && IsQuorum(c.voters, AckedAtLeast(MatchIndexes(n), c.voters.Ids(), k))
  }

  /** Nothing that could be committed is not. */
  ghost predicate Current(c: Config, n: Node) {
    forall k: nat | Replicated(c, n, k) :: k <= n.committed
  }

  /** What a leader's log and progress are like in a run. */
  ghost predicate Sound(c: Config, n: Node) {
    && c.Valid() && n.term > 0 && Sorted(n.log) && LastTerm(n.log) <= n.term
    && forall p | p in n.progress :: n.progress[p].matched <= |n.log|
  }

  lemma LeaderIsSound(c: Config, run: seq<Cluster>, i: nat, a: Id)
    requires c.Valid() && IsRun(c, run) && i < |run| && a in run[i].nodes && run[i].nodes[a].role.Leader?
    ensures Sound(c, run[i].nodes[a])
  {
    hide IsRun, Inv, HistInv, CommitFits, PastFits, OutboxOk, Serving, AcksFit, Running, Link, EntryOk;
    var hs := EveryRun(c, run);
    InvParts(c, run[i], hs[i], a);
    var n := run[i].nodes[a];
    forall p | p in n.progress ensures n.progress[p].matched <= |n.log| {
      assert ProgressFits(n.id, n.term, |n.log|, hs[i], p, n.progress[p]);
    }
    Growth.TermInUse(c, hs[i], n.term);
  }

  /** No quorum holds more than the leader's log. */
  lemma QuorumInLog(c: Config, n: Node, k: nat)
    requires Sound(c, n) && IsQuorum(c.voters, AckedAtLeast(MatchIndexes(n), c.voters.Ids(), k))
    ensures k <= |n.log|
  {
    hide Sorted;
    var q := AckedAtLeast(MatchIndexes(n), c.voters.Ids(), k);
    var v := QuorumsMeet(c.voters, q, q);
  }

  lemma OwnTermAfter(n: Node, k: nat, j: nat)
    requires Sorted(n.log) && LastTerm(n.log) <= n.term && 0 < k <= j <= |n.log| && n.log[k - 1].term == n.term
    ensures n.log[j - 1].term == n.term
  {
    if k < j { assert n.log[k - 1].term <= n.log[j - 1].term; }
    if j < |n.log| { assert n.log[j - 1].term <= n.log[|n.log| - 1].term; }
  }

  /** Committing commits everything that a quorum holds of the leader's own term...  */
  lemma CommitsAll(c: Config, n: Node, k: nat)
    requires Sound(c, n) && Replicated(c, n, k)
    ensures k <= MaybeCommit(c, n).committed
  {
    hide JointCommitted, IsQuorum, Sorted;
    var at := JointCommitted(c.voters, MatchIndexes(n));
    SomeVoter(c);
    JointCommittedIsExact(c.voters, MatchIndexes(n), k);
    JointCommittedIsExact(c.voters, MatchIndexes(n), at.i);
    QuorumInLog(c, n, at.i);
    OwnTermAfter(n, k, at.i);
  }

  /** ... and nothing else. */
  lemma CommitsOnly(c: Config, n: Node)
    requires c.Valid() && MaybeCommit(c, n).committed != n.committed
    ensures n.committed < MaybeCommit(c, n).committed && Replicated(c, n, MaybeCommit(c, n).committed)
  {
    hide JointCommitted, IsQuorum;
    var at := JointCommitted(c.voters, MatchIndexes(n));
    SomeVoter(c);
    JointCommittedIsExact(c.voters, MatchIndexes(n), at.i);
  }

  lemma SomeVoter(c: Config)
    requires c.Valid()
    ensures c.voters.Ids() != {}
  {
    var v :| v in c.voters.incoming;
    assert v in c.voters.Ids();
  }

  /** The commit rule for a leader of any run: it commits exactly up to the last
      index of its own term that a quorum holds. */
  lemma CommitRule(c: Config, run: seq<Cluster>, i: nat, a: Id, k: nat)
    requires c.Valid() && IsRun(c, run) && i < |run| && a in run[i].nodes && run[i].nodes[a].role.Leader?
    ensures var n := run[i].nodes[a]; var n' := MaybeCommit(c, n);
            && (Replicated(c, n, k) ==> k <= n'.committed)
            && (n'.committed != n.committed ==> n.committed < n'.committed && Replicated(c, n, n'.committed))
  {
    hide IsRun, Replicated, MaybeCommit;
    var n := run[i].nodes[a];
    LeaderIsSound(c, run, i, a);
    if Replicated(c, n, k) { CommitsAll(c, n, k); }
    if MaybeCommit(c, n).committed != n.committed { CommitsOnly(c, n); }
  }

  // ------------------------------------------------------------- over whole runs

  lemma AlikeReplicated(c: Config, n: Node, n': Node, k: nat)
    requires KeepsLog(n, n')
    ensures Replicated(c, n, k) <==> Replicated(c, n', k)
  {
    assert MatchIndexes(n) == MatchIndexes(n');
  }

  lemma AlikeCurrent(c: Config, n: Node, n': Node)
    requires KeepsLog(n, n') && Current(c, n)
    ensures Current(c, n')
  {
    hide Replicated;
    forall k: nat | Replicated(c, n', k) ensures k <= n'.committed { AlikeReplicated(c, n, n', k); }
  }

  lemma AlikeSound(c: Config, n: Node, n': Node)
    requires KeepsLog(n, n') && Sound(c, n')
    ensures Sound(c, n)
  {}

  /** An acknowledgement is counted at once. */
  lemma CountedIsCurrent(c: Config, n: Node, p: Id, index: nat)
    requires p in n.progress && Sound(c, Counted(c, n, p, index))
    ensures Current(c, Counted(c, n, p, index))
  {
    hide Sound, Replicated, MaybeCommit, AfterAck;
    var n1 := AfterAck(n, p, index);
    var n2 := MaybeCommit(c, n1);
    CommitKeeps(c, n1);
    SameButCommit(c, n1, n2);
    forall k: nat | Replicated(c, n2, k) ensures k <= n2.committed {
      SameReplicated(c, n1, n2, k);
      CommitsAll(c, n1, k);
    }
  }

  lemma SameButCommit(c: Config, n1: Node, n2: Node)
    requires n2 == n1.(committed := n2.committed) && Sound(c, n2)
    ensures Sound(c, n1)
  {}

  lemma SameReplicated(c: Config, n1: Node, n2: Node, k: nat)
    requires n2 == n1.(committed := n2.committed) && Replicated(c, n2, k)
    ensures Replicated(c, n1, k)
  {
    assert MatchIndexes(n1) == MatchIndexes(n2);
  }

  /** New entries are held by no quorum yet. */
  lemma GrownIsCurrent(c: Config, n: Node, ents: seq<Entry>)
    requires Current(c, n) && Sound(c, n)
    ensures Current(c, n.(log := n.log + ents))
  {
    var n' := n.(log := n.log + ents);
    assert MatchIndexes(n) == MatchIndexes(n');
    forall k: nat | Replicated(c, n', k) ensures k <= n'.committed {
      QuorumInLog(c, n, k);
      assert n'.log[k - 1] == n.log[k - 1];
      assert Replicated(c, n, k);
    }
  }

  lemma StepIsCurrent(c: Config, n: Node, m: Message, e: Env)
    requires n.role.Leader? && Step(c, n, m, e).role.Leader? && Current(c, n) && Sound(c, n) && Sound(c, Step(c, n, m, e))
    ensures Current(c, Step(c, n, m, e))
  {
    hide Step, Sound, Current, Counted, Stamped, IsNews, KeepsLog;
    var n', adv := Step(c, n, m, e), Advanced(c, n, m, e);
    StepAdvances(c, n, m, e);
    if KeepsLog(n, n') {
      AlikeCurrent(c, n, n');
    } else {
      if adv == n {
      } else if m.MsgProp? {
        GrownIsCurrent(c, n, Stamped(n, m.payloads));
      } else {
        AlikeSound(c, adv, n');
        CountedIsCurrent(c, n, m.from, m.index);
      }
      AlikeCurrent(c, adv, n');
    }
  }

  /** A new leader has an entry of its term that nobody is known to hold. */
  lemma NewIsCurrent(c: Config, n: Node)
    requires c.Valid() && forall x | x in n.log :: x.term < n.term
    ensures Current(c, BecomeLeader(c, n))
  {
    hide IsQuorum;
    var n' := BecomeLeader(c, n);
    forall k: nat ensures !Replicated(c, n', k) {
      if 0 < k <= |n.log| { assert n'.log[k - 1] == n.log[k - 1] && n.log[k - 1] in n.log; }
      if k == |n.log| + 1 { NobodyHolds(c, n, k); }
    }
  }

  lemma NobodyHolds(c: Config, n: Node, k: nat)
    requires c.Valid() && k == |n.log| + 1
    ensures !IsQuorum(c.voters, AckedAtLeast(MatchIndexes(BecomeLeader(c, n)), c.voters.Ids(), k))
  {
    hide IsMajority;
    var q := AckedAtLeast(MatchIndexes(BecomeLeader(c, n)), c.voters.Ids(), k);
    assert q == {};
    if IsQuorum(c.voters, q) { var v := QuorumsMeet(c.voters, q, q); }
  }

  /** A candidate that wins has no entry of its term. */
  lemma WinnersLog(c: Config, run: seq<Cluster>, k: nat, i: nat, a: Id)
    requires c.Valid() && IsRun(c, run) && i == k + 1 < |run| && a in run[k].nodes && a in run[i].nodes
    requires !run[k].nodes[a].role.Leader? && run[i].nodes[a].role.Leader? && run[i].nodes[a].term == run[k].nodes[a].term
    ensures forall x | x in run[k].nodes[a].log :: x.term < run[k].nodes[a].term
  {
    hide IsRun, Inv, HistInv, CommitFits, PastFits, OutboxOk, Serving, AcksFit, Running, Basic;
    var hs := EveryRun(c, run);
    var n := run[k].nodes[a];
    InvParts(c, run[k], hs[k], a);
    assert Link(run[k], hs[k], run[i], hs[i]);
    forall x | x in n.log ensures x.term < n.term {
      var j :| 0 <= j < |n.log| && n.log[j] == x;
      assert EntryOk(hs[k], n.log, j);
      if j < |n.log| - 1 { assert n.log[j].term <= n.log[|n.log| - 1].term; }
    }
  }

  lemma WinnerIsCurrent(c: Config, run: seq<Cluster>, k: nat, i: nat, a: Id, m: Message, e: Env)
    requires c.Valid() && IsRun(c, run) && i == k + 1 < |run| && a in run[k].nodes && Receives(c, run[k], run[i], a, m, e)
    requires !run[k].nodes[a].role.Leader? && Step(c, run[k].nodes[a], m, e).role.Leader?
    ensures Current(c, Step(c, run[k].nodes[a], m, e))
  {
    hide IsRun, Step, Current, BcastAppend, BecomeLeader, OnlySent, Deliverable;
    var n := run[k].nodes[a];
    NewLeader(c, n, m, e);
    var voted := RecordVote(n, m.from, !m.reject);
    LeaderKeepsTerm(c, voted);
    BcastAppendSends(c, BecomeLeader(c, voted), c.peers);
    SentKeepsPeers(BecomeLeader(c, voted), Step(c, n, m, e));
    WinnersLog(c, run, k, i, a);
    NewIsCurrent(c, voted);
    AlikeCurrent(c, BecomeLeader(c, voted), Step(c, n, m, e));
  }

  lemma LeaderKeepsTerm(c: Config, n: Node)
    ensures BecomeLeader(c, n).term == n.term
  {}

  lemma MoveIsCurrent(c: Config, run: seq<Cluster>, k: nat, i: nat, a: Id)
    requires c.Valid() && IsRun(c, run) && i == k + 1 < |run| && a in run[k].nodes && a in run[i].nodes
    requires run[k].nodes[a].role.Leader? ==> Current(c, run[k].nodes[a]) && Sound(c, run[k].nodes[a])
    requires run[i].nodes[a].role.Leader? && Sound(c, run[i].nodes[a])
    ensures Current(c, run[i].nodes[a])
  {
    hide IsRun, Current, Sound, Step, Deliverable;
    var s, s', n, n' := run[k], run[i], run[k].nodes[a], run[i].nodes[a];
    StepOf(c, run, k);
    WhatHappened(c, s, s', a);
    if m, e :| Receives(c, s, s', a, m, e) {
      var after := Step(c, n, m, e);
      AlikeSound(c, after, n');
      if n.role.Leader? { StepIsCurrent(c, n, m, e); } else { WinnerIsCurrent(c, run, k, i, a, m, e); }
      AlikeCurrent(c, after, n');
    } else {
      AlikeCurrent(c, n, n');
    }
  }

  /** No leader of a run is behind: whatever a quorum is known to hold of its own
      term is committed. */
  lemma {:induction false} CommitIsCurrent(c: Config, run: seq<Cluster>, i: nat, a: Id)
    requires c.Valid() && IsRun(c, run) && i < |run| && a in run[i].nodes && run[i].nodes[a].role.Leader?
    ensures Current(c, run[i].nodes[a])
  {
    hide Current, Sound, Next;
    if i > 0 {
      var k: nat := i - 1;
      StepOf(c, run, k);
      LeaderIsSound(c, run, i, a);
      NodesStay(c, run, k, i);
      if run[k].nodes[a].role.Leader? {
        CommitIsCurrent(c, run, k, a);
        LeaderIsSound(c, run, k, a);
      }
      MoveIsCurrent(c, run, k, i, a);
    }
  }

  /** What a step counts as committed, a quorum holds. */
  lemma CountedReplicates(c: Config, n: Node, p: Id, index: nat)
    requires c.Valid() && p in n.progress && Counted(c, n, p, index).committed != n.committed
    ensures n.committed < Counted(c, n, p, index).committed
            && Replicated(c, Counted(c, n, p, index), Counted(c, n, p, index).committed)
  {
    hide MaybeCommit, AckedProgress, Replicated;
    var n1 := AfterAck(n, p, index);
    var n2 := MaybeCommit(c, n1);
    CommitKeeps(c, n1);
    CommitsOnly(c, n1);
    CommitApart(c, n1, n2);
  }

  lemma CommitApart(c: Config, n1: Node, n2: Node)
    requires n2 == n1.(committed := n2.committed)
    ensures Replicated(c, n1, n2.committed) ==> Replicated(c, n2, n2.committed)
  {
    assert MatchIndexes(n1) == MatchIndexes(n2);
  }

  lemma StepReplicates(c: Config, n: Node, m: Message, e: Env)
    requires c.Valid() && n.role.Leader? && Step(c, n, m, e).role.Leader? && Step(c, n, m, e).committed != n.committed
    ensures n.committed < Step(c, n, m, e).committed && Replicated(c, Step(c, n, m, e), Step(c, n, m, e).committed)
  {
    hide Step, Replicated, Counted, Stamped, IsNews;
    var n', adv := Step(c, n, m, e), Advanced(c, n, m, e);
    StepAdvances(c, n, m, e);
    CountedReplicates(c, n, m.from, m.index);
    AlikeReplicated(c, adv, n', n'.committed);
  }

  /** A leader of a run that stays leader commits only what a quorum holds. */
  lemma CommitIsReplicated(c: Config, run: seq<Cluster>, i: nat, a: Id)
    requires c.Valid() && IsRun(c, run) && i + 1 < |run| && a in run[i].nodes && a in run[i + 1].nodes
    requires run[i].nodes[a].role.Leader? && run[i + 1].nodes[a].role.Leader?
             && run[i + 1].nodes[a].committed != run[i].nodes[a].committed
    ensures run[i].nodes[a].committed < run[i + 1].nodes[a].committed
            && Replicated(c, run[i + 1].nodes[a], run[i + 1].nodes[a].committed)
  {
    hide IsRun, Step, Deliverable, Replicated;
    var s, s' := run[i], run[i + 1];
    StepOf(c, run, i);
    WhatHappened(c, s, s', a);
    var m, e :| Receives(c, s, s', a, m, e);
    StepReplicates(c, s.nodes[a], m, e);
    AlikeReplicated(c, Step(c, s.nodes[a], m, e), s'.nodes[a], s'.nodes[a].committed);
  }
}
