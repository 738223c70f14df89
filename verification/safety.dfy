/** The safety theorems of the protocol, for every run of a cluster with a fixed
    (possibly joint) voter configuration: messages may be lost, repeated and
    reordered, and nodes may restart. Every theorem speaks of states of the run
    only; i and j are any two moments of it. */
module Safety {
  import opened Quorum
  import opened Logs
  import opened RaftSpec
  import opened History
  import opened Growth
  import opened Invariant
  import opened Stepping
  import opened Followers
  import opened Runs
  import Elections
  import FlowLaws
  import ReadSafety

  // --------------------------------------------------- facts at a later moment

  /** A node's log and commit index as seen by a later history. */
  lemma SeenLater(c: Config, run: seq<Cluster>, hs: seq<Hist>, i: nat, j: nat, a: Id)
    requires Explains(c, run, hs) && i <= j < |run| && a in run[i].nodes
    ensures c.Valid() && HistInv(c, hs[j])
    ensures var n := run[i].nodes[a];
            LogFits(n.term, n.log, n.committed, hs[j]) && CommitFits(n.term, n.log, n.committed, hs[j])
  {
    hide HistInv, Inv, LogFits, CommitFits, AcksFit, PastFits, OutboxOk, Tracks, Serving, Running, Leading, Basic, Link;
    var n := run[i].nodes[a];
    InvHist(c, run[j], hs[j]);
    InvParts(c, run[i], hs[i], a);
    HistoriesGrow(c, run, hs, i, j);
    HistParts(c, hs[i]);
    LogGrows(n.term, n.log, n.committed, hs[i], hs[j]);
    CommitGrows(c, n.term, n.log, n.committed, hs[i], hs[j]);
  }

  /** A leader is the leader its term has in every later history. */
  lemma LeaderLater(c: Config, run: seq<Cluster>, hs: seq<Hist>, i: nat, j: nat, a: Id)
    requires Explains(c, run, hs) && i <= j < |run| && a in run[i].nodes && run[i].nodes[a].role.Leader?
    ensures var n, h := run[i].nodes[a], hs[j];
            n.term in h.ldr && h.ldr[n.term].id == a && n.log <= h.ldr[n.term].log && n.committed <= h.ldr[n.term].commit
            && h.ldr[n.term].base <= n.log
  {
    hide HistInv, Inv, LogFits, CommitFits, AcksFit, PastFits, OutboxOk, Tracks, Serving, Running, Basic, Link;
    InvParts(c, run[i], hs[i], a);
    LeaderAt(c, hs[i], run[i].nodes[a].term);
    HistoriesGrow(c, run, hs, i, j);
  }

  // -------------------------------------------------------- election safety

  /** At most one node ever leads a term. */
  lemma ElectionSafety(c: Config, run: seq<Cluster>, i: nat, j: nat, a: Id, b: Id)
    requires c.Valid() && IsRun(c, run) && i < |run| && j < |run| && a in run[i].nodes && b in run[j].nodes
    requires run[i].nodes[a].role.Leader? && run[j].nodes[b].role.Leader?
             && run[i].nodes[a].term == run[j].nodes[b].term
    ensures a == b
  {
    hide IsRun, Explains;
    var hs := EveryRun(c, run);
    LeaderLater(c, run, hs, i, Max(i, j), a);
    LeaderLater(c, run, hs, j, Max(i, j), b);
  }

  // ------------------------------------------------------------ log matching

  /** Every entry was appended in some term. */
  ghost predicate TermsPositive(log: seq<Entry>) {
    forall i | 0 <= i < |log| :: log[i].term > 0
  }

  lemma LogIsContiguous(c: Config, h: Hist, log: seq<Entry>)
    requires HistInv(c, h) && LogOk(h, log)
    ensures Consecutive(log, 1) && TermsPositive(log)
  {
    hide HistInv;
    forall i | 0 <= i < |log| ensures log[i].index == i + 1 && log[i].term > 0 {
      assert EntryOk(h, log, i);
      LeaderAt(c, h, log[i].term);
      AgreeAt(log, h.ldr[log[i].term].log, i + 1, i);
    }
  }

  /** Logs with the same term at an index are identical up to it; within a log
      terms are positive and never decrease, and entry i has index i. */
  lemma LogMatching(c: Config, run: seq<Cluster>, i: nat, j: nat, a: Id, b: Id)
    requires c.Valid() && IsRun(c, run) && i < |run| && j < |run| && a in run[i].nodes && b in run[j].nodes
    ensures Matching(run[i].nodes[a].log, run[j].nodes[b].log)
    ensures Sorted(run[i].nodes[a].log) && Consecutive(run[i].nodes[a].log, 1) && TermsPositive(run[i].nodes[a].log)
  {
    hide IsRun, Explains, HistInv, CommitFits, EntryOk, Matching;
    var hs := EveryRun(c, run);
    var k := Max(i, j);
    SeenLater(c, run, hs, i, k, a);
    SeenLater(c, run, hs, j, k, b);
    LogsMatch(hs[k], run[i].nodes[a].log, run[j].nodes[b].log);
    LogIsContiguous(c, hs[k], run[i].nodes[a].log);
  }

  // --------------------------------------------------- leader completeness

  /** A log whose commit index is explained in h agrees, as far as it is
      committed, with every leader that is not earlier than its term. */
  lemma CommittedHeld(c: Config, h: Hist, term: nat, log: seq<Entry>, committed: nat, T: nat)
    requires c.Valid() && HistInv(c, h) && CommitFits(term, log, committed, h) && T in h.ldr && term < T
    ensures Agree(log, h.ldr[T].log, committed) && committed <= |h.ldr[T].base|
  {
    hide HistInv;
    if committed != 0 {
      var T1: nat :| CommitFrom(term, log, committed, h, T1);
      LeaderHoldsCommitted(c, h, T1, T);
      ReadSafety.EarlierCommitInBase(c, h, T1, T);
      AgreeLess(h.ldr[T].log, h.ldr[T1].log, h.ldr[T1].commit, committed);
      AgreeTrans(log, h.ldr[T1].log, h.ldr[T].log, committed);
    }
  }

  /** What any node knows to be committed, and so what a leader commits, is in
      the log of every leader of a later term. */
  lemma LeaderCompleteness(c: Config, run: seq<Cluster>, i: nat, j: nat, a: Id, b: Id)
    requires c.Valid() && IsRun(c, run) && i < |run| && j < |run| && a in run[i].nodes && b in run[j].nodes
    requires run[j].nodes[b].role.Leader? && run[i].nodes[a].term < run[j].nodes[b].term
    ensures Agree(run[i].nodes[a].log, run[j].nodes[b].log, run[i].nodes[a].committed)
  {
    hide IsRun, Explains, HistInv, CommitFits;
    var hs := EveryRun(c, run);
    var k := Max(i, j);
    SeenLater(c, run, hs, i, k, a);
    LeaderLater(c, run, hs, j, k, b);
    var n, T := run[i].nodes[a], run[j].nodes[b].term;
    CommittedHeld(c, hs[k], n.term, n.log, n.committed, T);
    AgreePrefix(n.log, run[j].nodes[b].log, hs[k].ldr[T].log, n.committed);
  }

  /** ... and in the log of the leader of its own term. */
  lemma LeaderHasCommitted(c: Config, run: seq<Cluster>, i: nat, a: Id, b: Id)
    requires c.Valid() && IsRun(c, run) && i < |run| && a in run[i].nodes && b in run[i].nodes
    requires run[i].nodes[b].role.Leader? && run[i].nodes[a].term == run[i].nodes[b].term
    ensures Agree(run[i].nodes[a].log, run[i].nodes[b].log, run[i].nodes[a].committed)
  {
    hide IsRun, Explains, HistInv, LogFits, CommitFits, AcksFit, PastFits, OutboxOk, Tracks, Serving, Running, Basic, Link, Inv;
    var hs := EveryRun(c, run);
    SeenLater(c, run, hs, i, i, a);
    InvParts(c, run[i], hs[i], b) by { ExplainsAt(c, run, hs, i); }
    var n := run[i].nodes[a];
    SameTermHeld(c, hs[i], n.term, n.log, n.committed);
  }

  lemma ExplainsAt(c: Config, run: seq<Cluster>, hs: seq<Hist>, i: nat)
    requires Explains(c, run, hs) && i < |run|
    ensures Inv(c, run[i], hs[i])
  {}

  lemma SameTermHeld(c: Config, h: Hist, term: nat, log: seq<Entry>, committed: nat)
    requires c.Valid() && HistInv(c, h) && CommitFits(term, log, committed, h) && term in h.ldr
    ensures Agree(log, h.ldr[term].log, committed)
  {
    hide HistInv;
    if committed != 0 {
      var T: nat :| CommitFrom(term, log, committed, h, T);
      LeaderHoldsCommitted(c, h, T, term);
      AgreeLess(h.ldr[term].log, h.ldr[T].log, h.ldr[T].commit, committed);
      AgreeTrans(log, h.ldr[T].log, h.ldr[term].log, committed);
    }
  }

  // -------------------------------------------------- state machine safety

  lemma CommitsAgree(c: Config, h: Hist, T1: nat, T2: nat, a: seq<Entry>, b: seq<Entry>, k: nat)
    requires c.Valid() && HistInv(c, h) && T1 in h.ldr && T2 in h.ldr && T1 <= T2
    requires k <= h.ldr[T1].commit && Agree(a, h.ldr[T1].log, k) && Agree(b, h.ldr[T2].log, k)
    ensures Agree(a, b, k) && Agree(b, a, k)
  {
    hide HistInv;
    LeaderHoldsCommitted(c, h, T1, T2);
    AgreeLess(h.ldr[T2].log, h.ldr[T1].log, h.ldr[T1].commit, k);
  }

  lemma CommittedLogsAgree(c: Config, h: Hist, a: Node, b: Node, k: nat)
    requires c.Valid() && HistInv(c, h) && 0 < k <= a.committed && k <= b.committed
    requires CommitFits(a.term, a.log, a.committed, h) && CommitFits(b.term, b.log, b.committed, h)
    ensures Agree(a.log, b.log, k)
  {
    hide HistInv;
    var T1: nat :| CommitFrom(a.term, a.log, a.committed, h, T1);
    var T2: nat :| CommitFrom(b.term, b.log, b.committed, h, T2);
    AgreeLess(a.log, h.ldr[T1].log, a.committed, k);
    AgreeLess(b.log, h.ldr[T2].log, b.committed, k);
    if T1 <= T2 { CommitsAgree(c, h, T1, T2, a.log, b.log, k); } else { CommitsAgree(c, h, T2, T1, b.log, a.log, k); }
  }

  /** Any two nodes, at any two moments, hold the same entries as far as both
      know them to be committed. */
  lemma StateMachineSafety(c: Config, run: seq<Cluster>, i: nat, j: nat, a: Id, b: Id, k: nat)
    requires c.Valid() && IsRun(c, run) && i < |run| && j < |run| && a in run[i].nodes && b in run[j].nodes
    requires k <= run[i].nodes[a].committed && k <= run[j].nodes[b].committed
    ensures Agree(run[i].nodes[a].log, run[j].nodes[b].log, k)
  {
    hide IsRun, Explains, HistInv, CommitFits;
    var hs := EveryRun(c, run);
    var t := Max(i, j);
    SeenLater(c, run, hs, i, t, a);
    SeenLater(c, run, hs, j, t, b);
    if k > 0 { CommittedLogsAgree(c, hs[t], run[i].nodes[a], run[j].nodes[b], k); }
  }

  /** The step from s to s' is a restart of the node. */
  ghost predicate RestartsNode(c: Config, s: Cluster, s': Cluster, id: Id) {
    exists kept, committed :: Restarts(c, s, s', id, kept, committed)
  }

  /** Between its restarts a node's commit index never falls, and what it knows
      to be committed stays in its log. */
  lemma CommittedStays(c: Config, run: seq<Cluster>, i: nat, a: Id)
    requires c.Valid() && IsRun(c, run) && i + 1 < |run| && a in run[i].nodes && !RestartsNode(c, run[i], run[i + 1], a)
    ensures a in run[i + 1].nodes
    ensures var n, n' := run[i].nodes[a], run[i + 1].nodes[a];
            n.committed <= n'.committed <= |n'.log| && Agree(n.log, n'.log, n.committed)
  {
    var j := i + 1;
    assert Next(c, run[i], run[j]);
    CommitRises(c, run, i, j, a);
    StateMachineSafety(c, run, i, j, a, a, run[i].nodes[a].committed);
    NoPanic(c, run, j, a);
  }

  lemma StepOf(c: Config, run: seq<Cluster>, i: nat)
    requires IsRun(c, run) && i + 1 < |run|
    ensures Next(c, run[i], run[i + 1])
  {}

  /** A node is left alone, ends a leadership transfer, handles a message or restarts. */
  lemma WhatHappened(c: Config, s: Cluster, s': Cluster, a: Id)
    requires Next(c, s, s') && a in s.nodes
    ensures a in s'.nodes
    ensures || s'.nodes[a] == s.nodes[a] || s'.nodes[a] == s.nodes[a].(transferee := NONE)
            || (exists m, e :: Receives(c, s, s', a, m, e)) || (RestartsNode(c, s, s', a) && s'.nodes[a].role.Follower?)
  {
    hide Step, Deliverable, Restarted;
    if id, m, e :| Receives(c, s, s', id, m, e) {
    } else if id :| AbortsTransfer(s, s', id) {
    } else {
      var id, kept, committed :| Restarts(c, s, s', id, kept, committed);
      if id == a { RestartsAsFollower(c, s.nodes[a], kept, committed); }
    }
  }

  lemma RestartsAsFollower(c: Config, n: Node, kept: nat, committed: nat)
    requires kept <= |n.log|
    ensures Restarted(c, n, kept, committed).role.Follower?
  {}

  lemma NodesStay(c: Config, run: seq<Cluster>, i: nat, j: nat)
    requires c.Valid() && IsRun(c, run) && i < |run| && j < |run|
    ensures run[i].nodes.Keys == run[j].nodes.Keys
  {
    hide IsRun, HistInv, NodeInv, MsgOk, AckSent, Link;
    var hs := EveryRun(c, run);
    assert Inv(c, run[i], hs[i]) && Inv(c, run[j], hs[j]);
  }

  lemma CommitRises(c: Config, run: seq<Cluster>, i: nat, j: nat, a: Id)
    requires c.Valid() && IsRun(c, run) && j == i + 1 < |run| && a in run[i].nodes && !RestartsNode(c, run[i], run[j], a)
    requires Next(c, run[i], run[j])
    ensures a in run[j].nodes && run[i].nodes[a].committed <= run[j].nodes[a].committed
  {
    hide IsRun, Receives, Inv, Link;
    var s, s' := run[i], run[j];
    if id, m, e :| Receives(c, s, s', id, m, e) {
      var hs := EveryRun(c, run);
      ReceiveCommits(c, s, s', hs[i], id, m, e, a);
    } else if id :| AbortsTransfer(s, s', id) {
    } else {
      var id, kept, committed :| Restarts(c, s, s', id, kept, committed);
      assert id == a ==> RestartsNode(c, s, s', a);
    }
  }

  // ---------------------------------------------------------- match soundness

  lemma MatchedAgrees(c: Config, h: Hist, L: Node, n: Node)
    requires Ok(c, L, h) && L.role.Leader? && Ok(c, n, h) && n.id in L.progress && n.term == L.term && n.id != L.id
    ensures Agree(n.log, L.log, L.progress[n.id].matched)
  {
    hide HistInv, LogFits, CommitFits, PastFits, OutboxOk, Serving, Basic;
    var i := L.progress[n.id].matched;
    assert ProgressFits(L.id, L.term, |L.log|, h, n.id, L.progress[n.id]);
    if i > 0 {
      var a := AckRec(L.term, n.id, i);
      assert AckFits(n.term, n.log, h, a);
      assert Keeps(h, n.log, L.term, i, n.term);
    }
  }

  /** While a peer is in the leader's term its log agrees with the leader's
      through Match, and Match stays below Next. */
  lemma MatchSoundness(c: Config, run: seq<Cluster>, i: nat, a: Id, q: Id)
    requires c.Valid() && IsRun(c, run) && i < |run| && a in run[i].nodes && q in run[i].nodes
    requires run[i].nodes[a].role.Leader? && run[i].nodes[a].term == run[i].nodes[q].term
    ensures q in run[i].nodes[a].progress
    ensures var pr := run[i].nodes[a].progress[q];
            Agree(run[i].nodes[q].log, run[i].nodes[a].log, pr.matched) && pr.matched < pr.next <= |run[i].nodes[a].log| + 1
  {
    hide IsRun, Inv, HistInv, LogFits, CommitFits, PastFits, OutboxOk, Serving, AcksFit, Running, Link;
    var hs := EveryRun(c, run);
    InvParts(c, run[i], hs[i], a);
    InvParts(c, run[i], hs[i], q);
    PeersFact(c, run[i], hs[i], q);
    var L := run[i].nodes[a];
    assert ProgressFits(L.id, L.term, |L.log|, hs[i], q, L.progress[q]);
    if q != a { MatchedAgrees(c, hs[i], L, run[i].nodes[q]); }
  }

  /** The messages a leader has in flight to a peer are ordered strictly between
      Match and Next and fit the window. */
  lemma WindowsInOrder(c: Config, run: seq<Cluster>, i: nat, a: Id, q: Id)
    requires c.Valid() && IsRun(c, run) && i < |run| && a in run[i].nodes && run[i].nodes[a].role.Leader?
    requires q in run[i].nodes[a].progress
    ensures FlowLaws.InOrder(run[i].nodes[a].progress[q])
  {
    hide IsRun, Inv, HistInv, LogFits, CommitFits, PastFits, OutboxOk, Serving, AcksFit, Running, Link,
      FlowLaws.WindowFits;
    var hs := EveryRun(c, run);
    InvParts(c, run[i], hs[i], a);
    var L := run[i].nodes[a];
    assert ProgressFits(L.id, L.term, |L.log|, hs[i], q, L.progress[q]);
  }

  lemma NodeIds(c: Config, run: seq<Cluster>, i: nat, a: Id)
    requires c.Valid() && IsRun(c, run) && i < |run| && a in run[i].nodes
    ensures run[i].nodes[a].id == a
  {
    hide IsRun, Inv, Link, Ok;
    var hs := EveryRun(c, run);
    InvParts(c, run[i], hs[i], a);
  }

  lemma PeersFact(c: Config, s: Cluster, h: Hist, q: Id)
    requires Inv(c, s, h) && q in s.nodes
    ensures q in c.peers
  {
    hide HistInv, NodeInv, MsgOk, AckSent;
  }

  /** No step of any run reaches a panic of the code: committing past the end of
      the log, overwriting committed entries, cutting the read queue out of
      range, an invalid role transition, or an unsendable message. */
  lemma NoPanic(c: Config, run: seq<Cluster>, i: nat, a: Id)
    requires c.Valid() && IsRun(c, run) && i < |run| && a in run[i].nodes
    ensures !run[i].nodes[a].failed && run[i].nodes[a].committed <= |run[i].nodes[a].log|
  {
    hide IsRun, Inv, HistInv, CommitFits, PastFits, OutboxOk, Serving, AcksFit, Running, Link, Tracks, Leading, LogOk;
    var hs := EveryRun(c, run);
    InvParts(c, run[i], hs[i], a);
  }

  // ----------------------------------------------------------- going on with a run

  /** What a run says of a node between steps. */
  predicate Resting(n: Node) { n.msgs == [] && !n.failed }

  lemma NodesRest(c: Config, run: seq<Cluster>, i: nat, a: Id)
    requires c.Valid() && IsRun(c, run) && i < |run| && a in run[i].nodes
    ensures Resting(run[i].nodes[a]) && run[i].nodes[a].id == a && a != NONE
  {
    hide IsRun, Inv, HistInv, LogFits, CommitFits, PastFits, OutboxOk, Serving, AcksFit, Running, Link, Leading, Tracks;
    var hs := EveryRun(c, run);
    InvParts(c, run[i], hs[i], a);
  }

  /** The run up to state i, and then the node handling the message. */
  ghost function GoingOn(c: Config, run: seq<Cluster>, i: nat, id: Id, m: Message, e: Env): seq<Cluster>
    requires i < |run| && id in run[i].nodes
  {
    run[..i + 1] + [Flush(run[i], id, Step(c, run[i].nodes[id], m, e))]
  }

  lemma GoesOn(c: Config, run: seq<Cluster>, i: nat, id: Id, m: Message, e: Env)
    requires c.Valid() && IsRun(c, run) && i < |run| && id in run[i].nodes && Deliverable(run[i], id, m)
    ensures var run', n' := GoingOn(c, run, i, id, m, e), Step(c, run[i].nodes[id], m, e);
            && IsRun(c, run') && |run'| == i + 2 && run'[i] == run[i] && run'[i + 1].nodes[id] == n'.(msgs := [])
            && id in run'[i + 1].nodes && !n'.failed && n'.id == id
  {
    hide IsRun, Step, Deliverable, Next;
    var s := run[i];
    var s' := Flush(s, id, Step(c, s.nodes[id], m, e));
    CutRun(c, run, i);
    Received(c, s, s', id, m, e);
    ExtendsRun(c, run[..i + 1], s');
    var run' := GoingOn(c, run, i, id, m, e);
    NoPanic(c, run', i + 1, id);
    NodeIds(c, run', i + 1, id);
  }

  lemma Received(c: Config, s: Cluster, s': Cluster, id: Id, m: Message, e: Env)
    requires Receives(c, s, s', id, m, e)
    ensures Next(c, s, s')
  {}

  lemma CutRun(c: Config, run: seq<Cluster>, i: nat)
    requires IsRun(c, run) && i < |run|
    ensures IsRun(c, run[..i + 1])
  {
    hide Next, Init;
    var cut := run[..i + 1];
    forall j | 0 <= j < |cut| - 1 ensures Next(c, cut[j], cut[j + 1]) {
      assert Next(c, run[j], run[j + 1]);
    }
  }

  lemma ExtendsRun(c: Config, run: seq<Cluster>, s': Cluster)
    requires IsRun(c, run) && Next(c, run[|run| - 1], s')
    ensures IsRun(c, run + [s'])
  {
    hide Next, Init;
    var run' := run + [s'];
    forall i | 0 <= i < |run'| - 1 ensures Next(c, run'[i], run'[i + 1]) {
      if i < |run| - 1 { assert Next(c, run[i], run[i + 1]); }
    }
  }

  // ------------------------------------------------------ linearizable reads

  /** Node L, leading term T, has queued its p-th read. */
  predicate HasQueued(s: Cluster, L: Id, T: nat, p: nat) {
    L in s.nodes && LeadsIn(s.nodes[L], T) && p <= s.nodes[L].readOnly.Total()
  }

  /** ... and has not yet confirmed it. */
  predicate Waiting(s: Cluster, L: Id, T: nat, p: nat) {
    HasQueued(s, L, T, p) && s.nodes[L].readOnly.confirmed < p
  }

  lemma QueuedIsAsked(c: Config, s: Cluster, h: Hist, L: Id, T: nat, p: nat)
    requires Inv(c, s, h) && HasQueued(s, L, T, p) && p > 0
    ensures ReadFits(T, s.nodes[L].readOnly, h, p)
  {
    hide Inv, HistInv, LogFits, CommitFits, PastFits, OutboxOk, AcksFit, Running, Tracks, Leading, Basic, ReadFits;
    InvParts(c, s, h, L);
  }

  lemma NotYetAsked(c: Config, s: Cluster, h: Hist, s': Cluster, h': Hist, L: Id, T: nat, p: nat)
    requires Inv(c, s, h) && Link(s, h, s', h') && !HasQueued(s, L, T, p) && HasQueued(s', L, T, p)
    ensures Key(T, p) !in h.asked
  {
    hide Inv, HistInv, LogFits, CommitFits, PastFits, OutboxOk, AcksFit, Running, Tracks, Leading, Basic, ReadFits,
      BeatFits, Grows;
    InvParts(c, s, h, L);
    if !LeadsIn(s.nodes[L], T) {
      HistParts(c, h);
      Elections.NoReadsYet(h, T);
    }
  }

  /** The index a confirmed read was queued with is not below the commit index that
      any node had at any moment up to the one it was queued. The read is the p-th of
      leader L in term T, queued in step j and confirmed in step k. */
  lemma IndexIsRecent(c: Config, run: seq<Cluster>, i: nat, j: nat, k: nat, L: Id, T: nat, p: nat, q: Id)
    requires c.Valid() && IsRun(c, run) && i <= j < k < |run| - 1 && p > 0 && q in run[i].nodes
    requires !HasQueued(run[j], L, T, p) && HasQueued(run[j + 1], L, T, p)
    requires Waiting(run[k], L, T, p) && HasQueued(run[k + 1], L, T, p) && !Waiting(run[k + 1], L, T, p)
    ensures var ro := run[k].nodes[L].readOnly;
            run[i].nodes[q].committed <= ro.unconfirmed[p - 1 - ro.confirmed].index
  {
    hide IsRun, Inv, Grows, Recent, Link;
    var hs := EveryRun(c, run);
    var j', k' := j + 1, k + 1;
    assert Link(run[j], hs[j], run[j'], hs[j']) && Link(run[k], hs[k], run[k'], hs[k']);
    LinkGrows(run[k], hs[k], run[k'], hs[k']);
    NotYetAsked(c, run[j], hs[j], run[j'], hs[j'], L, T, p);
    QueuedIsAsked(c, run[j'], hs[j'], L, T, p);
    QueuedIsAsked(c, run[k], hs[k], L, T, p);
    QueuedIsAsked(c, run[k'], hs[k'], L, T, p);
    HistoriesGrow(c, run, hs, j', k);
    SameRead(hs[j'], hs[k], Key(T, p));
    SameRead(hs[k], hs[k'], Key(T, p));
    AskedLast(run, hs, i, j, Key(T, p), q);
  }

  lemma AskedLast(run: seq<Cluster>, hs: seq<Hist>, i: nat, j: nat, k: Key, q: Id)
    requires Recent(run, hs) && i <= j && j + 1 < |run| && q in run[i].nodes
    requires k in hs[j + 1].asked && k !in hs[j].asked
    ensures run[i].nodes[q].committed <= hs[j + 1].asked[k].peak
  {
    var j' := j + 1;
    assert Tops(run, j, hs[j'].asked[k].peak);
  }

  lemma SameRead(h: Hist, h': Hist, k: Key)
    requires Grows(h, h') && k in h.asked
    ensures k in h'.asked && h'.asked[k] == h.asked[k]
  {}
}
