/** The invariant holds in every state of every run: each state has a history,
    and the histories of a run grow. */
module Runs {
  import opened Quorum
  import opened Logs
  import opened RaftSpec
  import opened History
  import opened Growth
  import opened Invariant
  import opened Stepping
  import opened ReadSafety
  import opened NodeSteps

  lemma InvParts(c: Config, s: Cluster, h: Hist, id: Id)
    requires Inv(c, s, h) && id in s.nodes
    ensures Ok(c, s.nodes[id], h) && s.nodes[id].id == id && s.nodes[id].msgs == []
  {
    hide HistInv, NodeInv, MsgOk;
  }

  lemma InvHist(c: Config, s: Cluster, h: Hist)
    requires Inv(c, s, h)
    ensures c.Valid() && HistInv(c, h)
  {
    hide HistInv, NodeInv, MsgOk;
  }

  // ------------------------------------------------------------ initial state

  lemma Starts(c: Config)
    requires c.Valid()
    ensures Inv(c, Init(c), NO_HIST)
  {
    hide NodeInv, NewNode, Config.Valid;
    forall id | id in c.peers ensures NodeInv(c, NewNode(c, id), NO_HIST) && NewNode(c, id).id == id && NewNode(c, id).msgs == [] {
      FirstNode(c, id);
    }
  }

  lemma FirstNode(c: Config, id: Id)
    requires c.Valid() && id in c.peers
    ensures NodeInv(c, NewNode(c, id), NO_HIST) && NewNode(c, id).id == id && NewNode(c, id).msgs == []
  {
    hide Running, Leading, Tracks, Serving, FreshProgress;
  }

  // --------------------------------------------------------------- one step

  /** What one node records does not disturb another. */
  lemma OthersKeep(c: Config, n: Node, h: Hist, h': Hist, id: Id)
    requires HistInv(c, h) && NodeInv(c, n, h) && Grows(h, h') && OnlyBy(h, h', id) && n.id != id
    ensures NodeInv(c, n, h')
  {
    hide HistInv, LogFits, CommitFits, AcksFit, PastFits, OutboxOk, Tracks, Serving, Running, AckFits, BallotFits;
    if n.role.Leader? { assert Leading(n.id, n.term, n.log, n.committed, h); }
    NodeGrows(c, n, h, h');
  }

  lemma Emptied(c: Config, n: Node, h: Hist)
    requires NodeInv(c, n, h)
    ensures NodeInv(c, n.(msgs := []), h)
  {
    hide LogFits, CommitFits, AcksFit, PastFits, Tracks, Serving, Running, Leading;
  }

  lemma AcksFlushed(s: Cluster, id: Id, n: Node, n': Node, h: Hist, h': Hist, peak: nat)
    requires id in s.nodes && Moves(n, h, n', h', peak)
    requires forall a | a in h.acks :: AckSent(s, a)
    ensures forall a | a in h'.acks :: AckSent(Flush(s, id, n'), a)
  {
    hide IsAck, Grows, OnlyBy;
    var s' := Flush(s, id, n');
    forall a | a in h'.acks ensures AckSent(s', a) {
      if a in h.acks {
        var m :| m in s.net && IsAck(m, a);
        assert m in s'.net;
      } else {
        assert Acks(n'.msgs, a);
        var m :| m in n'.msgs && IsAck(m, a);
        assert m in s'.net;
      }
    }
  }

  lemma NetFlushed(s: Cluster, id: Id, n': Node, h: Hist, h': Hist)
    requires id in s.nodes && Grows(h, h') && OutboxOk(n'.msgs, h')
    requires forall m | m in s.net :: MsgOk(m, h)
    ensures forall m | m in Flush(s, id, n').net :: MsgOk(m, h')
  {
    hide MsgOk, Grows;
    forall m | m in Flush(s, id, n').net ensures MsgOk(m, h') {
      if m in s.net { MsgOkGrows(m, h, h'); }
    }
  }

  /** A node that moves from good to good takes the cluster along. */
  lemma Flushes(c: Config, s: Cluster, h: Hist, id: Id, n': Node, h': Hist, peak: nat)
    requires Inv(c, s, h) && id in s.nodes && Steps(c, s.nodes[id], h, n', h', peak)
    ensures Inv(c, Flush(s, id, n'), h') && Grows(h, h')
  {
    hide HistInv, LogFits, CommitFits, AcksFit, PastFits, Tracks, Serving, Running, Leading, Basic, Grows, OnlyBy,
      MsgOk, AckSent,
      OutboxOk;
    var s' := Flush(s, id, n');
    forall q | q in s'.nodes ensures NodeInv(c, s'.nodes[q], h') {
      if q == id { Emptied(c, n', h'); } else { OthersKeep(c, s.nodes[q], h, h', id); }
    }
    NetFlushed(s, id, n', h, h');
    AcksFlushed(s, id, s.nodes[id], n', h, h', peak);
  }

  /** The largest commit index in the cluster. */
  ghost predicate IsPeak(s: Cluster, peak: nat) {
    && (forall q | q in s.nodes :: s.nodes[q].committed <= peak)
    && (peak == 0 || exists q :: q in s.nodes && s.nodes[q].committed == peak)
  }

  lemma {:induction false} HighestOf(s: Cluster, ids: set<Id>) returns (peak: nat)
    requires ids <= s.nodes.Keys
    ensures forall q | q in ids :: s.nodes[q].committed <= peak
    ensures peak == 0 || exists q :: q in ids && s.nodes[q].committed == peak
  {
    if ids == {} {
      peak := 0;
    } else {
      var q :| q in ids;
      var rest := HighestOf(s, ids - {q});
      peak := Max(rest, s.nodes[q].committed);
    }
  }

  lemma FindPeak(s: Cluster) returns (peak: nat)
    ensures IsPeak(s, peak)
  {
    peak := HighestOf(s, s.nodes.Keys);
    if peak != 0 {
      var q :| q in s.nodes.Keys && s.nodes[q].committed == peak;
      assert q in s.nodes;
    }
  }

  lemma PeakKnown(c: Config, s: Cluster, h: Hist, peak: nat)
    requires Inv(c, s, h) && IsPeak(s, peak)
    ensures PeakOk(h, peak)
  {
    hide HistInv, LogFits, AcksFit, PastFits, Tracks, Serving, Running, Leading, Basic, MsgOk, AckSent, OutboxOk;
    if peak != 0 {
      var q :| q in s.nodes && s.nodes[q].committed == peak;
      var n := s.nodes[q];
      var T: nat :| CommitFrom(n.term, n.log, n.committed, h, T);
    }
  }

  /** Requests of the host are as good as messages of the network. */
  lemma DeliverableOk(c: Config, s: Cluster, h: Hist, id: Id, m: Message)
    requires Inv(c, s, h) && Deliverable(s, id, m)
    ensures MsgOk(m, h) && m.to == id
  {
    hide HistInv, NodeInv, AckSent;
  }

  // ----------------------------------------------------------------- restart

  lemma CutCommit(term: nat, log: seq<Entry>, committed: nat, h: Hist, kept: nat, committed': nat)
    requires CommitFits(term, log, committed, h) && committed' <= committed && committed' <= kept <= |log|
    ensures CommitFits(term, log[..kept], committed', h)
  {
    if committed' != 0 {
      var T: nat :| CommitFrom(term, log, committed, h, T);
      AgreeLess(log, h.ldr[T].log, committed, committed');
      AgreePrefix(h.ldr[T].log, log[..kept], log, committed');
      assert CommitFrom(term, log[..kept], committed', h, T);
    }
  }

  lemma CutAck(h: Hist, log: seq<Entry>, a: AckRec, term: nat, kept: nat)
    requires AckFits(term, log, h, a) && kept <= |log| && (a.index <= kept || kept == |log|)
    ensures AckFits(term, log[..kept], h, a)
  {
    if kept == |log| {
      assert log[..kept] == log;
    } else {
      forall i: nat | 0 < i <= a.index ensures Keeps(h, log[..kept], a.term, i, term) {
        assert Keeps(h, log, a.term, i, term);
        AgreePrefix(h.ldr[a.term].log, log[..kept], log, i);
      }
    }
  }

  lemma CutAcks(c: Config, s: Cluster, h: Hist, id: Id, kept: nat, committed: nat)
    requires Inv(c, s, h) && CanRestart(s, id, kept, committed)
    ensures AcksFit(id, s.nodes[id].term, s.nodes[id].log[..kept], h)
  {
    hide HistInv, LogFits, CommitFits, PastFits, Tracks, Serving, Running, Leading, Basic, MsgOk, OutboxOk, AckFits;
    var n := s.nodes[id];
    forall a | a in h.acks && a.who == id ensures AckFits(n.term, n.log[..kept], h, a) {
      assert AckSent(s, a);
      var m :| m in s.net && IsAck(m, a);
      CutAck(h, n.log, a, n.term, kept);
    }
  }

  /** The node with its log cut and its commit index lowered is still good. */
  lemma Cut(c: Config, s: Cluster, h: Hist, id: Id, kept: nat, committed: nat)
    requires Inv(c, s, h) && CanRestart(s, id, kept, committed)
    ensures LogFits(s.nodes[id].term, s.nodes[id].log[..kept], committed, h)
    ensures CommitFits(s.nodes[id].term, s.nodes[id].log[..kept], committed, h)
  {
    hide HistInv, AcksFit, PastFits, Tracks, Serving, Running, Leading, Basic, MsgOk, OutboxOk, CommitFits, AckSent;
    var n := s.nodes[id];
    LogOkPrefix(h, n.log, kept);
    if kept > 0 { LastTermBounds(h, n.log, kept - 1); }
    CutCommit(n.term, n.log, n.committed, h, kept, committed);
  }

  lemma RestartedOk(c: Config, s: Cluster, h: Hist, id: Id, kept: nat, committed: nat)
    requires Inv(c, s, h) && CanRestart(s, id, kept, committed)
    ensures NodeInv(c, Restarted(c, s.nodes[id], kept, committed), h)
  {
    hide HistInv, LogFits, CommitFits, AcksFit, PastFits, Tracks, Serving, Running, Leading, MsgOk, OutboxOk,
      AckSent, FreshProgress, Inv;
    var n := s.nodes[id];
    InvParts(c, s, h, id);
    Cut(c, s, h, id, kept, committed);
    CutAcks(c, s, h, id, kept, committed);
    PastLater(n.id, n.term, n.term, n.vote, n.vote, n.role.Candidate?, h);
  }

  lemma RestartKeeps(c: Config, s: Cluster, s': Cluster, h: Hist, id: Id, kept: nat, committed: nat)
    requires Inv(c, s, h) && Restarts(c, s, s', id, kept, committed)
    ensures Inv(c, s', h)
  {
    hide HistInv, NodeInv, MsgOk;
    RestartedOk(c, s, h, id, kept, committed);
    assert s'.net == s.net;
    forall a | a in h.acks ensures AckSent(s', a) {
      assert AckSent(s, a);
      var m :| m in s.net && IsAck(m, a);
      assert m in s'.net;
    }
  }

  // ------------------------------------------------------------------- runs

  /** What a step of the run adds to the history: a new leader is the first of its
      term. */
  ghost predicate Link(s: Cluster, h: Hist, s': Cluster, h': Hist) {
    && Grows(h, h') && s'.nodes.Keys == s.nodes.Keys
    && (forall id | id in s'.nodes && id in s.nodes && s'.nodes[id].role.Leader? && !LeadsIn(s.nodes[id], s'.nodes[id].term) ::
          s'.nodes[id].term !in h.ldr)
  }

  /** Reads queued in the step know a commit index of at least `peak`. */
  ghost predicate Reaches(h: Hist, h': Hist, peak: nat) {
    forall k | k in h'.asked && k !in h.asked :: peak <= h'.asked[k].peak
  }

  lemma ReceiveKeeps(c: Config, s: Cluster, s': Cluster, h: Hist, id: Id, m: Message, e: Env, peak: nat) returns (h': Hist)
    requires Inv(c, s, h) && Receives(c, s, s', id, m, e) && PeakOk(h, peak)
    ensures Inv(c, s', h') && Link(s, h, s', h') && Reaches(h, h', peak)
  {
    hide Inv, Ok, MsgOk, Step, Deliverable, PeakOk, Grows, OnlyBy;
    var n, n' := s.nodes[id], Step(c, s.nodes[id], m, e);
    InvParts(c, s, h, id);
    DeliverableOk(c, s, h, id, m);
    h' := NodeStep(c, n, h, m, e, peak);
    Flushes(c, s, h, id, n', h', peak);
    forall q | q in s'.nodes && q in s.nodes && s'.nodes[q].role.Leader? && !LeadsIn(s.nodes[q], s'.nodes[q].term)
      ensures s'.nodes[q].term !in h.ldr {}
  }

  /** Receiving never lowers a commit index. */
  lemma ReceiveCommits(c: Config, s: Cluster, s': Cluster, h: Hist, id: Id, m: Message, e: Env, q: Id)
    requires Inv(c, s, h) && Receives(c, s, s', id, m, e) && q in s.nodes
    ensures q in s'.nodes && s.nodes[q].committed <= s'.nodes[q].committed
  {
    hide Inv, Ok, MsgOk, Step, Deliverable, PeakOk, Grows, OnlyBy;
    var peak := FindPeak(s);
    PeakKnown(c, s, h, peak);
    InvParts(c, s, h, id);
    DeliverableOk(c, s, h, id, m);
    var h' := NodeStep(c, s.nodes[id], h, m, e, peak);
  }

  lemma AbortKeeps(c: Config, s: Cluster, s': Cluster, h: Hist, id: Id)
    requires Inv(c, s, h) && AbortsTransfer(s, s', id)
    ensures Inv(c, s', h)
  {
    hide Inv, Ok, Moves;
    var n, n' := s.nodes[id], s'.nodes[id];
    InvParts(c, s, h, id);
    SteeringFact(c, n, h);
    Steers(c, n, n', h, 0);
    Flushes(c, s, h, id, n', h, 0);
    assert Flush(s, id, n') == s';
  }

  lemma NextKeeps(c: Config, s: Cluster, s': Cluster, h: Hist, peak: nat) returns (h': Hist)
    requires Inv(c, s, h) && Next(c, s, s') && PeakOk(h, peak)
    ensures Inv(c, s', h') && Link(s, h, s', h') && Reaches(h, h', peak)
  {
    hide Inv, Receives, PeakOk;
    if id, m, e :| Receives(c, s, s', id, m, e) {
      h' := ReceiveKeeps(c, s, s', h, id, m, e, peak);
    } else if id :| AbortsTransfer(s, s', id) {
      AbortKeeps(c, s, s', h, id);
      h' := h;
    } else {
      var id, kept, committed :| Restarts(c, s, s', id, kept, committed);
      RestartKeeps(c, s, s', h, id, kept, committed);
      h' := h;
    }
  }

  /** The histories of a run. */
  ghost predicate Explains(c: Config, run: seq<Cluster>, hs: seq<Hist>) {
    && |hs| == |run|
    && (forall i | 0 <= i < |run| :: Inv(c, run[i], hs[i]))
    && (forall i, j | 0 <= i && j == i + 1 && j < |run| :: Link(run[i], hs[i], run[j], hs[j]))
  }

  /** No commit index of the states up to i is above peak. */
  ghost predicate Tops(run: seq<Cluster>, i: nat, peak: nat) {
    forall j, q | 0 <= j <= i && j < |run| && q in run[j].nodes :: run[j].nodes[q].committed <= peak
  }

  /** A read queued in a step knows every commit index from before it. */
  ghost predicate Recent(run: seq<Cluster>, hs: seq<Hist>) {
    && |hs| == |run|
    && forall i, j, k | 0 <= i && j == i + 1 && j < |run| && k in hs[j].asked && k !in hs[i].asked ::
         Tops(run, i, hs[j].asked[k].peak)
  }

  lemma {:induction false} EveryRun(c: Config, run: seq<Cluster>) returns (hs: seq<Hist>)
    requires c.Valid() && IsRun(c, run)
    ensures Explains(c, run, hs) && |hs| == |run| && Recent(run, hs)
  {
    var all, _ := EveryRunTops(c, run);
    hs := all;
  }

  lemma {:induction false} EveryRunTops(c: Config, run: seq<Cluster>) returns (hs: seq<Hist>, peak: nat)
    requires c.Valid() && IsRun(c, run)
    ensures Explains(c, run, hs) && |hs| == |run| && Recent(run, hs)
    ensures Tops(run, |run| - 1, peak) && PeakOk(hs[|run| - 1], peak)
    decreases |run|
  {
    hide Inv, Link, Next, Init, Tops, PeakOk;
    if |run| == 1 {
      Starts(c);
      hs := [NO_HIST];
      peak := FirstTops(c, run, NO_HIST);
    } else {
      var last := |run| - 1;
      assert Next(c, run[last - 1], run[last]);
      var front, top := EveryRunTops(c, run[..last]);
      var h := NextKeeps(c, run[last - 1], run[last], front[last - 1], top);
      LinkGrows(run[last - 1], front[last - 1], run[last], h);
      hs := front + [h];
      TopsOf(run, last, top);
      StaysRecent(run, front, h, last, top);
      peak := NextTops(c, run, front[last - 1], h, last, top);
    }
  }

  lemma LinkGrows(s: Cluster, h: Hist, s': Cluster, h': Hist)
    requires Link(s, h, s', h')
    ensures Grows(h, h')
  {}

  lemma FirstTops(c: Config, run: seq<Cluster>, h: Hist) returns (peak: nat)
    requires |run| == 1 && Inv(c, run[0], h)
    ensures Tops(run, 0, peak) && PeakOk(h, peak)
  {
    hide Inv, PeakOk;
    peak := FindPeak(run[0]);
    PeakKnown(c, run[0], h, peak);
  }

  lemma TopsOf(run: seq<Cluster>, last: nat, peak: nat)
    requires 0 < last < |run| && Tops(run[..last], last - 1, peak)
    ensures Tops(run, last - 1, peak)
  {
    forall j, q | 0 <= j <= last - 1 && j < |run| && q in run[j].nodes ensures run[j].nodes[q].committed <= peak {
      assert run[..last][j] == run[j];
    }
  }

  lemma StaysRecent(run: seq<Cluster>, front: seq<Hist>, h: Hist, last: nat, top: nat)
    requires 0 < last == |run| - 1 && Recent(run[..last], front) && Tops(run, last - 1, top) && Reaches(front[last - 1], h, top)
    ensures Recent(run, front + [h])
  {
    var hs := front + [h];
    forall i, j, k | 0 <= i && j == i + 1 && j < |run| && k in hs[j].asked && k !in hs[i].asked
      ensures Tops(run, i, hs[j].asked[k].peak)
    {
      if j < last {
        assert Tops(run[..last], i, front[j].asked[k].peak);
        EarlierTops(run, last, i, front[j].asked[k].peak);
      }
    }
  }

  lemma EarlierTops(run: seq<Cluster>, last: nat, i: nat, peak: nat)
    requires i < last < |run| && Tops(run[..last], i, peak)
    ensures Tops(run, i, peak)
  {
    forall j, q | 0 <= j <= i && j < |run| && q in run[j].nodes ensures run[j].nodes[q].committed <= peak {
      assert run[..last][j] == run[j];
    }
  }

  lemma NextTops(c: Config, run: seq<Cluster>, h: Hist, h': Hist, last: nat, top: nat) returns (peak: nat)
    requires 0 < last == |run| - 1 && Tops(run, last - 1, top) && PeakOk(h, top) && Grows(h, h') && Inv(c, run[last], h')
    ensures Tops(run, last, peak) && PeakOk(h', peak)
  {
    hide Inv;
    PeakGrows(h, h', top);
    var here := FindPeak(run[last]);
    PeakKnown(c, run[last], h', here);
    peak := Max(top, here);
  }

  lemma {:induction false} HistoriesGrow(c: Config, run: seq<Cluster>, hs: seq<Hist>, i: nat, j: nat)
    requires Explains(c, run, hs) && i <= j < |run|
    ensures Grows(hs[i], hs[j])
    decreases j
  {
    hide Inv, Grows;
    if i == j {
      GrowsRefl(hs[i], NONE);
    } else {
      HistoriesGrow(c, run, hs, i, j - 1);
      var k: nat := j - 1;
      assert Link(run[k], hs[k], run[j], hs[j]);
      GrowsTrans(hs[i], hs[k], hs[j]);
    }
  }
}
