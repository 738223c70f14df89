/** What runs of the protocol give to the parts that work on one node: the logs of
    the leaders form a family, and every append is a slice of one of them. */
module Families {
  import opened Quorum
  import opened Logs
  import opened RaftSpec
  import opened History
  import opened Growth
  import opened Invariant
  import opened Runs
  import opened Stepping
  import Pipeline

  ghost function LeaderLogs(h: Hist): Pipeline.Leaders {
    map T | T in h.ldr :: h.ldr[T].log
  }

  lemma LogsAreFamily(c: Config, h: Hist)
    requires HistInv(c, h)
    ensures Pipeline.Family(LeaderLogs(h))
  {
    hide HistInv, LogOk;
    var L := LeaderLogs(h);
    forall T | T in L ensures Pipeline.FromLeaders(L, L[T]) {
      LeaderAt(c, h, T);
      LogFromLeaders(c, h, h.ldr[T].log);
    }
  }

  lemma LogFromLeaders(c: Config, h: Hist, log: seq<Entry>)
    requires HistInv(c, h) && LogOk(h, log)
    ensures Pipeline.FromLeaders(LeaderLogs(h), log)
  {
    hide HistInv;
    var L := LeaderLogs(h);
    forall i | 0 <= i < |log| ensures log[i].term in L && log[i].index == i + 1 && Agree(log, L[log[i].term], i + 1) {
      assert EntryOk(h, log, i);
      LeaderAt(c, h, log[i].term);
      AgreeAt(log, h.ldr[log[i].term].log, i + 1, i);
    }
  }

  /** What a run shows of the leaders' logs. */
  ghost predicate Shows(s: Cluster, L: Pipeline.Leaders) {
    && (forall a | a in s.nodes :: Pipeline.FromLeaders(L, s.nodes[a].log))
    && (forall a | a in s.nodes && s.nodes[a].role.Leader? ::
          s.nodes[a].term in L && s.nodes[a].log <= L[s.nodes[a].term])
    && (forall m | m in s.net && m.MsgApp? :: m.term in L && IsSlice(L[m.term], m.prev, m.entries))
  }

  /** Every run of the cluster has a family of leaders' logs: every log of the run is
      made of them, a leader's own is a prefix of the one of its term, and every
      append on the network is a slice of the one of its term. */
  lemma RunsGiveFamilies(c: Config, run: seq<Cluster>) returns (L: Pipeline.Leaders)
    requires c.Valid() && IsRun(c, run)
    ensures Pipeline.Family(L) && forall i | 0 <= i < |run| :: Shows(run[i], L)
  {
    hide Next, Inv, HistInv, Link, Pipeline.Family, Shows;
    var hs := EveryRun(c, run);
    var last: nat := |run| - 1;
    InvHist(c, run[last], hs[last]);
    L := LeaderLogs(hs[last]);
    LogsAreFamily(c, hs[last]);
    forall i | 0 <= i < |run| ensures Shows(run[i], L) {
      HistoriesGrow(c, run, hs, i, last);
      ShownLater(c, run[i], hs[i], hs[last]);
    }
  }

  lemma ShownLater(c: Config, s: Cluster, h: Hist, h': Hist)
    requires Inv(c, s, h) && Grows(h, h') && HistInv(c, h')
    ensures Shows(s, LeaderLogs(h'))
  {
    hide Inv, HistInv, LogFits, CommitFits, AcksFit, PastFits, OutboxOk, Tracks, Serving, Running, Basic, Grows, Pipeline.FromLeaders,
      MsgOk, IsSlice, Leading;
    var L := LeaderLogs(h');
    forall a | a in s.nodes
      ensures Pipeline.FromLeaders(L, s.nodes[a].log)
      ensures s.nodes[a].role.Leader? ==> s.nodes[a].term in L && s.nodes[a].log <= L[s.nodes[a].term]
    {
      InvParts(c, s, h, a);
      ShownNode(c, s.nodes[a], h, h');
    }
    forall m | m in s.net && m.MsgApp? ensures m.term in L && IsSlice(L[m.term], m.prev, m.entries) {
      NetMsg(c, s, h, m);
      MsgOkGrows(m, h, h');
      SliceOf(m, h');
    }
  }

  lemma SliceOf(m: Message, h: Hist)
    requires MsgOk(m, h) && m.MsgApp?
    ensures m.term in h.ldr && IsSlice(h.ldr[m.term].log, m.prev, m.entries)
  {}

  lemma NetMsg(c: Config, s: Cluster, h: Hist, m: Message)
    requires Inv(c, s, h) && m in s.net
    ensures MsgOk(m, h)
  {
    hide HistInv, NodeInv, MsgOk, AckSent;
  }

  lemma ShownNode(c: Config, n: Node, h: Hist, h': Hist)
    requires Ok(c, n, h) && Grows(h, h') && HistInv(c, h')
    ensures Pipeline.FromLeaders(LeaderLogs(h'), n.log)
    ensures n.role.Leader? ==> n.term in h'.ldr && n.log <= h'.ldr[n.term].log
  {
    hide HistInv, CommitFits, AcksFit, PastFits, OutboxOk, Tracks, Serving, Running, Basic, Pipeline.FromLeaders, LogOk;
    HistParts(c, h);
    LogGrows(n.term, n.log, n.committed, h, h');
    LogFromLeaders(c, h', n.log);
  }

  /** The entries of every append that a node of a run is given follow its anchor one
      by one, as the node's object requires. */
  lemma AppendsAreConsecutive(c: Config, run: seq<Cluster>, i: nat, id: Id, m: Message)
    requires c.Valid() && IsRun(c, run) && i < |run| && Deliverable(run[i], id, m) && m.MsgApp?
    ensures Consecutive(m.entries, m.prev.index + 1)
  {
    hide IsRun;
    var L := RunsGiveFamilies(c, run);
    assert Shows(run[i], L);
    assert Pipeline.FromLeaders(L, L[m.term]);
  }
}
