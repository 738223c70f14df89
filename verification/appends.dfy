/** What followers answer to appends and heartbeats, what the leader learns from the
    answers, and what it sends. */
module AppendLaws {
  import opened Quorum
  import opened Logs
  import opened Sizes
  import opened Flow
  import FlowLaws
  import opened ReadQueue
  import opened RaftSpec
  import opened History
  import opened Growth
  import opened Invariant
  import opened Replication
  import opened Runs
  import opened Safety
  import opened Handling
  import opened Effects

  // ----------------------------------------------------- the follower's answers

  /** The append is anchored below what the node knows to be committed. */
  predicate Old(n: Node, m: Message)
    requires m.MsgApp?
  {
    m.prev.index < n.committed
  }

  predicate Refused(n: Node, m: Message)
    requires m.MsgApp?
  {
    !Old(n, m) && !MatchTerm(n.log, m.prev)
  }

  /** The index that is acknowledged. */
  function Acknowledged(n: Node, m: Message): nat
    requires m.MsgApp?
  {
    if Old(n, m) then n.committed else m.prev.index + |m.entries|
  }

  lemma AppendAnswer(c: Config, n: Node, m: Message, e: Env)
    requires m.MsgApp? && m.term > 0 && m.term >= n.term && (n.role.Leader? ==> m.term > n.term) && Resting(n)
    requires !Step(c, n, m, e).failed
    ensures var n' := Step(c, n, m, e);
            && n'.role.Follower? && n'.term == m.term && n'.lead == m.from
            && n'.msgs == [if Refused(n, m) then MsgAppResp(n.id, m.from, m.term, m.prev.index, true, RejectionHint(n.log, m.prev))
                           else MsgAppResp(n.id, m.from, m.term, Acknowledged(n, m), false, EntryID(0, 0))]
            && (if Old(n, m) || Refused(n, m) then n'.log == n.log && n'.committed == n.committed
                else n'.log == Spliced(n.log, m.prev.index, m.entries)
                     && n'.committed == Max(n.committed, Min(m.commit, m.prev.index + |m.entries|)))
  {
    hide AllFresh, RejectionHint, Spliced, FindConflict;
    var n0 := if n.role.Follower? && m.term == n.term then n.(lead := m.from) else BecomeFollower(c, n, m.term, m.from);
    assert Step(c, n, m, e) == HandleAppendEntries(n0, m) by { AppendReached(c, n, m, e); }
  }

  lemma AppendReached(c: Config, n: Node, m: Message, e: Env)
    requires m.MsgApp? && m.term > 0 && m.term >= n.term && (n.role.Leader? ==> m.term > n.term)
    ensures Step(c, n, m, e) == HandleAppendEntries(
              if n.role.Follower? && m.term == n.term then n.(lead := m.from) else BecomeFollower(c, n, m.term, m.from), m)
  {
    hide AllFresh, HandleAppendEntries;
  }

  /** Appends and heartbeats of a term come from its leader, to another node. */
  lemma FromLeader(c: Config, run: seq<Cluster>, i: nat, id: Id, m: Message)
    requires c.Valid() && IsRun(c, run) && i < |run| && id in run[i].nodes && Deliverable(run[i], id, m)
    requires m.MsgApp? || m.MsgHeartbeat?
    ensures m.term > 0 && (run[i].nodes[id].role.Leader? ==> m.term != run[i].nodes[id].term)
  {
    hide IsRun, HistInv, LogFits, CommitFits, PastFits, OutboxOk, Serving, AcksFit, Running, Tracks, Basic, AckSent, Link, IsSlice;
    var hs := EveryRun(c, run);
    InvHist(c, run[i], hs[i]);
    assert MsgOk(m, hs[i]);
    TermInUse(c, hs[i], m.term);
  }

  /** The answer to every append that a run delivers to a node whose term is not
      later: exactly one message. It is a refusal if and only if the append is not
      anchored below the commit index and the log does not match at the anchor; else
      it acknowledges the commit index of an old append, and the last new entry of
      any other. */
  lemma AppendRule(c: Config, run: seq<Cluster>, i: nat, id: Id, m: Message, e: Env)
    requires c.Valid() && IsRun(c, run) && i < |run| && id in run[i].nodes && Deliverable(run[i], id, m) && m.MsgApp?
    requires m.term >= run[i].nodes[id].term
    ensures var n := run[i].nodes[id]; var n' := Step(c, n, m, e);
            && n'.role.Follower? && n'.term == m.term && n'.lead == m.from
            && n'.msgs == [if Refused(n, m) then MsgAppResp(id, m.from, m.term, m.prev.index, true, RejectionHint(n.log, m.prev))
                           else MsgAppResp(id, m.from, m.term, Acknowledged(n, m), false, EntryID(0, 0))]
            && (Refused(n, m) ==> n'.log == n.log)
            && (!Refused(n, m) ==> n.committed <= Acknowledged(n, m) <= |n'.log|)
            && n'.committed == (if Old(n, m) || Refused(n, m) then n.committed
                                else Max(n.committed, Min(m.commit, m.prev.index + |m.entries|)))
  {
    hide IsRun, Step, Deliverable, Spliced, RejectionHint, MatchTerm;
    var n := run[i].nodes[id];
    NodesRest(c, run, i, id);
    FromLeader(c, run, i, id, m);
    GoesOn(c, run, i, id, m, e);
    AppendAnswer(c, n, m, e);
    NoPanic(c, run, i, id);
    if !Old(n, m) && !Refused(n, m) { ReachesLast(c, run, i, id, m); }
  }

  lemma ReachesLast(c: Config, run: seq<Cluster>, i: nat, id: Id, m: Message)
    requires c.Valid() && IsRun(c, run) && i < |run| && id in run[i].nodes && Deliverable(run[i], id, m) && m.MsgApp?
    requires MatchTerm(run[i].nodes[id].log, m.prev)
    ensures m.prev.index + |m.entries| <= |Spliced(run[i].nodes[id].log, m.prev.index, m.entries)|
  {
    hide IsRun, Inv, HistInv, LogOk, CommitFits, PastFits, OutboxOk, Serving, AcksFit, Running, Tracks, Basic, Link, Spliced,
      MatchTerm, Matching;
    var hs := EveryRun(c, run);
    InvParts(c, run[i], hs[i], id);
    LeaderMatches(c, run, hs, i, id, m);
    AppendFollowsLeader(run[i].nodes[id].log, hs[i].ldr[m.term].log, m.prev, m.entries);
  }

  lemma LeaderMatches(c: Config, run: seq<Cluster>, hs: seq<Hist>, i: nat, id: Id, m: Message)
    requires c.Valid() && Explains(c, run, hs) && i < |run| && id in run[i].nodes && Deliverable(run[i], id, m) && m.MsgApp?
    ensures m.term in hs[i].ldr && IsSlice(hs[i].ldr[m.term].log, m.prev, m.entries)
            && Matching(run[i].nodes[id].log, hs[i].ldr[m.term].log)
  {
    hide HistInv, CommitFits, PastFits, OutboxOk, Serving, AcksFit, Running, Tracks, Basic, AckSent, Link, IsSlice, Matching, LogOk;
    InvHist(c, run[i], hs[i]);
    assert MsgOk(m, hs[i]);
    LeaderAt(c, hs[i], m.term);
    LogsMatch(hs[i], run[i].nodes[id].log, hs[i].ldr[m.term].log);
  }

  /** What is acknowledged is true: the node's log agrees with the leader's through the
      acknowledged index. */
  lemma AcknowledgedIsHeld(c: Config, run: seq<Cluster>, i: nat, id: Id, a: Id, m: Message, e: Env)
    requires c.Valid() && IsRun(c, run) && i < |run| && id in run[i].nodes && Deliverable(run[i], id, m) && m.MsgApp?
    requires m.term >= run[i].nodes[id].term && !Refused(run[i].nodes[id], m)
    requires a in run[i].nodes && run[i].nodes[a].role.Leader? && run[i].nodes[a].term == m.term
    ensures Agree(Step(c, run[i].nodes[id], m, e).log, run[i].nodes[a].log, Acknowledged(run[i].nodes[id], m))
  {
    hide IsRun, Step, Deliverable, Spliced, RejectionHint, MatchTerm;
    var n := run[i].nodes[id];
    NodesRest(c, run, i, id);
    FromLeader(c, run, i, id, m);
    GoesOn(c, run, i, id, m, e);
    AppendAnswer(c, n, m, e);
    if Old(n, m) { OldIsHeld(c, run, i, id, a); } else { NewIsHeld(c, run, i, id, a, m); }
  }

  lemma OldIsHeld(c: Config, run: seq<Cluster>, i: nat, id: Id, a: Id)
    requires c.Valid() && IsRun(c, run) && i < |run| && id in run[i].nodes && a in run[i].nodes
    requires run[i].nodes[a].role.Leader? && run[i].nodes[id].term <= run[i].nodes[a].term
    ensures Agree(run[i].nodes[id].log, run[i].nodes[a].log, run[i].nodes[id].committed)
  {
    hide IsRun;
    if run[i].nodes[id].term < run[i].nodes[a].term { Safety.LeaderCompleteness(c, run, i, i, id, a); }
    else { LeaderHasCommitted(c, run, i, id, a); }
  }

  lemma NewIsHeld(c: Config, run: seq<Cluster>, i: nat, id: Id, a: Id, m: Message)
    requires c.Valid() && IsRun(c, run) && i < |run| && id in run[i].nodes && Deliverable(run[i], id, m) && m.MsgApp?
    requires MatchTerm(run[i].nodes[id].log, m.prev)
    requires a in run[i].nodes && run[i].nodes[a].role.Leader? && run[i].nodes[a].term == m.term
    ensures Agree(Spliced(run[i].nodes[id].log, m.prev.index, m.entries), run[i].nodes[a].log, m.prev.index + |m.entries|)
  {
    hide IsRun, Inv, HistInv, LogFits, CommitFits, PastFits, OutboxOk, Serving, AcksFit, Running, Tracks, Basic, Link, Spliced,
      MatchTerm, Matching, Deliverable;
    var hs := EveryRun(c, run);
    InvParts(c, run[i], hs[i], a);
    LeaderMatches(c, run, hs, i, id, m);
    AppendFollowsLeader(run[i].nodes[id].log, hs[i].ldr[m.term].log, m.prev, m.entries);
  }

  // ------------------------------------------------------------------ heartbeats

  lemma BeatReached(c: Config, n: Node, m: Message, e: Env)
    requires m.MsgHeartbeat? && m.term > 0 && m.term >= n.term && (n.role.Leader? ==> m.term > n.term)
    ensures Step(c, n, m, e) == HandleHeartbeat(
              if n.role.Follower? && m.term == n.term then n.(lead := m.from) else BecomeFollower(c, n, m.term, m.from), m)
  {
    hide AllFresh, HandleHeartbeat;
  }

  /** The answer to every heartbeat that a run delivers to a node whose term is not
      later: the commit index is raised to the one it carries, and its context is
      returned. */
  lemma HeartbeatRule(c: Config, run: seq<Cluster>, i: nat, id: Id, m: Message, e: Env)
    requires c.Valid() && IsRun(c, run) && i < |run| && id in run[i].nodes && Deliverable(run[i], id, m) && m.MsgHeartbeat?
    requires m.term >= run[i].nodes[id].term
    ensures var n := run[i].nodes[id]; var n' := Step(c, n, m, e);
            && n'.role.Follower? && n'.term == m.term && n'.lead == m.from && n'.log == n.log
            && n'.committed == Max(n.committed, m.commit)
            && n'.msgs == [MsgHeartbeatResp(id, m.from, m.term, m.context)]
  {
    hide IsRun, Step, Deliverable, AllFresh;
    NodesRest(c, run, i, id);
    FromLeader(c, run, i, id, m);
    GoesOn(c, run, i, id, m, e);
    BeatReached(c, run[i].nodes[id], m, e);
  }

  // ------------------------------------------------------ what the leader learns

  /** A leader that handles an acknowledgement stays leader. */
  lemma AckStays(c: Config, n: Node, m: Message, e: Env)
    requires n.role.Leader? && m.MsgAppResp? && m.term == n.term
    ensures Step(c, n, m, e) == StepLeader(c, n, m, e)
  {
    hide StepLeader;
  }

  lemma ResponseStays(c: Config, n: Node, m: Message, e: Env)
    requires n.role.Leader? && m.MsgAppResp?
    ensures StepLeader(c, n, m, e).role.Leader?
  {
    hide HandleReject, HandleAck, MaybeCommit, AfterAck, IsNews;
    if m.from in n.progress {
      var n' := SetProgress(n, m.from, n.progress[m.from].(recentActive := true));
      RejectKeepsLog(c, n', m);
      AckKeepsPeers(c, n', m);
      CommitKeeps(c, AfterAck(n', m.from, m.index));
      AckedRole(n', m.from, m.index);
    }
  }

  lemma AckedRole(n: Node, p: Id, index: nat)
    requires p in n.progress
    ensures AfterAck(n, p, index).role == n.role
  {}

  /** An acknowledgement is news if it raises Match, or confirms it while probing. */
  predicate News(pr: Progress, index: nat) {
    index > pr.matched || (index == pr.matched && pr.state.StateProbe?)
  }

  lemma NewsIsNews(pr: Progress, index: nat)
    ensures IsNews(pr, index) <==> News(pr, index)
  {}

  lemma AckState(pr: Progress, index: nat)
    ensures AckedProgress(pr.MaybeUpdate(index).0, index).state.StateReplicate?
    ensures var pr' := AckedProgress(pr.MaybeUpdate(index).0, index);
            pr'.matched == Max(pr.matched, index) && pr'.recentActive == pr.recentActive && pr'.isLearner == pr.isLearner
  {
    hide Window.FreeLE;
  }

  /** What a leader of a run makes of an acknowledgement of its term: Match becomes the
      larger of itself and the acknowledged index, nobody else's changes, the peer
      counts as active, and after news it is replicated to. */
  lemma AckRule(c: Config, run: seq<Cluster>, i: nat, a: Id, m: Message, e: Env)
    requires c.Valid() && IsRun(c, run) && i < |run| && a in run[i].nodes && m.MsgAppResp? && !m.reject
    requires run[i].nodes[a].role.Leader? && m.term == run[i].nodes[a].term && m.from in run[i].nodes[a].progress
    ensures var n := run[i].nodes[a]; var n', q := Step(c, n, m, e), m.from;
            && n'.role.Leader? && n'.term == n.term && n'.log == n.log && n'.progress.Keys == n.progress.Keys
            && n'.progress[q].matched == Max(n.progress[q].matched, m.index) && n'.progress[q].recentActive
            && (News(n.progress[q], m.index) ==> n'.progress[q].state.StateReplicate?)
            && forall p | p in n.progress && p != q ::
                 n'.progress[p].matched == n.progress[p].matched && n'.progress[p].recentActive == n.progress[p].recentActive
  {
    hide IsRun, Step, StepLeader, HandleAck, MaybeCommit, AckedProgress, IsNews;
    var n, q := run[i].nodes[a], m.from;
    AckStays(c, n, m, e);
    AckReached(c, n, m, e);
    var n1 := SetProgress(n, q, n.progress[q].(recentActive := true));
    AckKeepsPeers(c, n1, m);
    NewsIsNews(n1.progress[q], m.index);
    AckState(n1.progress[q], m.index);
    CommitKeeps(c, AfterAck(n1, q, m.index));
  }

  lemma AckReached(c: Config, n: Node, m: Message, e: Env)
    requires m.MsgAppResp? && !m.reject && m.from in n.progress
    ensures StepLeader(c, n, m, e) == HandleAck(c, SetProgress(n, m.from, n.progress[m.from].(recentActive := true)), m)
  {
    hide HandleAck;
  }

  /** From the follower to the leader: once the answer to an accepted append reaches
      the leader that sent it, Match covers the append. */
  lemma AppendIsCounted(c: Config, run: seq<Cluster>, i: nat, id: Id, m: Message, e: Env, k: nat, a: Id, e': Env)
      returns (r: Message)
    requires c.Valid() && IsRun(c, run) && i < k < |run| && id in run[i].nodes && Deliverable(run[i], id, m) && m.MsgApp?
    requires m.term >= run[i].nodes[id].term && !Refused(run[i].nodes[id], m)
    requires a in run[k].nodes && run[k].nodes[a].role.Leader? && run[k].nodes[a].term == m.term
             && id in run[k].nodes[a].progress
    ensures Step(c, run[i].nodes[id], m, e).msgs == [r] && r.MsgAppResp? && !r.reject
    ensures var n' := Step(c, run[k].nodes[a], r, e');
            id in n'.progress && Acknowledged(run[i].nodes[id], m) <= n'.progress[id].matched
  {
    hide IsRun, Step, Deliverable, RejectionHint, MatchTerm;
    AppendRule(c, run, i, id, m, e);
    r := Step(c, run[i].nodes[id], m, e).msgs[0];
    AckRule(c, run, k, a, r, e');
  }

  // --------------------------------------------------------- what the leader sends

  /** The entries of an append: from Next on, at least one, as many as the size limit
      allows. */
  ghost predicate IsBatch(c: Config, n: Node, pr: Progress, ents: seq<Entry>) {
    && 0 < |ents| <= |n.log| + 1 - pr.next && ents == n.log[pr.next - 1..pr.next - 1 + |ents|]
    && (EntsSize(c.size, ents) <= c.maxMsgSize || |ents| == 1)
    && (pr.next - 1 + |ents| < |n.log| ==> EntsSize(c.size, n.log[pr.next - 1..pr.next + |ents|]) > c.maxMsgSize)
  }

  /** A peer can be sent entries: it is not paused, its window has room, and there are
      some. */
  predicate CanReceive(n: Node, pr: Progress) {
    !pr.IsPaused() && (pr.state.StateReplicate? ==> !pr.inflights.Full()) && pr.next <= |n.log|
  }

  lemma BatchIsLimited(c: Config, n: Node, to: Id)
    requires to in n.progress && CanReceive(n, n.progress[to])
    ensures IsBatch(c, n, n.progress[to], NextEntries(c, n, to))
  {
    hide LimitSize, EntsSize, Window.Full;
    var pr := n.progress[to];
    var rest := n.log[pr.next - 1..];
    LimitIsCut(c.size, rest, c.maxMsgSize);
    LimitedPrefix(c.size, rest, c.maxMsgSize);
    var k := |LimitSize(c.size, rest, c.maxMsgSize)|;
    assert rest[..k] == n.log[pr.next - 1..pr.next - 1 + k];
    if k < |rest| { assert rest[..k + 1] == n.log[pr.next - 1..pr.next + k]; }
  }

  lemma LimitedPrefix(size: Entry -> nat, ents: seq<Entry>, max: nat)
    ensures var k := |LimitSize(size, ents, max)|; k <= |ents| && LimitSize(size, ents, max) == ents[..k]
  {}

  /** A peer that can receive entries is sent the next ones, with the term before them
      and the commit index, and Next moves past them once it replicates. */
  lemma SendsBatch(c: Config, n: Node, to: Id, sendIfEmpty: bool) returns (ents: seq<Entry>)
    requires to in n.progress && CanReceive(n, n.progress[to])
    ensures IsBatch(c, n, n.progress[to], ents)
    ensures var pr := n.progress[to]; var (n', sent) := MaybeSendAppend(c, n, to, sendIfEmpty);
            && sent && to in n'.progress
            && n'.msgs == n.msgs + [MsgApp(n.id, to, n.term, EntryID(if pr.next == 1 then 0 else n.log[pr.next - 2].term, pr.next - 1),
                                           ents, n.committed)]
            && n'.progress[to].next == (if pr.state.StateReplicate? then pr.next + |ents| else pr.next)
            && n'.progress[to].sentCommit == n.committed
            && (!pr.state.StateReplicate? ==> n'.progress[to].paused)
            && n'.progress[to].inflights == if pr.state.StateReplicate? then pr.inflights.Add(pr.next + |ents| - 1, PayloadsSize(ents))
                                            else pr.inflights
  {
    hide NextEntries, IsBatch, Window.Full, PayloadsSize;
    BatchIsLimited(c, n, to);
    ents := NextEntries(c, n, to);
    BatchIsSome(c, n, to, ents);
  }

  lemma BatchIsSome(c: Config, n: Node, to: Id, ents: seq<Entry>)
    requires to in n.progress && IsBatch(c, n, n.progress[to], ents)
    ensures ents != []
  {}

  /** Draining sends everything that the peer can receive. */
  lemma {:induction false} DrainExhausts(c: Config, n: Node, to: Id)
    requires to in n.progress && n.progress[to].next <= |n.log| + 1
    ensures to in Drain(c, n, to).progress && !CanReceive(n, Drain(c, n, to).progress[to])
    decreases |n.log| + 1 - n.progress[to].next, !n.progress[to].paused
  {
    hide IsBatch, Window.Full, Drain;
    DrainOnce(c, n, to);
    if CanReceive(n, n.progress[to]) {
      var ents := SendsBatch(c, n, to, false);
      BatchFits(c, n, n.progress[to], ents);
      DrainExhausts(c, MaybeSendAppend(c, n, to, false).0, to);
    }
  }

  lemma BatchFits(c: Config, n: Node, pr: Progress, ents: seq<Entry>)
    requires IsBatch(c, n, pr, ents)
    ensures 0 < |ents| && pr.next + |ents| <= |n.log| + 1
  {}

  lemma DrainOnce(c: Config, n: Node, to: Id)
    requires to in n.progress && n.progress[to].next <= |n.log| + 1
    ensures var (n', sent) := MaybeSendAppend(c, n, to, false);
            && n'.log == n.log && to in n'.progress
            && Drain(c, n, to) == (if sent then Drain(c, n', to) else n')
            && (!CanReceive(n, n.progress[to]) ==> !sent && n' == n)
  {
    hide LimitSize, Window.Full, PayloadsSize;
  }

  /** The append that goes to a peer: anchored before Next, with the commit index, and
      with the next entries if it can receive any. */
  ghost predicate IsAppendTo(c: Config, n: Node, to: Id, m: Message)
    requires to in n.progress
  {
    var pr := n.progress[to];
    && m.MsgApp? && m.from == n.id && m.to == to && m.term == n.term && m.commit == n.committed && m.prev.index == pr.next - 1
    && (if CanReceive(n, pr) then IsBatch(c, n, pr, m.entries) else m.entries == [])
  }

  lemma SendsOne(c: Config, n: Node, to: Id) returns (m: Message)
    requires to in n.progress && !n.progress[to].IsPaused() && n.progress[to].next <= |n.log| + 1
    ensures IsAppendTo(c, n, to, m) && SendAppend(c, n, to).msgs == n.msgs + [m]
  {
    hide IsBatch, Window.Full, LimitSize;
    var pr := n.progress[to];
    if CanReceive(n, pr) {
      var ents := SendsBatch(c, n, to, true);
      m := MsgApp(n.id, to, n.term, EntryID(if pr.next == 1 then 0 else n.log[pr.next - 2].term, pr.next - 1), ents, n.committed);
    } else {
      m := MsgApp(n.id, to, n.term, EntryID(if pr.next == 1 then 0 else n.log[pr.next - 2].term, pr.next - 1), [], n.committed);
    }
  }

  lemma OthersApart(c: Config, n: Node, to: Id, p: Id)
    requires to in n.progress && p in n.progress && p != to
    ensures p in SendAppend(c, n, to).progress && SendAppend(c, n, to).progress[p] == n.progress[p]
  {
    hide NextEntries, PayloadsSize, Window.Full;
  }

  /** A broadcast reaches every other peer that is not paused. */
  lemma {:induction false} BroadcastReaches(c: Config, n: Node, ids: seq<Id>, p: Id) returns (m: Message)
    requires p in ids && p != n.id && p in n.progress && !n.progress[p].IsPaused() && n.progress[p].next <= |n.log| + 1
    ensures IsAppendTo(c, n, p, m) && m in BcastAppend(c, n, ids).msgs
    decreases |ids|
  {
    hide SendAppend, IsBatch, OnlySent;
    if ids[0] == p {
      m := SendsOne(c, n, p);
      BcastAppendSends(c, SendAppend(c, n, p), ids[1..]);
      KeptInOutbox(SendAppend(c, n, p), BcastAppend(c, n, ids), m);
    } else if ids[0] == n.id || ids[0] !in n.progress {
      m := BroadcastReaches(c, n, ids[1..], p);
    } else {
      OthersApart(c, n, ids[0], p);
      OneAppendSends(c, n, ids[0]);
      var n' := SendAppend(c, n, ids[0]);
      SentKeepsPeers(n, n');
      m := BroadcastReaches(c, n', ids[1..], p);
      AlikeAppend(c, n, n', p, m);
    }
  }

  lemma KeptInOutbox(n: Node, n': Node, m: Message)
    requires OnlySent(n, n') && m in n.msgs
    ensures m in n'.msgs
  {}

  lemma AlikeAppend(c: Config, n: Node, n': Node, p: Id, m: Message)
    requires KeepsPeers(n, n') && p in n.progress && n'.progress[p] == n.progress[p] && IsAppendTo(c, n', p, m)
    ensures IsAppendTo(c, n, p, m)
  {}

  /** Heartbeats reach every other peer, with the commit index that the peer is known
      to have reached. */
  lemma {:induction false} HeartbeatsReach(n: Node, ctx: nat, ids: seq<Id>, p: Id)
    requires p in ids && p != n.id && p in n.progress
    ensures MsgHeartbeat(n.id, p, n.term, Min(n.progress[p].matched, n.committed), ctx) in BcastHeartbeat(n, ctx, ids).msgs
    decreases |ids|
  {
    hide OnlySent;
    if ids[0] == p {
      var n' := SendHeartbeat(n, p, ctx);
      BcastHeartbeatSends(n', ctx, ids[1..]);
      KeptInOutbox(n', BcastHeartbeat(n, ctx, ids), MsgHeartbeat(n.id, p, n.term, Min(n.progress[p].matched, n.committed), ctx));
    } else if ids[0] == n.id || ids[0] !in n.progress {
      HeartbeatsReach(n, ctx, ids[1..], p);
    } else {
      HeartbeatsReach(SendHeartbeat(n, ids[0], ctx), ctx, ids[1..], p);
    }
  }

  /** ... and that commit index is recorded as sent; nothing else about a peer changes. */
  lemma {:induction false} HeartbeatsRecord(n: Node, ctx: nat, ids: seq<Id>, p: Id)
    requires p in n.progress
    ensures var n' := BcastHeartbeat(n, ctx, ids);
            && p in n'.progress
            && n'.progress[p] == if p in ids && p != n.id then n.progress[p].(sentCommit := Min(n.progress[p].matched, n.committed))
                                 else n.progress[p]
    decreases |ids|
  {
    if ids != [] {
      if ids[0] == n.id || ids[0] !in n.progress { HeartbeatsRecord(n, ctx, ids[1..], p); }
      else { HeartbeatsRecord(SendHeartbeat(n, ids[0], ctx), ctx, ids[1..], p); }
    }
  }

  /** A leader of a run that is to send heartbeats sends one to every other peer, with
      the position of its last unconfirmed read. */
  lemma BeatRule(c: Config, run: seq<Cluster>, i: nat, a: Id, m: Message, e: Env, p: Id)
    requires c.Valid() && IsRun(c, run) && i < |run| && a in run[i].nodes && m.MsgBeat? && m.term == 0
    requires run[i].nodes[a].role.Leader? && p in c.peers && p != a
    ensures var n := run[i].nodes[a]; var n' := Step(c, n, m, e);
            && KeepsLog(n, n') && p in n.progress
            && MsgHeartbeat(a, p, n.term, Min(n.progress[p].matched, n.committed),
                            if n.readOnly.unconfirmed == [] then 0 else n.readOnly.Total()) in n'.msgs
            && p in n'.progress && n'.progress[p] == n.progress[p].(sentCommit := Min(n.progress[p].matched, n.committed))
  {
    hide IsRun, BcastHeartbeat, OnlySent;
    var n := run[i].nodes[a];
    NodesRest(c, run, i, a);
    PeersTracked(c, run, i, a, p);
    BcastHeartbeatSends(n, n.readOnly.HeartbeatCtx(), c.peers);
    SentKeepsPeers(n, Step(c, n, m, e));
    HeartbeatsReach(n, n.readOnly.HeartbeatCtx(), c.peers, p);
    HeartbeatsRecord(n, n.readOnly.HeartbeatCtx(), c.peers, p);
  }

  lemma PeersTracked(c: Config, run: seq<Cluster>, i: nat, a: Id, p: Id)
    requires c.Valid() && IsRun(c, run) && i < |run| && a in run[i].nodes
    ensures p in run[i].nodes[a].progress <==> p in c.peers
    ensures a in run[i].nodes[a].progress
  {
    hide IsRun, Inv, HistInv, LogFits, CommitFits, PastFits, OutboxOk, Serving, AcksFit, Running, Link, Leading, Tracks;
    var hs := EveryRun(c, run);
    InvParts(c, run[i], hs[i], a);
  }

  // ------------------------------------------------------- nothing is left unsent

  /** The peer knows of the commit index as far as it can use it, or is paused. */
  predicate Told(n: Node, pr: Progress) {
    pr.IsPaused() || n.committed <= pr.sentCommit || pr.sentCommit >= pr.next - 1
  }

  lemma SendTells(c: Config, n: Node, to: Id, sendIfEmpty: bool)
    requires to in n.progress && n.progress[to].next <= |n.log| + 1
    ensures var (n', sent) := MaybeSendAppend(c, n, to, sendIfEmpty);
            && n'.log == n.log && n'.committed == n.committed && to in n'.progress && n'.progress[to].next <= |n.log| + 1
            && (sendIfEmpty || Told(n, n.progress[to]) ==> Told(n', n'.progress[to]))
  {
    hide IsBatch, Window.Full, LimitSize;
    if CanReceive(n, n.progress[to]) {
      var ents := SendsBatch(c, n, to, sendIfEmpty);
      BatchFits(c, n, n.progress[to], ents);
    }
  }

  lemma {:induction false} BroadcastTells(c: Config, n: Node, ids: seq<Id>, p: Id)
    requires p != n.id && p in n.progress && n.progress[p].next <= |n.log| + 1 && (p in ids || Told(n, n.progress[p]))
    ensures var n' := BcastAppend(c, n, ids); p in n'.progress && Told(n', n'.progress[p]) && n'.progress[p].next <= |n'.log| + 1
    decreases |ids|
  {
    hide MaybeSendAppend, OnlySent, Told;
    if ids != [] {
      var to := ids[0];
      if to == n.id || to !in n.progress {
        BroadcastTells(c, n, ids[1..], p);
      } else {
        var n' := SendAppend(c, n, to);
        OneAppendSends(c, n, to);
        SentKeepsPeers(n, n');
        if to == p { SendTells(c, n, p, true); } else { OthersApart(c, n, to, p); SameTold(n, n', p); }
        BroadcastTells(c, n', ids[1..], p);
      }
    }
  }

  lemma SameTold(n: Node, n': Node, p: Id)
    requires KeepsPeers(n, n') && p in n.progress && n'.progress[p] == n.progress[p]
    ensures Told(n, n.progress[p]) ==> Told(n', n'.progress[p])
  {}

  lemma {:induction false} DrainTells(c: Config, n: Node, to: Id)
    requires to in n.progress && n.progress[to].next <= |n.log| + 1 && Told(n, n.progress[to])
    ensures to in Drain(c, n, to).progress && Told(Drain(c, n, to), Drain(c, n, to).progress[to])
    decreases |n.log| + 1 - n.progress[to].next, !n.progress[to].paused
  {
    hide Told;
    SendTells(c, n, to, false);
    var (n', sent) := MaybeSendAppend(c, n, to, false);
    if sent { DrainTells(c, n', to); }
  }

  lemma CommitTells(c: Config, n: Node, p: Id)
    requires p in n.progress && p != n.id && p in c.peers && n.progress[p].next <= |n.log| + 1
    ensures var n' := AfterCommit(c, n, p); p in n'.progress && Told(n', n'.progress[p]) && n'.progress[p].next <= |n'.log| + 1
  {
    hide BcastAppend, MaybeSendAppend, ReleasePendingReads, MaybeCommit, OnlySent;
    var n' := MaybeCommit(c, n);
    CommitKeeps(c, n);
    if n'.committed != n.committed {
      ReleaseKeepsPeers(c, n');
      ReleaseKeepsNext(c, n', p);
      BroadcastTells(c, ReleasePendingReads(c, n'), c.peers, p);
    } else {
      SendTells(c, n', p, true);
    }
  }

  lemma {:induction false} QueuesKeepNext(c: Config, n: Node, reqs: seq<ReadRequest>, p: Id)
    requires p in n.progress
    ensures p in QueueReads(c, n, reqs).progress && QueueReads(c, n, reqs).progress[p].next == n.progress[p].next
    decreases |reqs|
  {
    hide BcastHeartbeat;
    if reqs != [] {
      var ro := n.readOnly.AddRequest(n.committed, reqs[0]);
      var n' := n.(readOnly := ro.RecvAck(n.id, ro.HeartbeatCtx()));
      HeartbeatsRecord(n', n'.readOnly.HeartbeatCtx(), c.peers, p);
      QueuesKeepNext(c, QueueRead(c, n, reqs[0]), reqs[1..], p);
    }
  }

  lemma ReleaseKeepsNext(c: Config, n: Node, p: Id)
    requires p in n.progress
    ensures p in ReleasePendingReads(c, n).progress && ReleasePendingReads(c, n).progress[p].next == n.progress[p].next
  {
    hide QueueReads;
    QueuesKeepNext(c, n.(pendingReads := []), n.pendingReads, p);
  }

  /** After an acknowledgement that was news, the peer has been sent all that it can
      receive, and has been told of the commit index. */
  lemma AckSendsAll(c: Config, n: Node, m: Message)
    requires m.MsgAppResp? && m.from in n.progress && m.from != n.id && m.from in c.peers
    requires IsNews(n.progress[m.from], m.index) && AfterAck(n, m.from, m.index).progress[m.from].next <= |n.log| + 1
    ensures var n', p := HandleAck(c, n, m), m.from;
            p in n'.progress && !CanReceive(n', n'.progress[p]) && Told(n', n'.progress[p])
  {
    hide HandleAck, AckedProgress, AfterCommit, Drain, Told, CanReceive, IsNews, OnlySent;
    var p := m.from;
    AckSplits(c, n, m);
    var n1 := AfterAck(n, p, m.index);
    CommitTells(c, n1, p);
    var n2 := AfterCommit(c, n1, p);
    CommitSends(c, n1, p);
    CommitKeeps(c, n1);
    DrainTells(c, n2, p);
    DrainExhausts(c, n2, p);
    DrainSends(c, n2, p);
    SentKeepsPeers(n2, Drain(c, n2, p));
    TransferApart(n2, AfterNews(c, n1, p), p);
  }

  lemma TransferApart(n: Node, n': Node, p: Id)
    requires p in n'.progress && n'.log == n.log && !CanReceive(n, n'.progress[p]) && Told(n', n'.progress[p])
    ensures var n'' := Transferred(n', p);
            p in n''.progress && !CanReceive(n'', n''.progress[p]) && Told(n'', n''.progress[p])
  {}

  lemma AckedNext(c: Config, run: seq<Cluster>, i: nat, a: Id, m: Message)
    requires c.Valid() && IsRun(c, run) && i < |run| && a in run[i].nodes && Deliverable(run[i], a, m) && m.MsgAppResp? && !m.reject
    requires run[i].nodes[a].role.Leader? && m.term == run[i].nodes[a].term && m.from in run[i].nodes[a].progress
    ensures AfterAck(run[i].nodes[a], m.from, m.index).progress[m.from].next <= |run[i].nodes[a].log| + 1
  {
    hide IsRun, HistInv, NodeInv, AckSent, Link, AckedProgress, Progress.MaybeUpdate;
    var hs := EveryRun(c, run);
    InvParts(c, run[i], hs[i], a);
    assert MsgOk(m, hs[i]);
    AckFitsProgress(c, run[i].nodes[a], hs[i], m);
  }

  /** In every run the peer is then replicated to, and has been sent the whole log and the
      commit index as far as it can use it, unless its window is full. */
  lemma AckDrains(c: Config, run: seq<Cluster>, i: nat, a: Id, m: Message, e: Env)
    requires c.Valid() && IsRun(c, run) && i < |run| && a in run[i].nodes && Deliverable(run[i], a, m) && m.MsgAppResp? && !m.reject
    requires run[i].nodes[a].role.Leader? && m.term == run[i].nodes[a].term && m.from in run[i].nodes[a].progress
    requires m.from != a && News(run[i].nodes[a].progress[m.from], m.index)
    ensures var n' := Step(c, run[i].nodes[a], m, e);
            && m.from in n'.progress
            && var pr := n'.progress[m.from];
               && pr.state.StateReplicate? && (pr.next == |n'.log| + 1 || pr.inflights.Full())
               && (n'.committed <= pr.sentCommit || pr.sentCommit >= pr.next - 1 || pr.inflights.Full())
  {
    hide IsRun, Step, StepLeader, HandleAck, AckedProgress, IsNews, Deliverable, Window.Full, FlowLaws.WindowFits;
    var n, q := run[i].nodes[a], m.from;
    NodesRest(c, run, i, a);
    PeersTracked(c, run, i, a, q);
    AckStays(c, n, m, e);
    AckReached(c, n, m, e);
    AckedNext(c, run, i, a, m);
    var n1 := SetProgress(n, q, n.progress[q].(recentActive := true));
    NewsIsNews(n1.progress[q], m.index);
    SameNext(n.progress[q], m.index);
    AckSendsAll(c, n1, m);
    AckRule(c, run, i, a, m, e);
    GoesOn(c, run, i, a, m, e);
    var run' := GoingOn(c, run, i, a, m, e);
    WindowsInOrder(c, run', i + 1, a, q);
    NextInLog(c, run', i + 1, a, q);
  }

  lemma SameNext(pr: Progress, index: nat)
    ensures AckedProgress(pr.(recentActive := true).MaybeUpdate(index).0, index).next == AckedProgress(pr.MaybeUpdate(index).0, index).next
  {
    hide Window.FreeLE;
  }

  // -------------------------------------------------------------------- proposals

  /** A proposal to a leader of a run is refused while leadership is being transferred
      or the quota is exhausted. Otherwise its payloads are appended in order, in the
      leader's term, acknowledged by the leader to itself, and sent to every other
      peer that is not paused. */
  lemma ProposalRule(c: Config, run: seq<Cluster>, i: nat, a: Id, m: Message, e: Env)
    requires c.Valid() && IsRun(c, run) && i < |run| && a in run[i].nodes && m.MsgProp? && m.term == 0 && m.payloads != []
    requires run[i].nodes[a].role.Leader?
    ensures var n := run[i].nodes[a]; var n' := Step(c, n, m, e);
            if n.transferee != NONE || !e.quota then n' == n
            else
              && n'.role.Leader? && n'.term == n.term && n'.committed == n.committed
              && |n'.log| == |n.log| + |m.payloads| && n.log <= n'.log
              && (forall j | 0 <= j < |m.payloads| :: n'.log[|n.log| + j] == Entry(n.term, |n.log| + 1 + j, m.payloads[j]))
              && MsgAppResp(a, a, n.term, |n'.log|, false, EntryID(0, 0)) in n'.msgs
  {
    hide IsRun, BcastAppend, OnlySent;
    var n := run[i].nodes[a];
    NodesRest(c, run, i, a);
    PeersTracked(c, run, i, a, a);
    var n1 := AppendEntry(n, m.payloads);
    var ack := Ack(n1, a, |n1.log|);
    BcastAppendSends(c, n1, c.peers);
    SentKeepsPeers(n1, BcastAppend(c, n1, c.peers));
    KeptInOutbox(n1, BcastAppend(c, n1, c.peers), ack);
  }

  lemma ProposalIsSent(c: Config, run: seq<Cluster>, i: nat, a: Id, m: Message, e: Env, p: Id) returns (x: Message)
    requires c.Valid() && IsRun(c, run) && i < |run| && a in run[i].nodes && m.MsgProp? && m.term == 0 && m.payloads != []
    requires run[i].nodes[a].role.Leader? && run[i].nodes[a].transferee == NONE && e.quota && p in c.peers && p != a
    requires p in run[i].nodes[a].progress && !run[i].nodes[a].progress[p].IsPaused()
    ensures var n := run[i].nodes[a]; var n' := Step(c, n, m, e);
            x in n'.msgs && IsAppendTo(c, AppendEntry(n, m.payloads), p, x)
  {
    hide IsRun, BcastAppend, IsAppendTo;
    var n := run[i].nodes[a];
    NodesRest(c, run, i, a);
    PeersTracked(c, run, i, a, a);
    NextInLog(c, run, i, a, p);
    x := BroadcastReaches(c, AppendEntry(n, m.payloads), c.peers, p);
  }

  lemma NextInLog(c: Config, run: seq<Cluster>, i: nat, a: Id, p: Id)
    requires c.Valid() && IsRun(c, run) && i < |run| && a in run[i].nodes && run[i].nodes[a].role.Leader?
    requires p in run[i].nodes[a].progress
    ensures run[i].nodes[a].progress[p].next <= |run[i].nodes[a].log| + 1
  {
    hide IsRun, Inv, HistInv, LogFits, CommitFits, PastFits, OutboxOk, Serving, AcksFit, Running, Link, Basic;
    var hs := EveryRun(c, run);
    InvParts(c, run[i], hs[i], a);
    var n := run[i].nodes[a];
    assert ProgressFits(n.id, n.term, |n.log|, hs[i], p, n.progress[p]);
  }
}
