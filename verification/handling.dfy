/** The handling of a follower's answers part by part. */
module Handling {
  import opened Quorum
  import opened Flow
  import opened RaftSpec

  predicate IsNews(pr: Progress, index: nat) {
    var (pr', updated) := pr.MaybeUpdate(index);
    updated || (pr'.matched == index && pr'.state.StateProbe?)
  }

  function AfterAck(n: Node, p: Id, index: nat): (n': Node)
    requires p in n.progress
    ensures p in n'.progress
  {
    SetProgress(n, p, AckedProgress(n.progress[p].MaybeUpdate(index).0, index))
  }

  /** Commits what is now on a quorum and tells the group, or else the one. */
  ghost function AfterCommit(c: Config, n: Node, p: Id): Node
    requires p in n.progress
  {
    var n' := MaybeCommit(c, n);
    if n'.committed != n.committed then BcastAppend(c, ReleasePendingReads(c, n'), c.peers)
    else if n.id != p && n'.progress[p].CanBumpCommit(n'.committed) then SendAppend(c, n', p)
    else n'
  }

  ghost function AfterNews(c: Config, n: Node, p: Id): Node
    requires p in n.progress
  {
    var n' := AfterCommit(c, n, p);
    if n.id != p && p in n'.progress then Drain(c, n', p) else n'
  }

  /** The transferee is told to campaign once it has the whole log. */
  function Transferred(n: Node, p: Id): Node {
    if p == n.transferee && p in n.progress && n.progress[p].matched == |n.log| then Send(n, MsgTimeoutNow(n.id, p, n.term)) else n
  }

  /** A peer that answers is alive, and is sent what it lacks. */
  function AfterBeat(c: Config, n: Node, p: Id): Node
    requires p in n.progress
  {
    var pr := n.progress[p].(recentActive := true, paused := false);
    var n' := SetProgress(n, p, pr);
    if pr.matched < |n.log| || pr.state.StateProbe? then SendAppend(c, n', p) else n'
  }

  lemma BeatSplits(c: Config, n: Node, m: Message)
    requires m.MsgHeartbeatResp? && m.from in n.progress
    ensures var n' := AfterBeat(c, n, m.from);
            HandleHeartbeatResp(c, n, m) == if m.context == 0 then n'
                                            else AdvanceReads(c, n'.(readOnly := n'.readOnly.RecvAck(m.from, m.context)))
  {
    hide SendAppend, AdvanceReads;
  }

  lemma AckSplits(c: Config, n: Node, m: Message)
    requires m.MsgAppResp? && m.from in n.progress
    ensures HandleAck(c, n, m) == if IsNews(n.progress[m.from], m.index)
                                  then Transferred(AfterNews(c, AfterAck(n, m.from, m.index), m.from), m.from) else n
  {
    hide BcastAppend, Drain, MaybeCommit, ReleasePendingReads, SendAppend, Progress.MaybeUpdate, AckedProgress,
      Progress.CanBumpCommit, Send;
    CommitKeeps(c, AfterAck(n, m.from, m.index));
  }

  lemma CommitKeeps(c: Config, n: Node)
    ensures MaybeCommit(c, n) == n.(committed := MaybeCommit(c, n).committed)
  {}
}
