/** The raft node as the program keeps it: an object that owns its log, the
    tracker of its peers and its queue of reads, and updates them in place. Its
    view is the node of the specification, and every handler is proved to take
    that view where the specification takes it. */
module RaftNode {
  import opened Quorum
  import opened Logs
  import opened Sizes
  import opened Flow
  import opened ReadQueue
  import opened RaftSpec
  import opened StableStorage
  import opened Trackers
  import opened ReadIndex
  import opened Handling
  import TwoPartLog

  // -------------------------------------------------------- uncompacted logs

  /** The log from which nothing was compacted. */
  function Full(log: seq<Entry>): Suffix { Suffix(EntryID(0, 0), log) }

  lemma FullReads(log: seq<Entry>, i: nat)
    ensures Full(log).TermOf(i) == match TermAt(log, i) case Some(t) => Ok(t) case None => Err(Unavailable)
    ensures Full(log).LastTerm() == LastTerm(log) && Full(log).Last() == |log|
  {}

  lemma FullRange(log: seq<Entry>, i: nat)
    requires 1 <= i <= |log|
    ensures Full(log).Range(i, |log| + 1) == log[i - 1..]
  {}

  lemma FullGrows(log: seq<Entry>, ents: seq<Entry>)
    requires ents != [] ==> ents[0].index == |log| + 1
    ensures Full(log).Overwrite(ents) == Full(log + ents)
  {}

  /** The append of the two-part log is the append of the abstract one. */
  lemma AppendsAgree(log: seq<Entry>, committed: nat, prev: EntryID, ents: seq<Entry>, commit: nat)
    requires Consecutive(ents, prev.index + 1)
    ensures match TwoPartLog.Outcome(Full(log), committed, prev, ents)
            case Mismatch => MaybeAppend(log, committed, prev, ents, commit) == Rejected
            case Clash => MaybeAppend(log, committed, prev, ents, commit) == Panicked
            case Appends(last) =>
              && last == prev.index + |ents| && TwoPartLog.Splice(Full(log), prev.index, ents).base == EntryID(0, 0)
              && MaybeAppend(log, committed, prev, ents, commit) ==
                 Accepted(TwoPartLog.Splice(Full(log), prev.index, ents).entries, CommitTo(committed, Min(commit, last)))
  {
    hide TwoPartLog.Conflict, FindConflict, TwoPartLog.Splice, Spliced;
    FullReads(log, prev.index);
    TwoPartLog.SearchesAgree(log, ents, prev.index, 0, 0);
    TwoPartLog.SpliceAgrees(log, prev.index, ents);
  }

  lemma ResetIsFresh(c: Config, n: Node)
    ensures PartlyReset(n.progress, {}, n.id, |n.log|, c.maxInflight, c.maxInflightBytes) == AllFresh(c, n)
  {}

  lemma QuietIsChecked(m: map<Id, Progress>, self: Id)
    ensures PartlyQuiet(m, {}, self) == map p | p in m :: if p != self then m[p].(recentActive := false) else m[p]
  {}

  lemma SameEntry(m: map<Id, Progress>, p: Id)
    requires p in m
    ensures m[p := m[p]] == m
  {}

  lemma FreshMembers(c: Config, id: Id)
    ensures AllUnknown(c.peers, c.learners, c.maxInflight, c.maxInflightBytes) == NewNode(c, id).progress
  {}

  lemma ResetKeeps(c: Config, n: Node, term: nat)
    ensures Reset(c, n, term).failed == n.failed && Reset(c, n, term).id == n.id
    ensures Reset(c, n, term).progress.Keys == n.progress.Keys
  {}

  lemma SendKeeps(n: Node, m: Message)
    ensures var n' := Send(n, m); n' == n.(msgs := n'.msgs, failed := n'.failed)
  {}

  /** A rejection that is not genuine leaves the progress as it is. */
  lemma DecrKeeps(members: map<Id, Progress>, p: Id, rejected: nat, hint: nat)
    requires p in members
    ensures !members[p].MaybeDecrTo(rejected, hint).1 ==> members[p := members[p].MaybeDecrTo(rejected, hint).0] == members
  {}

  lemma UpdateKeeps(members: map<Id, Progress>, p: Id, n: nat)
    requires p in members
    ensures !members[p].MaybeUpdate(n).1 ==> members[p := members[p].MaybeUpdate(n).0] == members
  {}

  /** A group member starts as the cluster's first state has it. */
  lemma LoadedNew(c: Config, id: Id)
    ensures Loaded(c, id, HardState(0, NONE, 0), []) == NewNode(c, id)
  {
    assert AllFresh(c, NewNode(c, id)) == NewNode(c, id).progress;
  }

  /** The entries of an append follow its anchor one by one. */
  ghost predicate WellFormed(m: Message) { m.MsgApp? ==> Consecutive(m.entries, m.prev.index + 1) }

  // ---------------------------------------------------------------- the object

  class Raft {
    const c: Config
    const id: Id
    const raftLog: TwoPartLog.RaftLog
    const trk: PeerTracker
    var readOnly: ReadRequests
    var term: nat
    var vote: Id
    var role: Role
    var lead: Id
    var leadTransferee: Id
    var pendingReads: seq<ReadRequest>
    var readStates: seq<ReadState>
    var msgs: seq<Message>
    /** Set where the program panics. */
    var failed: bool
    /** What the log stands for. */
    ghost var Log: seq<Entry>

    /** The objects of the peers are not the node's other objects. */
    ghost predicate Separate()
      reads `readOnly, trk`Repr
    {
      && this !in trk.Repr && raftLog !in trk.Repr && raftLog.storage !in trk.Repr && raftLog.unstable !in trk.Repr
      && trk !in trk.Repr && readOnly !in trk.Repr
    }

    ghost predicate LogValid()
      reads `Log, raftLog, raftLog.storage, raftLog.unstable
    {
      raftLog.Valid() && raftLog.View() == Full(Log) && raftLog.size == c.size
    }

    ghost predicate PeersValid()
      reads trk`Owner, trk`Members, trk`Repr, trk.Repr
    {
      && trk.Valid() && trk.voters == c.voters
      && trk.maxInflight == c.maxInflight && trk.maxInflightBytes == c.maxInflightBytes
    }

    ghost predicate Valid()
      reads `Log, `readOnly, raftLog, raftLog.storage, raftLog.unstable, trk`Owner, trk`Members, trk`Repr, trk.Repr
    {
      Separate() && LogValid() && PeersValid()
    }

    ghost function View(): Node
      reads this, raftLog, trk, readOnly
    {
      Node(id, term, vote, role, lead, leadTransferee, Log, raftLog.committed, trk.votes, trk.Members, readOnly.View(),
           pendingReads, readStates, msgs, failed)
    }

    /** The node has become n, and owns nothing it did not own or create. */
    twostate predicate Becomes(n: Node)
      reads this, raftLog, raftLog.storage, raftLog.unstable, trk, trk.Repr, readOnly
    {
      && Valid() && View() == n
      && fresh(trk.Repr - old(trk.Repr)) && (readOnly == old(readOnly) || fresh(readOnly))
    }

    /** Starts a node from durable state. */
    constructor (c: Config, id: Id, storage: MemoryStorage, hs: HardState, maxApplyingEntsSize: nat)
      requires storage.Valid() && storage.View().base == EntryID(0, 0) && hs.commit <= storage.View().Last()
      requires Positive(c.size)
      ensures this.c == c && this.id == id && raftLog.storage == storage && Valid()
      ensures fresh(raftLog) && fresh(raftLog.unstable) && fresh(trk) && fresh(trk.Repr) && fresh(readOnly)
      ensures View() == Loaded(c, id, hs, storage.View().entries)
    {
      hide PeerTracker.Valid, TwoPartLog.RaftLog.Valid, TwoPartLog.RaftLog.View, Positive;
      this.c, this.id := c, id;
      raftLog := new TwoPartLog.RaftLog(storage, c.size, maxApplyingEntsSize);
      trk := new PeerTracker(c.voters, c.peers, c.learners, c.maxInflight, c.maxInflightBytes);
      readOnly := new ReadRequests();
      term, vote, role, lead, leadTransferee := hs.term, hs.vote, Follower, NONE, NONE;
      pendingReads, readStates, msgs, failed := [], [], [], false;
      Log := storage.View().entries;
      new;
      assert LogValid();
      var _ := raftLog.CommitTo(hs.commit);
      FreshMembers(c, id);
      trk.SameKeys();
      BecomeFollower(term, NONE);
    }

    // ---------------------------------------------------------------- sending

    method Send(m: Message)
      requires Valid()
      modifies `msgs, `failed
      ensures Valid() && View() == RaftSpec.Send(old(View()), m)
    {
      hide LogValid, PeersValid;
      if IsVoteMsg(m) && m.term == 0 { failed := true; }
      if !(m.MsgAppResp? || m.MsgVoteResp? || m.MsgPreVoteResp?) && m.to == id { failed := true; }
      msgs := msgs + [m];
    }

    method Forward(t: nat, m: Message)
      requires Valid()
      modifies `msgs, `failed
      ensures Valid() && View() == RaftSpec.Forward(old(View()), t, m)
    {
      hide LogValid, PeersValid;
      if t != 0 { failed := true; }
      Send(m);
    }

    method LastIndex() returns (last: nat)
      requires LogValid()
      ensures last == |Log|
    {
      last := raftLog.LastIndex();
    }

    /** The entries of the next append to `to`. */
    method NextEntries(to: Id) returns (ents: seq<Entry>)
      requires Valid() && to in trk.progress
      ensures to in trk.Members && ents == RaftSpec.NextEntries(c, View(), to)
      ensures trk.Members[to].state.StateReplicate? && trk.Members[to].inflights.Full() ==> ents == []
    {
      hide PeerTracker.Valid, TwoPartLog.RaftLog.Valid, TwoPartLog.RaftLog.View, LimitSize, Window.Full;
      trk.FieldsAt(to);
      var pr := trk.progress[to];
      var full := trk.Full(to);
      if pr.state.StateReplicate? && full { return []; }
      var r := raftLog.Entries(pr.next, c.maxMsgSize);
      if pr.next <= |Log| { FullRange(Log, pr.next); }
      return r.value;
    }

    /** The term of the entry before the next one to send. */
    method PrevTerm(to: Id) returns (t: Option<nat>)
      requires Valid() && to in trk.progress
      ensures to in trk.Members && t == TermAt(Log, trk.Members[to].next - 1)
    {
      hide PeerTracker.Valid, TwoPartLog.RaftLog.Valid, TwoPartLog.RaftLog.View;
      trk.FieldsAt(to);
      var pr := trk.progress[to];
      FullReads(Log, pr.next - 1);
      var r := raftLog.Term(pr.next - 1);
      return if r.Ok? then Some(r.value) else None;
    }

    /** Sends the entries after prev and records that they are on their way. */
    method SendEntries(to: Id, prev: EntryID, ents: seq<Entry>)
      requires Valid() && to in trk.progress && !View().progress[to].state.StateSnapshot?
      requires View().progress[to].state.StateReplicate? && ents != [] ==> !View().progress[to].inflights.Full()
      modifies `msgs, `failed, trk, trk.Repr
      ensures var n := old(View());
              Becomes(SetProgress(RaftSpec.Send(n, MsgApp(id, to, n.term, prev, ents, n.committed)), to,
                                  n.progress[to].SentEntries(|ents|, PayloadsSize(ents)).SentCommit(n.committed)))
    {
      hide LogValid, PeersValid, RaftSpec.Send, PayloadsSize, Progress.SentEntries, Window.Full;
      SendKeeps(View(), MsgApp(id, to, term, prev, ents, raftLog.committed));
      Keys();
      Send(MsgApp(id, to, term, prev, ents, raftLog.committed));
      RecordSent(to, |ents|, PayloadsSize(ents));
    }

    method RecordSent(to: Id, entries: nat, bytes: nat)
      requires Valid() && to in trk.progress && !View().progress[to].state.StateSnapshot?
      requires View().progress[to].state.StateReplicate? && entries > 0 ==> !View().progress[to].inflights.Full()
      modifies trk, trk.Repr
      ensures var n := old(View());
              Becomes(SetProgress(n, to, n.progress[to].SentEntries(entries, bytes).SentCommit(n.committed)))
    {
      hide LogValid, PeerTracker.Valid, Progress.SentEntries, Window.Full;
      trk.SameKeys();
      trk.Sent(to, entries, bytes, raftLog.committed);
    }

    method MaybeSendAppend(to: Id, sendIfEmpty: bool) returns (sent: bool)
      requires Valid() && to in trk.progress
      modifies `msgs, `failed, trk, trk.Repr
      ensures Becomes(RaftSpec.MaybeSendAppend(c, old(View()), to, sendIfEmpty).0)
      ensures sent == RaftSpec.MaybeSendAppend(c, old(View()), to, sendIfEmpty).1
    {
      hide LogValid, PeerTracker.Valid, RaftSpec.Send, PayloadsSize, Progress.SentEntries, RaftSpec.NextEntries, Window.Full;
      trk.FieldsAt(to);
      var pr := trk.progress[to];
      if pr.state.StateSnapshot? || pr.msgAppFlowPaused { return false; }
      var prevTerm := PrevTerm(to);
      if prevTerm.None? {
        if pr.recentActive { failed := true; }
        return false;
      }
      var ents := NextEntries(to);
      if |ents| == 0 && !sendIfEmpty { return false; }
      SendEntries(to, EntryID(prevTerm.value, pr.next - 1), ents);
      return true;
    }

    method SendAppend(to: Id)
      requires Valid() && to in trk.progress
      modifies `msgs, `failed, trk, trk.Repr
      ensures Becomes(RaftSpec.SendAppend(c, old(View()), to))
    {
      hide LogValid, PeersValid, RaftSpec.MaybeSendAppend;
      var _ := MaybeSendAppend(to, true);
    }

    /** Sends as many appends with entries as the window has room for. */
    method Drain(to: Id)
      requires Valid() && to in trk.progress
      modifies `msgs, `failed, trk, trk.Repr
      ensures Becomes(RaftSpec.Drain(c, old(View()), to))
    {
      hide LogValid, PeersValid;
      Keys();
      var more := true;
      while more
        invariant Valid() && fresh(trk.Repr - old(trk.Repr)) && to in trk.Members
        invariant if more then RaftSpec.Drain(c, old(View()), to) == RaftSpec.Drain(c, View(), to)
                  else RaftSpec.Drain(c, old(View()), to) == View()
        decreases more, |Log| + 1 - trk.Members[to].next, !trk.Members[to].paused
      {
        more := MaybeSendAppend(to, false);
        Keys();
      }
    }

    lemma Keys()
      requires Valid()
      ensures trk.Members.Keys == trk.progress.Keys
    {}

    method BcastAppend()
      requires Valid()
      modifies `msgs, `failed, trk, trk.Repr
      ensures Becomes(RaftSpec.BcastAppend(c, old(View()), c.peers))
    {
      hide LogValid, PeersValid, RaftSpec.SendAppend;
      for i := 0 to |c.peers|
        invariant Valid() && fresh(trk.Repr - old(trk.Repr))
        invariant RaftSpec.BcastAppend(c, old(View()), c.peers) == RaftSpec.BcastAppend(c, View(), c.peers[i..])
      {
        assert c.peers[i..][0] == c.peers[i] && c.peers[i..][1..] == c.peers[i + 1..];
        Keys();
        if c.peers[i] != id && c.peers[i] in trk.progress { SendAppend(c.peers[i]); }
      }
    }

    method SendHeartbeat(to: Id, ctx: nat)
      requires Valid() && to in trk.progress
      modifies `msgs, `failed, trk, trk.Repr
      ensures Becomes(RaftSpec.SendHeartbeat(old(View()), to, ctx))
    {
      hide LogValid, PeerTracker.Valid, RaftSpec.Send;
      trk.FieldsAt(to);
      var commit := Min(trk.progress[to].matched, raftLog.committed);
      Send(MsgHeartbeat(id, to, term, commit, ctx));
      trk.SentCommit(to, commit);
    }

    method BcastHeartbeatWithCtx(ctx: nat)
      requires Valid()
      modifies `msgs, `failed, trk, trk.Repr
      ensures Becomes(RaftSpec.BcastHeartbeat(old(View()), ctx, c.peers))
    {
      hide LogValid, PeersValid, RaftSpec.SendHeartbeat;
      for i := 0 to |c.peers|
        invariant Valid() && fresh(trk.Repr - old(trk.Repr))
        invariant RaftSpec.BcastHeartbeat(old(View()), ctx, c.peers) == RaftSpec.BcastHeartbeat(View(), ctx, c.peers[i..])
      {
        assert c.peers[i..][0] == c.peers[i] && c.peers[i..][1..] == c.peers[i + 1..];
        Keys();
        if c.peers[i] != id && c.peers[i] in trk.progress { SendHeartbeat(c.peers[i], ctx); }
      }
    }

    method BcastHeartbeat()
      requires Valid()
      modifies `msgs, `failed, trk, trk.Repr
      ensures Becomes(RaftSpec.BcastHeartbeat(old(View()), old(View()).readOnly.HeartbeatCtx(), c.peers))
    {
      hide LogValid, PeersValid, RaftSpec.BcastHeartbeat;
      var ctx := readOnly.LastPosition();
      BcastHeartbeatWithCtx(ctx);
    }

    // ------------------------------------------------------- role transitions

    method ResetPeers()
      requires Valid()
      modifies trk, trk.Repr
      ensures Valid() && fresh(trk.Repr - old(trk.Repr))
      ensures View() == old(View()).(votes := map[], progress := AllFresh(c, old(View())))
    {
      hide PeerTracker.Valid, LogValid, AllFresh, PartlyReset;
      var last := LastIndex();
      ResetIsFresh(c, View());
      trk.ResetVotes();
      trk.Reset(id, last);
    }

    method ResetReads()
      requires Valid()
      modifies `readOnly
      ensures Valid() && fresh(readOnly) && View() == old(View()).(readOnly := NO_READS)
    {
      hide PeersValid, LogValid;
      readOnly := new ReadRequests();
    }

    method Reset(newTerm: nat)
      requires Valid()
      modifies `term, `vote, `lead, `leadTransferee, `readOnly, trk, trk.Repr
      ensures Becomes(RaftSpec.Reset(c, old(View()), newTerm))
    {
      hide PeersValid, LogValid, AllFresh;
      ResetPeers();
      ResetReads();
      term, vote := newTerm, if term != newTerm then NONE else vote;
      lead, leadTransferee := NONE, NONE;
    }

    method BecomeFollower(newTerm: nat, newLead: Id)
      requires Valid()
      modifies this, raftLog, raftLog.unstable, readOnly, trk, trk.Repr
      ensures Becomes(RaftSpec.BecomeFollower(c, old(View()), newTerm, newLead))
    {
      hide LogValid, PeersValid;
      Reset(newTerm);
      lead, role := newLead, Follower;
    }

    method BecomeCandidate()
      requires Valid()
      modifies `term, `vote, `lead, `leadTransferee, `readOnly, `role, `failed, trk, trk.Repr
      ensures Becomes(RaftSpec.BecomeCandidate(c, old(View())))
    {
      hide LogValid, PeersValid, RaftSpec.Reset;
      ResetKeeps(c, View(), term + 1);
      var invalid := role.Leader?;
      Reset(term + 1);
      if invalid { failed := true; }
      vote, role := id, Candidate;
    }

    method BecomePreCandidate()
      requires Valid()
      modifies `lead, `role, `failed, trk`votes
      ensures Becomes(RaftSpec.BecomePreCandidate(old(View())))
    {
      hide LogValid, PeersValid;
      if role.Leader? { failed := true; }
      trk.ResetVotes();
      lead, role := NONE, PreCandidate;
    }

    /** Appends entries of the current term and queues their acknowledgement. */
    method AppendEntry(payloads: seq<Payload>)
      requires Valid()
      modifies `msgs, `failed, `Log, raftLog.unstable
      ensures Becomes(RaftSpec.AppendEntry(old(View()), payloads))
    {
      hide PeersValid, TwoPartLog.RaftLog.Valid, TwoPartLog.RaftLog.View, RaftSpec.Send;
      var li := LastIndex();
      var ents: seq<Entry> := [];
      for i := 0 to |payloads|
        invariant ents == Stamped(View(), payloads)[..i]
      {
        ents := ents + [Entry(term, li + 1 + i, payloads[i])];
      }
      assert ents == Stamped(View(), payloads);
      FullGrows(Log, ents);
      raftLog.CommittedInLog();
      var last := raftLog.Append(ents);
      Log := Log + ents;
      Send(MsgAppResp(id, id, term, last, false, EntryID(0, 0)));
    }

    method BecomeLeader()
      requires Valid()
      modifies `term, `vote, `lead, `leadTransferee, `readOnly, `role, `msgs, `failed, `Log, raftLog.unstable, trk, trk.Repr
      ensures Becomes(RaftSpec.BecomeLeader(c, old(View())))
    {
      hide LogValid, PeersValid, RaftSpec.Reset, Progress.BecomeReplicate, RaftSpec.AppendEntry;
      ResetKeeps(c, View(), term);
      TakeOffice();
      TrackSelf();
      AppendEntry([""]);
    }

    method TakeOffice()
      requires Valid()
      modifies `term, `vote, `lead, `leadTransferee, `readOnly, `role, `failed, trk, trk.Repr
      ensures var n := old(View());
              Becomes(RaftSpec.Reset(c, n, n.term).(lead := id, role := Leader, failed := n.failed || n.role.Follower?))
    {
      hide LogValid, PeersValid, RaftSpec.Reset;
      ResetKeeps(c, View(), term);
      var invalid := role.Follower?;
      Reset(term);
      if invalid { failed := true; }
      lead, role := id, Leader;
    }

    /** A leader's own progress replicates and is always active. */
    method TrackSelf()
      requires Valid()
      modifies `failed, trk, trk.Repr
      ensures var n := old(View());
              Becomes(if id in n.progress then SetProgress(n, id, n.progress[id].BecomeReplicate().(recentActive := true))
                      else n.(failed := true))
    {
      hide LogValid, PeerTracker.Valid, Progress.BecomeReplicate;
      trk.SameKeys();
      if id in trk.progress {
        trk.BecomeReplicate(id);
        trk.SetActive(id, true);
      } else {
        failed := true;
      }
    }

    // ---------------------------------------------------------------- elections

    method SendVoteRequests(t: CampaignType, voteTerm: nat)
      requires Valid()
      modifies `msgs, `failed
      ensures Becomes(RaftSpec.SendVoteRequests(old(View()), t, voteTerm, c.voterIds))
    {
      hide LogValid, PeersValid, RaftSpec.Send;
      var last := LastEntryID();
      for i := 0 to |c.voterIds|
        invariant Valid()
        invariant RaftSpec.SendVoteRequests(old(View()), t, voteTerm, c.voterIds) ==
                  RaftSpec.SendVoteRequests(View(), t, voteTerm, c.voterIds[i..])
      {
        assert c.voterIds[i..][0] == c.voterIds[i] && c.voterIds[i..][1..] == c.voterIds[i + 1..];
        var to := c.voterIds[i];
        if to == id {
          if t.PreElection? { Send(MsgPreVoteResp(id, to, voteTerm, false)); } else { Send(MsgVoteResp(id, to, voteTerm, false)); }
        } else if t.PreElection? {
          Send(MsgPreVote(id, to, voteTerm, last, false));
        } else {
          Send(MsgVote(id, to, voteTerm, last, t.Transfer?));
        }
      }
    }

    method LastEntryID() returns (last: EntryID)
      requires LogValid()
      ensures last == EntryID(LastTerm(Log), |Log|)
    {
      hide TwoPartLog.RaftLog.Valid, TwoPartLog.RaftLog.View;
      FullReads(Log, 0);
      last := raftLog.LastEntryID();
    }

    method Campaign(t: CampaignType)
      requires Valid()
      modifies this, raftLog, raftLog.unstable, readOnly, trk, trk.Repr
      ensures Becomes(RaftSpec.Campaign(c, old(View()), t))
    {
      hide LogValid, PeersValid, RaftSpec.SendVoteRequests, RaftSpec.BecomeCandidate, RaftSpec.BecomePreCandidate;
      var voteTerm := term + 1;
      if t.PreElection? { BecomePreCandidate(); } else { BecomeCandidate(); }
      SendVoteRequests(t, voteTerm);
    }

    method Hup(t: CampaignType, e: Env)
      requires Valid()
      modifies this, raftLog, raftLog.unstable, readOnly, trk, trk.Repr
      ensures Becomes(RaftSpec.Hup(c, old(View()), t, e))
    {
      hide LogValid, PeerTracker.Valid, RaftSpec.Campaign;
      if role.Leader? { return; }
      trk.SameKeys();
      if id in trk.progress { trk.FieldsAt(id); }
      if id !in trk.progress || trk.progress[id].isLearner { return; }
      if e.unappliedConf { return; }
      Campaign(t);
    }

    method CanGrant(m: Message) returns (grant: bool)
      requires Valid() && (m.MsgVote? || m.MsgPreVote?)
      ensures grant <==> CanVote(View(), m) && IsUpToDate(Log, m.last)
    {
      hide PeersValid, TwoPartLog.RaftLog.Valid, TwoPartLog.RaftLog.View;
      FullReads(Log, 0);
      var canVote := vote == m.from || (vote == NONE && lead == NONE) || (m.MsgPreVote? && m.term > term);
      var upToDate := raftLog.IsUpToDate(m.last);
      return canVote && upToDate;
    }

    method HandleVote(m: Message)
      requires Valid() && (m.MsgVote? || m.MsgPreVote?)
      modifies `msgs, `failed, `vote
      ensures Becomes(RaftSpec.HandleVote(old(View()), m))
    {
      hide LogValid, PeersValid, RaftSpec.Send, CanVote, IsUpToDate;
      var grant := CanGrant(m);
      var respTerm := if grant then m.term else term;
      if m.MsgVote? {
        Send(MsgVoteResp(id, m.from, respTerm, !grant));
        if grant { vote := m.from; }
      } else {
        Send(MsgPreVoteResp(id, m.from, respTerm, !grant));
      }
    }

    method Poll(from: Id, granted: bool) returns (res: VoteResult)
      requires Valid()
      modifies trk`votes
      ensures Becomes(RecordVote(old(View()), from, granted)) && res == JointVote(c.voters, View().votes)
    {
      hide LogValid, PeerTracker.Valid, JointVote;
      trk.RecordVote(from, granted);
      res := trk.TallyVotes();
    }

    // ------------------------------------------------------- append and commit

    method HandleAppendEntries(m: Message)
      requires Valid() && m.MsgApp? && Consecutive(m.entries, m.prev.index + 1)
      modifies `msgs, `failed, `Log, raftLog, raftLog.unstable
      ensures Becomes(RaftSpec.HandleAppendEntries(old(View()), m))
    {
      hide PeersValid, TwoPartLog.RaftLog.Valid, TwoPartLog.RaftLog.View, MaybeAppend, RejectionHint, TwoPartLog.Outcome,
        TwoPartLog.Splice, TwoPartLog.SplicedTail, RaftSpec.Send, Consecutive;
      if m.prev.index < raftLog.committed {
        Send(MsgAppResp(id, m.from, term, raftLog.committed, false, EntryID(0, 0)));
        return;
      }
      AppendsAgree(Log, raftLog.committed, m.prev, m.entries, m.commit);
      var r := raftLog.MaybeAppend(m.prev, m.entries, m.commit);
      match r
      case Appends(last) =>
        Log := TwoPartLog.Splice(Full(Log), m.prev.index, m.entries).entries;
        Send(MsgAppResp(id, m.from, term, last, false, EntryID(0, 0)));
      case Clash => failed := true;
      case Mismatch =>
        var hint := Hint(m.prev);
        Send(MsgAppResp(id, m.from, term, m.prev.index, true, hint));
    }

    /** Where, by its own log, a follower last agreed with a leader that has prev. */
    method Hint(prev: EntryID) returns (hint: EntryID)
      requires LogValid()
      ensures hint == RejectionHint(Log, prev)
    {
      hide TwoPartLog.RaftLog.Valid, TwoPartLog.RaftLog.View, FindConflictByTerm, TwoPartLog.ConflictByTerm;
      var last := raftLog.LastIndex();
      TwoPartLog.SearchesAgree(Log, [], 0, Min(prev.index, |Log|), prev.term);
      var index, t := raftLog.FindConflictByTerm(Min(prev.index, last), prev.term);
      return EntryID(t, index);
    }

    method HandleHeartbeat(m: Message)
      requires Valid() && m.MsgHeartbeat?
      modifies `msgs, `failed, raftLog`committed
      ensures Becomes(RaftSpec.HandleHeartbeat(old(View()), m))
    {
      hide PeersValid, TwoPartLog.RaftLog.Valid, TwoPartLog.RaftLog.View, RaftSpec.Send;
      var ok := raftLog.CommitTo(m.commit);
      if !ok {
        failed := true;
        return;
      }
      Send(MsgHeartbeatResp(id, m.from, term, m.context));
    }

    /** The leader's guess from a follower's hint. */
    method ProbeIndex(hint: EntryID) returns (i: nat)
      requires LogValid()
      ensures i == NextProbeIndex(Log, hint)
    {
      hide TwoPartLog.RaftLog.Valid, TwoPartLog.RaftLog.View, FindConflictByTerm, TwoPartLog.ConflictByTerm;
      if hint.term == 0 { return hint.index; }
      TwoPartLog.SearchesAgree(Log, [], 0, hint.index, hint.term);
      var index, _ := raftLog.FindConflictByTerm(hint.index, hint.term);
      return index;
    }

    method HandleReject(m: Message)
      requires Valid() && m.MsgAppResp? && m.from in trk.progress
      modifies `msgs, `failed, trk, trk.Repr
      ensures Becomes(RaftSpec.HandleReject(c, old(View()), m))
    {
      hide LogValid, PeersValid, RaftSpec.SendAppend, NextProbeIndex, Progress.MaybeDecrTo, Progress.BecomeProbe;
      Keys();
      var probe := ProbeIndex(m.hint);
      var decreased := BackOff(m.from, m.index, probe);
      if decreased { SendAppend(m.from); }
    }

    /** Takes a rejection into account, if it is genuine. */
    method BackOff(p: Id, rejected: nat, probe: nat) returns (decreased: bool)
      requires Valid() && p in trk.progress
      modifies trk, trk.Repr
      ensures var n := old(View()); var pr := n.progress[p].MaybeDecrTo(rejected, probe).0;
              && decreased == n.progress[p].MaybeDecrTo(rejected, probe).1
              && Becomes(if decreased then SetProgress(n, p, if pr.state.StateReplicate? then pr.BecomeProbe() else pr) else n)
    {
      hide LogValid, PeerTracker.Valid, Progress.MaybeDecrTo, Progress.BecomeProbe;
      trk.SameKeys();
      DecrKeeps(trk.Members, p, rejected, probe);
      decreased := trk.MaybeDecrTo(p, rejected, probe);
      if decreased {
        trk.FieldsAt(p);
        if trk.progress[p].state.StateReplicate? { trk.BecomeProbe(p); }
      }
    }

    // ------------------------------------------------------------ progress news

    method Acknowledged(p: Id, index: nat) returns (news: bool)
      requires Valid() && p in trk.progress
      modifies trk, trk.Repr
      ensures news == IsNews(old(View()).progress[p], index)
      ensures Becomes(if news then AfterAck(old(View()), p, index) else old(View()))
    {
      hide LogValid, PeerTracker.Valid, Progress.MaybeUpdate, AckedProgress;
      trk.SameKeys();
      SameEntry(trk.Members, p);
      news := trk.Acknowledge(p, index);
    }

    method MaybeCommit() returns (advanced: bool)
      requires Valid()
      modifies raftLog`committed
      ensures Becomes(RaftSpec.MaybeCommit(c, old(View())))
      ensures advanced <==> View().committed != old(View()).committed
    {
      hide PeerTracker.Valid, TwoPartLog.RaftLog.Valid, TwoPartLog.RaftLog.View, JointCommitted;
      var at := trk.Committed();
      assert Matches(trk.Members) == MatchIndexes(View());
      if at.Infinity? { return false; }
      FullReads(Log, at.i);
      advanced := raftLog.MaybeCommit(EntryID(term, at.i));
    }

    method HandleAck(m: Message)
      requires Valid() && m.MsgAppResp? && m.from in trk.progress
      modifies this, raftLog, raftLog.unstable, readOnly, trk, trk.Repr
      ensures Becomes(RaftSpec.HandleAck(c, old(View()), m))
    {
      hide LogValid, PeersValid, RaftSpec.HandleAck, IsNews, AfterAck, AfterNews, Transferred;
      Keys();
      AckSplits(c, View(), m);
      var news := Acknowledged(m.from, m.index);
      if news {
        Keys();
        Replicate(m.from);
        FinishTransfer(m.from);
      }
    }

    /** Commits what can be committed and sends what can be sent after p has
        acknowledged something new. */
    method Replicate(p: Id)
      requires Valid() && p in trk.progress
      modifies this, raftLog, raftLog.unstable, readOnly, trk, trk.Repr
      ensures Becomes(AfterNews(c, old(View()), p))
    {
      hide LogValid, PeersValid, RaftSpec.Drain, AfterCommit;
      Keys();
      CommitAndSend(p);
      Keys();
      if id != p { Drain(p); }
    }

    method CommitAndSend(p: Id)
      requires Valid() && p in trk.progress
      modifies this, raftLog, raftLog.unstable, readOnly, trk, trk.Repr
      ensures Becomes(AfterCommit(c, old(View()), p))
    {
      hide LogValid, PeersValid, RaftSpec.BcastAppend, RaftSpec.MaybeCommit, RaftSpec.ReleasePendingReads, RaftSpec.SendAppend,
        Progress.CanBumpCommit;
      Keys();
      var advanced := MaybeCommit();
      if advanced {
        ReleasePendingReads();
        BcastAppend();
      } else if id != p {
        var bump := CanBumpCommit(p);
        if bump { SendAppend(p); }
      }
    }

    method CanBumpCommit(p: Id) returns (bump: bool)
      requires Valid() && p in trk.progress
      ensures p in trk.Members && bump == trk.Members[p].CanBumpCommit(raftLog.committed)
    {
      hide LogValid, PeerTracker.Valid;
      trk.FieldsAt(p);
      var pr := trk.progress[p];
      return raftLog.committed > pr.sentCommit && pr.sentCommit < pr.next - 1;
    }

    method FinishTransfer(p: Id)
      requires Valid() && p in trk.progress
      modifies `msgs, `failed
      ensures Becomes(Transferred(old(View()), p))
    {
      hide LogValid, PeerTracker.Valid, RaftSpec.Send;
      trk.FieldsAt(p);
      var last := LastIndex();
      if p == leadTransferee && trk.progress[p].matched == last { Send(MsgTimeoutNow(id, p, term)); }
    }

    // ------------------------------------------------------------------- reads

    method QueueRead(req: ReadRequest)
      requires Valid()
      modifies readOnly, `msgs, `failed, trk, trk.Repr
      ensures Becomes(RaftSpec.QueueRead(c, old(View()), req))
    {
      hide LogValid, PeersValid, RaftSpec.BcastHeartbeat;
      readOnly.AddRequest(raftLog.committed, req);
      var position := readOnly.LastPosition();
      readOnly.Acknowledge(id, position);
      BcastHeartbeatWithCtx(position);
    }

    method CommittedInTerm() returns (ok: bool)
      requires LogValid()
      ensures ok <==> TermAt(Log, raftLog.committed) == Some(term)
    {
      hide TwoPartLog.RaftLog.Valid, TwoPartLog.RaftLog.View;
      FullReads(Log, raftLog.committed);
      var t := raftLog.Term(raftLog.committed);
      return t == Ok(term);
    }

    method ReleasePendingReads()
      requires Valid()
      modifies `pendingReads, readOnly, `msgs, `failed, trk, trk.Repr
      ensures Becomes(RaftSpec.ReleasePendingReads(c, old(View())))
    {
      hide LogValid, PeersValid, RaftSpec.QueueRead;
      if |pendingReads| == 0 { return; }
      var ok := CommittedInTerm();
      if !ok { return; }
      var reqs := pendingReads;
      pendingReads := [];
      ghost var cleared := View();
      for i := 0 to |reqs|
        invariant Valid() && fresh(trk.Repr - old(trk.Repr))
        invariant QueueReads(c, cleared, reqs) == QueueReads(c, View(), reqs[i..])
      {
        assert reqs[i..][0] == reqs[i] && reqs[i..][1..] == reqs[i + 1..];
        QueueRead(reqs[i]);
      }
    }

    method Respond(req: ReadRequest, index: nat)
      requires Valid()
      modifies `readStates, `msgs, `failed
      ensures Becomes(RaftSpec.Respond(old(View()), req, index))
    {
      hide LogValid, PeersValid, RaftSpec.Send;
      if req.from == NONE || req.from == id {
        readStates := readStates + [ReadState(index, req.ctx)];
      } else {
        Send(MsgReadIndexResp(id, req.from, term, index, req.ctx));
      }
    }

    method HandleReadIndex(m: Message)
      requires Valid() && m.MsgReadIndex?
      modifies `pendingReads, `readStates, readOnly, `msgs, `failed, trk, trk.Repr
      ensures Becomes(RaftSpec.HandleReadIndex(c, old(View()), m))
    {
      hide LogValid, PeersValid, RaftSpec.QueueRead, RaftSpec.Respond;
      var req := ReadRequest(m.from, m.ctx);
      if c.IsSingleton() {
        Respond(req, raftLog.committed);
        return;
      }
      var ok := CommittedInTerm();
      if !ok {
        pendingReads := pendingReads + [req];
      } else {
        QueueRead(req);
      }
    }

    /** Cuts the confirmed reads off the queue and answers them in order. */
    method AdvanceReads()
      requires Valid()
      modifies readOnly, `readStates, `msgs, `failed
      ensures Becomes(RaftSpec.AdvanceReads(c, old(View())))
    {
      hide LogValid, PeersValid, RaftSpec.Respond, ReadOnly.Confirmable, ReadOnly.MaybeAdvance, JointCommitted;
      var batch, ok := readOnly.MaybeAdvance(c.voters);
      if !ok { failed := true; }
      ghost var cut := View();
      for i := 0 to |batch|
        invariant Valid() && RespondAll(cut, batch) == RespondAll(View(), batch[i..])
      {
        assert batch[i..][0] == batch[i] && batch[i..][1..] == batch[i + 1..];
        Respond(batch[i].req, batch[i].index);
      }
    }

    /** The peer is alive and may be sent to again. */
    method Heard(p: Id)
      requires Valid() && p in trk.progress
      modifies trk, trk.Repr
      ensures var n := old(View()); Becomes(SetProgress(n, p, n.progress[p].(recentActive := true, paused := false)))
    {
      hide LogValid, PeerTracker.Valid;
      trk.SameKeys();
      trk.SetActive(p, true);
      trk.Unpause(p);
    }

    method HandleHeartbeatResp(m: Message)
      requires Valid() && m.MsgHeartbeatResp? && m.from in trk.progress
      modifies readOnly, `readStates, `msgs, `failed, trk, trk.Repr
      ensures Becomes(RaftSpec.HandleHeartbeatResp(c, old(View()), m))
    {
      hide LogValid, PeersValid, AfterBeat, RaftSpec.AdvanceReads, RaftSpec.HandleHeartbeatResp;
      Keys();
      BeatSplits(c, View(), m);
      Resume(m.from);
      if m.context == 0 { return; }
      readOnly.Acknowledge(m.from, m.context);
      AdvanceReads();
    }

    method Resume(p: Id)
      requires Valid() && p in trk.progress
      modifies `msgs, `failed, trk, trk.Repr
      ensures Becomes(AfterBeat(c, old(View()), p))
    {
      hide LogValid, PeersValid, RaftSpec.SendAppend;
      Keys();
      Heard(p);
      var behind := IsBehind(p);
      if behind { SendAppend(p); }
    }

    method IsBehind(p: Id) returns (behind: bool)
      requires Valid() && p in trk.progress
      ensures p in trk.Members && (behind <==> trk.Members[p].matched < |Log| || trk.Members[p].state.StateProbe?)
    {
      hide LogValid, PeerTracker.Valid;
      trk.FieldsAt(p);
      var last := LastIndex();
      return trk.progress[p].matched < last || trk.progress[p].state.StateProbe?;
    }

    // ------------------------------------------------------------- leader upkeep

    method HandleCheckQuorum()
      requires Valid()
      modifies this, raftLog, raftLog.unstable, readOnly, trk, trk.Repr
      ensures Becomes(RaftSpec.HandleCheckQuorum(c, old(View())))
    {
      hide LogValid, PeerTracker.Valid, RaftSpec.BecomeFollower, PartlyQuiet, JointVote;
      var active := trk.QuorumActive();
      assert Trackers.Heard(trk.Members) == ActiveVotes(View());
      if !active { BecomeFollower(term, NONE); }
      QuietIsChecked(trk.Members, id);
      trk.MarkInactive(id);
    }

    method HandleTransfer(m: Message)
      requires Valid() && m.MsgTransferLeader? && m.from in trk.progress
      modifies `leadTransferee, `msgs, `failed, trk, trk.Repr
      ensures Becomes(RaftSpec.HandleTransfer(c, old(View()), m))
    {
      hide LogValid, PeerTracker.Valid, RaftSpec.Send, RaftSpec.SendAppend;
      trk.FieldsAt(m.from);
      if trk.progress[m.from].isLearner { return; }
      if leadTransferee != NONE {
        if leadTransferee == m.from { return; }
        leadTransferee := NONE;
      }
      if m.from == id { return; }
      leadTransferee := m.from;
      var last := LastIndex();
      if trk.progress[m.from].matched == last {
        Send(MsgTimeoutNow(id, m.from, term));
      } else {
        SendAppend(m.from);
      }
    }

    // ------------------------------------------------------------------- steps

    method Propose(payloads: seq<Payload>, e: Env)
      requires Valid()
      modifies this, raftLog, raftLog.unstable, readOnly, trk, trk.Repr
      ensures var n := old(View());
              Becomes(if payloads == [] then n.(failed := true)
                      else if n.id !in n.progress || n.transferee != NONE || !e.quota then n
                      else RaftSpec.BcastAppend(c, RaftSpec.AppendEntry(n, payloads), c.peers))
    {
      hide LogValid, PeersValid, RaftSpec.BcastAppend, RaftSpec.AppendEntry;
      Keys();
      if |payloads| == 0 { failed := true; return; }
      if id !in trk.progress || leadTransferee != NONE || !e.quota { return; }
      AppendEntry(payloads);
      BcastAppend();
    }

    method MarkActive(p: Id)
      requires Valid() && p in trk.progress
      modifies trk, trk.Repr
      ensures var n := old(View()); Becomes(SetProgress(n, p, n.progress[p].(recentActive := true)))
    {
      hide LogValid, PeerTracker.Valid;
      trk.SameKeys();
      trk.SetActive(p, true);
    }

    method HandleUnreachable(p: Id)
      requires Valid() && p in trk.progress
      modifies trk, trk.Repr
      ensures var n := old(View());
              Becomes(if n.progress[p].state.StateReplicate? then SetProgress(n, p, n.progress[p].BecomeProbe()) else n)
    {
      hide LogValid, PeerTracker.Valid, Progress.BecomeProbe;
      trk.FieldsAt(p);
      if trk.progress[p].state.StateReplicate? { trk.BecomeProbe(p); }
    }

    /** A leader handles what a peer it tracks sent. */
    method StepPeer(m: Message)
      requires Valid() && m.from in trk.progress
      requires !m.MsgBeat? && !m.MsgCheckQuorum? && !m.MsgProp? && !m.MsgReadIndex?
      modifies this, raftLog, raftLog.unstable, readOnly, trk, trk.Repr
      ensures forall e :: Becomes(RaftSpec.StepLeader(c, old(View()), m, e))
    {
      hide LogValid, PeersValid, RaftSpec.HandleReject, RaftSpec.HandleAck, RaftSpec.HandleHeartbeatResp, RaftSpec.HandleTransfer,
        Progress.BecomeProbe;
      Keys();
      if m.MsgAppResp? {
        MarkActive(m.from);
        if m.reject { HandleReject(m); } else { HandleAck(m); }
      } else if m.MsgHeartbeatResp? {
        HandleHeartbeatResp(m);
      } else if m.MsgUnreachable? {
        HandleUnreachable(m.from);
      } else if m.MsgTransferLeader? {
        HandleTransfer(m);
      }
    }

    method StepLeader(m: Message, e: Env)
      requires Valid()
      modifies this, raftLog, raftLog.unstable, readOnly, trk, trk.Repr
      ensures Becomes(RaftSpec.StepLeader(c, old(View()), m, e))
    {
      hide LogValid, PeersValid, RaftSpec.BcastAppend, RaftSpec.BcastHeartbeat, RaftSpec.HandleCheckQuorum, RaftSpec.AppendEntry,
        RaftSpec.HandleReadIndex, RaftSpec.HandleReject, RaftSpec.HandleAck, RaftSpec.HandleHeartbeatResp,
        RaftSpec.HandleTransfer, Progress.BecomeProbe;
      Keys();
      if m.MsgBeat? {
        BcastHeartbeat();
      } else if m.MsgCheckQuorum? {
        HandleCheckQuorum();
      } else if m.MsgProp? {
        Propose(m.payloads, e);
      } else if m.MsgReadIndex? {
        HandleReadIndex(m);
      } else if m.from in trk.progress {
        StepPeer(m);
      }
    }

    /** Records a vote and acts on the tally. */
    method CountVote(from: Id, granted: bool)
      requires Valid()
      modifies this, raftLog, raftLog.unstable, readOnly, trk, trk.Repr
      ensures Becomes(RaftSpec.CountVote(c, old(View()), from, granted))
    {
      hide LogValid, PeersValid, RaftSpec.BecomeFollower, RaftSpec.Campaign, RaftSpec.BecomeLeader, RaftSpec.BcastAppend, JointVote;
      var res := Poll(from, granted);
      match res
      case VoteWon =>
        if role.PreCandidate? {
          Campaign(Election);
        } else {
          BecomeLeader();
          BcastAppend();
        }
      case VoteLost => BecomeFollower(term, NONE);
      case VotePending =>
    }

    method StepCandidate(m: Message)
      requires Valid() && WellFormed(m)
      modifies this, raftLog, raftLog.unstable, readOnly, trk, trk.Repr
      ensures Becomes(RaftSpec.StepCandidate(c, old(View()), m))
    {
      hide LogValid, PeersValid, RaftSpec.BecomeFollower, RaftSpec.HandleAppendEntries, RaftSpec.HandleHeartbeat,
        RaftSpec.CountVote;
      if m.MsgApp? {
        BecomeFollower(m.term, m.from);
        HandleAppendEntries(m);
      } else if m.MsgHeartbeat? {
        BecomeFollower(m.term, m.from);
        HandleHeartbeat(m);
      } else if (m.MsgPreVoteResp? && role.PreCandidate?) || (m.MsgVoteResp? && role.Candidate?) {
        CountVote(m.from, !m.reject);
      }
    }

    method StepFollower(m: Message, e: Env)
      requires Valid() && WellFormed(m)
      modifies this, raftLog, raftLog.unstable, readOnly, trk, trk.Repr
      ensures Becomes(RaftSpec.StepFollower(c, old(View()), m, e))
    {
      hide LogValid, PeersValid, RaftSpec.HandleAppendEntries, RaftSpec.HandleHeartbeat, RaftSpec.Hup, RaftSpec.Forward;
      if m.MsgProp? {
        if lead == NONE || !c.forwardProposals { return; }
        Forward(m.term, MsgProp(if m.from == NONE then id else m.from, lead, 0, m.payloads));
      } else if m.MsgApp? {
        lead := m.from;
        HandleAppendEntries(m);
      } else if m.MsgHeartbeat? {
        lead := m.from;
        HandleHeartbeat(m);
      } else if m.MsgTransferLeader? {
        if lead == NONE { return; }
        Forward(m.term, MsgTransferLeader(if m.from == NONE then id else m.from, lead, term));
      } else if m.MsgForgetLeader? {
        lead := NONE;
      } else if m.MsgTimeoutNow? {
        Hup(Transfer, e);
      } else if m.MsgReadIndex? {
        if lead == NONE { return; }
        Forward(m.term, MsgReadIndex(if m.from == NONE then id else m.from, lead, 0, m.ctx));
      } else if m.MsgReadIndexResp? {
        readStates := readStates + [ReadState(m.index, m.ctx)];
      }
    }

    method AnswerStale(m: Message)
      requires Valid()
      modifies `msgs, `failed
      ensures Becomes(RaftSpec.AnswerStale(c, old(View()), m))
    {
      hide LogValid, PeersValid, RaftSpec.Send;
      if (c.checkQuorum || c.preVote) && (m.MsgHeartbeat? || m.MsgApp?) {
        Send(MsgAppResp(id, m.from, term, 0, false, EntryID(0, 0)));
      } else if m.MsgPreVote? {
        Send(MsgPreVoteResp(id, m.from, term, true));
      }
    }

    method StepKind(m: Message, e: Env)
      requires Valid() && WellFormed(m)
      modifies this, raftLog, raftLog.unstable, readOnly, trk, trk.Repr
      ensures Becomes(RaftSpec.StepKind(c, old(View()), m, e))
    {
      hide LogValid, PeersValid, RaftSpec.HandleVote, RaftSpec.Hup, RaftSpec.StepLeader, RaftSpec.StepFollower,
        RaftSpec.StepCandidate;
      if m.MsgHup? {
        Hup(if c.preVote then PreElection else Election, e);
      } else if m.MsgVote? || m.MsgPreVote? {
        HandleVote(m);
      } else if role.Leader? {
        StepLeader(m, e);
      } else if role.Follower? {
        StepFollower(m, e);
      } else {
        StepCandidate(m);
      }
    }

    method CatchUp(m: Message)
      requires Valid()
      modifies this, raftLog, raftLog.unstable, readOnly, trk, trk.Repr
      ensures Becomes(RaftSpec.CatchUp(c, old(View()), m))
    {
      hide LogValid, PeersValid, RaftSpec.BecomeFollower;
      if !m.MsgPreVote? && !(m.MsgPreVoteResp? && !m.reject) {
        BecomeFollower(m.term, if m.MsgApp? || m.MsgHeartbeat? then m.from else NONE);
      }
    }

    /** A message of a later term. */
    method StepNewer(m: Message, e: Env)
      requires Valid() && WellFormed(m) && m.term > term
      modifies this, raftLog, raftLog.unstable, readOnly, trk, trk.Repr
      ensures Becomes(RaftSpec.Step(c, old(View()), m, e))
    {
      hide LogValid, PeersValid, RaftSpec.CatchUp, RaftSpec.StepKind, RaftSpec.AnswerStale, WellFormed;
      if (m.MsgVote? || m.MsgPreVote?) && !m.transfer && c.checkQuorum && lead != NONE && e.inLease { return; }
      CatchUp(m);
      StepKind(m, e);
    }

    /** Advances the node with a message. */
    method Step(m: Message, e: Env)
      requires Valid() && WellFormed(m)
      modifies this, raftLog, raftLog.unstable, readOnly, trk, trk.Repr
      ensures Becomes(RaftSpec.Step(c, old(View()), m, e))
    {
      hide LogValid, PeersValid, RaftSpec.CatchUp, LeaseBlocks, RaftSpec.StepKind, RaftSpec.AnswerStale, WellFormed;
      if m.term > term {
        StepNewer(m, e);
      } else if 0 < m.term < term {
        AnswerStale(m);
      } else {
        StepKind(m, e);
      }
    }

    /** Hands over the outbox. */
    method TakeMessages() returns (out: seq<Message>)
      requires Valid()
      modifies `msgs
      ensures out == old(View()).msgs && Becomes(old(View()).(msgs := []))
    {
      hide LogValid, PeersValid;
      out := msgs;
      msgs := [];
    }
  }
}
