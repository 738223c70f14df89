/** Who gets a vote, who can be elected, and what candidates do with their votes. */
module VoteLaws {
  import opened Quorum
  import opened Logs
  import opened RaftSpec
  import opened History
  import opened Invariant
  import opened Runs
  import opened Safety
  import opened Effects

  // ------------------------------------------------------------ the order of logs

  function Last(log: seq<Entry>): EntryID { EntryID(LastTerm(log), |log|) }

  /** The order of last entries: by term, then by index. */
  predicate AtLeast(x: EntryID, y: EntryID) {
    x.term > y.term || (x.term == y.term && x.index >= y.index)
  }

  /** Of any two logs one is up to date for the other, and both are only if they end
      alike; being up to date carries over; and a later last term always suffices. */
  lemma LogsAreOrdered(a: seq<Entry>, b: seq<Entry>, d: seq<Entry>)
    ensures IsUpToDate(a, Last(b)) || IsUpToDate(b, Last(a))
    ensures IsUpToDate(a, Last(b)) && IsUpToDate(b, Last(a)) ==> Last(a) == Last(b)
    ensures IsUpToDate(a, Last(b)) && IsUpToDate(b, Last(d)) ==> IsUpToDate(a, Last(d))
    ensures LastTerm(a) < LastTerm(b) ==> IsUpToDate(a, Last(b))
    ensures LastTerm(a) == LastTerm(b) ==> (IsUpToDate(a, Last(b)) <==> |a| <= |b|)
  {}

  /** Of any nodes there is one whose log is up to date for all of them. */
  lemma {:induction false} Longest(nodes: map<Id, Node>, ids: set<Id>) returns (v: Id)
    requires ids != {} && ids <= nodes.Keys
    ensures v in ids && forall w | w in ids :: IsUpToDate(nodes[w].log, Last(nodes[v].log))
  {
    hide IsUpToDate;
    var x :| x in ids;
    var rest := ids - {x};
    LogsAreOrdered(nodes[x].log, nodes[x].log, nodes[x].log);
    if rest == {} {
      assert ids == {x};
      v := x;
    } else {
      var y := Longest(nodes, rest);
      LogsAreOrdered(nodes[x].log, nodes[y].log, nodes[y].log);
      v := if IsUpToDate(nodes[x].log, Last(nodes[y].log)) then y else x;
      forall w | w in ids ensures IsUpToDate(nodes[w].log, Last(nodes[v].log)) {
        if w != x { LogsAreOrdered(nodes[w].log, nodes[y].log, nodes[x].log); }
      }
    }
  }

  // -------------------------------------------------------------- the vote rule

  lemma VotesHaveTerms(c: Config, run: seq<Cluster>, i: nat, id: Id, m: Message)
    requires c.Valid() && IsRun(c, run) && i < |run| && Deliverable(run[i], id, m) && (m.MsgVote? || m.MsgPreVote?)
    ensures m.term > 0
  {
    hide IsRun, HistInv, NodeInv, AckSent, Link;
    var hs := EveryRun(c, run);
    assert MsgOk(m, hs[i]);
  }

  /** A request inside the lease of a known leader is ignored, unless it is part of a
      leadership transfer. */
  predicate Ignored(c: Config, n: Node, m: Message, e: Env)
    requires m.MsgVote? || m.MsgPreVote?
  {
    m.term > n.term && !m.transfer && c.checkQuorum && n.lead != NONE && e.inLease
  }

  /** The node has not given its vote of the request's term to another, and has no
      leader in it. */
  predicate Free(n: Node, m: Message) {
    m.term > n.term || n.vote == m.from || (n.vote == NONE && n.lead == NONE)
  }

  predicate Grants(n: Node, m: Message)
    requires m.MsgVote? || m.MsgPreVote?
  {
    Free(n, m) && AtLeast(m.last, Last(n.log))
  }

  lemma VoteAnswer(c: Config, n: Node, m: Message, e: Env)
    requires m.MsgVote? && m.term > 0 && Resting(n)
    ensures var n' := Step(c, n, m, e);
            if m.term < n.term || Ignored(c, n, m, e) then n' == n
            else
              && n'.msgs == [MsgVoteResp(n.id, m.from, m.term, !Grants(n, m))]
              && n'.term == m.term && n'.log == n.log && n'.committed == n.committed
              && n'.vote == (if Grants(n, m) then m.from else if m.term > n.term then NONE else n.vote)
              && (m.term == n.term ==> n' == n.(vote := n'.vote, msgs := n'.msgs))
  {
    hide AllFresh;
  }

  lemma PreVoteAnswer(c: Config, n: Node, m: Message, e: Env)
    requires m.MsgPreVote? && m.term > 0 && Resting(n) && (n.term > 0 || n.log == [])
    ensures var n' := Step(c, n, m, e);
            if m.term >= n.term && Ignored(c, n, m, e) then n' == n
            else
              var grant := m.term >= n.term && Grants(n, m);
              n' == n.(msgs := [MsgPreVoteResp(n.id, m.from, if grant then m.term else n.term, !grant)])
  {
    hide AllFresh;
  }

  /** A node without a term has an empty log. */
  lemma NoTermNoLog(c: Config, run: seq<Cluster>, i: nat, a: Id)
    requires c.Valid() && IsRun(c, run) && i < |run| && a in run[i].nodes
    ensures run[i].nodes[a].term > 0 || run[i].nodes[a].log == []
  {
    hide IsRun, Inv, HistInv, LogOk, CommitFits, PastFits, OutboxOk, Serving, AcksFit, Running, Link, Leading, Tracks, Matching,
      Sorted, Basic;
    var hs := EveryRun(c, run);
    InvParts(c, run[i], hs[i], a);
    LogMatching(c, run, i, i, a, a);
  }

  /** The answer to every vote request that a run delivers to a node, of whatever
      role and term. The vote is granted if and only if the node's vote in the term
      is free or the candidate's already, it knows no leader of the term, and the
      candidate's last entry is not smaller than its own. */
  lemma VoteRule(c: Config, run: seq<Cluster>, i: nat, id: Id, m: Message, e: Env)
    requires c.Valid() && IsRun(c, run) && i < |run| && id in run[i].nodes && Deliverable(run[i], id, m) && m.MsgVote?
    ensures var n := run[i].nodes[id]; var n' := Step(c, n, m, e);
            if m.term < n.term || Ignored(c, n, m, e) then n' == n
            else
              && n'.msgs == [MsgVoteResp(id, m.from, m.term, !Grants(n, m))]
              && n'.term == m.term && n'.log == n.log && n'.committed == n.committed
              && n'.vote == (if Grants(n, m) then m.from else if m.term > n.term then NONE else n.vote)
              && (m.term == n.term ==> n' == n.(vote := n'.vote, msgs := n'.msgs))
  {
    hide IsRun, Step, Deliverable;
    NodesRest(c, run, i, id);
    VotesHaveTerms(c, run, i, id, m);
    VoteAnswer(c, run[i].nodes[id], m, e);
  }

  /** The answer to every pre-vote request: decided alike, but nothing about the node
      changes. */
  lemma PreVoteRule(c: Config, run: seq<Cluster>, i: nat, id: Id, m: Message, e: Env)
    requires c.Valid() && IsRun(c, run) && i < |run| && id in run[i].nodes && Deliverable(run[i], id, m) && m.MsgPreVote?
    ensures var n := run[i].nodes[id]; var n' := Step(c, n, m, e);
            if Ignored(c, n, m, e) then n' == n
            else
              var grant := m.term >= n.term && Grants(n, m);
              n' == n.(msgs := [MsgPreVoteResp(id, m.from, if grant then m.term else n.term, !grant)])
  {
    hide IsRun, Step, Deliverable;
    NodesRest(c, run, i, id);
    VotesHaveTerms(c, run, i, id, m);
    NoTermNoLog(c, run, i, id);
    PreVoteAnswer(c, run[i].nodes[id], m, e);
  }

  /** In every state of every run, of any nodes there is one that all of them would
      vote for in any later term: elections are never stuck on the logs. */
  lemma SomeoneIsElectable(c: Config, run: seq<Cluster>, i: nat, ids: set<Id>) returns (v: Id)
    requires c.Valid() && IsRun(c, run) && i < |run| && ids != {} && ids <= run[i].nodes.Keys
    ensures v in ids
    ensures forall w, term, e | w in ids && term > run[i].nodes[w].term ::
              var m := MsgVote(v, w, term, Last(run[i].nodes[v].log), true);
              var n' := Step(c, run[i].nodes[w], m, e);
              n'.vote == v && n'.msgs == [MsgVoteResp(w, v, term, false)]
  {
    hide IsRun, Step;
    v := Longest(run[i].nodes, ids);
    forall w, term, e | w in ids && term > run[i].nodes[w].term
      ensures var m := MsgVote(v, w, term, Last(run[i].nodes[v].log), true);
              var n' := Step(c, run[i].nodes[w], m, e);
              n'.vote == v && n'.msgs == [MsgVoteResp(w, v, term, false)]
    {
      NodesRest(c, run, i, w);
      VoteAnswer(c, run[i].nodes[w], MsgVote(v, w, term, Last(run[i].nodes[v].log), true), e);
    }
  }

  // ------------------------------------------------------------------ campaigns

  /** The request that goes to a voter, the vote for itself that goes to the node. */
  function Request(n: Node, t: CampaignType, to: Id): Message {
    if to == n.id then
      if t.PreElection? then MsgPreVoteResp(n.id, to, n.term + 1, false) else MsgVoteResp(n.id, to, n.term + 1, false)
    else if t.PreElection? then MsgPreVote(n.id, to, n.term + 1, Last(n.log), false)
    else MsgVote(n.id, to, n.term + 1, Last(n.log), t.Transfer?)
  }

  function Requests(n: Node, t: CampaignType, ids: seq<Id>): seq<Message> {
    seq(|ids|, i requires 0 <= i < |ids| => Request(n, t, ids[i]))
  }

  lemma {:induction false} AsksEach(n: Node, n0: Node, t: CampaignType, ids: seq<Id>)
    requires n.id == n0.id && n.log == n0.log
    ensures SendVoteRequests(n, t, n0.term + 1, ids) == n.(msgs := n.msgs + Requests(n0, t, ids))
    decreases |ids|
  {
    if ids == [] {
      assert n.msgs + Requests(n0, t, ids) == n.msgs;
    } else {
      var m := Request(n0, t, ids[0]);
      var n1 := Send(n, m);
      AsksEach(n1, n0, t, ids[1..]);
      assert Requests(n0, t, ids) == [m] + Requests(n0, t, ids[1..]);
      assert n.msgs + [m] + Requests(n0, t, ids[1..]) == n.msgs + Requests(n0, t, ids);
    }
  }

  /** A campaign enters the next term with the node's own vote, or, for a pre-vote,
      changes nothing durable, and asks every voter once. */
  lemma CampaignAsksAll(c: Config, n: Node, t: CampaignType)
    requires Resting(n) && !n.role.Leader?
    ensures var n' := Campaign(c, n, t);
            && n'.msgs == Requests(n, t, c.voterIds) && !n'.failed && n'.log == n.log && n'.committed == n.committed
            && n'.lead == NONE && n'.votes == map[]
            && (if t.PreElection? then n'.role.PreCandidate? && n'.term == n.term && n'.vote == n.vote
                else n'.role.Candidate? && n'.term == n.term + 1 && n'.vote == n.id)
  {
    hide SendVoteRequests, AllFresh;
    AsksEach(BecomePreCandidate(n), n, t, c.voterIds);
    AsksEach(BecomeCandidate(c, n), n, t, c.voterIds);
    assert [] + Requests(n, t, c.voterIds) == Requests(n, t, c.voterIds);
  }

  /** Whether the node is given to campaigning at all. */
  predicate MayCampaign(n: Node, e: Env) {
    !n.role.Leader? && n.id in n.progress && !n.progress[n.id].isLearner && !e.unappliedConf
  }

  /** An election timeout starts a campaign exactly if the node may campaign. */
  lemma TimeoutRule(c: Config, run: seq<Cluster>, i: nat, id: Id, m: Message, e: Env)
    requires c.Valid() && IsRun(c, run) && i < |run| && id in run[i].nodes && m.MsgHup? && m.term == 0
    ensures var n := run[i].nodes[id]; var n', t := Step(c, n, m, e), if c.preVote then PreElection else Election;
            if MayCampaign(n, e)
            then n'.msgs == Requests(n, t, c.voterIds) && n'.log == n.log && n'.committed == n.committed
                 && (if c.preVote then n'.role.PreCandidate? && n'.term == n.term && n'.vote == n.vote
                     else n'.role.Candidate? && n'.term == n.term + 1 && n'.vote == id)
            else n' == n
  {
    hide IsRun, Campaign;
    var n := run[i].nodes[id];
    NodesRest(c, run, i, id);
    if MayCampaign(n, e) { CampaignAsksAll(c, n, if c.preVote then PreElection else Election); }
  }

  /** A follower that is told to take over campaigns without a pre-vote, with requests
      that leases do not hold up. */
  lemma TakeoverRule(c: Config, run: seq<Cluster>, i: nat, id: Id, m: Message, e: Env)
    requires c.Valid() && IsRun(c, run) && i < |run| && id in run[i].nodes && m.MsgTimeoutNow?
    requires run[i].nodes[id].role.Follower? && m.term == run[i].nodes[id].term && MayCampaign(run[i].nodes[id], e)
    ensures var n := run[i].nodes[id]; var n' := Step(c, n, m, e);
            n'.msgs == Requests(n, Transfer, c.voterIds) && n'.role.Candidate? && n'.term == n.term + 1 && n'.vote == id
  {
    hide IsRun, Campaign;
    var n := run[i].nodes[id];
    NodesRest(c, run, i, id);
    CampaignAsksAll(c, n, Transfer);
  }

  // -------------------------------------------------------------------- counting

  function Counting(votes: map<Id, bool>, from: Id, granted: bool): map<Id, bool> {
    if from in votes then votes else votes[from := granted]
  }

  /** A candidate wins as soon as a quorum has granted it the vote, gives up as soon as
      no quorum can any more, and otherwise waits. */
  lemma CandidateRule(c: Config, n: Node, m: Message, e: Env)
    requires m.MsgVoteResp? && n.role.Candidate? && m.term == n.term > 0
    ensures var n', votes := Step(c, n, m, e), Counting(n.votes, m.from, !m.reject);
            && (n'.role.Leader? <==> IsQuorum(c.voters, YesVotes(votes)))
            && (n'.role.Leader? ==> n'.term == n.term && n'.log == n.log + [Entry(n.term, |n.log| + 1, "")])
            && (n'.role.Follower? <==> !CanStillWin(c.voters, votes))
            && (n'.role.Follower? ==> n'.term == n.term && n'.vote == n.vote && n'.lead == NONE && n'.log == n.log)
            && (!n'.role.Leader? && !n'.role.Follower? ==> n' == n.(votes := votes))
  {
    hide JointVote, IsQuorum, CanStillWin, BcastAppend, Reset, OnlySent;
    var votes := Counting(n.votes, m.from, !m.reject);
    var n1 := n.(votes := votes);
    assert RecordVote(n, m.from, !m.reject) == n1;
    WonIsQuorum(c.voters, votes);
    LostIsHopeless(c.voters, votes);
    Opens(c, n1);
    BcastAppendSends(c, BecomeLeader(c, n1), c.peers);
    SentKeepsPeers(BecomeLeader(c, n1), BcastAppend(c, BecomeLeader(c, n1), c.peers));
    Yields(c, n1);
  }

  lemma Opens(c: Config, n: Node)
    ensures var n' := BecomeLeader(c, n); n'.role.Leader? && n'.term == n.term && n'.log == n.log + [Entry(n.term, |n.log| + 1, "")]
  {
    var n0 := n;
    assert Stamped(n0, [""]) == [Entry(n.term, |n.log| + 1, "")];
  }

  lemma Yields(c: Config, n: Node)
    ensures var n' := BecomeFollower(c, n, n.term, NONE);
            n'.role.Follower? && n'.term == n.term && n'.vote == n.vote && n'.lead == NONE && n'.log == n.log
  {}

  /** A pre-candidate starts the election as soon as a quorum would grant it, and gives
      up as soon as no quorum would. */
  lemma PreCandidateRule(c: Config, n: Node, m: Message, e: Env)
    requires m.MsgPreVoteResp? && n.role.PreCandidate? && Resting(n)
             && (if m.reject then m.term == n.term else m.term >= n.term)
    ensures var n', votes := Step(c, n, m, e), Counting(n.votes, m.from, !m.reject);
            && (n'.role.Candidate? <==> IsQuorum(c.voters, YesVotes(votes)))
            && (n'.role.Candidate? ==> n'.term == n.term + 1 && n'.vote == n.id && n'.msgs == Requests(n, Election, c.voterIds))
            && (n'.role.Follower? <==> !CanStillWin(c.voters, votes))
            && (n'.role.Follower? ==> n'.term == n.term && n'.vote == n.vote && n'.lead == NONE && n'.log == n.log)
            && (!n'.role.Candidate? && !n'.role.Follower? ==> n' == n.(votes := votes))
  {
    hide JointVote, IsQuorum, CanStillWin, Campaign, BecomeFollower, Requests;
    var votes := Counting(n.votes, m.from, !m.reject);
    var n1 := n.(votes := votes);
    assert RecordVote(n, m.from, !m.reject) == n1;
    WonIsQuorum(c.voters, votes);
    LostIsHopeless(c.voters, votes);
    CampaignAsksAll(c, n1, Election);
    SameRequests(n, n1, c.voterIds);
    Yields(c, n1);
  }

  lemma SameRequests(n: Node, n1: Node, ids: seq<Id>)
    requires n1.id == n.id && n1.term == n.term && n1.log == n.log
    ensures Requests(n1, Election, ids) == Requests(n, Election, ids)
  {}
}
