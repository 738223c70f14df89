/** Reads of a leader that is the only voter, which it answers at once: when they are
    as recent as all others, and a run in which one is not. */
module SingleVoter {
  import opened Quorum
  import opened Logs
  import opened Flow
  import opened ReadQueue
  import opened RaftSpec
  import opened History
  import opened Growth
  import opened Invariant
  import opened Stepping
  import opened Replication
  import opened Runs
  import opened Handling
  import opened Safety
  import opened ReadSafety
  import opened ReadLaws
  import Followers
  import Upkeep

  lemma OnlyVoterDecides(c: Config, q: set<Id>, a: Id)
    requires c.IsSingleton() && a in c.voters.Ids() && IsQuorum(c.voters, q)
    ensures a in q
  {
    OneMember(c.voters.incoming, a);
    assert Among({a}, q) == if a in q then {a} else {};
  }

  lemma OneMember(s: set<Id>, a: Id)
    requires |s| == 1 && a in s
    ensures s == {a}
  {
    assert |s - {a}| == 0;
  }

  /** A leader that is the only voter and has committed in its term has committed
      everything that anyone has. */
  lemma OnlyVoterKnows(c: Config, n: Node, h: Hist, peak: nat)
    requires Ok(c, n, h) && n.role.Leader? && CommittedInTerm(n) && PeakOk(h, peak)
    requires c.IsSingleton() && n.id in c.voters.Ids()
    ensures peak <= n.committed
  {
    hide HistInv, LogFits, CommitFits, AcksFit, PastFits, OutboxOk, Tracks, Serving, IsQuorum;
    if peak > n.committed {
      var T: nat :| T in h.ldr && peak <= h.ldr[T].commit;
      HistParts(c, h);
      if T < n.term {
        EarlierCommitInBase(c, h, T, n.term);
        OwnTermPastBase(c, h, n.term, n.committed);
      } else if T > n.term {
        LeaderQuorum(c, h, T);
        OnlyVoterDecides(c, h.ldr[T].voters, n.id);
        Followers.NotAVoter(c, n.id, n.term, n.vote, T, h);
      }
    }
  }

  lemma CommitIsPeak(n: Node, h: Hist)
    requires CommitFits(n.term, n.log, n.committed, h)
    ensures PeakOk(h, n.committed)
  {}

  /** In a group with one voter, the commit index of a leader that has committed in its
      term is not below the commit index that any node has had. */
  lemma OnlyVoterIsRecent(c: Config, run: seq<Cluster>, i: nat, j: nat, a: Id, q: Id)
    requires c.Valid() && IsRun(c, run) && c.IsSingleton() && i <= j < |run| && a in run[j].nodes && q in run[i].nodes
    requires run[j].nodes[a].role.Leader? && HasCommitted(run[j].nodes[a])
    ensures run[i].nodes[q].committed <= run[j].nodes[a].committed
  {
    hide IsRun, Explains, HistInv, Inv, LogFits, CommitFits, AcksFit, PastFits, OutboxOk, Tracks, Serving, Running, Basic, Link, Ok;
    var hs := EveryRun(c, run);
    SeenLater(c, run, hs, i, j, q);
    CommitIsPeak(run[i].nodes[q], hs[j]);
    ExplainsAt(c, run, hs, j);
    InvParts(c, run[j], hs[j], a);
    Upkeep.OnlyVotersLead(c, run, j, a);
    CommittedIsOwn(c, run, j, a);
    OnlyVoterKnows(c, run[j].nodes[a], hs[j], run[i].nodes[q].committed);
  }

  /** Such a leader answers a read at once, with its commit index, to its host or to the
      node that passed the read on; and once it has committed in its term the index is
      not below the commit index that any node has had. */
  lemma OnlyVoterAnswers(c: Config, run: seq<Cluster>, j: nat, a: Id, m: Message, e: Env)
    requires c.Valid() && IsRun(c, run) && c.IsSingleton() && j < |run| && a in run[j].nodes && Deliverable(run[j], a, m)
    requires run[j].nodes[a].role.Leader? && m.MsgReadIndex?
    ensures var n := run[j].nodes[a]; var n' := Step(c, n, m, e);
            && (if m.from == NONE || m.from == a
                then n' == n.(readStates := n.readStates + [ReadState(n.committed, m.ctx)])
                else n' == n.(msgs := [MsgReadIndexResp(a, m.from, n.term, n.committed, m.ctx)]))
            && (HasCommitted(n) ==> forall i, q | 0 <= i <= j && q in run[i].nodes :: run[i].nodes[q].committed <= n.committed)
  {
    hide IsRun, Step, Deliverable, HasCommitted;
    var n := run[j].nodes[a];
    NodesRest(c, run, j, a);
    RequestsHaveNoTerm(c, run, j, a, m);
    ReadReached(c, n, m, e);
    if HasCommitted(n) {
      forall i, q | 0 <= i <= j && q in run[i].nodes ensures run[i].nodes[q].committed <= n.committed {
        OnlyVoterIsRecent(c, run, i, j, a, q);
      }
    }
  }

  // ----------------------------------------------------------- when it is not

  function One(e: Entry): nat { 1 }

  /** Node 1 votes alone. */
  const C := Config(JointConfig({1}, {}), {}, [1], [1], false, false, true, 100, 1, 0, One)

  const E := Env(false, false, true)

  const FIRST := Entry(1, 1, "")

  const SECOND := Entry(2, 2, "")

  function Self(matched: nat, next: Position, st: StateType, active: bool): map<Id, Progress> {
    map[1 := Progress(matched, next, 0, st, 0, active, false, Window(1, 0, []), false)]
  }

  const VOTE1 := MsgVoteResp(1, 1, 1, false)
  const ACK1 := MsgAppResp(1, 1, 1, 1, false, EntryID(0, 0))
  const VOTE2 := MsgVoteResp(1, 1, 2, false)
  const ACK2 := MsgAppResp(1, 1, 2, 2, false, EntryID(0, 0))
  const READ := MsgReadIndex(NONE, 1, 0, "r")

  const FRESH := Node(1, 0, NONE, Follower, NONE, NONE, [], 0, map[], Self(0, 1, StateProbe, false), NO_READS, [], [], [], false)

  const ASKING1 := FRESH.(term := 1, vote := 1, role := Candidate)

  const LEADING1 := ASKING1.(role := Leader, lead := 1, log := [FIRST], progress := Self(0, 1, StateReplicate, true))

  const COMMITTED1 := LEADING1.(committed := 1, progress := Self(1, 2, StateReplicate, true))

  /** The commit index was not on disk yet. */
  const RESTARTED := FRESH.(term := 1, vote := 1, log := [FIRST], progress := Self(1, 2, StateProbe, false))

  const ASKING2 := RESTARTED.(term := 2, role := Candidate)

  const LEADING2 := ASKING2.(role := Leader, lead := 1, log := [FIRST, SECOND], progress := Self(1, 2, StateReplicate, true))

  const SERVED2 := LEADING2.(readStates := [ReadState(0, "r")])

  lemma FirstIs()
    ensures Init(C) == RUN[0]
  {
    assert NewNode(C, 1).progress == FRESH.progress;
    assert Init(C).nodes == map[1 := NewNode(C, 1)];
  }

  lemma Asks(n: Node, n': Node, term: nat)
    requires n.id == 1 && n.role.Follower? && n.progress == AllFresh(C, n) && n.progress.Keys == {1} && !n.progress[1].isLearner
    requires n.readOnly == NO_READS && n.votes == map[] && n.transferee == NONE && n.lead == NONE && n.msgs == [] && !n.failed
    requires term == n.term + 1 && n' == n.(term := term, vote := 1, role := Candidate)
    ensures Step(C, n, MsgHup(1, 1, 0), E) == n'.(msgs := [MsgVoteResp(1, 1, term, false)])
  {
    hide AllFresh;
    assert BecomeCandidate(C, n) == n';
    assert C.voterIds[1..] == [];
    var one := Send(n', MsgVoteResp(1, 1, term, false));
    assert SendVoteRequests(one, Election, term, []) == one;
  }

  lemma OwnVoteWins()
    ensures JointVote(C.voters, map[1 := true]) == VoteWon
  {
    hide IsMajority;
    var votes: map<Id, bool> := map[1 := true];
    WonIsQuorum(C.voters, votes);
    OneDecides(YesVotes(votes));
  }

  lemma OneDecides(q: set<Id>)
    ensures IsQuorum(C.voters, q) <==> 1 in q
  {
    if 1 in q { assert Among({1}, q) == {1}; } else { assert Among({1}, q) == {}; }
  }

  lemma NobodyElse(n: Node)
    requires n.id == 1
    ensures BcastAppend(C, n, C.peers) == n
  {
    assert C.peers[1..] == [];
  }

  /** A candidate that is the only voter wins with its own vote. */
  lemma Wins(n: Node, n': Node)
    requires n.id == 1 && n.role.Candidate? && n.term > 0 && n.votes == map[] && n.lead == NONE && n.transferee == NONE
    requires n.readOnly == NO_READS && n.msgs == [] && !n.failed && n.progress == Self(|n.log|, |n.log| + 1, StateProbe, false)
    requires n' == n.(role := Leader, lead := 1, log := n.log + [Entry(n.term, |n.log| + 1, "")],
                      progress := Self(|n.log|, |n.log| + 1, StateReplicate, true))
    ensures Step(C, n, MsgVoteResp(1, 1, n.term, false), E) ==
            n'.(msgs := [MsgAppResp(1, 1, n.term, |n.log| + 1, false, EntryID(0, 0))])
  {
    hide JointVote, BcastAppend, BecomeLeader;
    var n1 := n.(votes := map[1 := true]);
    assert RecordVote(n, 1, true) == n1;
    OwnVoteWins();
    Leads(n1, n');
    NobodyElse(BecomeLeader(C, n1));
  }

  lemma Leads(n: Node, n': Node)
    requires n.id == 1 && n.role.Candidate? && n.msgs == [] && !n.failed && n.progress == Self(|n.log|, |n.log| + 1, StateProbe, false)
    requires n' == n.(role := Leader, lead := 1, transferee := NONE, votes := map[], readOnly := NO_READS,
                      log := n.log + [Entry(n.term, |n.log| + 1, "")], progress := Self(|n.log|, |n.log| + 1, StateReplicate, true))
    ensures BecomeLeader(C, n) == n'.(msgs := [MsgAppResp(1, 1, n.term, |n.log| + 1, false, EntryID(0, 0))])
  {
    assert AllFresh(C, n) == n.progress;
    var own := n.progress[1];
    assert n.progress[1 := own.BecomeReplicate().(recentActive := true)] == n'.progress;
    assert Stamped(n, [""]) == [Entry(n.term, |n.log| + 1, "")];
  }

  lemma CommitsAlone()
    ensures Step(C, LEADING1, ACK1, E) == COMMITTED1
  {
    hide HandleAck, JointCommitted, BcastAppend, SendAppend, Drain;
    assert LEADING1.progress[1 := LEADING1.progress[1].(recentActive := true)] == LEADING1.progress;
    AckSplits(C, LEADING1, ACK1);
    var n := LEADING1.(progress := Self(1, 2, StateReplicate, true));
    assert LEADING1.progress[1 := n.progress[1]] == n.progress;
    assert AfterAck(LEADING1, 1, 1) == n;
    OneCommits(MatchIndexes(n), 1);
    assert MaybeCommit(C, n) == COMMITTED1;
    NobodyElse(COMMITTED1);
  }

  lemma OneCommits(acks: map<Id, nat>, k: nat)
    requires 1 in acks && acks[1] == k
    ensures JointCommitted(C.voters, acks) == At(k)
  {
    hide JointCommitted, IsQuorum;
    assert 1 in C.voters.Ids();
    JointCommittedIsExact(C.voters, acks, k);
    JointCommittedIsExact(C.voters, acks, k + 1);
    OneDecides(AckedAtLeast(acks, C.voters.Ids(), k));
    OneDecides(AckedAtLeast(acks, C.voters.Ids(), k + 1));
  }

  function Alone(n: Node, net: set<Message>): Cluster { Cluster(map[1 := n], net) }

  const NET2 := {VOTE1} + {ACK1}
  const NET5 := NET2 + {VOTE2}
  const NET6 := NET5 + {ACK2}

  const RUN: seq<Cluster> := [
    Alone(FRESH, {}),
    Alone(ASKING1, {VOTE1}),
    Alone(LEADING1, NET2),
    Alone(COMMITTED1, NET2),
    Alone(RESTARTED, NET2),
    Alone(ASKING2, NET5),
    Alone(LEADING2, NET6),
    Alone(SERVED2, NET6)]

  lemma Acts(n: Node, net: set<Message>, m: Message, n': Node, out: seq<Message>, net': set<Message>)
    requires Step(C, n, m, E) == n'.(msgs := out) && n'.msgs == [] && Deliverable(Alone(n, net), 1, m)
    requires net' == net + set x | x in out
    ensures Next(C, Alone(n, net), Alone(n', net'))
  {
    hide Step, Deliverable;
    var s := Alone(n, net);
    assert n'.(msgs := out).(msgs := []) == n';
    assert s.nodes[1 := n'] == map[1 := n'];
    assert Receives(C, s, Alone(n', net'), 1, m, E);
  }

  lemma ComesBack()
    ensures Restarted(C, COMMITTED1, 1, 0) == RESTARTED
  {
    assert [FIRST][..1] == [FIRST];
    assert Restarted(C, COMMITTED1, 1, 0).progress == RESTARTED.progress;
  }

  lemma ServesAtOnce()
    ensures Step(C, LEADING2, READ, E) == SERVED2
  {
    assert C.IsSingleton();
    assert [] + [ReadState(0, "r")] == [ReadState(0, "r")];
  }

  lemma Step0()
    ensures Next(C, RUN[0], RUN[1])
  {
    hide Next, Step;
    assert AllFresh(C, FRESH) == FRESH.progress;
    Asks(FRESH, ASKING1, 1);
    Acts(FRESH, {}, MsgHup(1, 1, 0), ASKING1, [VOTE1], {VOTE1});
  }

  lemma Step1()
    ensures Next(C, RUN[1], RUN[2])
  {
    hide Next, Step;
    Wins(ASKING1, LEADING1);
    Acts(ASKING1, {VOTE1}, VOTE1, LEADING1, [ACK1], NET2);
  }

  lemma Step2()
    ensures Next(C, RUN[2], RUN[3])
  {
    hide Next, Step;
    CommitsAlone();
    Acts(LEADING1, NET2, ACK1, COMMITTED1, [], NET2);
  }

  lemma Step3()
    ensures Next(C, RUN[3], RUN[4])
  {
    hide Restarted;
    ComesBack();
    var s := RUN[3];
    assert s.nodes[1 := RESTARTED] == map[1 := RESTARTED];
    assert Restarts(C, s, RUN[4], 1, 1, 0);
  }

  lemma Step4()
    ensures Next(C, RUN[4], RUN[5])
  {
    hide Next, Step;
    assert AllFresh(C, RESTARTED) == RESTARTED.progress;
    Asks(RESTARTED, ASKING2, 2);
    Acts(RESTARTED, NET2, MsgHup(1, 1, 0), ASKING2, [VOTE2], NET5);
  }

  lemma Step5()
    ensures Next(C, RUN[5], RUN[6])
  {
    hide Next, Step;
    Wins(ASKING2, LEADING2);
    Acts(ASKING2, NET5, VOTE2, LEADING2, [ACK2], NET6);
  }

  lemma Step6()
    ensures Next(C, RUN[6], RUN[7])
  {
    hide Next, Step;
    ServesAtOnce();
    Acts(LEADING2, NET6, READ, SERVED2, [], NET6);
  }

  lemma ConfigIsValid()
    ensures C.Valid() && C.IsSingleton()
  {}

  lemma RunIsRun()
    ensures C.Valid() && C.IsSingleton() && IsRun(C, RUN)
  {
    hide Next, Config.Valid, Config.IsSingleton, Init;
    ConfigIsValid();
    FirstIs();
    Step0();
    Step1();
    Step2();
    Step3();
    Step4();
    Step5();
    Step6();
  }

  /** The only voter has committed an entry, restarts without its commit index, is
      elected again, and answers a read with index 0 before it has committed anything in
      the new term: the answer is older than what was committed before the read. */
  lemma AStaleAnswer()
    ensures C.Valid() && C.IsSingleton() && IsRun(C, RUN)
    ensures RUN[3].nodes[1].committed == 1
    ensures RUN[6].nodes[1].role.Leader? && !HasCommitted(RUN[6].nodes[1])
    ensures RUN[6].nodes[1].readStates == [] && RUN[7].nodes[1].readStates == [ReadState(0, "r")]
  {
    hide IsRun;
    RunIsRun();
  }
}
