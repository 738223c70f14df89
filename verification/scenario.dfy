/** A concrete run of two voters: one is elected with the vote of the other,
    replicates and commits an entry of its term, queues a read and confirms it with
    the other's heartbeat response. What the theorems about runs speak of does
    happen. */
module Scenario {
  import opened Quorum
  import opened Logs
  import opened Flow
  import opened ReadQueue
  import opened RaftSpec
  import opened Safety
  import opened ReadIndex
  import opened Handling
  import opened ReadAnswers

  function One(e: Entry): nat { 1 }

  /** Nodes 1 and 2 vote. */
  const C := Config(JointConfig({1, 2}, {}), {}, [1, 2], [1, 2], false, false, true, 100, 1, 0, One)

  const E := Env(false, false, true)

  const FIRST := Entry(1, 1, "")

  function Peer(matched: nat, next: Position, sentCommit: nat, st: StateType, active: bool, paused: bool): Progress {
    Progress(matched, next, sentCommit, st, 0, active, paused, Window(1, 0, []), false)
  }

  /** What a node knows of node 1 and of node 2. */
  function Peers(one: Progress, two: Progress): map<Id, Progress> { map[1 := one, 2 := two] }

  const NEW_PEER := Peer(0, 1, 0, StateProbe, false, false)

  const NEW_PEERS := Peers(NEW_PEER, NEW_PEER)

  // ------------------------------------------------------------- the messages

  const SELF_VOTE := MsgVoteResp(1, 1, 1, false)
  const ASK := MsgVote(1, 2, 1, EntryID(0, 0), false)
  const GRANT := MsgVoteResp(2, 1, 1, false)
  const SELF_ACK := MsgAppResp(1, 1, 1, 1, false, EntryID(0, 0))
  const APPEND := MsgApp(1, 2, 1, EntryID(0, 0), [FIRST], 0)
  const ACK := MsgAppResp(2, 1, 1, 1, false, EntryID(0, 0))
  const NEWS := MsgApp(1, 2, 1, EntryID(1, 1), [], 1)
  const READ := MsgReadIndex(NONE, 1, 0, "r")
  const BEAT := MsgHeartbeat(1, 2, 1, 1, 1)
  const ANSWER := MsgHeartbeatResp(2, 1, 1, 1)

  // ---------------------------------------------------------- node 1, in turn

  const FRESH1 := Node(1, 0, NONE, Follower, NONE, NONE, [], 0, map[], NEW_PEERS, NO_READS, [], [], [], false)

  const ASKING1 := FRESH1.(term := 1, vote := 1, role := Candidate)

  const HALFWAY1 := ASKING1.(votes := map[1 := true])

  const WINNING1 := ASKING1.(votes := map[1 := true, 2 := true])

  const SELF := Peer(0, 1, 0, StateReplicate, true, false)

  const LEADING1 := Node(1, 1, 1, Leader, 1, NONE, [FIRST], 0, map[], Peers(SELF, NEW_PEER.(paused := true)), NO_READS, [], [],
                         [], false)

  const SELF_DONE := Peer(1, 2, 0, StateReplicate, true, false)

  const STORED1 := LEADING1.(progress := Peers(SELF_DONE, NEW_PEER.(paused := true)))

  const COMMITTED1 := STORED1.(committed := 1, progress := Peers(SELF_DONE, Peer(1, 2, 1, StateReplicate, true, false)))

  const QUEUED1 := COMMITTED1.(readOnly := ReadOnly(map[1 := 1], [PendingRead(ReadRequest(NONE, "r"), 1)], 0))

  const SERVED1 := COMMITTED1.(readOnly := ReadOnly(map[1 := 1, 2 := 1], [], 1), readStates := [ReadState(1, "r")])

  // ---------------------------------------------------------- node 2, in turn

  const FRESH2 := FRESH1.(id := 2)

  const VOTED2 := FRESH2.(term := 1, vote := 1)

  const STORED2 := VOTED2.(lead := 1, log := [FIRST])

  const KNOWS2 := STORED2.(committed := 1)

  // ---------------------------------------------------------------- elections

  lemma FreshIs(id: Id)
    requires id == 1 || id == 2
    ensures NewNode(C, id) == FRESH1.(id := id)
  {
    assert NewNode(C, id).progress == NEW_PEERS;
  }

  lemma Forgets(n: Node)
    requires (n.id == 1 || n.id == 2) && n.log == [] && n.progress == NEW_PEERS
    ensures AllFresh(C, n) == NEW_PEERS
  {}

  lemma Asks()
    ensures Step(C, FRESH1, MsgHup(1, 1, 0), E) == ASKING1.(msgs := [SELF_VOTE, ASK])
  {
    hide AllFresh, SendVoteRequests;
    Forgets(FRESH1);
    assert BecomeCandidate(C, FRESH1) == ASKING1;
    SendsRequests();
  }

  lemma SendsRequests()
    ensures SendVoteRequests(ASKING1, Election, 1, C.voterIds) == ASKING1.(msgs := [SELF_VOTE, ASK])
  {
    var one, two := ASKING1.(msgs := [SELF_VOTE]), ASKING1.(msgs := [SELF_VOTE, ASK]);
    assert C.voterIds[1..] == [2] && [2][1..] == [];
    assert Send(ASKING1, SELF_VOTE) == one && Send(one, ASK) == two;
    assert SendVoteRequests(two, Election, 1, []) == two;
    assert SendVoteRequests(one, Election, 1, [2]) == two;
  }

  lemma BothDecide(q: set<Id>)
    ensures IsQuorum(C.voters, q) <==> 1 in q && 2 in q
  {
    var a := Among({1, 2}, q);
    if 1 in q && 2 in q { assert a == {1, 2}; }
    else if 1 in q { assert a == {1}; }
    else if 2 in q { assert a == {2}; }
    else { assert a == {}; }
  }

  lemma OneVoteIsPending()
    ensures JointVote(C.voters, map[1 := true]) == VotePending
  {
    hide IsMajority;
    var votes: map<Id, bool> := map[1 := true];
    BothDecide(YesVotes(votes));
    NobodyNeeded(YesVotes(votes));
    NobodyNeeded(YesVotes(votes) + Unheard({1, 2}, votes));
    BothDecide(YesVotes(votes) + Unheard({1, 2}, votes));
  }

  lemma NobodyNeeded(q: set<Id>)
    ensures IsMajority({}, q)
  {}

  lemma CountsOwnVote()
    ensures Step(C, ASKING1, SELF_VOTE, E) == HALFWAY1
  {
    hide JointVote;
    OneVoteIsPending();
    assert RecordVote(ASKING1, 1, true) == HALFWAY1;
  }

  lemma Grants()
    ensures Step(C, FRESH2, ASK, E) == VOTED2.(msgs := [GRANT])
  {
    hide AllFresh;
    Forgets(FRESH2);
    assert CatchUp(C, FRESH2, ASK) == FRESH2.(term := 1);
    assert [] + [GRANT] == [GRANT];
  }

  // ------------------------------------------------------------ node 1 leads

  lemma Leads()
    ensures BecomeLeader(C, WINNING1) == LEADING1.(progress := Peers(SELF, NEW_PEER), msgs := [SELF_ACK])
  {
    hide AllFresh, AppendEntry;
    Forgets(WINNING1);
    var n := LEADING1.(log := [], progress := Peers(SELF, NEW_PEER));
    assert NEW_PEERS[1 := NEW_PEER.BecomeReplicate().(recentActive := true)] == n.progress;
    Opens(n);
  }

  lemma Opens(n: Node)
    requires n.id == 1 && n.term == 1 && n.log == [] && n.msgs == [] && !n.failed
    ensures AppendEntry(n, [""]) == n.(log := [FIRST], msgs := [SELF_ACK])
  {
    assert Stamped(n, [""]) == [FIRST];
    assert [] + [FIRST] == [FIRST];
  }

  lemma Broadcast(n: Node)
    requires n.id == 1 && 2 in n.progress
    ensures BcastAppend(C, n, C.peers) == SendAppend(C, n, 2)
  {
    hide MaybeSendAppend;
    assert C.peers[1..] == [2] && [2][1..] == [];
  }

  lemma Replicates()
    ensures SendAppend(C, LEADING1.(progress := Peers(SELF, NEW_PEER), msgs := [SELF_ACK]), 2)
            == LEADING1.(msgs := [SELF_ACK, APPEND])
  {
    var n := LEADING1.(progress := Peers(SELF, NEW_PEER), msgs := [SELF_ACK]);
    assert n.log[0..] == [FIRST];
    assert LimitSize(C.size, [FIRST], 100) == [FIRST];
    assert NextEntries(C, n, 2) == [FIRST];
    assert n.progress[2 := NEW_PEER.(paused := true)] == LEADING1.progress;
    assert [SELF_ACK] + [APPEND] == [SELF_ACK, APPEND];
  }

  lemma Elected()
    ensures Step(C, HALFWAY1, GRANT, E) == LEADING1.(msgs := [SELF_ACK, APPEND])
  {
    hide BecomeLeader, SendAppend, JointVote, IsQuorum;
    assert RecordVote(HALFWAY1, 2, true) == WINNING1;
    WonIsQuorum(C.voters, WINNING1.votes);
    BothDecide(YesVotes(WINNING1.votes));
    Leads();
    Broadcast(BecomeLeader(C, WINNING1));
    Replicates();
  }

  lemma Stores()
    ensures Step(C, VOTED2, APPEND, E) == STORED2.(msgs := [ACK])
  {
    assert FindConflict([], 0, [FIRST]) == 1;
    assert [][..0] + [FIRST][0..] == [FIRST];
    assert MaybeAppend([], 0, EntryID(0, 0), [FIRST], 0) == Accepted([FIRST], 0);
    assert [] + [ACK] == [ACK];
  }

  // ----------------------------------------------------------- ... and commits

  lemma BothCommit(acks: map<Id, nat>, k: nat)
    requires 1 in acks && 2 in acks && Min(acks[1], acks[2]) == k
    ensures JointCommitted(C.voters, acks) == At(k)
  {
    hide JointCommitted, IsQuorum;
    assert 1 in C.voters.Ids() && 2 in C.voters.Ids();
    JointCommittedIsExact(C.voters, acks, k);
    JointCommittedIsExact(C.voters, acks, k + 1);
    BothDecide(AckedAtLeast(acks, C.voters.Ids(), k));
    BothDecide(AckedAtLeast(acks, C.voters.Ids(), k + 1));
  }

  lemma StoresOwn()
    ensures Step(C, LEADING1, SELF_ACK, E) == STORED1
  {
    hide HandleAck, JointCommitted, BcastAppend, ReleasePendingReads, SendAppend, Drain;
    assert LEADING1.progress[1 := SELF.(recentActive := true)] == LEADING1.progress;
    AckSplits(C, LEADING1, SELF_ACK);
    assert LEADING1.progress[1 := SELF_DONE] == STORED1.progress;
    assert AfterAck(LEADING1, 1, 1) == STORED1;
    BothCommit(MatchIndexes(STORED1), 0);
    assert MaybeCommit(C, STORED1) == STORED1;
  }

  /** Node 1 as the other's acknowledgement has been counted, but nothing sent. */
  const HEARD1 := STORED1.(progress := Peers(SELF_DONE, Peer(1, 2, 0, StateReplicate, true, false)))

  lemma Commits()
    ensures Step(C, STORED1, ACK, E) == COMMITTED1.(msgs := [NEWS])
  {
    hide HandleAck, JointCommitted, SendAppend, Drain, BcastAppend;
    var two := NEW_PEER.(paused := true, recentActive := true);
    var n := SetProgress(STORED1, 2, two);
    AckSplits(C, n, ACK);
    assert n.progress[2 := HEARD1.progress[2]] == HEARD1.progress;
    assert AfterAck(n, 2, 1) == HEARD1;
    BothCommit(MatchIndexes(HEARD1), 1);
    assert MaybeCommit(C, HEARD1) == HEARD1.(committed := 1);
    Broadcast(HEARD1.(committed := 1));
    TellsNews();
  }

  lemma TellsNews()
    ensures SendAppend(C, HEARD1.(committed := 1), 2) == COMMITTED1.(msgs := [NEWS])
    ensures Drain(C, COMMITTED1.(msgs := [NEWS]), 2) == COMMITTED1.(msgs := [NEWS])
  {
    var n := HEARD1.(committed := 1);
    assert n.progress[2 := COMMITTED1.progress[2]] == COMMITTED1.progress;
    assert [] + [NEWS] == [NEWS];
    assert PayloadsSize([]) == 0;
  }

  // -------------------------------------------------------- ... and serves a read

  lemma Queues()
    ensures Step(C, COMMITTED1, READ, E) == QUEUED1.(msgs := [BEAT])
  {
    hide BcastHeartbeat;
    Announces();
    assert NO_READS.AddRequest(1, ReadRequest(NONE, "r")).unconfirmed == [PendingRead(ReadRequest(NONE, "r"), 1)];
  }

  lemma Announces()
    ensures BcastHeartbeat(QUEUED1, 1, C.peers) == QUEUED1.(msgs := [BEAT])
  {
    assert C.peers[1..] == [2] && [2][1..] == [];
    assert QUEUED1.progress[2 := QUEUED1.progress[2].SentCommit(1)] == QUEUED1.progress;
    assert [] + [BEAT] == [BEAT];
  }

  lemma Answers()
    ensures Step(C, STORED2, BEAT, E) == KNOWS2.(msgs := [ANSWER])
  {
    assert [] + [ANSWER] == [ANSWER];
  }

  lemma Serves()
    ensures Step(C, QUEUED1, ANSWER, E) == SERVED1
  {
    hide HandleHeartbeatResp, JointCommitted, AdvanceReads;
    BeatSplits(C, QUEUED1, ANSWER);
    assert QUEUED1.progress[2 := QUEUED1.progress[2].(recentActive := true, paused := false)] == QUEUED1.progress;
    assert AfterBeat(C, QUEUED1, 2) == QUEUED1;
    Advances();
  }

  lemma Advances()
    ensures AdvanceReads(C, QUEUED1.(readOnly := QUEUED1.readOnly.RecvAck(2, 1))) == SERVED1
  {
    hide JointCommitted;
    var ro := QUEUED1.readOnly.RecvAck(2, 1);
    assert ro.acks == map[1 := 1, 2 := 1];
    BothCommit(ro.acks, 1);
    assert ro.unconfirmed[..1] == ro.unconfirmed && ro.unconfirmed[1..] == [];
    assert ro.MaybeAdvance(C.voters) == SERVED1.readOnly;
    var r := PendingRead(ReadRequest(NONE, "r"), 1);
    AnsweredInOrder(QUEUED1.(readOnly := SERVED1.readOnly), [r]);
    assert LocalAnswers(1, [r][1..]) == [] && RemoteAnswers(1, 1, [r][1..]) == [];
  }

  // ------------------------------------------------------------------- the run

  function Pair(a: Node, b: Node, net: set<Message>): Cluster { Cluster(map[1 := a, 2 := b], net) }

  const NET1 := {SELF_VOTE, ASK}
  const NET3 := NET1 + {GRANT}
  const NET4 := NET3 + {SELF_ACK, APPEND}
  const NET5 := NET4 + {ACK}
  const NET7 := NET5 + {NEWS}
  const NET8 := NET7 + {BEAT}
  const NET9 := NET8 + {ANSWER}

  const RUN: seq<Cluster> := [
    Pair(FRESH1, FRESH2, {}),
    Pair(ASKING1, FRESH2, NET1),
    Pair(HALFWAY1, FRESH2, NET1),
    Pair(HALFWAY1, VOTED2, NET3),
    Pair(LEADING1, VOTED2, NET4),
    Pair(LEADING1, STORED2, NET5),
    Pair(STORED1, STORED2, NET5),
    Pair(COMMITTED1, STORED2, NET7),
    Pair(QUEUED1, STORED2, NET8),
    Pair(QUEUED1, KNOWS2, NET9),
    Pair(SERVED1, KNOWS2, NET9)]

  /** Node 1 handles m. */
  lemma FirstActs(a: Node, b: Node, net: set<Message>, m: Message, a': Node, out: seq<Message>, net': set<Message>)
    requires Step(C, a, m, E) == a'.(msgs := out) && a'.msgs == [] && Deliverable(Pair(a, b, net), 1, m)
    requires net' == net + set x | x in out
    ensures Next(C, Pair(a, b, net), Pair(a', b, net'))
  {
    hide Step, Deliverable;
    var s, n := Pair(a, b, net), a'.(msgs := out);
    assert n.(msgs := []) == a';
    assert s.nodes[1 := a'] == map[1 := a', 2 := b];
    assert Receives(C, s, Pair(a', b, net'), 1, m, E);
  }

  /** Node 2 handles m. */
  lemma SecondActs(a: Node, b: Node, net: set<Message>, m: Message, b': Node, out: seq<Message>, net': set<Message>)
    requires Step(C, b, m, E) == b'.(msgs := out) && b'.msgs == [] && Deliverable(Pair(a, b, net), 2, m)
    requires net' == net + set x | x in out
    ensures Next(C, Pair(a, b, net), Pair(a, b', net'))
  {
    hide Step, Deliverable;
    var s, n := Pair(a, b, net), b'.(msgs := out);
    assert n.(msgs := []) == b';
    assert s.nodes[2 := b'] == map[1 := a, 2 := b'];
    assert Receives(C, s, Pair(a, b', net'), 2, m, E);
  }

  lemma Step0()
    ensures Next(C, RUN[0], RUN[1])
  {
    hide Next, Step;
    Asks();
    FirstActs(FRESH1, FRESH2, {}, MsgHup(1, 1, 0), ASKING1, [SELF_VOTE, ASK], NET1);
  }

  lemma Step1()
    ensures Next(C, RUN[1], RUN[2])
  {
    hide Next, Step;
    CountsOwnVote();
    FirstActs(ASKING1, FRESH2, NET1, SELF_VOTE, HALFWAY1, [], NET1);
  }

  lemma Step2()
    ensures Next(C, RUN[2], RUN[3])
  {
    hide Next, Step;
    Grants();
    SecondActs(HALFWAY1, FRESH2, NET1, ASK, VOTED2, [GRANT], NET3);
  }

  lemma Step3()
    ensures Next(C, RUN[3], RUN[4])
  {
    hide Next, Step;
    Elected();
    FirstActs(HALFWAY1, VOTED2, NET3, GRANT, LEADING1, [SELF_ACK, APPEND], NET4);
  }

  lemma Step4()
    ensures Next(C, RUN[4], RUN[5])
  {
    hide Next, Step;
    Stores();
    SecondActs(LEADING1, VOTED2, NET4, APPEND, STORED2, [ACK], NET5);
  }

  lemma Step5()
    ensures Next(C, RUN[5], RUN[6])
  {
    hide Next, Step;
    StoresOwn();
    FirstActs(LEADING1, STORED2, NET5, SELF_ACK, STORED1, [], NET5);
  }

  lemma Step6()
    ensures Next(C, RUN[6], RUN[7])
  {
    hide Next, Step;
    Commits();
    FirstActs(STORED1, STORED2, NET5, ACK, COMMITTED1, [NEWS], NET7);
  }

  lemma Step7()
    ensures Next(C, RUN[7], RUN[8])
  {
    hide Next, Step;
    Queues();
    FirstActs(COMMITTED1, STORED2, NET7, READ, QUEUED1, [BEAT], NET8);
  }

  lemma Step8()
    ensures Next(C, RUN[8], RUN[9])
  {
    hide Next, Step;
    Answers();
    SecondActs(QUEUED1, STORED2, NET8, BEAT, KNOWS2, [ANSWER], NET9);
  }

  lemma Step9()
    ensures Next(C, RUN[9], RUN[10])
  {
    hide Next, Step;
    Serves();
    FirstActs(QUEUED1, KNOWS2, NET9, ANSWER, SERVED1, [], NET9);
  }

  lemma ConfigIsValid()
    ensures C.Valid()
  {}

  lemma StartsFresh()
    ensures Init(C) == RUN[0]
  {
    hide NewNode;
    assert Init(C).nodes == map[1 := NewNode(C, 1), 2 := NewNode(C, 2)];
    FreshIs(1);
    FreshIs(2);
  }

  lemma RunIsRun()
    ensures C.Valid() && IsRun(C, RUN)
  {
    hide Next, Config.Valid, Init;
    ConfigIsValid();
    StartsFresh();
    Step0();
    Step1();
    Step2();
    Step3();
    Step4();
    Step5();
    Step6();
    Step7();
    Step8();
    Step9();
  }

  /** The first read of the leader of term 1 is queued in step 7 and confirmed in
      step 9; its host is told the index of the entry committed before the read was
      queued. */
  lemma AReadIsConfirmed()
    ensures C.Valid() && IsRun(C, RUN)
    ensures !HasQueued(RUN[7], 1, 1, 1) && HasQueued(RUN[8], 1, 1, 1) && Confirms(RUN[9], RUN[10], 1, 1, 1)
    ensures RUN[7].nodes[1].committed == 1 && RUN[10].nodes[1].readStates == [ReadState(1, "r")]
  {
    hide IsRun;
    RunIsRun();
  }
}
