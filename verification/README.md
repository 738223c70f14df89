# A Dafny model of the etcd Raft library

The library is a deterministic consensus state machine: a node is given messages
and produces new state and more messages. This project models its logic in Dafny
and proves what the library is for.

## How the project is laid out

**The protocol.** `raftspec.dfy` gives one node as a value and the effect of every
message on it, with the code's own rules (the three ways to be allowed to vote,
replying with the commit index to old appends, heartbeat commits capped at Match,
rejection hints, current-term-only commits, pre-vote, leader leases, leadership
transfer, forwarding, forgotten leaders, read index). A state in which the code
panics is marked by `failed`. A cluster is a set of nodes and an ever-growing set of
messages, so messages may be lost, repeated and reordered; a restarted node keeps
its term, its vote and everything it acknowledged, and may lose any part of its
commit index.

**The node as an object.** `raftnode.dfy` is the same node as the program keeps it: an
object that owns a two-part log (`raftlog.dfy`), a tracker with one progress object
and one ring buffer per peer (`tracker.dfy`, `inflights.dfy`) and a queue of reads
(`readindex.dfy`), all of them separate, and that changes them in place. Every handler
is proved to take the view of these objects where the specification takes the node.
`members.dfy` puts such an object into a run: whatever the run delivers to it, it does
not panic and stays the node that the run says it is. `handling.dfy` takes the longest
handlers apart.

The safety argument refers to a history of the run (who led which term with which
log, who voted, what was acknowledged, which reads were queued). Histories are built
inside the proofs (`history.dfy`, `growth.dfy`); the inductive invariant is in
`invariant.dfy`; `stepping.dfy`, `elections.dfy`, `replication.dfy`,
`followers.dfy`, `readsafety.dfy` and `nodesteps.dfy` show that every step keeps it;
`runs.dfy` lifts this to whole runs. The theorems in `safety.dfy`, `answers.dfy` (reads)
and `probing.dfy` mention states of the run only; `scenario.dfy` gives a concrete run.

**The laws.** Safety alone would allow a node that does nothing. What the nodes of a run
do, exactly, is stated message by message: who is granted a vote and who can win
(`votes.dfy`), what is committed (`commits.dfy`), what is answered to appends and
heartbeats and what is sent to whom (`appends.dfy`), what becomes of reads
(`reading.dfy`, and `single.dfy` for a leader that votes alone), how leadership is handed
over (`handover.dfy`), and what else a leader looks after (`upkeep.dfy`). They rest on
`effects.dfy`, what the handlers change and leave alone. `derives.dfy` and `origins.dfy`
follow entries and reads back to where they came from, up to the linearizability of reads
end to end.

**The log of one node.** `unstable.dfy` and `storage.dfy` are the two parts of the
log as objects, `raftlog.dfy` reads and writes them as one sequence, `rawnode.dfy`
is the node's side of the storage and apply threads. `pipeline.dfy` proves the
asynchronous append pipeline correct over every interleaving, and `aba.dfy` shows
that it would not be without the term check on acknowledgements; `families.dfy` shows
that runs of the protocol give it what it assumes, and `settling.dfy` that it can always
bring the whole log to storage. `applying.dfy` proves that committed
entries are handed out exactly once and in order, and `applied.dfy` that all nodes of a
run hand out the same.

**Membership.** `membership.dfy` models simple and joint changes and the invariant
they keep, `reconfig.dfy` proves quorum overlap and that joint changes end where
simple ones do, `tracked.dfy` proves what becomes of the members' progress and what
changes are refused for, `restore.dfy` proves the ConfState round trip, and `changer.dfy`
is the changer as it mutates its working copy.

**Flow control.** `flow.dfy` has progress and in-flight window as values,
`flowlaws.dfy` their laws, `inflights.dfy` the ring buffer and the progress objects,
`tracker.dfy` the tracker that owns them. Quorum arithmetic is in `quorum.dfy`, entry
sizes in `sizes.dfy`, read queues in `readonly.dfy` and `readindex.dfy`.

**Assumptions.** Voters are fixed during a run (they may be joint) and are not
empty; node ids are not 0; the in-flight limit is positive. Entries have positive
encoded sizes, and integers do not overflow. Clocks, the lease timer, the unapplied
configuration changes and the uncommitted-size quota are parameters of a step that
may take any value. Durability follows the synchronous contract: state and entries
are durable before messages are sent (node.go:58-59, node.go:74-75); a crash before
that is a step that never happened.

Where comments and code differ the code is followed. `Config.Clone` does not carry
AutoLeave (tracker/tracker.go:107-111), so a wrong flag of the configuration that a change
starts from is never found; `membership.dfy` says exactly when. In StateSnapshot, Next ==
PendingSnapshot + 1 and sentCommit == PendingSnapshot (tracker/progress.go:33-50) hold when
the snapshot is sent but not ever after; `flowlaws.dfy` gives a counterexample and the
exact conditions under which each operation keeps them. What holds in all states is
Match < Next.

## Model

| member | source | states |
|---|---|---|
| Safety.StateMachineSafety | raft.go:1791-1838 | at any two moments of any run, any two nodes hold the same entries as far as both know them to be committed |
| Safety.LeaderCompleteness | raft.go:1212-1257 | what any node knows to be committed is in the log of every leader of a later term, at whatever moments of the run the two are observed |
| Safety.LeaderHasCommitted | raft.go:1791-1838 | what a node knows to be committed is in the log of the leader of its own term |
| Safety.ElectionSafety | raft.go:1673-1711 | at most one node ever leads a term, over whole runs with pre-vote, transfer, forgotten leaders and restarts |
| Safety.LogMatching | log.go:109-167 | logs of any two nodes at any two moments that have the same term at an index are identical up to it; within a log terms are positive and never decrease and indexes are contiguous |
| Safety.MatchSoundness | raft.go:694-710 | in every reachable state a peer in the leader's term agrees with the leader through Match, and Match < Next <= last index + 1 |
| Safety.WindowsInOrder | raft.go:1527-1571 | in every reachable state the in-flight window of every peer is strictly increasing strictly between Match and Next, within its size, and over the byte limit by at most the last message; while replicating, everything past Match and before Next is in flight and sending pauses only while the window is full |
| Safety.NoPanic | log.go:322-330 | no step of any run reaches a panic: committing past the end of the log, overwriting committed entries, cutting the read queue out of range, invalid role changes, unsendable or twice-forwarded messages, missing snapshots |
| CommitLaws.CommitRule | raft.go:775-779 | for a leader of any run: every index of its own term that a quorum holds by Match is committed afterwards, and the commit index moves only to such an index |
| CommitLaws.CommitIsCurrent | raft.go:1518-1561 | in every state of every run no leader is behind: whatever a quorum is known to hold of its own term is committed |
| CommitLaws.CommitIsReplicated | log.go:455-464 | in every step of every run a leader that stays leader raises its commit index only to an index of its own term that a quorum holds |
| VoteLaws.VoteRule | raft.go:1212-1262 | the exact answer to every vote request a run delivers: ignored within a lease or if old; else granted if and only if the vote in the term is free or the candidate has it, no leader of the term is known, and the last entry of the candidate is not smaller |
| VoteLaws.PreVoteRule | raft.go:1212-1262 | the exact answer to every pre-vote request a run delivers, decided alike, with nothing about the node changed |
| VoteLaws.LogsAreOrdered | log.go:442-445 | being up to date is a total order of the ends of logs: total, transitive, both ways only for equal ends, a later last term suffices, and length decides between equal terms |
| VoteLaws.SomeoneIsElectable | log.go:442-445 | in every state of every run, among any nodes there is one that all of them would grant their vote in any later term |
| VoteLaws.CandidateRule | raft.go:1673-1711 | a candidate leads as soon as a quorum has granted it the vote, opening its term with an empty entry, gives up exactly when no further votes could make a quorum, and else waits; the first answer of each node counts |
| VoteLaws.PreCandidateRule | raft.go:1673-1711 | the same for a pre-candidate, which then starts the election |
| VoteLaws.CampaignAsksAll | raft.go:1025-1072 | a campaign asks every voter once with the last entry of the log, and changes nothing durable if it is a pre-vote |
| VoteLaws.TimeoutRule | raft.go:973-990 | an election timeout starts a campaign exactly if the node is not leader, is a voter and has no unapplied configuration change |
| VoteLaws.TakeoverRule | raft.go:1758-1763 | a follower told to take over campaigns at once, without pre-vote, with requests that leases do not hold up |
| AppendLaws.AppendRule | raft.go:1791-1833 | the exact answer to every append a run delivers to a node that is not ahead: a refusal with its hint if and only if the anchor is at or past the commit index and does not match, else an acknowledgement of the commit index for an old append and of the last new entry for any other; and the exact commit index afterwards |
| AppendLaws.AcknowledgedIsHeld | raft.go:1791-1803 | what such an answer acknowledges is true: the node's log agrees with the leader's through that index |
| AppendLaws.AppendIsCounted | raft.go:1518-1550 | across both nodes: once the answer to an accepted append reaches the leader of that term, Match is at least the acknowledged index |
| AppendLaws.HeartbeatRule | raft.go:1835-1838 | the exact answer to every heartbeat a run delivers to a node that is not ahead, and the commit index afterwards |
| AppendLaws.AckRule | raft.go:1518-1550 | an acknowledgement makes Match the larger of itself and the acknowledged index, makes the peer active and, if news, replicated to, and changes nobody else's |
| AppendLaws.AckDrains | raft.go:1550-1571 | after an acknowledgement that is news, in any run, the peer is replicated to and has been sent the whole log, and the commit index as far as it can use it, unless its window is full |
| AppendLaws.SendsBatch | raft.go:618-662 | a peer that can receive is sent the longest run of entries from Next on within the size limit, at least one, anchored before Next, with the commit index; what is recorded of it in Next, window and pause |
| AppendLaws.DrainExhausts | raft.go:1562-1571 | draining leaves nothing that the peer could receive |
| AppendLaws.BroadcastReaches | raft.go:714-721 | a broadcast sends such an append to every other peer that is not paused |
| AppendLaws.HeartbeatsReach | raft.go:694-735 | heartbeats go to every other peer, with the smaller of Match and the commit index |
| AppendLaws.HeartbeatsRecord | raft.go:694-710 | the commit index a heartbeat carries is recorded as sent, and nothing else about any peer changes |
| AppendLaws.BeatRule | raft.go:1278-1280 | a leader of any run that is to beat sends every other peer a heartbeat with the position of its last unconfirmed read, if any, and changes nothing about a peer but the commit index recorded as sent |
| AppendLaws.ProposalRule | raft.go:1294-1353 | a proposal to a leader of any run is refused exactly while leadership is being transferred or the quota is exhausted; else its payloads become the next entries, in order, of the term, and the leader acknowledges them |
| AppendLaws.ProposalIsSent | raft.go:1349-1352 | ... and go to every other peer that is not paused |
| Upkeep.NewLeaderAnnounces | raft.go:933-971 | a node of any run that becomes leader opens its term with an empty entry, sends it to every other peer anchored at the end of the log it was elected with, and counts nobody as holding anything |
| Upkeep.CheckQuorumRule | raft.go:1281-1293 | a leader of any run that checks for a quorum goes on unchanged exactly if a quorum of voters is active, and else becomes a follower of nobody in the same term with the same log and vote; nobody else is active afterwards |
| Upkeep.LeaderHears | raft.go:1384-1389 | a response makes its sender active, and no other message a leader handles, a check apart, changes who is active |
| Upkeep.StaysOnlyIfHeard | tracker/tracker.go:208-218 | a leader that leads through two checks has in between been sent responses of its term by every other member of some quorum |
| Upkeep.ActiveMeansHeard | raft.go:1579-1581 | over any stretch of a run in which a node leads: a peer that has come to be active has sent it a response of its term in that stretch |
| Upkeep.LeaderIsActive | raft.go:945-951 | in every state of every run a leader counts itself as active |
| Upkeep.OnlyVotersLead | raft.go:1946-1949 | in every state of every run only voters stand for election or lead |
| Upkeep.MarksInRuns | raft.go:795-805 | in every state of every run each node has exactly the learners marked as learners |
| Upkeep.ResponseRule | raft.go:1579-1598 | a heartbeat response makes its sender active and, if it lacks entries or is being probed, sends it the next append |
| Upkeep.RefusalRule | raft.go:1384-1517 | a leader of any run that streams to a peer and is refused an append past Match goes back to probing right after Match and sends that probe; an older refusal changes nothing |
| Upkeep.UnreachableRule | raft.go:1629-1635 | a peer reported unreachable is probed after Match with nothing in flight if it was streamed to, and else left as it is |
| Upkeep.StaleRule | raft.go:1132-1186 | a message of an earlier term changes nothing, and exactly which ones are answered, and how |
| Upkeep.StaleIsTold | raft.go:1090-1165 | across both nodes: that answer makes a leader or candidate left behind a follower of the later term, with its log |
| Handover.TransferRule | raft.go:1636-1667 | what a leader of any run does when asked to hand over, for every kind of target: learner, present target, itself, a node with the whole log, a node without |
| Handover.WordRule | raft.go:1572-1577 | in every step of every run a node is told to campaign exactly if the leader has it as target, or is asked to, and it holds the whole log |
| ReadLaws.ReadRule | raft.go:1354-1372 | a leader of any run queues a read at its commit index and asks every other peer to confirm it exactly if it has committed in its term, and else puts it off |
| ReadLaws.NoReadWaits | raft.go:2127-2144 | in every state of every run a leader that has committed in its term has no reads put off |
| ReadLaws.ReleaseRule | raft.go:1550-1554 | an acknowledgement that makes a leader of any run commit queues all reads it had put off, in order, at the new commit index; any other leaves the reads alone |
| ReadLaws.ConfirmRule | raft.go:1600-1610 | a heartbeat response confirms a waiting read in any run exactly if a quorum has then acknowledged its position or a later one |
| ReadLaws.FollowerServes | raft.go:1718-1778 | a follower passes requests on to the leader it knows in the name of whoever asked, drops them if it knows none, and gives answers to its host as they are |
| ReadLaws.ForwardedReadIsQueued | raft.go:1764-1770 | across both nodes: a read asked for at a follower is queued by the leader it is passed to as a read of that follower |
| Derivation.StepDerives | raft.go:1089-1271 | every entry, request and message that a step leaves behind was there before or comes from the message it handled; only the three kinds of step that may answer reads do, and only two tell anyone to campaign |
| Members.Handle | raft.go:1089-1271 | the object of a node of any run, given any message the run can deliver, does not panic, is afterwards exactly the node of the run's next state, and hands over exactly what reaches the network |
| Members.Start | raft.go:439-498 | a new object on empty storage is the node of the cluster's first state |
| Members.Recover | raft.go:439-498 | an object started from the storage and hard state that a crash left is the node after the run's restart step |
| Safety.CommittedStays | log.go:322-330 | between its restarts a node's commit index never falls, and what it knows to be committed stays in its log |
| Origins.ReadsAreLinearizable | raft.go:1354-1372 | end to end: whenever any node, leader or follower, gains a read state in any run, its host had asked for a read with that very context before, a leader queued it after that and confirmed it after that, and its index is not below the commit index that any node had at any moment up to the queueing |
| ReadAnswers.ConfirmedReadsAreRecent | raft.go:1600-1610 | when a leader confirms a read it gives the answer in that very step, a new read state for its host or a response on the network, with an index not below the commit index of any node at any moment up to the one the read was queued |
| Origins.NothingInvented | raft.go:812-847 | in every run, whatever is in any log, other than the empty entries of new leaders, was proposed by some host before |
| ReadAnswers.OnlyBeatsConfirm | raft.go:1579-1610 | a leader that stays leader confirms reads only while handling a heartbeat response with a context |
| ReadAnswers.BeatAnswers | raft.go:1600-1610 | the reads that a heartbeat response confirms leave the queue from the front and are exactly those answered, locally or by message |
| Safety.IndexIsRecent | read_only.go:60-101 | the index a confirmed read was queued with is at least every node's commit index at every moment up to the queueing |
| Scenario.AReadIsConfirmed | raft.go:1600-1610 | a concrete run of two voters in which one is elected with the other's vote, commits an entry, queues a read, confirms it with the other's response and tells its host the index: the situation of the read theorem does occur |
| SingleVoter.OnlyVoterAnswers | raft.go:1354-1361 | a leader that is the only voter answers a read at once with its commit index; if it has committed in its term, that is not below the commit index that any node has had at any moment of the run |
| SingleVoter.OnlyVoterIsRecent | raft.go:1354-1361 | in a group with one voter a leader that has committed in its term has committed all that any node has |
| SingleVoter.AStaleAnswer | raft.go:1354-1361 | a run in which that condition fails and so does the promise: the only voter commits, restarts without its commit index, is elected again and answers a read with index 0 |
| Probing.ProbingInRuns | raft.go:1391-1517 | in every reachable state a probing leader reaches the last index at which the peer's log agrees with its own, within as many rejections as its log has terms |
| Probing.RejectionInRuns | raft.go:1391-1517 | in every reachable state, the peer's answer to a rejected probe and what the leader makes of that answer are one step of the probing series, and the leader sends the next probe from there, earlier but past the last match |
| Probing.PeerRejects | raft.go:1807-1832 | a peer that does not match at the probe answers with its hint and changes nothing else |
| Probing.LeaderProbes | raft.go:1391-1517 | a leader that gets such an answer steps back as the search does and sends exactly the next probe |
| Probing.ProbingConverges | raft.go:1511-1517 | for any matching sorted logs, probing ends exactly at the last matching index (or where it began) and rejections are bounded by the distinct terms of the leader's log |
| Probing.RejectStep | tracker/progress.go:226-254 | a rejected probe is taken as genuine, the next one is earlier but not below the last match, and if rejected again falls in a strictly smaller leader term |
| Probing.GuessNotBelow | log.go:182-194 | the follower's hint combined with the leader's search never goes below the true last matching index |
| Probing.SameTermMatches | raft.go:1807-1832 | a guess in the same leader term as the rejected probe is already a match |
| Probing.SearchStops | log.go:182-194 | the search by term stops at the last index whose term is at most the given one |
| Probing.AcceptedIffMatching | log.go:447-453 | a probe is accepted exactly up to the last matching index |
| Runs.EveryRun | raft.go:1089-1271 | every run has growing histories under which the inductive invariant holds in each state |
| Runs.RestartKeeps | raft.go:439-498 | a restart with a lowered commit index and a log cut no deeper than what the node acknowledged keeps the invariant |
| NodeSteps.NodeStep | raft.go:1089-1271 | whatever message a node handles in whatever environment, the invariant is kept and only that node's deeds are added to the history |
| NodeSteps.HandlesAck | raft.go:1518-1578 | an acknowledgement, with the commits, released reads, appends and leadership transfer it causes, keeps the inductive invariant |
| NodeSteps.CatchesUp | raft.go:1090-1131 | adopting a later term keeps the inductive invariant, and pre-vote traffic does not move the term |
| NodeSteps.Transfers | raft.go:1636-1667 | a leadership transfer keeps the inductive invariant |
| NodeSteps.ChecksQuorum | raft.go:1281-1294 | checking for an active quorum, stepping down or not, keeps the inductive invariant |
| NodeSteps.Forwards | raft.go:1719-1770 | forwarding to the leader keeps the invariant, and a request that carries a term never has to be forwarded again |
| Elections.AnswersVote | raft.go:1212-1262 | answering a vote or pre-vote request keeps the inductive invariant, which holds each voter to one candidate per term and candidates to logs that are not behind (which requests are granted is VoteLaws.VoteRule) |
| Elections.Campaigning | raft.go:902-915 | a node that campaigns enters a term in which it has not voted for anyone else, with its own vote and its log on record, and the inductive invariant is kept |
| Elections.SameWinner | raft.go:1673-1711 | a candidate whose counted votes reach a quorum in a term that already has a leader is that leader |
| Elections.Wins | raft.go:933-971 | a candidate with a quorum of votes becomes the first leader of its term and the inductive invariant is kept |
| Replication.Commits | raft.go:775-779 | advancing the commit index keeps the inductive invariant, which ties every commit to an entry of the committing leader's own term (how far it advances is CommitLaws.CommitRule) |
| Replication.SendsAppend | raft.go:618-662 | sending an append keeps the inductive invariant, which requires it to be a slice of the leader's log with a commit index the leader has reached |
| Followers.HandlesAppend | raft.go:1791-1833 | handling an append of the current leader keeps the inductive invariant, under which acknowledged entries stay unless a later leader displaces them (what is answered is AppendLaws.AppendRule) |
| Followers.HandlesHeartbeat | raft.go:1835-1838 | handling a heartbeat keeps the inductive invariant, under which commit indexes stay within the log |
| ReadSafety.ConfirmedCovers | read_only.go:79-89 | a read whose position a quorum has acknowledged has an index not below any commit index known when it was queued |
| ReadSafety.ConfirmInRange | read_only.go:79-89 | the number of confirmed reads never exceeds the number queued |
| ReadSafety.AsksRead | raft.go:1354-1372 | a read request, answered at once, postponed or queued, keeps the inductive invariant, which ties every queued read to the commit indexes known then |
| History.LeaderCompleteness | raft.go:1212-1257 | an entry of a leader's own term acknowledged by a quorum is in the log of every later leader |
| Logs.AgreeToConflict | log.go:154-167 | under log matching the first conflict is exactly where two logs stop agreeing |
| Logs.AppendFollowsLeader | log.go:109-131 | an accepted append leaves the follower equal to the leader through the last new entry, and unchanged or cut to exactly that |
| Logs.AppendKeeps | log.go:109-131 | an accepted append keeps every prefix already shared with the leader |
| RaftNode.Raft.constructor | raft.go:439-498 | the object built on a storage and a hard state, with a tail, a tracker with a ring for each peer and a read queue of its own, is the node that the specification starts from them |
| RaftNode.Raft.NextEntries | raft.go:632-641 | what is read through tail and storage is the size-limited log from Next on, and nothing while the ring of the peer is full |
| RaftNode.Raft.MaybeSendAppend | raft.go:618-662 | through the log and the peer's ring the node becomes the specified one: never sends into a full ring, and tells whether it sent |
| RaftNode.Raft.Drain | raft.go:1562-1571 | the loop sends appends until the ring or the log gives out, terminates, and ends where the specification does |
| RaftNode.Raft.BcastAppend | raft.go:714-721 | the loop over peers, each with its own ring, has the effect of one append per peer in turn |
| RaftNode.Raft.SendHeartbeat | raft.go:694-710 | the commit index sent is capped at the Match of the peer's object, which records it |
| RaftNode.Raft.BcastHeartbeatWithCtx | raft.go:728-735 | the loop over peers has the effect of one heartbeat per peer in turn |
| RaftNode.Raft.MaybeCommit | raft.go:775-779 | counted over the peers' objects and looked up in the two-part log, the commit index moves exactly if a quorum holds an entry of the current term, and the result says whether it moved |
| RaftNode.Raft.Reset | raft.go:781-810 | every peer's object starts over with a new ring and the read queue with a new object, none of them shared, and the vote is kept exactly if the term is |
| RaftNode.Raft.AppendEntry | raft.go:812-847 | the loop stamps the entries, the two-part log grows by them and by nothing else, and the leader acknowledges them to itself |
| RaftNode.Raft.SendVoteRequests | raft.go:1052-1072 | the loop over voters sends each its request, with the last entry of the two-part log, and the node's own vote to itself |
| RaftNode.Raft.Poll | raft.go:1075-1083 | the first vote of each node counts, and the tally is that of the joint vote |
| RaftNode.Raft.HandleAppendEntries | raft.go:1791-1833 | searching, truncating and appending in the two-part log have the effect of the append on the abstract log, with the same answer, and a conflict with a committed entry changes nothing but is a panic |
| RaftNode.Raft.HandleHeartbeat | raft.go:1835-1838 | the commit index of the log object moves as specified and never past the end of the log, where the program panics |
| RaftNode.Raft.HandleReject | raft.go:1390-1517 | the search in the two-part log and the step back of the peer's object are those of the specification, followed by the specified append |
| RaftNode.Raft.HandleAck | raft.go:1518-1578 | ring, progress, commit index, read queue and messages, changed in place one after another, end up as specified |
| RaftNode.Raft.QueueRead | raft.go:2146-2162 | the read queue object takes the read at the log's commit index, counts the node's own acknowledgement and announces its position |
| RaftNode.Raft.ReleasePendingReads | raft.go:2127-2144 | the loop queues the postponed reads in order once the log shows a commit of the current term |
| RaftNode.Raft.AdvanceReads | raft.go:1600-1610 | the reads that the queue object releases are answered in order; releasing more than it holds is a panic |
| RaftNode.Raft.HandleHeartbeatResp | raft.go:1579-1610 | peer, log and read queue objects end up as specified |
| RaftNode.Raft.HandleCheckQuorum | raft.go:1281-1294 | counted over the peers' objects; the loop clears the activity of all others, after stepping down or not |
| RaftNode.Raft.Step | raft.go:1089-1271 | for every message whose entries are consecutive, the view of log, tracker and read queue becomes the specified node; the objects stay separate and nothing else is written |
| RaftNode.AppendsAgree | log.go:109-131 | on an uncompacted log the append of the two-part log is rejected, panics or is accepted, with log and commit index, as the abstract one |
| RaftNode.LoadedNew | raft.go:439-498 | starting on empty storage gives the node of the cluster's first state |
| Handling.AckSplits | raft.go:1527-1578 | the handling of an acknowledgement is the progress, then the commit and its broadcasts, then the draining, then the transfer |
| Trackers.PeerTracker.constructor | tracker/tracker.go:129-145 | every peer gets a progress and a ring of its own, shared with no other |
| Trackers.PeerTracker.Reset | raft.go:795-805 | the loop makes every peer start over on a new ring, Match being the last index for the node itself only |
| Trackers.PeerTracker.MarkInactive | raft.go:1286-1292 | the loop marks exactly the others as not heard from |
| Trackers.PeerTracker.Acknowledge | raft.go:1527-1550 | an acknowledgement changes the one peer as specified, state by state, and no other peer; whether it was news |
| Trackers.PeerTracker.Sent | tracker/progress.go:165-202 | a sent append changes the one peer as specified and no other, also when its ring has to grow |
| Trackers.PeerTracker.Committed | tracker/tracker.go:179-181 | the index that a quorum of the voters holds by their progress objects |
| Trackers.PeerTracker.QuorumActive | tracker/tracker.go:208-218 | true exactly if the recently active voters win a joint vote |
| Quorum.MajoritiesMeet | quorum/majority.go:169-198 | two majorities of the same non-empty set have a member in common |
| Quorum.QuorumsMeet | quorum/joint.go:61-75 | two quorums of a joint configuration have a voter in common |
| Quorum.WonIsQuorum | quorum/joint.go:61-75 | a joint vote is won exactly if the yes votes are a majority of each half |
| Quorum.DecidedVoteIsFinal | quorum/majority.go:169-198 | a won or lost joint vote keeps its result as missing votes arrive |
| Quorum.LostForGood | quorum/majority.go:169-198 | a joint vote is lost exactly if no further votes could win it |
| Quorum.CountVotes | quorum/majority.go:169-198 | the counting loop returns the vote result defined by majorities of sets |
| Quorum.CountJointVotes | quorum/joint.go:61-75 | the combination of the halves is the joint result, won exactly for a quorum |
| Quorum.MajorityCommitted | quorum/majority.go:120-163 | the committed index is the one below which, and only below which, a majority has acknowledged |
| Quorum.JointCommittedIsExact | quorum/joint.go:49-56 | an index is committed exactly if a majority of each non-empty half has acknowledged it, silent voters counting as zero |
| Quorum.CommittedIndex | quorum/majority.go:120-163 | filling, sorting and picking yields that index, infinity for no voters |
| Quorum.JointCommittedIndex | quorum/joint.go:49-56 | the smaller of the halves' indexes, an empty half not counting |
| Pipeline.AsyncAppendRefines | rawnode.go:223-363 | for every interleaving of updates, term changes, queued writes and delayed acknowledgements, storage below the offset followed by the tail is the log, reads through both give the log's answers, no queued write is below the offset and the next leaves no gap |
| Pipeline.HeededIsSafe | raft.go:1166-1174 | in every state of every run an acknowledgement of the current term that matches the tail names entries that are in storage and that no queued write will touch |
| Pipeline.CanUpdate | log_unstable.go:200-222 | in every state of every run every append of the term's leader can be made without panic |
| Pipeline.CanHand | rawnode.go:266-363 | in every state of every run a Ready can be built without panic |
| Settling.HandsRest | rawnode.go:223-279 | in every state of every run a Ready hands out exactly the part of the log not handed out yet and asks for an acknowledgement of the last entry unless the tail is empty |
| Settling.HeedRule | log_unstable.go:138-164 | in every state of every run an acknowledgement of the current term shortens the tail exactly if its entry is in the tail and still the one it was, and then by all up to it |
| Settling.AllWritten | rawnode.go:223-279 | in every state of every run, nothing queued and everything handed out means that storage has the log |
| Settling.CanSettle | rawnode.go:223-363 | every run can be continued to a state with the same log in which storage has all of it and the tail is empty |
| Families.RunsGiveFamilies | log.go:109-131 | every run has one family of leaders' logs: every log of the run is made of them, a leader's own is a prefix of the one of its term, and every append on the network is a slice of the one of its term |
| Families.AppendsAreConsecutive | raft.go:1782-1789 | the entries of every append delivered in a run follow its anchor one by one |
| StaleAcks.HeedingStaleAcksLosesTheLog | rawnode.go:281-319 | in a reachable state, heeding an acknowledgement of an earlier term makes a queued write replace an entry below the offset |
| UnstableTail.TruncateJoins | log_unstable.go:200-222 | each of the three ways to truncate and append overwrites the joined log from the first new index, and keeps in progress exactly what is below it |
| UnstableTail.StableToJoins | log_unstable.go:138-164 | stabilizing leaves the joined log unchanged and moves the offset only past an entry that is still the acknowledged one |
| UnstableTail.UnstableLog.constructor | log.go:84-88 | an empty tail right after storage |
| UnstableTail.UnstableLog.MaybeLastIndex | log_unstable.go:67-75 | the last index of the tail, if it has entries |
| UnstableTail.UnstableLog.MaybeTerm | log_unstable.go:79-96 | the term of an entry of the tail, if it is there |
| UnstableTail.UnstableLog.NextEntries | log_unstable.go:100-106 | the entries not yet handed out |
| UnstableTail.UnstableLog.AcceptInProgress | log_unstable.go:122-130 | everything is in progress afterwards |
| UnstableTail.UnstableLog.StableTo | log_unstable.go:138-164 | a missing or replaced entry is ignored, otherwise entries up to it leave the tail |
| UnstableTail.UnstableLog.TruncateAndAppend | log_unstable.go:200-222 | the three cases of the code |
| StableStorage.OverwriteReads | storage.go:293-326 | after an append the new entries are read in their places, earlier ones as before, later ones not at all, compacted ones stay compacted |
| StableStorage.CompactReads | storage.go:268-288 | compaction makes exactly the indexes below it unreadable |
| StableStorage.MemoryStorage.constructor | storage.go:119-126 | an empty log with a dummy entry of term zero |
| StableStorage.MemoryStorage.FirstIndex | storage.go:203-205 | the index after the last compacted one |
| StableStorage.MemoryStorage.LastIndex | storage.go:191-193 | the last index |
| StableStorage.MemoryStorage.Term | storage.go:169-181 | the term of an index, compacted or unavailable outside the log |
| StableStorage.MemoryStorage.Entries | storage.go:145-166 | the size-limited prefix of a range, or the error the code returns |
| StableStorage.MemoryStorage.Append | storage.go:293-326 | the log is overwritten from the first new index that is not compacted |
| StableStorage.MemoryStorage.Compact | storage.go:268-288 | refused at or below the compacted index, else the log without what precedes it |
| Sizes.SumSizes | util.go:274-280 | the loop computes the total size |
| Sizes.PayloadsAdd | util.go:306-318 | the payload size is the sum of the lengths of the entries' data |
| Sizes.LimitIsCut | util.go:286-298 | the limited prefix fits or is one entry, and one entry more would not fit |
| Sizes.CutIsLimit | util.go:286-298 | there is only one such prefix |
| Sizes.LimitEntries | util.go:286-298 | the loop returns that prefix |
| Sizes.CutInFirst | log.go:526-531 | a limit that cuts the stable part ignores the unstable one |
| Sizes.CutBetween | log.go:532-537 | a stable part that reaches the limit leaves no room |
| Sizes.CutInSecond | log.go:539-547 | otherwise the unstable part is limited to the room left, and a single entry that does not fit is dropped |
| TwoPartLog.TermSplits | log.go:387-413 | a term of the whole log is found in the tail or else in storage |
| TwoPartLog.RangeSplits | log.go:499-548 | a range of the whole log is one of the tail, of storage, or of storage followed by the tail |
| TwoPartLog.AppendSplits | log.go:133-142 | appending to the tail overwrites the whole log |
| TwoPartLog.StableSplits | log.go:367-367 | handing entries over to storage leaves the whole log unchanged |
| TwoPartLog.SearchesAgree | log.go:154-194 | on an uncompacted log both searches are those of the abstract log |
| TwoPartLog.SpliceAgrees | log.go:109-131 | on an uncompacted log an accepted append is that of the abstract log |
| TwoPartLog.SpliceReaches | log.go:109-131 | the conflict is within the new entries and the log then reaches their end, so committing up to there cannot panic |
| TwoPartLog.HeededAckStabilizes | raft.go:1197-1200 | in every state of every run of the append pipeline a heeded acknowledgement meets what stabilizing requires |
| TwoPartLog.LimitBoth | log.go:526-547 | extending the limited stable part by the unstable one gives the limited prefix of both |
| TwoPartLog.RaftLog.constructor | log.go:75-100 | the log is the storage's, with all cursors at the last compacted index |
| TwoPartLog.RaftLog.FirstIndex | log.go:300-309 | the first index of the whole log |
| TwoPartLog.RaftLog.LastIndex | log.go:311-320 | the last index of the whole log |
| TwoPartLog.RaftLog.Term | log.go:387-413 | the whole log's term at an index, with its errors |
| TwoPartLog.RaftLog.MatchTerm | log.go:447-453 | whether the whole log has that term at that index |
| TwoPartLog.RaftLog.LastEntryID | log.go:378-385 | the last entry of the whole log |
| TwoPartLog.RaftLog.IsUpToDate | log.go:442-445 | the comparison of last entries |
| TwoPartLog.RaftLog.FindConflict | log.go:154-167 | the loop returns the first conflict with the whole log |
| TwoPartLog.RaftLog.FindConflictByTerm | log.go:182-194 | the loop returns the guess defined on the whole log |
| TwoPartLog.RaftLog.Slice | log.go:499-548 | exactly the size-limited prefix of the range of the whole log, or the compaction error |
| TwoPartLog.RaftLog.Entries | log.go:415-420 | the size-limited rest of the whole log from an index on |
| TwoPartLog.RaftLog.Scan | log.go:482-496 | terminates; pages are non-empty, within the page size or single, and concatenate to the whole range unless the visitor stops |
| TwoPartLog.RaftLog.Append | log.go:133-142 | the whole log is overwritten and its last index returned |
| TwoPartLog.RaftLog.CommitTo | log.go:322-330 | the commit index never decreases, and is refused, without change, exactly past the end of the log |
| TwoPartLog.RaftLog.MaybeAppend | log.go:109-131 | for any consecutive entries: nothing changes without a match at prev, nor on a conflict with a committed entry, where the program panics; else the whole log and the tail are spliced from the first conflict, and committed and acknowledged up to the last new entry |
| TwoPartLog.RaftLog.MaybeCommit | log.go:455-464 | advances exactly for a later index whose term matches and is not zero |
| TwoPartLog.RaftLog.NextUnstableEnts | log.go:198-200 | the whole log from the in-progress offset on |
| TwoPartLog.RaftLog.AcceptUnstable | log.go:375-375 | the whole log is unchanged and all of it handed out |
| TwoPartLog.RaftLog.StableTo | log.go:367-367 | the whole log is unchanged and the offset moves past the acknowledged entry |
| TwoPartLog.RaftLog.MaxAppliableIndex | log.go:267-273 | the commit index, or what of it is stable |
| TwoPartLog.RaftLog.NextCommittedEnts | log.go:220-244 | the next batch as the cursor rules define it |
| TwoPartLog.RaftLog.AcceptApplying | log.go:347-365 | the cursors after handing out a batch |
| TwoPartLog.RaftLog.AppliedTo | log.go:332-345 | the cursors after a batch was applied |
| LocalThreads.RawNode.HandEntries | rawnode.go:139-187 | exactly the unwritten entries are handed out, with an acknowledgement of the last entry while the tail is not empty |
| LocalThreads.RawNode.HandCommitted | rawnode.go:430-435 | the next committed entries are handed out and the cursors move by them |
| LocalThreads.RawNode.Ready | rawnode.go:131-135 | a Ready changes only what is in progress and being applied, never the log |
| LocalThreads.RawNode.HandleStorageAppendResp | raft.go:1166-1200 | an acknowledgement of an earlier term changes nothing, one of this term moves the offset |
| LocalThreads.RawNode.HandleStorageApplyResp | raft.go:1205-1210 | the applied cursor moves to the end of the batch, never back |
| LocalThreads.ReadyHands | rawnode.go:223-363 | what a Ready does to the tail and hands to storage is the pipeline's step of handing out |
| LocalThreads.AppendWrites | storage.go:293-326 | an append to uncompacted storage is the pipeline's write |
| LocalThreads.AppendUpdates | log.go:109-142 | an append to the log, accepted or not, with or without conflict, is the pipeline's update |
| Applying.ExactlyOnceInOrder | log.go:220-273 | in every state of every run what was handed out is the log without gap or repetition, applied <= applying <= committed <= last index, and the outstanding size is that of the unapplied batches and below the limit plus the last entry |
| Applying.HandedOnlyGrows | rawnode.go:430-435 | what was handed out is never taken back |
| Applying.HandedStays | log.go:220-273 | what was handed out is never replaced in the log: at every later moment the log has the same entries there |
| Applying.NeverBlocked | log.go:332-365 | once everything handed out is applied, appliable entries can be handed out |
| Applying.HandsOutAll | log.go:220-244 | in every run, of what is committed and, unless allowed otherwise, stable, all is handed out or one entry more would exceed the limit; handing out pauses exactly then or at the limit |
| Applying.ApplyingResumes | log.go:332-345 | in every run, applying the oldest batch lets more be handed out exactly once what is outstanding is below the limit |
| Application.HandOutIsRun | log.go:220-273 | what a node of any protocol run hands out between its restarts is a run of the hand-out: the protocol only changes the log beyond its committed part |
| Application.AppliedAlike | log.go:220-273 | whatever any two nodes of a run hand out at an index, at any moments and after any restarts, is the same entry |
| Application.PrefixOfEachOther | log.go:220-273 | from a common start, of what any two nodes hand out one is a prefix of the other |
| Membership.ReachableIsSettled | confchange/confchange.go:276-332 | every configuration reachable from the empty one satisfies the strong invariant and, unless empty, has voters |
| Membership.SimpleAccepts | confchange/confchange.go:128-145 | a simple change succeeds exactly if the configuration is not joint, every change is known, and the voters that the changes leave are some and differ from the present ones in at most one; it then has these voters, and the closing check never rejects |
| Membership.EnterJointAccepts | confchange/confchange.go:51-78 | entering succeeds exactly if the configuration is not joint and has voters, every change is known and the changes leave voters; it then has these as incoming and the present ones as outgoing voters |
| Membership.LeaveJointAccepts | confchange/confchange.go:94-121 | leaving succeeds exactly on joint configurations |
| Membership.ApplyAccepts | confchange/confchange.go:150-174 | applying changes succeeds exactly if each is known and the voters they leave are some |
| Membership.LastChangeDecides | confchange/confchange.go:150-174 | a node votes afterwards exactly if the last change that concerns it makes it a voter, or none concerns it and it voted before |
| Membership.CopyMissesAutoLeave | confchange/confchange.go:337-347 | the check of the copy and the check of the tracker itself disagree exactly on configurations that have AutoLeave without being joint and are in order otherwise; on all others they give the same verdict |
| Membership.AutoLeaveIsIgnored | tracker/tracker.go:96-112 | no change depends on the AutoLeave flag of the configuration it starts from |
| Membership.BadAutoLeaveIsAccepted | confchange/confchange.go:276-332 | a configuration that the check refuses for AutoLeave, on which a change is accepted |
| Membership.SettledPasses | confchange/confchange.go:276-332 | the strong invariant implies everything the program checks |
| Membership.ApplyOneKeeps | confchange/confchange.go:150-244 | each single change keeps the strong invariant and the outgoing half |
| Reconfiguration.AdjacentQuorumsOverlap | confchange/confchange.go:51-145 | quorums before and after any successful change have a member in common that is a voter of both configurations |
| Reconfiguration.AdjacentElectionsOverlap | quorum/joint.go:61-75 | votes won before and after any successful change have a supporter in common that is a voter of both configurations |
| Reconfiguration.NearMajoritiesMeet | confchange/confchange.go:384-398 | majorities of sets that differ in at most one member meet |
| Reconfiguration.JointEqualsSimple | confchange/confchange.go:51-145 | changes that can be made one at a time can be made through a joint configuration, with the same voters, learners, tracked nodes and marks |
| Reconfiguration.VoterEffect | confchange/confchange.go:178-189 | what adding a voter does to voters, learners and staged learners |
| Reconfiguration.RemoveEffect | confchange/confchange.go:231-244 | what removing a node does to them |
| Reconfiguration.LearnerEffect | confchange/confchange.go:204-228 | what adding a learner does to them: staged exactly if still an outgoing voter |
| TrackedNodes.SimpleCarries | confchange/confchange.go:128-145 | after a successful simple change a node keeps its whole progress, the learner mark aside, exactly if it was tracked and no change on the way removed it; any other tracked node has Match 0, Next at the last index or 1, is probed, active and has nothing in flight |
| TrackedNodes.EnterCarries | confchange/confchange.go:51-78 | the same on entering a joint configuration, where voters are not untracked by being removed |
| TrackedNodes.LeaveCarries | confchange/confchange.go:94-121 | whoever is tracked after leaving was before, with the same progress |
| TrackedNodes.ChangesCarry | confchange/confchange.go:51-145 | after every successful change each member has kept its progress or starts with nothing |
| TrackedNodes.MatchNeverRises | confchange/confchange.go:247-271 | no successful change raises the Match of any node |
| TrackedNodes.MatchFromTheStart | confchange/confchange.go:247-271 | no history of changes makes any node count as holding anything |
| TrackedNodes.OneChange | confchange/confchange.go:150-271 | a single change untracks a node exactly if it removes it and the node is no outgoing voter, and otherwise keeps its progress |
| TrackedNodes.SimpleRefuses | confchange/confchange.go:128-145 | what a refused simple change is refused for |
| TrackedNodes.EnterRefuses | confchange/confchange.go:51-78 | what entering a joint configuration is refused for |
| TrackedNodes.LeaveRefuses | confchange/confchange.go:94-121 | leaving is refused only for not being joint |
| Restoring.ReachableRoundTrip | confchange/restore.go:119-155 | restoring the ConfState of any reachable configuration on an empty tracker gives the same members in the same roles and the same AutoLeave |
| Restoring.RestoreRoundTrip | confchange/restore.go:119-155 | the same for every configuration that satisfies the strong invariant |
| TrackedNodes.RestoredStarts | confchange/restore.go:119-155 | every member of a restored configuration starts with nothing |
| Restoring.SimpleEachAccepts | confchange/restore.go:99-109 | changes made one at a time are all accepted exactly if none is unknown and each leaves a voter |
| Restoring.ToConfChangeSingle | confchange/restore.go:26-97 | the loops build the two change lists |
| ConfChange.ProgressTracker.constructor | tracker/tracker.go:129-145 | an empty configuration |
| ConfChange.CountDifference | confchange/confchange.go:384-398 | the loops count the members that only one set has |
| ConfChange.Draft.constructor | confchange/confchange.go:337-347 | a copy of the tracker's configuration, without AutoLeave |
| ConfChange.Draft.InitProgress | confchange/confchange.go:247-271 | a new member is added in its role with Match 0, Next at the last index or 1, probing, active and with nothing in flight, and nobody else's progress changes |
| ConfChange.Draft.MakeVoter | confchange/confchange.go:178-189 | as specified, in place |
| ConfChange.Draft.Remove | confchange/confchange.go:231-244 | as specified, in place |
| ConfChange.Draft.MakeLearner | confchange/confchange.go:204-228 | as specified, in place |
| ConfChange.Draft.Apply | confchange/confchange.go:150-174 | the loop applies all changes or reports the specified error |
| ConfChange.Draft.CheckInvariants | confchange/confchange.go:276-332 | the loops decide exactly the checked conditions |
| ConfChange.Draft.StageLearners | confchange/confchange.go:103-107 | the loop turns every staged learner into a learner |
| ConfChange.Draft.ForgetOutgoing | confchange/confchange.go:109-116 | the loop forgets exactly the outgoing voters that neither vote nor learn |
| ConfChange.Draft.Leave | confchange/confchange.go:103-118 | the configuration after leaving |
| ConfChange.Changer.CheckAndCopy | confchange/confchange.go:337-356 | a fresh copy and the verdict on it |
| ConfChange.Changer.Simple | confchange/confchange.go:128-145 | the specified outcome, leaving the tracker untouched on success and on error |
| ConfChange.Changer.EnterJoint | confchange/confchange.go:51-78 | the specified outcome, leaving the tracker untouched on success and on error |
| ConfChange.Changer.LeaveJoint | confchange/confchange.go:94-121 | the specified outcome, leaving the tracker untouched on success and on error |
| ConfChange.Chain | confchange/restore.go:99-109 | the changes are made in turn, up to the first error |
| ConfChange.Restore | confchange/restore.go:119-155 | the specified outcome, leaving the given tracker untouched |
| FlowLaws.FreesExactly | tracker/inflights.go:98-128 | freeing an increasing window removes exactly the indexes up to the argument and keeps the order |
| FlowLaws.SendKeepsOrder | tracker/progress.go:165-185 | recording a sent append keeps the window ordered between Match and Next and within its limits |
| FlowLaws.FullIsTight | tracker/inflights.go:131-133 | a window is full exactly if whatever is sent next would not fit its limits |
| FlowLaws.SendingPauses | tracker/progress.go:165-185 | after an append a probed follower is paused exactly if it had entries or was paused before, and a streamed-to one exactly if nothing more would fit |
| FlowLaws.AckKeepsOrder | tracker/progress.go:205-213 | an acknowledgement followed by freeing keeps it so |
| FlowLaws.FreeSkipsNone | tracker/inflights.go:98-128 | freeing up to an acknowledged index leaves as last in flight what was last, or that index if nothing is left |
| FlowLaws.TransitionsKeepOrder | tracker/progress.go:121-158 | every change of state empties the window and keeps Match < Next, snapshots being at or past Match |
| FlowLaws.RejectKeepsOrder | tracker/progress.go:226-254 | a rejection, with the return to probing, keeps the window ordered and never raises Next |
| FlowLaws.SnapshotStarts | tracker/progress.go:33-41 | Next and the commit index in flight are tied to the snapshot when it is sent |
| FlowLaws.SnapshotEnds | tracker/progress.go:130-143 | after a snapshot the follower is probed right after it or after Match, whichever is later, unpaused and with nothing in flight |
| FlowLaws.SnapshotEquationFails | tracker/progress.go:33-41 | a follower in StateSnapshot with Next == PendingSnapshot + 1 for which a rejection breaks the equation |
| FlowLaws.RejectKeepsEquation | tracker/progress.go:226-254 | in StateSnapshot a rejection keeps Next == PendingSnapshot + 1 exactly if it is not for the snapshot's index or Match has reached it |
| FlowLaws.AckKeepsEquation | tracker/progress.go:205-213 | in StateSnapshot an acknowledgement keeps Next == PendingSnapshot + 1 exactly if it does not pass the snapshot |
| FlowLaws.CommitEquation | tracker/progress.go:43-50 | in StateSnapshot sentCommit == PendingSnapshot survives a heartbeat exactly if it carries that index, and a rejection under the same condition as the equation for Next |
| Tracking.RingAdd | tracker/inflights.go:65-80 | writing the next place of the ring appends to its contents, also when it wraps |
| Tracking.RingGrow | tracker/inflights.go:85-95 | growing the buffer keeps the contents |
| Tracking.RingFree | tracker/inflights.go:98-128 | moving the start drops from the front of the contents |
| Tracking.Inflights.constructor | tracker/inflights.go:46-51 | an empty window without a buffer |
| Tracking.Inflights.Full | tracker/inflights.go:131-133 | the count or the bytes have reached their limit |
| Tracking.Inflights.Grow | tracker/inflights.go:85-95 | a larger buffer within the limit with the same contents |
| Tracking.Inflights.Add | tracker/inflights.go:65-80 | the message is appended to the window, which must have room |
| Tracking.Inflights.Acknowledged | tracker/inflights.go:104-118 | the loop finds how much of the front an acknowledgement frees, and its bytes |
| Tracking.Inflights.FreeLE | tracker/inflights.go:98-128 | the window is freed from the front up to the argument, and bytes stay the sum of its messages |
| Tracking.Inflights.Reset | tracker/inflights.go:139-143 | an empty window |
| Tracking.PeerProgress.constructor | raft.go:796-801 | a fresh progress in StateProbe |
| Tracking.PeerProgress.Renew | raft.go:796-804 | the same object starts over with a new ring, and only whether it is a learner is kept |
| Tracking.PeerProgress.ResetState | tracker/progress.go:121-126 | as specified, in place |
| Tracking.PeerProgress.BecomeProbe | tracker/progress.go:130-143 | as specified, in place, after a pending snapshot from there on |
| Tracking.PeerProgress.BecomeReplicate | tracker/progress.go:146-149 | as specified, in place |
| Tracking.PeerProgress.BecomeSnapshot | tracker/progress.go:153-158 | as specified, in place |
| Tracking.PeerProgress.SentEntries | tracker/progress.go:165-185 | as specified, in place; entries are only sent into a window with room |
| Tracking.PeerProgress.MaybeUpdate | tracker/progress.go:205-213 | as specified, in place, telling whether it was news |
| Tracking.PeerProgress.MaybeDecrTo | tracker/progress.go:226-254 | as specified, in place, telling whether it was genuine |
| ReadIndex.ContextRoundTrip | read_only.go:93-101 | heartbeat contexts carry 64-bit positions faithfully, nothing standing for no position |
| ReadIndex.AdvanceSplits | read_only.go:79-89 | released and remaining reads are together the old queue in order |
| ReadIndex.ReleasedByQuorum | read_only.go:79-89 | a read is released exactly once a quorum has acknowledged its position |
| ReadIndex.AnsweredInOrder | raft.go:1600-1610 | released reads are answered in queue order, each with the index it was queued with |
| ReadIndex.ReadRequests.constructor | read_only.go:49-54 | no reads |
| ReadIndex.ReadRequests.AddRequest | read_only.go:60-62 | the request joins the queue with its commit index |
| ReadIndex.ReadRequests.RecvAck | read_only.go:65-69 | acknowledged positions never decrease, an empty context is ignored |
| ReadIndex.ReadRequests.LastPosition | read_only.go:93-101 | the position of the last queued read, 0 if none is unconfirmed |
| ReadIndex.ReadRequests.HeartbeatCtx | read_only.go:93-101 | the context of the last queued read, empty if none is unconfirmed |
| ReadIndex.ReadRequests.MaybeAdvance | read_only.go:79-89 | the confirmed reads are released from the front of the queue, and more than are queued never |

## Left out

- Snapshots: MsgSnap, `restore`, ApplySnapshot and CreateSnapshot, MsgSnapStatus, and compaction of the log during protocol runs; storage compaction is modelled in the log of one node.
- Reconfiguration during protocol runs: voters are fixed there; that adjacent configurations overlap is proved separately.
- Proposals of configuration changes: the replacement of refused ones by empty entries, pendingConfIndex and automatic leaving of joint configurations.
- Uncommitted-size accounting: whether a proposal is refused for its size is a free choice of the environment.
- Clocks and timeouts: ticks are free choices of the environment, including the end of a leadership transfer.
- ReadOnlyLeaseBased, which depends on bounded clock drift.
- Crashes in asynchronous storage mode: the append pipeline is modelled without crashes, and protocol runs with crashes follow the synchronous contract.
- The channel loop of `node.go`, RawNode's soft and hard state comparison, MustSync, and Advance, which feeds the same responses back in synchronous mode.
- Encoding of messages and entries, logging, tracing, status and descriptions.
- RaftNode.Raft.Step: works on an uncompacted log, with fixed members; read contexts are positions here, their eight bytes are modelled in the read queue's own methods.
- Origins.ReadsAreLinearizable: for groups with more than one voter, as the single-voter shortcut does not queue reads; SingleVoter.OnlyVoterAnswers says when its answers are recent.
- SingleVoter.OnlyVoterIsRecent: having committed in the term is sufficient, and SingleVoter.AStaleAnswer shows that it is needed; a leader that has not may still happen to be recent.
- Pipeline.AsyncAppendRefines: on uncompacted logs and without crashes.
