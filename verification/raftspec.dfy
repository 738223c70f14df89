/** One raft node as a value and the effect of every step on it. Messages a
    step sends are collected in the node's outbox; a state in which the code
    would panic is marked by `failed`. */
module RaftSpec {
  import opened Quorum
  import opened Logs
  import opened Flow
  import opened ReadQueue

  datatype Role = Follower | PreCandidate | Candidate | Leader

  datatype CampaignType = PreElection | Election | Transfer

  datatype ReadState = ReadState(index: nat, ctx: string)

  /** A proposed payload. */
  type Payload = string

  datatype Message =
    // local messages; their term is 0
    | MsgHup(from: Id, to: Id, term: nat)
    | MsgBeat(from: Id, to: Id, term: nat)
    | MsgCheckQuorum(from: Id, to: Id, term: nat)
    | MsgForgetLeader(from: Id, to: Id, term: nat)
    | MsgUnreachable(from: Id, to: Id, term: nat)
    | MsgProp(from: Id, to: Id, term: nat, payloads: seq<Payload>)
    | MsgReadIndex(from: Id, to: Id, term: nat, ctx: string)
    | MsgTransferLeader(from: Id, to: Id, term: nat)
    // messages between nodes
    | MsgVote(from: Id, to: Id, term: nat, last: EntryID, transfer: bool)
    | MsgVoteResp(from: Id, to: Id, term: nat, reject: bool)
    | MsgPreVote(from: Id, to: Id, term: nat, last: EntryID, transfer: bool)
    | MsgPreVoteResp(from: Id, to: Id, term: nat, reject: bool)
    | MsgApp(from: Id, to: Id, term: nat, prev: EntryID, entries: seq<Entry>, commit: nat)
    | MsgAppResp(from: Id, to: Id, term: nat, index: nat, reject: bool, hint: EntryID)
    | MsgHeartbeat(from: Id, to: Id, term: nat, commit: nat, context: nat)
    | MsgHeartbeatResp(from: Id, to: Id, term: nat, context: nat)
    | MsgTimeoutNow(from: Id, to: Id, term: nat)
    | MsgReadIndexResp(from: Id, to: Id, term: nat, index: nat, ctx: string)

  /** Fixed membership and options of the group. `peers` lists all tracked
      nodes and `voterIds` all voters, in the order they are visited; `size` is
      the encoded size of an entry. */
  datatype Config = Config(
    voters: JointConfig, learners: set<Id>, peers: seq<Id>, voterIds: seq<Id>,
    checkQuorum: bool, preVote: bool, forwardProposals: bool,
    maxMsgSize: nat, maxInflight: nat, maxInflightBytes: nat, size: Entry -> nat)
  {
    ghost predicate Valid() {
      && voters.incoming != {}
      && voters.Ids() !! learners
      && (forall id :: id in peers <==> id in voters.Ids() || id in learners)
      && (forall id :: id in voterIds <==> id in voters.Ids())
      && NONE !in peers
      && maxInflight > 0
    }

    predicate IsSingleton() { |voters.incoming| == 1 && voters.outgoing == {} }
  }

  /** What a step reads besides the node and the message: whether the election
      clock is inside the leader lease, whether committed membership changes
      are still unapplied, and whether the uncommitted-size quota has room. */
  datatype Env = Env(inLease: bool, unappliedConf: bool, quota: bool)

  datatype Node = Node(
    id: Id, term: nat, vote: Id, role: Role, lead: Id, transferee: Id,
    log: seq<Entry>, committed: nat,
    votes: map<Id, bool>, progress: map<Id, Progress>,
    readOnly: ReadOnly, pendingReads: seq<ReadRequest>, readStates: seq<ReadState>,
    msgs: seq<Message>, failed: bool)

  // ------------------------------------------------------------------ sending

  predicate IsVoteMsg(m: Message) {
    m.MsgVote? || m.MsgVoteResp? || m.MsgPreVote? || m.MsgPreVoteResp?
  }

  /** Vote messages need a term, and only the responses that wait for the local
      disk may be addressed to the sender. */
  predicate Sendable(n: Node, m: Message) {
    && (IsVoteMsg(m) ==> m.term != 0)
    && (m.MsgAppResp? || m.MsgVoteResp? || m.MsgPreVoteResp? || m.to != n.id)
  }

  function Send(n: Node, m: Message): Node {
    n.(msgs := n.msgs + [m], failed := n.failed || !Sendable(n, m))
  }

  /** Passes a request on; only a request without a term may be sent again. */
  function Forward(n: Node, term: nat, m: Message): Node {
    Send(n.(failed := n.failed || term != 0), m)
  }

  function Ack(n: Node, to: Id, index: nat): Message {
    MsgAppResp(n.id, to, n.term, index, false, EntryID(0, 0))
  }

  function SetProgress(n: Node, id: Id, p: Progress): Node {
    n.(progress := n.progress[id := p])
  }

  // --------------------------------------------------------- role transitions

  function FreshProgress(c: Config, n: Node, id: Id, isLearner: bool): Progress {
    Progress(if id == n.id then |n.log| else 0, |n.log| + 1, 0, StateProbe, 0, false, false,
             Window(c.maxInflight, c.maxInflightBytes, []), isLearner)
  }

  function AllFresh(c: Config, n: Node): map<Id, Progress> {
    map id | id in n.progress :: FreshProgress(c, n, id, n.progress[id].isLearner)
  }

  function Reset(c: Config, n: Node, term: nat): Node {
    n.(term := term,
       vote := if n.term != term then NONE else n.vote,
       lead := NONE, transferee := NONE, votes := map[],
       progress := AllFresh(c, n),
       readOnly := NO_READS)
  }

  function BecomeFollower(c: Config, n: Node, term: nat, lead: Id): Node {
    Reset(c, n, term).(lead := lead, role := Follower)
  }

  function BecomeCandidate(c: Config, n: Node): Node {
    Reset(c, n, n.term + 1).(vote := n.id, role := Candidate, failed := n.failed || n.role.Leader?)
  }

  function BecomePreCandidate(n: Node): Node {
    n.(votes := map[], lead := NONE, role := PreCandidate, failed := n.failed || n.role.Leader?)
  }

  function Stamped(n: Node, payloads: seq<Payload>): seq<Entry> {
    seq(|payloads|, i requires 0 <= i < |payloads| => Entry(n.term, |n.log| + 1 + i, payloads[i]))
  }

  /** Appends entries of the current term and queues the leader's own
      acknowledgement of them. */
  function AppendEntry(n: Node, payloads: seq<Payload>): Node {
    var n' := n.(log := n.log + Stamped(n, payloads));
    Send(n', Ack(n', n.id, |n'.log|))
  }

  function BecomeLeader(c: Config, n: Node): Node {
    var n1 := Reset(c, n, n.term).(lead := n.id, role := Leader, failed := n.failed || n.role.Follower? || n.id !in n.progress);
    var n2 := if n.id in n1.progress
              then SetProgress(n1, n.id, n1.progress[n.id].BecomeReplicate().(recentActive := true)) else n1;
    AppendEntry(n2, [""])
  }

  // ---------------------------------------------------------------- elections

  predicate Promotable(n: Node) {
    n.id in n.progress && !n.progress[n.id].isLearner
  }

  function VoteRequest(n: Node, t: CampaignType, term: nat, to: Id): Message {
    var last := EntryID(LastTerm(n.log), |n.log|);
    if to == n.id then
      if t.PreElection? then MsgPreVoteResp(n.id, to, term, false) else MsgVoteResp(n.id, to, term, false)
    else
      if t.PreElection? then MsgPreVote(n.id, to, term, last, false)
      else MsgVote(n.id, to, term, last, t.Transfer?)
  }

  function SendVoteRequests(n: Node, t: CampaignType, term: nat, ids: seq<Id>): Node
    decreases |ids|
  {
    if ids == [] then n
    else SendVoteRequests(Send(n, VoteRequest(n, t, term, ids[0])), t, term, ids[1..])
  }

  function Campaign(c: Config, n: Node, t: CampaignType): Node {
    if t.PreElection?
    then SendVoteRequests(BecomePreCandidate(n), t, n.term + 1, c.voterIds)
    else SendVoteRequests(BecomeCandidate(c, n), t, n.term + 1, c.voterIds)
  }

  function Hup(c: Config, n: Node, t: CampaignType, e: Env): Node {
    if n.role.Leader? || !Promotable(n) || e.unappliedConf then n else Campaign(c, n, t)
  }

  function RecordVote(n: Node, id: Id, v: bool): Node {
    if id in n.votes then n else n.(votes := n.votes[id := v])
  }

  predicate CanVote(n: Node, m: Message)
    requires m.MsgVote? || m.MsgPreVote?
  {
    n.vote == m.from || (n.vote == NONE && n.lead == NONE) || (m.MsgPreVote? && m.term > n.term)
  }

  function HandleVote(n: Node, m: Message): Node
    requires m.MsgVote? || m.MsgPreVote?
  {
    if CanVote(n, m) && IsUpToDate(n.log, m.last) then
      if m.MsgVote?
      then Send(n, MsgVoteResp(n.id, m.from, m.term, false)).(vote := m.from)
      else Send(n, MsgPreVoteResp(n.id, m.from, m.term, false))
    else
      if m.MsgVote?
      then Send(n, MsgVoteResp(n.id, m.from, n.term, true))
      else Send(n, MsgPreVoteResp(n.id, m.from, n.term, true))
  }

  // -------------------------------------------------------------- replication

  function Entries(c: Config, n: Node, from: Position): seq<Entry> {
    if from > |n.log| then [] else LimitSize(c.size, n.log[from - 1..], c.maxMsgSize)
  }

  /** The entries of the next append to `to`; none while the window is full. */
  function NextEntries(c: Config, n: Node, to: Id): seq<Entry>
    requires to in n.progress
  {
    var pr := n.progress[to];
    if pr.state.StateReplicate? && pr.inflights.Full() then [] else Entries(c, n, pr.next)
  }

  /** Sends the next append to `to` unless it is paused; the second result says
      whether a message went out. The log is not compacted, so an unavailable
      term can only mean that `next` is past the end of the log; the code then
      asks for a snapshot it does not have. */
  function MaybeSendAppend(c: Config, n: Node, to: Id, sendIfEmpty: bool): (r: (Node, bool))
    requires to in n.progress
    ensures r.0 == n.(progress := r.0.progress, msgs := r.0.msgs, failed := r.0.failed)
    ensures r.0.progress.Keys == n.progress.Keys
    ensures r.1 && !sendIfEmpty ==>
              && n.progress[to].next <= |n.log|
              && (r.0.progress[to].next > n.progress[to].next ||
                  (r.0.progress[to].next == n.progress[to].next && !n.progress[to].paused && r.0.progress[to].paused))
  {
    var pr := n.progress[to];
    if pr.IsPaused() then (n, false)
    else match TermAt(n.log, pr.next - 1)
      case None => (n.(failed := n.failed || pr.recentActive), false)
      case Some(prevTerm) =>
        var ents := NextEntries(c, n, to);
        if ents == [] && !sendIfEmpty then (n, false)
        else
          var n' := Send(n, MsgApp(n.id, to, n.term, EntryID(prevTerm, pr.next - 1), ents, n.committed));
          (SetProgress(n', to, pr.SentEntries(|ents|, PayloadsSize(ents)).SentCommit(n.committed)), true)
  }

  function SendAppend(c: Config, n: Node, to: Id): Node
    requires to in n.progress
  {
    MaybeSendAppend(c, n, to, true).0
  }

  /** Sends appends as long as there are entries the window has room for. */
  function Drain(c: Config, n: Node, to: Id): Node
    requires to in n.progress
    decreases |n.log| + 1 - n.progress[to].next, !n.progress[to].paused
  {
    var (n', sent) := MaybeSendAppend(c, n, to, false);
    if sent then Drain(c, n', to) else n'
  }

  function BcastAppend(c: Config, n: Node, ids: seq<Id>): Node
    decreases |ids|
  {
    if ids == [] then n
    else if ids[0] == n.id || ids[0] !in n.progress then BcastAppend(c, n, ids[1..])
    else BcastAppend(c, SendAppend(c, n, ids[0]), ids[1..])
  }

  /** A heartbeat never carries a commit index past what the follower is known
      to match. */
  function SendHeartbeat(n: Node, to: Id, ctx: nat): Node
    requires to in n.progress
  {
    var commit := Min(n.progress[to].matched, n.committed);
    SetProgress(Send(n, MsgHeartbeat(n.id, to, n.term, commit, ctx)), to, n.progress[to].SentCommit(commit))
  }

  function BcastHeartbeat(n: Node, ctx: nat, ids: seq<Id>): Node
    decreases |ids|
  {
    if ids == [] then n
    else if ids[0] == n.id || ids[0] !in n.progress then BcastHeartbeat(n, ctx, ids[1..])
    else BcastHeartbeat(SendHeartbeat(n, ids[0], ctx), ctx, ids[1..])
  }

  function MatchIndexes(n: Node): map<Id, nat> {
    map id | id in n.progress :: n.progress[id].matched
  }

  /** Advances the commit index to what a quorum matches, if that entry is of
      the current term. */
  ghost function MaybeCommit(c: Config, n: Node): Node {
    var at := JointCommitted(c.voters, MatchIndexes(n));
    if at.At? && n.term != 0 && at.i > n.committed && MatchTerm(n.log, EntryID(n.term, at.i))
    then n.(committed := at.i) else n
  }

  function HandleAppendEntries(n: Node, m: Message): Node
    requires m.MsgApp?
  {
    if m.prev.index < n.committed then Send(n, Ack(n, m.from, n.committed))
    else match MaybeAppend(n.log, n.committed, m.prev, m.entries, m.commit)
      case Accepted(log, committed) =>
        Send(n.(log := log, committed := committed), Ack(n, m.from, m.prev.index + |m.entries|))
      case Panicked => n.(failed := true)
      case Rejected =>
        Send(n, MsgAppResp(n.id, m.from, n.term, m.prev.index, true, RejectionHint(n.log, m.prev)))
  }

  function HandleHeartbeat(n: Node, m: Message): Node
    requires m.MsgHeartbeat?
  {
    if CommitPanics(n.log, n.committed, m.commit) then n.(failed := true)
    else Send(n.(committed := CommitTo(n.committed, m.commit)), MsgHeartbeatResp(n.id, m.from, n.term, m.context))
  }

  /** A follower rejected an append. */
  function HandleReject(c: Config, n: Node, m: Message): Node
    requires m.MsgAppResp? && m.from in n.progress
  {
    var (pr, decreased) := n.progress[m.from].MaybeDecrTo(m.index, NextProbeIndex(n.log, m.hint));
    if !decreased then n
    else SendAppend(c, SetProgress(n, m.from, if pr.state.StateReplicate? then pr.BecomeProbe() else pr), m.from)
  }

  /** The follower's progress after an acknowledgement that was news. */
  function AckedProgress(pr: Progress, index: nat): Progress {
    match pr.state
    case StateProbe => pr.BecomeReplicate()
    case StateSnapshot => pr.BecomeProbe().BecomeReplicate()
    case StateReplicate => pr.(inflights := pr.inflights.FreeLE(index))
  }

  /** A follower (or the leader itself) acknowledged an append. */
  ghost function HandleAck(c: Config, n: Node, m: Message): Node
    requires m.MsgAppResp? && m.from in n.progress
  {
    var (pr, updated) := n.progress[m.from].MaybeUpdate(m.index);
    if !updated && !(pr.matched == m.index && pr.state.StateProbe?) then n
    else
      var n1 := SetProgress(n, m.from, AckedProgress(pr, m.index));
      var n2 := MaybeCommit(c, n1);
      var n3 := if n2.committed != n1.committed then BcastAppend(c, ReleasePendingReads(c, n2), c.peers)
                else if n.id != m.from && n2.progress[m.from].CanBumpCommit(n2.committed) then SendAppend(c, n2, m.from)
                else n2;
      var n4 := if n.id != m.from && m.from in n3.progress then Drain(c, n3, m.from) else n3;
      if m.from == n4.transferee && m.from in n4.progress && n4.progress[m.from].matched == |n4.log|
      then Send(n4, MsgTimeoutNow(n4.id, m.from, n4.term)) else n4
  }

  // -------------------------------------------------------------------- reads

  predicate CommittedInTerm(n: Node) {
    TermAt(n.log, n.committed) == Some(n.term)
  }

  /** Queues a read at the current commit index, acknowledges it locally and
      asks the group to confirm the leadership. */
  function QueueRead(c: Config, n: Node, req: ReadRequest): Node {
    var ro := n.readOnly.AddRequest(n.committed, req);
    var n' := n.(readOnly := ro.RecvAck(n.id, ro.HeartbeatCtx()));
    BcastHeartbeat(n', n'.readOnly.HeartbeatCtx(), c.peers)
  }

  function QueueReads(c: Config, n: Node, reqs: seq<ReadRequest>): Node
    decreases |reqs|
  {
    if reqs == [] then n else QueueReads(c, QueueRead(c, n, reqs[0]), reqs[1..])
  }

  function ReleasePendingReads(c: Config, n: Node): Node {
    if n.pendingReads == [] || !CommittedInTerm(n) then n
    else QueueReads(c, n.(pendingReads := []), n.pendingReads)
  }

  /** Answers a read: locally for the node's own requests, by message else. */
  function Respond(n: Node, req: ReadRequest, index: nat): Node {
    if req.from == NONE || req.from == n.id
    then n.(readStates := n.readStates + [ReadState(index, req.ctx)])
    else Send(n, MsgReadIndexResp(n.id, req.from, n.term, index, req.ctx))
  }

  function RespondAll(n: Node, batch: seq<PendingRead>): Node
    decreases |batch|
  {
    if batch == [] then n else RespondAll(Respond(n, batch[0].req, batch[0].index), batch[1..])
  }

  function HandleReadIndex(c: Config, n: Node, m: Message): Node
    requires m.MsgReadIndex?
  {
    var req := ReadRequest(m.from, m.ctx);
    if c.IsSingleton() then Respond(n, req, n.committed)
    else if !CommittedInTerm(n) then n.(pendingReads := n.pendingReads + [req])
    else QueueRead(c, n, req)
  }

  /** Releases the reads that the acknowledged heartbeats confirm. Cutting the
      queue past its end would panic. */
  ghost function AdvanceReads(c: Config, n: Node): Node {
    var k := JointCommitted(c.voters, n.readOnly.acks);
    var ready := n.readOnly.Confirmable(c.voters);
    RespondAll(n.(readOnly := n.readOnly.MaybeAdvance(c.voters), failed := n.failed || !n.readOnly.InRange(k)), ready)
  }

  ghost function HandleHeartbeatResp(c: Config, n: Node, m: Message): Node
    requires m.MsgHeartbeatResp? && m.from in n.progress
  {
    var pr := n.progress[m.from].(recentActive := true, paused := false);
    var n1 := SetProgress(n, m.from, pr);
    var n2 := if pr.matched < |n.log| || pr.state.StateProbe? then SendAppend(c, n1, m.from) else n1;
    if m.context == 0 then n2
    else AdvanceReads(c, n2.(readOnly := n2.readOnly.RecvAck(m.from, m.context)))
  }

  // ---------------------------------------------------------- leader upkeep

  function ActiveVotes(n: Node): map<Id, bool> {
    map id | id in n.progress && !n.progress[id].isLearner :: n.progress[id].recentActive
  }

  ghost function HandleCheckQuorum(c: Config, n: Node): Node {
    var n' := if JointVote(c.voters, ActiveVotes(n)) != VoteWon then BecomeFollower(c, n, n.term, NONE) else n;
    n'.(progress := map id | id in n'.progress ::
          if id != n'.id then n'.progress[id].(recentActive := false) else n'.progress[id])
  }

  function HandleTransfer(c: Config, n: Node, m: Message): Node
    requires m.MsgTransferLeader? && m.from in n.progress
  {
    if n.progress[m.from].isLearner || (n.transferee != NONE && n.transferee == m.from) then n
    else if m.from == n.id then n.(transferee := NONE)
    else
      var n' := n.(transferee := m.from);
      if n.progress[m.from].matched == |n.log|
      then Send(n', MsgTimeoutNow(n.id, m.from, n.term))
      else SendAppend(c, n', m.from)
  }

  // -------------------------------------------------------------------- steps

  ghost function StepLeader(c: Config, n: Node, m: Message, e: Env): Node {
    if m.MsgBeat? then BcastHeartbeat(n, n.readOnly.HeartbeatCtx(), c.peers)
    else if m.MsgCheckQuorum? then HandleCheckQuorum(c, n)
    else if m.MsgProp? then
      if m.payloads == [] then n.(failed := true)
      else if n.id !in n.progress || n.transferee != NONE || !e.quota then n
      else BcastAppend(c, AppendEntry(n, m.payloads), c.peers)
    else if m.MsgReadIndex? then HandleReadIndex(c, n, m)
    else if m.from !in n.progress then n
    else if m.MsgAppResp? then
      var n' := SetProgress(n, m.from, n.progress[m.from].(recentActive := true));
      if m.reject then HandleReject(c, n', m) else HandleAck(c, n', m)
    else if m.MsgHeartbeatResp? then HandleHeartbeatResp(c, n, m)
    else if m.MsgUnreachable? && n.progress[m.from].state.StateReplicate? then
      SetProgress(n, m.from, n.progress[m.from].BecomeProbe())
    else if m.MsgTransferLeader? then HandleTransfer(c, n, m)
    else n
  }

  ghost function StepCandidate(c: Config, n: Node, m: Message): Node {
    if m.MsgApp? then HandleAppendEntries(BecomeFollower(c, n, m.term, m.from), m)
    else if m.MsgHeartbeat? then HandleHeartbeat(BecomeFollower(c, n, m.term, m.from), m)
    else if (m.MsgPreVoteResp? && n.role.PreCandidate?) || (m.MsgVoteResp? && n.role.Candidate?) then
      CountVote(c, n, m.from, !m.reject)
    else n
  }

  ghost function CountVote(c: Config, n: Node, from: Id, granted: bool): Node {
    var n' := RecordVote(n, from, granted);
    match JointVote(c.voters, n'.votes)
    case VoteWon =>
      if n'.role.PreCandidate? then Campaign(c, n', Election)
      else BcastAppend(c, BecomeLeader(c, n'), c.peers)
    case VoteLost => BecomeFollower(c, n', n'.term, NONE)
    case VotePending => n'
  }

  function StepFollower(c: Config, n: Node, m: Message, e: Env): Node {
    if m.MsgProp? then
      if n.lead == NONE || !c.forwardProposals then n
      else Forward(n, m.term, MsgProp(if m.from == NONE then n.id else m.from, n.lead, 0, m.payloads))
    else if m.MsgApp? then HandleAppendEntries(n.(lead := m.from), m)
    else if m.MsgHeartbeat? then HandleHeartbeat(n.(lead := m.from), m)
    else if m.MsgTransferLeader? then
      if n.lead == NONE then n
      else Forward(n, m.term, MsgTransferLeader(if m.from == NONE then n.id else m.from, n.lead, n.term))
    else if m.MsgForgetLeader? then n.(lead := NONE)
    else if m.MsgTimeoutNow? then Hup(c, n, Transfer, e)
    else if m.MsgReadIndex? then
      if n.lead == NONE then n
      else Forward(n, m.term, MsgReadIndex(if m.from == NONE then n.id else m.from, n.lead, 0, m.ctx))
    else if m.MsgReadIndexResp? then n.(readStates := n.readStates + [ReadState(m.index, m.ctx)])
    else n
  }

  /** What a message does once its term has been dealt with. */
  ghost function StepKind(c: Config, n: Node, m: Message, e: Env): Node {
    if m.MsgHup? then Hup(c, n, if c.preVote then PreElection else Election, e)
    else if m.MsgVote? || m.MsgPreVote? then HandleVote(n, m)
    else match n.role
      case Leader => StepLeader(c, n, m, e)
      case Follower => StepFollower(c, n, m, e)
      case _ => StepCandidate(c, n, m)
  }

  predicate LeaseBlocks(c: Config, n: Node, m: Message, e: Env) {
    && (m.MsgVote? || m.MsgPreVote?) && !m.transfer
    && c.checkQuorum && n.lead != NONE && e.inLease
  }

  /** Pre-vote traffic never moves the term; anything else from a later term
      makes the node a follower of it. */
  function CatchUp(c: Config, n: Node, m: Message): Node {
    if m.MsgPreVote? || (m.MsgPreVoteResp? && !m.reject) then n
    else BecomeFollower(c, n, m.term, if m.MsgApp? || m.MsgHeartbeat? then m.from else NONE)
  }

  function AnswerStale(c: Config, n: Node, m: Message): Node {
    if (c.checkQuorum || c.preVote) && (m.MsgHeartbeat? || m.MsgApp?) then Send(n, Ack(n, m.from, 0))
    else if m.MsgPreVote? then Send(n, MsgPreVoteResp(n.id, m.from, n.term, true))
    else n
  }

  ghost function Step(c: Config, n: Node, m: Message, e: Env): Node {
    if m.term == 0 then StepKind(c, n, m, e)
    else if m.term > n.term then
      if LeaseBlocks(c, n, m, e) then n else StepKind(c, CatchUp(c, n, m), m, e)
    else if m.term < n.term then AnswerStale(c, n, m)
    else StepKind(c, n, m, e)
  }

  // ------------------------------------------------------------- the cluster

  datatype Cluster = Cluster(nodes: map<Id, Node>, net: set<Message>)

  function NewNode(c: Config, id: Id): Node {
    var blank := Node(id, 0, NONE, Follower, NONE, NONE, [], 0, map[], map[], NO_READS, [], [], [], false);
    blank.(progress := map p | p in c.peers :: FreshProgress(c, blank, p, p in c.learners))
  }

  function Init(c: Config): Cluster {
    Cluster(map id | id in c.peers :: NewNode(c, id), {})
  }

  /** Messages a node can be given: anything the network holds for it, any
      number of times and in any order, and the requests of its own host. */
  ghost predicate Deliverable(s: Cluster, id: Id, m: Message) {
    if m in s.net then m.to == id
    else
      && m.to == id && m.term == 0
      && (m.MsgHup? || m.MsgBeat? || m.MsgCheckQuorum? || m.MsgForgetLeader? || m.MsgUnreachable? ||
          m.MsgTransferLeader? ||
          (m.MsgProp? && m.from == id && m.payloads != []) ||
          (m.MsgReadIndex? && m.from == NONE))
  }

  /** The node's outbox reaches the network once the step is durable. */
  ghost function Flush(s: Cluster, id: Id, n: Node): Cluster {
    Cluster(s.nodes[id := n.(msgs := [])], s.net + set m | m in n.msgs)
  }

  /** A crash loses all volatile state, the commit index to any degree, and at
      most the tail of the log past everything the node acknowledged. */
  ghost predicate CanRestart(s: Cluster, id: Id, kept: nat, committed: nat) {
    && id in s.nodes
    && committed <= s.nodes[id].committed && committed <= kept <= |s.nodes[id].log|
    && (forall m | m in s.net && m.MsgAppResp? && !m.reject && m.from == id ::
          m.index <= kept || kept == |s.nodes[id].log|)
  }

  /** What survives a crash besides the log. */
  datatype HardState = HardState(term: nat, vote: Id, commit: nat)

  /** The node that starts from durable state. */
  function Loaded(c: Config, id: Id, hs: HardState, log: seq<Entry>): Node {
    BecomeFollower(c, NewNode(c, id).(term := hs.term, vote := hs.vote, log := log, committed := hs.commit), hs.term, NONE)
  }

  function Restarted(c: Config, n: Node, kept: nat, committed: nat): Node
    requires kept <= |n.log|
  {
    Loaded(c, n.id, HardState(n.term, n.vote, committed), n.log[..kept])
  }

  ghost predicate Receives(c: Config, s: Cluster, s': Cluster, id: Id, m: Message, e: Env) {
    id in s.nodes && Deliverable(s, id, m) && s' == Flush(s, id, Step(c, s.nodes[id], m, e))
  }

  /** An election timeout ends a leadership transfer. */
  ghost predicate AbortsTransfer(s: Cluster, s': Cluster, id: Id) {
    && id in s.nodes && s.nodes[id].role.Leader?
    && s' == s.(nodes := s.nodes[id := s.nodes[id].(transferee := NONE)])
  }

  ghost predicate Restarts(c: Config, s: Cluster, s': Cluster, id: Id, kept: nat, committed: nat) {
    CanRestart(s, id, kept, committed) &&
    s' == s.(nodes := s.nodes[id := Restarted(c, s.nodes[id], kept, committed)])
  }

  ghost predicate Next(c: Config, s: Cluster, s': Cluster) {
    (exists id, m, e :: Receives(c, s, s', id, m, e)) ||
    (exists id :: AbortsTransfer(s, s', id)) ||
    (exists id, kept, committed :: Restarts(c, s, s', id, kept, committed))
  }

  /** A run of the cluster. */
  ghost predicate IsRun(c: Config, run: seq<Cluster>) {
    && |run| > 0 && run[0] == Init(c)
    && forall i | 0 <= i < |run| - 1 :: Next(c, run[i], run[i + 1])
  }
}
