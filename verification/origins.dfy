/** Where things come from, over whole runs: every entry of a log was proposed, and
    every read that is answered was asked, queued and confirmed, in this order, so that
    reads are linearizable end to end. */
module Origins {
  import opened Quorum
  import opened Logs
  import opened ReadQueue
  import opened RaftSpec
  import opened Safety
  import opened ReadIndex
  import opened ReadAnswers
  import opened Derivation

  // ------------------------------------------------------------- what hosts ask for

  /** In this step the host of node q hands it the message. */
  ghost predicate ByHost(c: Config, s: Cluster, s': Cluster, q: Id, m: Message) {
    m !in s.net && exists e :: Receives(c, s, s', q, m, e)
  }

  /** Before state i a host proposed the payload. */
  ghost predicate Proposed(c: Config, run: seq<Cluster>, i: nat, d: Payload) {
    exists j, q, m :: 0 <= j < i && i < |run| && ProposedAt(c, run, j, q, m) && d in m.payloads
  }

  ghost predicate ProposedAt(c: Config, run: seq<Cluster>, j: nat, q: Id, m: Message)
    requires j + 1 < |run|
  {
    m.MsgProp? && ByHost(c, run[j], run[j + 1], q, m)
  }

  /** In step j the host of node q asked for a read. */
  ghost predicate AskedAt(c: Config, run: seq<Cluster>, j: nat, q: Id, ctx: string)
    requires j + 1 < |run|
  {
    ByHost(c, run[j], run[j + 1], q, MsgReadIndex(NONE, q, 0, ctx))
  }

  ghost predicate Asked(c: Config, run: seq<Cluster>, i: nat, q: Id, ctx: string) {
    exists j :: 0 <= j < i && i < |run| && AskedAt(c, run, j, q, ctx)
  }

  // ------------------------------------------------------------ nothing is invented

  ghost predicate Genuine(c: Config, run: seq<Cluster>, i: nat, x: Entry) {
    x.data == "" || Proposed(c, run, i, x.data)
  }

  ghost predicate GenuineMsg(c: Config, run: seq<Cluster>, i: nat, m: Message) {
    && (m.MsgApp? ==> forall x | x in m.entries :: Genuine(c, run, i, x))
    && (m.MsgProp? ==> forall d | d in m.payloads :: Proposed(c, run, i, d))
  }

  ghost predicate GenuineState(c: Config, run: seq<Cluster>, i: nat)
    requires i < |run|
  {
    && (forall a, x | a in run[i].nodes && x in run[i].nodes[a].log :: Genuine(c, run, i, x))
    && (forall m | m in run[i].net :: GenuineMsg(c, run, i, m))
  }

  lemma ProposedLater(c: Config, run: seq<Cluster>, i: nat, d: Payload)
    requires i + 1 < |run| && Proposed(c, run, i, d)
    ensures Proposed(c, run, i + 1, d)
  {
    var j, q, m :| 0 <= j < i && i < |run| && ProposedAt(c, run, j, q, m) && d in m.payloads;
    assert ProposedAt(c, run, j, q, m);
  }

  lemma GenuineLater(c: Config, run: seq<Cluster>, i: nat, x: Entry)
    requires i + 1 < |run| && Genuine(c, run, i, x)
    ensures Genuine(c, run, i + 1, x)
  {
    if x.data != "" { ProposedLater(c, run, i, x.data); }
  }

  lemma GenuineMsgLater(c: Config, run: seq<Cluster>, i: nat, m: Message)
    requires i + 1 < |run| && GenuineMsg(c, run, i, m)
    ensures GenuineMsg(c, run, i + 1, m)
  {
    hide Genuine, Proposed;
    if m.MsgApp? {
      forall x | x in m.entries ensures Genuine(c, run, i + 1, x) { GenuineLater(c, run, i, x); }
    }
    if m.MsgProp? {
      forall d | d in m.payloads ensures Proposed(c, run, i + 1, d) { ProposedLater(c, run, i, d); }
    }
  }

  /** A message that is handled carries only what was proposed. */
  lemma HandledIsGenuine(c: Config, run: seq<Cluster>, i: nat, id: Id, m: Message, e: Env)
    requires i + 1 < |run| && Receives(c, run[i], run[i + 1], id, m, e) && GenuineState(c, run, i)
    ensures GenuineMsg(c, run, i + 1, m)
  {
    hide Step;
    if m in run[i].net {
      GenuineMsgLater(c, run, i, m);
    } else if m.MsgProp? {
      assert ByHost(c, run[i], run[i + 1], id, m);
      assert ProposedAt(c, run, i, id, m);
    }
  }

  lemma KnownIsGenuine(c: Config, run: seq<Cluster>, i: nat, id: Id, m: Message, x: Entry)
    requires i + 1 < |run| && id in run[i].nodes && GenuineState(c, run, i) && GenuineMsg(c, run, i + 1, m)
    requires Known(m, run[i].nodes[id], x)
    ensures Genuine(c, run, i + 1, x)
  {
    hide Proposed;
    if x in run[i].nodes[id].log { GenuineLater(c, run, i, x); }
  }

  lemma MadeIsGenuine(c: Config, run: seq<Cluster>, i: nat, id: Id, m: Message, y: Message)
    requires i + 1 < |run| && id in run[i].nodes && GenuineState(c, run, i) && GenuineMsg(c, run, i + 1, m)
    requires Made(m, run[i].nodes[id], y)
    ensures GenuineMsg(c, run, i + 1, y)
  {
    hide Genuine, Known, Proposed;
    if y.MsgApp? {
      forall x | x in y.entries ensures Genuine(c, run, i + 1, x) { KnownIsGenuine(c, run, i, id, m, x); }
    }
  }

  lemma StepIsGenuine(c: Config, run: seq<Cluster>, i: nat, id: Id, m: Message, e: Env)
    requires i + 1 < |run| && Receives(c, run[i], run[i + 1], id, m, e) && GenuineState(c, run, i) && run[i].nodes[id].msgs == []
    ensures GenuineState(c, run, i + 1)
  {
    hide Step, Genuine, GenuineMsg, Known, Made, KnownRead, Deliverable;
    var n, n' := run[i].nodes[id], Step(c, run[i].nodes[id], m, e);
    StepDerives(c, n, m, e);
    HandledIsGenuine(c, run, i, id, m, e);
    var k := i + 1;
    forall a, x | a in run[k].nodes && x in run[k].nodes[a].log ensures Genuine(c, run, k, x) {
      if a == id { KnownIsGenuine(c, run, i, id, m, x); } else { GenuineLater(c, run, i, x); }
    }
    forall y | y in run[k].net ensures GenuineMsg(c, run, k, y) {
      if y in run[i].net { GenuineMsgLater(c, run, i, y); } else { MadeIsGenuine(c, run, i, id, m, y); }
    }
  }

  /** A step that sends nothing and leaves no log with more than it had. */
  lemma OtherStepIsGenuine(c: Config, run: seq<Cluster>, i: nat)
    requires i + 1 < |run| && GenuineState(c, run, i) && run[i + 1].net == run[i].net && run[i + 1].nodes.Keys == run[i].nodes.Keys
    requires forall a, x | a in run[i + 1].nodes && x in run[i + 1].nodes[a].log :: x in run[i].nodes[a].log
    ensures GenuineState(c, run, i + 1)
  {
    hide Genuine, GenuineMsg;
    var k := i + 1;
    forall a, x | a in run[k].nodes && x in run[k].nodes[a].log ensures Genuine(c, run, k, x) {
      GenuineLater(c, run, i, x);
    }
    forall y | y in run[k].net ensures GenuineMsg(c, run, k, y) { GenuineMsgLater(c, run, i, y); }
  }

  lemma RestartKeepsEntries(c: Config, n: Node, kept: nat, committed: nat)
    requires kept <= |n.log|
    ensures Restarted(c, n, kept, committed).log == n.log[..kept]
  {}

  lemma MoveIsGenuine(c: Config, run: seq<Cluster>, k: nat)
    requires c.Valid() && IsRun(c, run) && k + 1 < |run| && GenuineState(c, run, k)
    ensures GenuineState(c, run, k + 1)
  {
    hide IsRun, Step, GenuineState, Deliverable, Restarted;
    var s, s' := run[k], run[k + 1];
    StepOf(c, run, k);
    if id, m, e :| Receives(c, s, s', id, m, e) {
      NodesRest(c, run, k, id);
      StepIsGenuine(c, run, k, id, m, e);
    } else if id :| AbortsTransfer(s, s', id) {
      OtherStepIsGenuine(c, run, k);
    } else {
      var id, kept, committed :| Restarts(c, s, s', id, kept, committed);
      RestartKeepsEntries(c, s.nodes[id], kept, committed);
      OtherStepIsGenuine(c, run, k);
    }
  }

  lemma {:induction false} StatesAreGenuine(c: Config, run: seq<Cluster>, i: nat)
    requires c.Valid() && IsRun(c, run) && i < |run|
    ensures GenuineState(c, run, i)
  {
    if i == 0 {
      assert run[0] == Init(c);
    } else {
      hide IsRun, GenuineState;
      StatesAreGenuine(c, run, i - 1);
      MoveIsGenuine(c, run, i - 1);
    }
  }

  /** Whatever is in a log, other than the empty entries of new leaders, was proposed
      by some host before. */
  lemma NothingInvented(c: Config, run: seq<Cluster>, i: nat, a: Id, x: Entry)
    requires c.Valid() && IsRun(c, run) && i < |run| && a in run[i].nodes && x in run[i].nodes[a].log
    ensures x.data == "" || Proposed(c, run, i, x.data)
  {
    hide IsRun, Proposed;
    StatesAreGenuine(c, run, i);
    assert Genuine(c, run, i, x);
  }

  // ---------------------------------------------------------------- who asked a read

  /** For whom a read waits at a node. */
  function Asker(L: Id, r: ReadRequest): Id { if r.from == NONE then L else r.from }

  ghost predicate AskedState(c: Config, run: seq<Cluster>, i: nat)
    requires i < |run|
  {
    && (forall m | m in run[i].net && m.MsgReadIndex? :: m.from != NONE && Asked(c, run, i, m.from, m.ctx))
    && (forall L, r | L in run[i].nodes && Waits(run[i].nodes[L], r) :: Asked(c, run, i, Asker(L, r), r.ctx))
  }

  lemma AskedLater(c: Config, run: seq<Cluster>, i: nat, q: Id, ctx: string)
    requires i + 1 < |run| && Asked(c, run, i, q, ctx)
    ensures Asked(c, run, i + 1, q, ctx)
  {
    var j :| 0 <= j < i && i < |run| && AskedAt(c, run, j, q, ctx);
    assert AskedAt(c, run, j, q, ctx);
  }

  /** A read that is handled was asked by the one it names, or by the host just now. */
  lemma HandledIsAsked(c: Config, run: seq<Cluster>, i: nat, id: Id, m: Message, e: Env)
    requires i + 1 < |run| && Receives(c, run[i], run[i + 1], id, m, e) && AskedState(c, run, i) && m.MsgReadIndex? && id != NONE
    ensures var q := if m.from == NONE then id else m.from; q != NONE && Asked(c, run, i + 1, q, m.ctx)
  {
    hide Step;
    if m in run[i].net {
      AskedLater(c, run, i, m.from, m.ctx);
    } else {
      assert m == MsgReadIndex(NONE, id, 0, m.ctx);
      assert ByHost(c, run[i], run[i + 1], id, m);
      assert AskedAt(c, run, i, id, m.ctx);
    }
  }

  lemma StepIsAsked(c: Config, run: seq<Cluster>, i: nat, id: Id, m: Message, e: Env)
    requires i + 1 < |run| && Receives(c, run[i], run[i + 1], id, m, e) && AskedState(c, run, i)
    requires run[i].nodes[id].msgs == [] && run[i].nodes[id].id == id && id != NONE
    ensures AskedState(c, run, i + 1)
  {
    hide Step, Asked, Known, Deliverable;
    var k, n, n' := i + 1, run[i].nodes[id], Step(c, run[i].nodes[id], m, e);
    StepDerives(c, n, m, e);
    if m.MsgReadIndex? { HandledIsAsked(c, run, i, id, m, e); }
    forall x | x in run[k].net && x.MsgReadIndex? ensures x.from != NONE && Asked(c, run, k, x.from, x.ctx) {
      if x in run[i].net { AskedLater(c, run, i, x.from, x.ctx); } else { assert Made(m, n, x); }
    }
    forall L, r | L in run[k].nodes && Waits(run[k].nodes[L], r) ensures Asked(c, run, k, Asker(L, r), r.ctx) {
      if L == id { WaitsBefore(m, n, n', run[k].nodes[L], r); }
      if Waits(run[i].nodes[L], r) { AskedLater(c, run, i, Asker(L, r), r.ctx); }
    }
  }

  lemma WaitsBefore(m: Message, n: Node, n': Node, n'': Node, r: ReadRequest)
    requires Derives(m, n, n') && n'' == n'.(msgs := []) && Waits(n'', r)
    ensures Waits(n, r) || (m.MsgReadIndex? && r == ReadRequest(m.from, m.ctx))
  {
    hide Known, Made;
    if r in n''.pendingReads {
      assert KnownRead(m, n, r);
    } else {
      var u :| u in n''.readOnly.unconfirmed && u.req == r;
      assert KnownRead(m, n, u.req);
    }
  }

  lemma OtherStepIsAsked(c: Config, run: seq<Cluster>, i: nat)
    requires i + 1 < |run| && AskedState(c, run, i) && run[i + 1].net == run[i].net && run[i + 1].nodes.Keys == run[i].nodes.Keys
    requires forall L, r | L in run[i + 1].nodes && Waits(run[i + 1].nodes[L], r) :: Waits(run[i].nodes[L], r)
    ensures AskedState(c, run, i + 1)
  {
    hide Asked, Waits;
    var k := i + 1;
    forall x | x in run[k].net && x.MsgReadIndex? ensures x.from != NONE && Asked(c, run, k, x.from, x.ctx) {
      AskedLater(c, run, i, x.from, x.ctx);
    }
    forall L, r | L in run[k].nodes && Waits(run[k].nodes[L], r) ensures Asked(c, run, k, Asker(L, r), r.ctx) {
      AskedLater(c, run, i, Asker(L, r), r.ctx);
    }
  }

  lemma RestartForgetsReads(c: Config, n: Node, kept: nat, committed: nat)
    requires kept <= |n.log|
    ensures Restarted(c, n, kept, committed).pendingReads == [] && Restarted(c, n, kept, committed).readOnly.unconfirmed == []
            && Restarted(c, n, kept, committed).readStates == []
  {}

  lemma MoveIsAsked(c: Config, run: seq<Cluster>, k: nat)
    requires c.Valid() && IsRun(c, run) && k + 1 < |run| && AskedState(c, run, k)
    ensures AskedState(c, run, k + 1)
  {
    hide IsRun, Step, AskedState, Deliverable, Restarted;
    var s, s' := run[k], run[k + 1];
    StepOf(c, run, k);
    if id, m, e :| Receives(c, s, s', id, m, e) {
      NodesRest(c, run, k, id);
      StepIsAsked(c, run, k, id, m, e);
    } else if id :| AbortsTransfer(s, s', id) {
      OtherStepIsAsked(c, run, k);
    } else {
      var id, kept, committed :| Restarts(c, s, s', id, kept, committed);
      RestartForgetsReads(c, s.nodes[id], kept, committed);
      OtherStepIsAsked(c, run, k);
    }
  }

  lemma {:induction false} StatesAreAsked(c: Config, run: seq<Cluster>, i: nat)
    requires c.Valid() && IsRun(c, run) && i < |run|
    ensures AskedState(c, run, i)
  {
    if i == 0 {
      assert run[0] == Init(c);
    } else {
      hide IsRun, AskedState;
      StatesAreAsked(c, run, i - 1);
      MoveIsAsked(c, run, i - 1);
    }
  }

  // ------------------------------------------------------------ where answers come from

  lemma {:induction false} RemoteOf(id: Id, term: nat, batch: seq<PendingRead>, x: Message) returns (i: nat)
    requires x in RemoteAnswers(id, term, batch)
    ensures i < |batch| && !IsLocal(id, batch[i].req)
            && x == MsgReadIndexResp(id, batch[i].req.from, term, batch[i].index, batch[i].req.ctx)
    decreases |batch|
  {
    if x in RemoteAnswers(id, term, batch[1..]) {
      var j := RemoteOf(id, term, batch[1..], x);
      i := j + 1;
    } else {
      i := 0;
    }
  }

  lemma {:induction false} LocalOf(id: Id, batch: seq<PendingRead>, x: ReadState) returns (i: nat)
    requires x in LocalAnswers(id, batch)
    ensures i < |batch| && IsLocal(id, batch[i].req) && x == ReadState(batch[i].index, batch[i].req.ctx)
    decreases |batch|
  {
    if x in LocalAnswers(id, batch[1..]) {
      var j := LocalOf(id, batch[1..], x);
      i := j + 1;
    } else {
      i := 0;
    }
  }

  /** In step k leader L of term T confirms its p-th read, which waited for node q with
      this index and context. */
  ghost predicate Served(run: seq<Cluster>, k: nat, L: Id, T: nat, p: nat, q: Id, rs: ReadState)
    requires k + 1 < |run|
  {
    && Confirms(run[k], run[k + 1], L, T, p) && p > 0
    && var r := TheRead(run[k], L, T, p);
       r.index == rs.index && r.req.ctx == rs.ctx && Asker(L, r.req) == q
  }

  /** What a leader answers on a heartbeat response, it confirms in that step. */
  lemma BeatServes(c: Config, run: seq<Cluster>, k: nat, L: Id, m: Message, e: Env, batch: seq<PendingRead>, i: nat)
    requires k + 1 < |run| && L in run[k].nodes && run[k].nodes[L].role.Leader? && i < |batch|
    requires L in run[k + 1].nodes && run[k + 1].nodes[L].role.Leader? && run[k + 1].nodes[L].term == run[k].nodes[L].term
    requires run[k + 1].nodes[L].readOnly.confirmed == run[k].nodes[L].readOnly.confirmed + |batch|
             && batch + run[k + 1].nodes[L].readOnly.unconfirmed == run[k].nodes[L].readOnly.unconfirmed
    ensures var n := run[k].nodes[L];
            Served(run, k, L, n.term, n.readOnly.confirmed + 1 + i, Asker(L, batch[i].req), ReadState(batch[i].index, batch[i].req.ctx))
  {}

  /** When a node's step answers a read: which handler did it. */
  lemma WhoAnswers(c: Config, n: Node, m: Message, e: Env)
    requires !c.IsSingleton() && !NoAnswers(n, Step(c, n, m, e)) && n.msgs == []
    ensures || (n.role.Leader? && m.MsgHeartbeatResp? && m.from in n.progress && m.context != 0
                && Step(c, n, m, e) == HandleHeartbeatResp(c, n, m))
            || (m.MsgReadIndexResp? && Step(c, n, m, e).msgs == []
                && Step(c, n, m, e).readStates == n.readStates + [ReadState(m.index, m.ctx)])
  {
    hide Step, HandleHeartbeatResp, Derives, AllFresh;
    StepDerives(c, n, m, e);
  }

  /** The leader that sent an answer confirmed the read in that step. */
  lemma SentIsServed(c: Config, run: seq<Cluster>, k: nat, id: Id, m: Message, e: Env, x: Message) returns (T: nat, p: nat)
    requires !c.IsSingleton() && k + 1 < |run| && Receives(c, run[k], run[k + 1], id, m, e) && x.MsgReadIndexResp?
    requires run[k].nodes[id].msgs == [] && run[k].nodes[id].id == id && x in run[k + 1].net && x !in run[k].net
    ensures Served(run, k, id, T, p, x.to, ReadState(x.index, x.ctx))
  {
    hide Step, HandleHeartbeatResp, LocalAnswers, RemoteAnswers, Served, Deliverable;
    var n := run[k].nodes[id];
    WhoAnswers(c, n, m, e);
    var batch := BeatAnswers(c, n, m);
    var i := RemoteOf(id, n.term, batch, x);
    BeatServes(c, run, k, id, m, e, batch, i);
    T, p := n.term, n.readOnly.confirmed + 1 + i;
  }

  lemma {:induction false} ResponseIsServed(c: Config, run: seq<Cluster>, i: nat, x: Message) returns (k: nat, L: Id, T: nat, p: nat)
    requires c.Valid() && !c.IsSingleton() && IsRun(c, run) && i < |run| && x in run[i].net && x.MsgReadIndexResp?
    ensures k < i && Served(run, k, L, T, p, x.to, ReadState(x.index, x.ctx))
  {
    hide Step, Served, Deliverable, Restarted;
    NotAtFirst(c, run, i, x);
    k := i - 1;
    if x in run[k].net {
      k, L, T, p := ResponseIsServed(c, run, k, x);
    } else {
      StepOf(c, run, k);
      var id, m, e :| Receives(c, run[k], run[i], id, m, e);
      NodesRest(c, run, k, id);
      L := id;
      T, p := SentIsServed(c, run, k, id, m, e, x);
    }
  }

  lemma NotAtFirst(c: Config, run: seq<Cluster>, i: nat, x: Message)
    requires IsRun(c, run) && i < |run| && x in run[i].net
    ensures i > 0
  {}

  /** Node q gains a read state in the step from s to s'. */
  ghost predicate Gains(s: Cluster, s': Cluster, q: Id, rs: ReadState) {
    && q in s.nodes && q in s'.nodes && s.nodes[q].readStates <= s'.nodes[q].readStates
    && rs in s'.nodes[q].readStates[|s.nodes[q].readStates|..]
  }

  /** Every read state a node gains answers a read that was confirmed for it. */
  lemma GainedIsServed(c: Config, run: seq<Cluster>, i: nat, q: Id, rs: ReadState) returns (k: nat, L: Id, T: nat, p: nat)
    requires c.Valid() && !c.IsSingleton() && IsRun(c, run) && i + 1 < |run| && Gains(run[i], run[i + 1], q, rs)
    ensures k <= i && Served(run, k, L, T, p, q, rs)
  {
    hide Step, Served, Restarted, IsRun, HandleHeartbeatResp, LocalAnswers, RemoteAnswers;
    StepOf(c, run, i);
    var m, e := GainedByStep(c, run[i], run[i + 1], q, rs);
    var n := run[i].nodes[q];
    NodesRest(c, run, i, q);
    WhoAnswers(c, n, m, e);
    if m.MsgReadIndexResp? {
      assert (n.readStates + [ReadState(m.index, m.ctx)])[|n.readStates|..] == [ReadState(m.index, m.ctx)];
      k, L, T, p := ResponseIsServed(c, run, i, m);
    } else {
      var batch := BeatAnswers(c, n, m);
      assert (n.readStates + LocalAnswers(q, batch))[|n.readStates|..] == LocalAnswers(q, batch);
      var x := LocalOf(q, batch, rs);
      BeatServes(c, run, i, q, m, e, batch, x);
      k, L, T, p := i, q, n.term, n.readOnly.confirmed + 1 + x;
    }
  }

  lemma GainedByStep(c: Config, s: Cluster, s': Cluster, q: Id, rs: ReadState) returns (m: Message, e: Env)
    requires Next(c, s, s') && Gains(s, s', q, rs)
    ensures Receives(c, s, s', q, m, e) && !NoAnswers(s.nodes[q], Step(c, s.nodes[q], m, e))
  {
    hide Step, Deliverable, Restarted;
    if id, m0, e0 :| Receives(c, s, s', id, m0, e0) {
      m, e := m0, e0;
    } else if id :| AbortsTransfer(s, s', id) {
      assert false;
    } else {
      var id, kept, committed :| Restarts(c, s, s', id, kept, committed);
      RestartForgetsReads(c, s.nodes[id], kept, committed);
      assert false;
    }
  }

  // ----------------------------------------------------------------- when it was queued

  /** The step in which leader L of term T queued its p-th read. */
  lemma {:induction false} QueuedInStep(c: Config, run: seq<Cluster>, k: nat, L: Id, T: nat, p: nat) returns (j: nat)
    requires c.Valid() && IsRun(c, run) && k < |run| && HasQueued(run[k], L, T, p)
    ensures j < k && !HasQueued(run[j], L, T, p) && forall i | j < i <= k :: HasQueued(run[i], L, T, p)
  {
    hide IsRun;
    FirstHasNoLeader(c, run, k, L);
    if HasQueued(run[k - 1], L, T, p) {
      j := QueuedInStep(c, run, k - 1, L, T, p);
    } else {
      j := k - 1;
    }
  }

  lemma FirstHasNoLeader(c: Config, run: seq<Cluster>, k: nat, L: Id)
    requires IsRun(c, run) && k < |run| && L in run[k].nodes && run[k].nodes[L].role.Leader?
    ensures k > 0
  {}

  /** Between two steps of its leader a read keeps its place until it is confirmed. */
  lemma ReadStays(c: Config, run: seq<Cluster>, i: nat, L: Id, T: nat, p: nat)
    requires c.Valid() && IsRun(c, run) && i + 1 < |run| && p > 0
    requires HasQueued(run[i], L, T, p) && Waiting(run[i + 1], L, T, p)
    ensures Waiting(run[i], L, T, p) && TheRead(run[i], L, T, p) == TheRead(run[i + 1], L, T, p)
  {
    hide IsRun, Step, Deliverable;
    var s, s' := run[i], run[i + 1];
    StepOf(c, run, i);
    WhatHappened(c, s, s', L);
    if m, e :| Receives(c, s, s', L, m, e) { QueueKept(c, s.nodes[L], m, e, p); }
  }

  lemma QueueKept(c: Config, n: Node, m: Message, e: Env, p: nat)
    requires n.role.Leader? && Step(c, n, m, e).role.Leader? && p > 0
    requires p <= n.readOnly.Total() && Step(c, n, m, e).readOnly.confirmed < p <= Step(c, n, m, e).readOnly.Total()
    ensures var ro, ro' := n.readOnly, Step(c, n, m, e).readOnly;
            ro.confirmed < p && ro'.unconfirmed[p - 1 - ro'.confirmed] == ro.unconfirmed[p - 1 - ro.confirmed]
  {
    hide Step, HandleHeartbeatResp, LocalAnswers, RemoteAnswers;
    OnlyBeatsConfirm(c, n, m, e);
    if !OnlyQueued(n.readOnly, Step(c, n, m, e).readOnly) {
      var batch := BeatAnswers(c, n, m);
    }
  }

  lemma {:induction false} ReadWaited(c: Config, run: seq<Cluster>, j: nat, k: nat, L: Id, T: nat, p: nat)
    requires c.Valid() && IsRun(c, run) && j <= k < |run| && p > 0 && Waiting(run[k], L, T, p)
    requires forall i | j <= i <= k :: HasQueued(run[i], L, T, p)
    ensures Waiting(run[j], L, T, p) && TheRead(run[j], L, T, p) == TheRead(run[k], L, T, p)
    decreases k
  {
    hide IsRun;
    if j < k {
      ReadStays(c, run, k - 1, L, T, p);
      ReadWaited(c, run, j, k - 1, L, T, p);
    }
  }

  // --------------------------------------------------------------------- the theorem

  /** Reads are linearizable. Whenever a node gains a read state, at whatever node the
      read was asked: its host had asked for it with that context, in step i0; after
      that a leader queued it, in step j; after that the leader confirmed it, in step
      k; and its index is not below the commit index that any node had at any moment
      up to j, so none that was known anywhere when the read was asked. */
  lemma ReadsAreLinearizable(c: Config, run: seq<Cluster>, i: nat, q: Id, rs: ReadState)
      returns (i0: nat, j: nat, k: nat, L: Id, T: nat, p: nat)
    requires c.Valid() && !c.IsSingleton() && IsRun(c, run) && i + 1 < |run| && Gains(run[i], run[i + 1], q, rs)
    ensures i0 <= j < k <= i && AskedAt(c, run, i0, q, rs.ctx)
    ensures !HasQueued(run[j], L, T, p) && Waiting(run[j + 1], L, T, p) && Served(run, k, L, T, p, q, rs)
            && TheRead(run[j + 1], L, T, p) == TheRead(run[k], L, T, p)
    ensures forall x, a | 0 <= x <= j && a in run[x].nodes :: run[x].nodes[a].committed <= rs.index
  {
    hide IsRun, AskedAt;
    k, L, T, p := GainedIsServed(c, run, i, q, rs);
    j := QueuedInStep(c, run, k, L, T, p);
    ReadWaited(c, run, j + 1, k, L, T, p);
    i0 := AskedBefore(c, run, j + 1, L, TheRead(run[j + 1], L, T, p));
    forall x, a | 0 <= x <= j && a in run[x].nodes ensures run[x].nodes[a].committed <= rs.index {
      IndexIsRecent(c, run, x, j, k, L, T, p, a);
    }
  }

  lemma AskedBefore(c: Config, run: seq<Cluster>, i: nat, L: Id, r: PendingRead) returns (i0: nat)
    requires c.Valid() && IsRun(c, run) && i < |run| && L in run[i].nodes && r in run[i].nodes[L].readOnly.unconfirmed
    ensures i0 < i && AskedAt(c, run, i0, Asker(L, r.req), r.req.ctx)
  {
    hide IsRun, AskedAt;
    StatesAreAsked(c, run, i);
    assert Waits(run[i].nodes[L], r.req);
    assert Asked(c, run, i, Asker(L, r.req), r.req.ctx);
    i0 :| 0 <= i0 < i && i < |run| && AskedAt(c, run, i0, Asker(L, r.req), r.req.ctx);
  }
}
