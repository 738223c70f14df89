/** Applying in a cluster: what the nodes of a run hand to their applications. The
    protocol takes the part that the hand-out leaves open, how a node's log and
    commit index change. */
module Application {
  import opened Quorum
  import opened Logs
  import opened Sizes
  import opened RaftSpec
  import opened Safety
  import Applying

  /** The hand-out of a node at a moment of the run. */
  datatype Moment = Moment(at: nat, app: Applying.State)

  /** The hand-out works on the node's log and commit index. */
  ghost predicate Hosts(run: seq<Cluster>, a: Id, m: Moment) {
    && m.at < |run| && a in run[m.at].nodes && m.app.stable <= |m.app.log|
    && m.app.log == run[m.at].nodes[a].log && m.app.committed == run[m.at].nodes[a].committed
  }

  /** The node hands out or applies a batch, or the cluster takes a step that is not
      a restart of the node. */
  ghost predicate Proceeds(c: Config, run: seq<Cluster>, sizeOf: Entry -> nat, a: Id, m: Moment, m': Moment) {
    if m'.at == m.at
    then Applying.Applies(sizeOf, m.app, m'.app) || exists allowUnstable :: Applying.Accepts(sizeOf, m.app, m'.app, allowUnstable)
    else
      && m'.at == m.at + 1 < |run| && !RestartsNode(c, run[m.at], run[m'.at], a)
      && m'.app == m.app.(log := m'.app.log, committed := m'.app.committed, stable := m'.app.stable)
  }

  /** What a node hands out from one of its starts until its next restart. */
  ghost predicate HandsOut(c: Config, run: seq<Cluster>, sizeOf: Entry -> nat, a: Id, ms: seq<Moment>, start: nat) {
    && |ms| > 0 && Applying.Starts(ms[0].app, start)
    && (forall x | 0 <= x < |ms| :: Hosts(run, a, ms[x]))
    && forall x, y | 0 <= x && y == x + 1 && y < |ms| :: Proceeds(c, run, sizeOf, a, ms[x], ms[y])
  }

  ghost function Apps(ms: seq<Moment>): seq<Applying.State> {
    seq(|ms|, x requires 0 <= x < |ms| => ms[x].app)
  }

  /** A step of the protocol only adds to what is committed: the log changes beyond
      its committed part. */
  lemma ProtocolGrows(c: Config, run: seq<Cluster>, sizeOf: Entry -> nat, a: Id, m: Moment, m': Moment)
    requires c.Valid() && IsRun(c, run) && Hosts(run, a, m) && Hosts(run, a, m') && Proceeds(c, run, sizeOf, a, m, m')
    ensures Applying.Next(sizeOf, m.app, m'.app)
  {
    hide IsRun, Applying.Accepts, Applying.Applies;
    if m'.at != m.at {
      CommittedStays(c, run, m.at, a);
      NoPanic(c, run, m.at, a);
      assert Applying.Grows(m.app, m'.app);
    }
  }

  /** So the hand-out of a node of the cluster is a run of the hand-out. */
  lemma HandOutIsRun(c: Config, run: seq<Cluster>, sizeOf: Entry -> nat, a: Id, ms: seq<Moment>, start: nat)
    requires c.Valid() && IsRun(c, run) && HandsOut(c, run, sizeOf, a, ms, start)
    ensures Applying.IsRun(sizeOf, Apps(ms), start)
  {
    hide IsRun, Applying.Next, Proceeds;
    var apps := Apps(ms);
    forall x | 0 <= x < |apps| ensures Consecutive(apps[x].log, 1) {
      LogMatching(c, run, ms[x].at, ms[x].at, a, a);
    }
    forall x, y | 0 <= x && y == x + 1 && y < |apps| ensures Applying.Next(sizeOf, apps[x], apps[y]) {
      ProtocolGrows(c, run, sizeOf, a, ms[x], ms[y]);
    }
  }

  /** Whatever any two nodes hand out at an index, at any moments, before or after
      any restarts, is the same entry. */
  lemma AppliedAlike(c: Config, run: seq<Cluster>, sizeOf: Entry -> nat, a: Id, b: Id,
                     ms: seq<Moment>, ns: seq<Moment>, start: nat, start': nat, x: nat, y: nat, k: nat)
    requires c.Valid() && IsRun(c, run) && Positive(sizeOf) && x < |ms| && y < |ns|
    requires HandsOut(c, run, sizeOf, a, ms, start) && HandsOut(c, run, sizeOf, b, ns, start')
    requires start <= k < ms[x].app.cursor.applying && start' <= k < ns[y].app.cursor.applying
    ensures k - start < |ms[x].app.handed| && k - start' < |ns[y].app.handed|
    ensures ms[x].app.handed[k - start] == ns[y].app.handed[k - start']
  {
    hide IsRun, HandsOut, Applying.IsRun, EntsSize, Applying.Concat;
    HandedIsLog(c, run, sizeOf, a, ms, start, x);
    HandedIsLog(c, run, sizeOf, b, ns, start', y);
    StateMachineSafety(c, run, ms[x].at, ns[y].at, a, b, k + 1);
    AgreeAt(ms[x].app.log, ns[y].app.log, k + 1, k);
  }

  lemma HandedIsLog(c: Config, run: seq<Cluster>, sizeOf: Entry -> nat, a: Id, ms: seq<Moment>, start: nat, x: nat)
    requires c.Valid() && IsRun(c, run) && Positive(sizeOf) && x < |ms| && HandsOut(c, run, sizeOf, a, ms, start)
    ensures var s := ms[x].app;
            && Hosts(run, a, ms[x]) && start <= s.cursor.applying <= s.committed <= |s.log|
            && s.handed == s.log[start..s.cursor.applying]
  {
    hide IsRun, Applying.IsRun, EntsSize, Applying.Concat, Applying.Next, Proceeds;
    HandOutIsRun(c, run, sizeOf, a, ms, start);
    Applying.ExactlyOnceInOrder(sizeOf, Apps(ms), start, x);
  }

  /** From a common start, of what any two nodes hand out one is a prefix of the
      other. */
  lemma PrefixOfEachOther(c: Config, run: seq<Cluster>, sizeOf: Entry -> nat, a: Id, b: Id,
                          ms: seq<Moment>, ns: seq<Moment>, start: nat, x: nat, y: nat)
    requires c.Valid() && IsRun(c, run) && Positive(sizeOf) && x < |ms| && y < |ns|
    requires HandsOut(c, run, sizeOf, a, ms, start) && HandsOut(c, run, sizeOf, b, ns, start)
    ensures ms[x].app.handed <= ns[y].app.handed || ns[y].app.handed <= ms[x].app.handed
  {
    hide IsRun, HandsOut;
    HandedIsLog(c, run, sizeOf, a, ms, start, x);
    HandedIsLog(c, run, sizeOf, b, ns, start, y);
    var h, h' := ms[x].app.handed, ns[y].app.handed;
    forall i | 0 <= i < |h| && i < |h'| ensures h[i] == h'[i] {
      AppliedAlike(c, run, sizeOf, a, b, ms, ns, start, start, x, y, start + i);
    }
  }
}
