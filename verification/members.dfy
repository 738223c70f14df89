/** The object as a member of a cluster: whatever a run delivers to it, it stays the
    node that the run says it is, so everything proved of runs holds of it. */
module Members {
  import opened Quorum
  import opened Logs
  import opened Sizes
  import opened StableStorage
  import opened RaftSpec
  import opened Safety
  import opened Families
  import opened RaftNode

  ghost function Latest(run: seq<Cluster>): Cluster
    requires |run| > 0
  {
    run[|run| - 1]
  }

  /** The object stands for a node in the last state of a run. */
  ghost predicate Represents(r: Raft, run: seq<Cluster>)
    reads r, r.raftLog, r.raftLog.storage, r.raftLog.unstable, r.trk, r.trk.Repr, r.readOnly
  {
    && r.c.Valid() && IsRun(r.c, run) && r.Valid()
    && r.id in Latest(run).nodes && r.View() == Latest(run).nodes[r.id]
  }

  lemma GoesOnFrom(c: Config, run: seq<Cluster>, id: Id, m: Message, e: Env)
    requires c.Valid() && IsRun(c, run) && id in Latest(run).nodes && Deliverable(Latest(run), id, m)
    ensures WellFormed(m)
    ensures var s := Latest(run); var s' := Flush(s, id, Step(c, s.nodes[id], m, e));
            IsRun(c, run + [s']) && id in s'.nodes && !s'.nodes[id].failed && s'.nodes[id].id == id
  {
    hide IsRun, Step, Deliverable;
    NotEmpty(c, run);
    var s := Latest(run);
    var s' := Flush(s, id, Step(c, s.nodes[id], m, e));
    if m.MsgApp? { AppendsAreConsecutive(c, run, |run| - 1, id, m); }
    assert Receives(c, s, s', id, m, e);
    ExtendsRun(c, run, s');
    NoPanic(c, run + [s'], |run|, id);
    NodeIds(c, run + [s'], |run|, id);
  }

  lemma NotEmpty(c: Config, run: seq<Cluster>)
    requires IsRun(c, run)
    ensures |run| > 0
  {}

  /** A member handles a message that the run can deliver to it: it does not panic,
      the run goes on with what it has become, and what it hands over reaches the
      network. */
  method Handle(r: Raft, m: Message, e: Env, ghost run: seq<Cluster>) returns (out: seq<Message>, ghost s': Cluster)
    requires Represents(r, run) && Deliverable(Latest(run), r.id, m)
    modifies r, r.raftLog, r.raftLog.unstable, r.readOnly, r.trk, r.trk.Repr
    ensures Represents(r, run + [s']) && !r.failed
    ensures s'.net == Latest(run).net + set x | x in out
    ensures fresh(r.trk.Repr - old(r.trk.Repr)) && (r.readOnly == old(r.readOnly) || fresh(r.readOnly))
  {
    hide IsRun, Deliverable, WellFormed, Raft.Valid;
    NotEmpty(r.c, run);
    ghost var s := Latest(run);
    GoesOnFrom(r.c, run, r.id, m, e);
    s' := Flush(s, r.id, Step(r.c, s.nodes[r.id], m, e));
    r.Step(m, e);
    out := r.TakeMessages();
  }

  /** A new member of a new cluster. */
  method Start(c: Config, id: Id, maxApplyingEntsSize: nat) returns (r: Raft)
    requires c.Valid() && id in c.peers && Positive(c.size)
    ensures fresh(r) && r.id == id && Represents(r, [Init(c)])
  {
    hide Positive, Raft.Valid, Loaded, NewNode;
    var storage := new MemoryStorage();
    LoadedNew(c, id);
    r := new Raft(c, id, storage, HardState(0, NONE, 0), maxApplyingEntsSize);
  }

  /** A member starts again from what a crash left of it. */
  method Recover(c: Config, id: Id, storage: MemoryStorage, hs: HardState, maxApplyingEntsSize: nat, ghost run: seq<Cluster>)
      returns (r: Raft, ghost s': Cluster)
    requires c.Valid() && IsRun(c, run) && Positive(c.size) && storage.Valid() && storage.View().base == EntryID(0, 0)
    requires var kept := |storage.View().entries|;
             && CanRestart(Latest(run), id, kept, hs.commit) && storage.View().entries == Latest(run).nodes[id].log[..kept]
             && hs.term == Latest(run).nodes[id].term && hs.vote == Latest(run).nodes[id].vote
    ensures fresh(r) && r.id == id && Represents(r, run + [s']) && s'.net == Latest(run).net
  {
    hide IsRun, Positive, Raft.Valid, CanRestart, Loaded;
    NotEmpty(c, run);
    ghost var s, kept := Latest(run), |storage.View().entries|;
    Recovers(c, run, id, kept, hs.commit);
    s' := s.(nodes := s.nodes[id := Restarted(c, s.nodes[id], kept, hs.commit)]);
    r := new Raft(c, id, storage, hs, maxApplyingEntsSize);
  }

  lemma Recovers(c: Config, run: seq<Cluster>, id: Id, kept: nat, committed: nat)
    requires c.Valid() && IsRun(c, run) && CanRestart(Latest(run), id, kept, committed)
    ensures var s := Latest(run); var s' := s.(nodes := s.nodes[id := Restarted(c, s.nodes[id], kept, committed)]);
            id in s.nodes && committed <= kept <= |s.nodes[id].log| && s.nodes[id].id == id && IsRun(c, run + [s'])
  {
    hide IsRun, Restarted;
    NotEmpty(c, run);
    var s := Latest(run);
    var s' := s.(nodes := s.nodes[id := Restarted(c, s.nodes[id], kept, committed)]);
    assert Restarts(c, s, s', id, kept, committed);
    ExtendsRun(c, run, s');
    NodeIds(c, run, |run| - 1, id);
  }
}
