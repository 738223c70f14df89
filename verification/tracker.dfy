/** The tracker of a group's members as an object: one progress object per member,
    no two of them sharing anything, and the votes of the running election. */
module Trackers {
  import opened Quorum
  import opened Flow
  import opened Tracking
  import RaftSpec

  /** The members when all but those in `todo` have started over. */
  ghost function PartlyReset(m: map<Id, Progress>, todo: set<Id>, self: Id, last: nat, size: nat, maxBytes: nat): map<Id, Progress> {
    map p | p in m :: if p in todo then m[p] else m[p].StartOver(p == self, last, size, maxBytes)
  }

  lemma ResetNone(m: map<Id, Progress>, self: Id, last: nat, size: nat, maxBytes: nat)
    ensures PartlyReset(m, m.Keys, self, last, size, maxBytes) == m
  {}

  lemma ResetOne(m: map<Id, Progress>, todo: set<Id>, p: Id, self: Id, last: nat, size: nat, maxBytes: nat)
    requires p in todo && todo <= m.Keys
    ensures var part := PartlyReset(m, todo, self, last, size, maxBytes);
            && p in part && part[p] == m[p]
            && part[p := m[p].StartOver(p == self, last, size, maxBytes)]
               == PartlyReset(m, todo - {p}, self, last, size, maxBytes)
  {}

  /** The members when all but self and those in `todo` have been marked inactive. */
  ghost function PartlyQuiet(m: map<Id, Progress>, todo: set<Id>, self: Id): map<Id, Progress> {
    map p | p in m :: if p in todo || p == self then m[p] else m[p].(recentActive := false)
  }

  lemma QuietNone(m: map<Id, Progress>, self: Id)
    ensures PartlyQuiet(m, m.Keys, self) == m
  {}

  lemma QuietOne(m: map<Id, Progress>, todo: set<Id>, p: Id, self: Id)
    requires p in todo && todo <= m.Keys
    ensures var part := PartlyQuiet(m, todo, self);
            && p in part && part[p] == m[p]
            && PartlyQuiet(m, todo - {p}, self) == if p != self then part[p := m[p].(recentActive := false)] else part
  {
    var part := PartlyQuiet(m, todo, self);
    assert p == self ==> part == PartlyQuiet(m, todo - {p}, self);
  }

  /** A member nothing is known about. */
  function Unknown(size: nat, maxBytes: nat, isLearner: bool): Progress {
    Progress(0, 1, 0, StateProbe, 0, false, false, Window(size, maxBytes, []), isLearner)
  }

  ghost function AllUnknown(peers: seq<Id>, learners: set<Id>, size: nat, maxBytes: nat): map<Id, Progress> {
    map p | p in peers :: Unknown(size, maxBytes, p in learners)
  }

  lemma UnknownAt(peers: seq<Id>, learners: set<Id>, size: nat, maxBytes: nat)
    ensures forall p :: p in AllUnknown(peers, learners, size, maxBytes) <==> p in peers
    ensures forall p | p in peers :: AllUnknown(peers, learners, size, maxBytes)[p] == Unknown(size, maxBytes, p in learners)
  {}

  ghost function Matches(m: map<Id, Progress>): map<Id, nat> {
    map p | p in m :: m[p].matched
  }

  ghost function Heard(m: map<Id, Progress>): map<Id, bool> {
    map p | p in m && !m[p].isLearner :: m[p].recentActive
  }

  class PeerTracker {
    const voters: JointConfig
    const maxInflight: nat
    const maxInflightBytes: nat
    const progress: map<Id, PeerProgress>
    var votes: map<Id, bool>
    /** What the members' objects stand for, the objects, and whose each is. */
    ghost var Members: map<Id, Progress>
    ghost var Repr: set<object>
    ghost var Owner: map<object, Id>

    ghost predicate Owns(p: Id, o: object)
      reads `Owner
    {
      o in Owner && Owner[o] == p
    }

    ghost predicate Holds(p: Id)
      requires p in progress
      reads `Owner, `Members, progress[p], progress[p].inflights, progress[p].inflights.buffer
    {
      && Owns(p, progress[p]) && Owns(p, progress[p].inflights) && Owns(p, progress[p].inflights.buffer)
      && progress[p].Valid() && p in Members && Members[p] == progress[p].View()
    }

    ghost predicate Valid()
      reads `Owner, `Members, `Repr, Repr
    {
      && this !in Repr && Repr == Owner.Keys && Members.Keys == progress.Keys
      && forall p | p in progress :: progress[p] in Repr && progress[p].inflights in Repr
                                     && progress[p].inflights.buffer in Repr && Holds(p)
    }

    constructor (voters: JointConfig, peers: seq<Id>, learners: set<Id>, maxInflight: nat, maxInflightBytes: nat)
      ensures Valid() && fresh(Repr) && votes == map[]
      ensures this.voters == voters && this.maxInflight == maxInflight && this.maxInflightBytes == maxInflightBytes
      ensures Members == AllUnknown(peers, learners, maxInflight, maxInflightBytes)
    {
      hide AllUnknown, Unknown, PeerProgress.Valid, PeerProgress.View;
      this.voters, this.maxInflight, this.maxInflightBytes := voters, maxInflight, maxInflightBytes;
      var built, owner := BuildPeers(peers, learners, maxInflight, maxInflightBytes);
      progress, votes, Owner, Repr := built, map[], owner, owner.Keys;
      Members := AllUnknown(peers, learners, maxInflight, maxInflightBytes);
      new;
      UnknownAt(peers, learners, maxInflight, maxInflightBytes);
    }

    static method BuildPeers(peers: seq<Id>, learners: set<Id>, size: nat, maxBytes: nat)
        returns (built: map<Id, PeerProgress>, ghost owner: map<object, Id>)
      ensures fresh(owner.Keys) && forall p :: p in built <==> p in peers
      ensures forall p | p in built :: Belongs(p, built[p], owner) && Fits(built[p], size, maxBytes, p in learners)
    {
      hide Fits;
      built, owner := map[], map[];
      for i := 0 to |peers|
        invariant fresh(owner.Keys) && forall p :: p in built <==> p in peers[..i]
        invariant forall p | p in built :: Belongs(p, built[p], owner) && Fits(built[p], size, maxBytes, p in learners)
      {
        var pr := NewPeer(size, maxBytes, peers[i] in learners);
        built := built[peers[i] := pr];
        owner := owner[pr := peers[i]][pr.inflights := peers[i]][pr.inflights.buffer := peers[i]];
      }
    }

    static ghost predicate Belongs(p: Id, pr: PeerProgress, owner: map<object, Id>)
      reads pr, pr.inflights
    {
      && pr in owner && owner[pr] == p && pr.inflights in owner && owner[pr.inflights] == p
      && pr.inflights.buffer in owner && owner[pr.inflights.buffer] == p
    }

    static ghost predicate Fits(pr: PeerProgress, size: nat, maxBytes: nat, isLearner: bool)
      reads pr, pr.inflights, pr.inflights.buffer
    {
      pr.Valid() && pr.View() == Unknown(size, maxBytes, isLearner)
    }

    static method NewPeer(size: nat, maxBytes: nat, isLearner: bool) returns (pr: PeerProgress)
      ensures fresh(pr) && fresh(pr.inflights) && fresh(pr.inflights.buffer)
      ensures Fits(pr, size, maxBytes, isLearner)
    {
      var inflights := new Inflights(size, maxBytes);
      pr := new PeerProgress(1, inflights, isLearner);
    }

    /** One member's objects changed, perhaps onto a new ring or buffer; nothing
        of the others did. */
    twostate lemma StaysValid(p: Id)
      requires old(Valid()) && p in progress && progress[p].Valid()
      requires progress[p].inflights == old(progress[p].inflights) || fresh(progress[p].inflights)
      requires progress[p].inflights.buffer == old(progress[p].inflights.buffer) || fresh(progress[p].inflights.buffer)
      requires Owner == old(Owner)[progress[p].inflights := p][progress[p].inflights.buffer := p] && Repr == Owner.Keys
      requires Members == old(Members)[p := progress[p].View()]
      requires forall o | o in old(Owner) && old(Owner[o]) != p :: unchanged(o)
      ensures Valid() && fresh(Repr - old(Repr))
    {
      hide PeerProgress.Valid, PeerProgress.View;
      forall q | q in progress ensures progress[q] in Repr && progress[q].inflights in Repr
                                       && progress[q].inflights.buffer in Repr && Holds(q) {
        assert old(Holds(q)) && old(Holds(p));
      }
    }

    // ----------------------------------------------------------- one member

    lemma Opens(p: Id)
      requires Valid() && p in progress
      ensures Holds(p) && this !in Repr && Repr == Owner.Keys
    {}

    /** The member now has this progress, and the others what they had. */
    twostate predicate Becomes(p: Id, pr: Progress)
      reads `Owner, `Members, `Repr, Repr
    {
      Valid() && fresh(Repr - old(Repr)) && Members == old(Members)[p := pr]
    }

    method SetActive(p: Id, active: bool)
      requires Valid() && p in progress
      modifies Repr, `Repr, `Owner, `Members
      ensures Becomes(p, old(Members)[p].(recentActive := active))
    {
      hide Valid, PeerProgress.Valid, PeerProgress.View;
      Opens(p);
      var pr := progress[p];
      pr.SetActive(active);
      Members, Owner := Members[p := pr.View()], Owner[pr.inflights := p][pr.inflights.buffer := p];
      Repr := Owner.Keys;
      StaysValid(p);
    }

    method Unpause(p: Id)
      requires Valid() && p in progress
      modifies Repr, `Repr, `Owner, `Members
      ensures Becomes(p, old(Members)[p].(paused := false))
    {
      hide Valid, PeerProgress.Valid, PeerProgress.View;
      Opens(p);
      var pr := progress[p];
      pr.Unpause();
      Members, Owner := Members[p := pr.View()], Owner[pr.inflights := p][pr.inflights.buffer := p];
      Repr := Owner.Keys;
      StaysValid(p);
    }

    method SentEntries(p: Id, entries: nat, bytes: nat)
      requires Valid() && p in progress && !Members[p].state.StateSnapshot?
               && (Members[p].state.StateReplicate? && entries > 0 ==> !Members[p].inflights.Full())
      modifies Repr, `Repr, `Owner, `Members
      ensures Becomes(p, old(Members)[p].SentEntries(entries, bytes))
    {
      hide Valid, PeerProgress.Valid, PeerProgress.View, Progress.SentEntries, Window.Full;
      Opens(p);
      var pr := progress[p];
      pr.SentEntries(entries, bytes);
      Members, Owner := Members[p := pr.View()], Owner[pr.inflights := p][pr.inflights.buffer := p];
      Repr := Owner.Keys;
      StaysValid(p);
    }

    method SentCommit(p: Id, commit: nat)
      requires Valid() && p in progress
      modifies Repr, `Repr, `Owner, `Members
      ensures Becomes(p, old(Members)[p].SentCommit(commit))
    {
      hide Valid, PeerProgress.Valid, PeerProgress.View;
      Opens(p);
      var pr := progress[p];
      pr.SentCommit(commit);
      Members, Owner := Members[p := pr.View()], Owner[pr.inflights := p][pr.inflights.buffer := p];
      Repr := Owner.Keys;
      StaysValid(p);
    }

    /** An append of so many entries went out, and with it a commit index. */
    method Sent(p: Id, entries: nat, bytes: nat, commit: nat)
      requires Valid() && p in progress && !Members[p].state.StateSnapshot?
               && (Members[p].state.StateReplicate? && entries > 0 ==> !Members[p].inflights.Full())
      modifies Repr, `Repr, `Owner, `Members
      ensures Becomes(p, old(Members)[p].SentEntries(entries, bytes).SentCommit(commit))
    {
      hide Valid, Progress.SentEntries, Window.Full;
      SameKeys();
      SentEntries(p, entries, bytes);
      SentCommit(p, commit);
    }

    method MaybeUpdate(p: Id, n: nat) returns (updated: bool)
      requires Valid() && p in progress
      modifies Repr, `Repr, `Owner, `Members
      ensures Becomes(p, old(Members)[p].MaybeUpdate(n).0) && updated == old(Members)[p].MaybeUpdate(n).1
    {
      hide Valid, PeerProgress.Valid, PeerProgress.View, Progress.MaybeUpdate;
      Opens(p);
      var pr := progress[p];
      updated := pr.MaybeUpdate(n);
      Members, Owner := Members[p := pr.View()], Owner[pr.inflights := p][pr.inflights.buffer := p];
      Repr := Owner.Keys;
      StaysValid(p);
    }

    method MaybeDecrTo(p: Id, rejected: nat, matchHint: nat) returns (genuine: bool)
      requires Valid() && p in progress
      modifies Repr, `Repr, `Owner, `Members
      ensures Becomes(p, old(Members)[p].MaybeDecrTo(rejected, matchHint).0)
      ensures genuine == old(Members)[p].MaybeDecrTo(rejected, matchHint).1
    {
      hide Valid, PeerProgress.Valid, PeerProgress.View, Progress.MaybeDecrTo;
      Opens(p);
      var pr := progress[p];
      genuine := pr.MaybeDecrTo(rejected, matchHint);
      Members, Owner := Members[p := pr.View()], Owner[pr.inflights := p][pr.inflights.buffer := p];
      Repr := Owner.Keys;
      StaysValid(p);
    }

    method BecomeProbe(p: Id)
      requires Valid() && p in progress
      modifies Repr, `Repr, `Owner, `Members
      ensures Becomes(p, old(Members)[p].BecomeProbe())
    {
      hide Valid, PeerProgress.Valid, PeerProgress.View, Progress.BecomeProbe;
      Opens(p);
      var pr := progress[p];
      pr.BecomeProbe();
      Members, Owner := Members[p := pr.View()], Owner[pr.inflights := p][pr.inflights.buffer := p];
      Repr := Owner.Keys;
      StaysValid(p);
    }

    method BecomeReplicate(p: Id)
      requires Valid() && p in progress
      modifies Repr, `Repr, `Owner, `Members
      ensures Becomes(p, old(Members)[p].BecomeReplicate())
    {
      hide Valid, PeerProgress.Valid, PeerProgress.View, Progress.BecomeReplicate;
      Opens(p);
      var pr := progress[p];
      pr.BecomeReplicate();
      Members, Owner := Members[p := pr.View()], Owner[pr.inflights := p][pr.inflights.buffer := p];
      Repr := Owner.Keys;
      StaysValid(p);
    }

    method FreeLE(p: Id, to: nat)
      requires Valid() && p in progress
      modifies Repr, `Repr, `Owner, `Members
      ensures Becomes(p, old(Members)[p].(inflights := old(Members)[p].inflights.FreeLE(to)))
    {
      hide Valid, PeerProgress.Valid, PeerProgress.View, Window.FreeLE;
      Opens(p);
      var pr := progress[p];
      pr.FreeLE(to);
      Members, Owner := Members[p := pr.View()], Owner[pr.inflights := p][pr.inflights.buffer := p];
      Repr := Owner.Keys;
      StaysValid(p);
    }

    method Renew(p: Id, isSelf: bool, last: nat)
      requires Valid() && p in progress
      modifies Repr, `Repr, `Owner, `Members
      ensures Becomes(p, old(Members)[p].StartOver(isSelf, last, maxInflight, maxInflightBytes))
    {
      hide Valid, PeerProgress.Valid, PeerProgress.View, Progress.StartOver;
      Opens(p);
      var pr := progress[p];
      pr.Renew(isSelf, last, maxInflight, maxInflightBytes);
      Members, Owner := Members[p := pr.View()], Owner[pr.inflights := p][pr.inflights.buffer := p];
      Repr := Owner.Keys;
      StaysValid(p);
    }

    /** Takes an acknowledged index into account; whether anything came of it. */
    method Acknowledge(p: Id, index: nat) returns (news: bool)
      requires Valid() && p in progress
      modifies Repr, `Repr, `Owner, `Members
      ensures var (pr, updated) := old(Members)[p].MaybeUpdate(index);
              && (news <==> updated || (pr.matched == index && pr.state.StateProbe?))
              && Becomes(p, if news then RaftSpec.AckedProgress(pr, index) else old(Members)[p])
    {
      hide Valid, Progress.BecomeReplicate, Progress.BecomeProbe, Window.FreeLE;
      SameKeys();
      var updated := MaybeUpdate(p, index);
      FieldsAt(p);
      var pr := progress[p];
      if !updated && !(pr.matched == index && pr.state.StateProbe?) { return false; }
      news := true;
      if pr.state.StateProbe? {
        BecomeReplicate(p);
      } else if pr.state.StateSnapshot? {
        BecomeProbe(p);
        BecomeReplicate(p);
      } else {
        FreeLE(p, index);
      }
    }

    // --------------------------------------------------------- all members

    lemma SameKeys()
      requires Valid()
      ensures Members.Keys == progress.Keys && this !in Repr
    {}

    /** Everyone starts over, as at the beginning of a term. */
    method Reset(self: Id, last: nat)
      requires Valid()
      modifies Repr, `Repr, `Owner, `Members
      ensures Valid() && fresh(Repr - old(Repr))
      ensures Members == PartlyReset(old(Members), {}, self, last, maxInflight, maxInflightBytes)
    {
      hide PartlyReset, Progress.StartOver, Valid;
      ghost var was := Members;
      var todo := progress.Keys;
      SameKeys();
      ResetNone(was, self, last, maxInflight, maxInflightBytes);
      while todo != {}
        invariant Valid() && fresh(Repr - old(Repr)) && todo <= progress.Keys
        invariant Members == PartlyReset(was, todo, self, last, maxInflight, maxInflightBytes)
        decreases |todo|
      {
        var p :| p in todo;
        ResetOne(was, todo, p, self, last, maxInflight, maxInflightBytes);
        Renew(p, p == self, last);
        todo := todo - {p};
      }
    }

    /** Everyone but self is marked as not heard from. */
    method MarkInactive(self: Id)
      requires Valid()
      modifies Repr, `Repr, `Owner, `Members
      ensures Valid() && fresh(Repr - old(Repr))
      ensures Members == PartlyQuiet(old(Members), {}, self)
    {
      hide PartlyQuiet, Valid;
      ghost var was := Members;
      var todo := progress.Keys;
      SameKeys();
      QuietNone(was, self);
      while todo != {}
        invariant Valid() && fresh(Repr - old(Repr)) && todo <= progress.Keys
        invariant Members == PartlyQuiet(was, todo, self)
        decreases |todo|
      {
        var p :| p in todo;
        QuietOne(was, todo, p, self);
        if p != self { SetActive(p, false); }
        todo := todo - {p};
      }
    }

    lemma FieldsAgree()
      requires Valid()
      ensures forall p | p in progress ::
                && Members[p].matched == progress[p].matched && Members[p].isLearner == progress[p].isLearner
                && Members[p].recentActive == progress[p].recentActive
    {
      forall p | p in progress
        ensures Members[p].matched == progress[p].matched && Members[p].isLearner == progress[p].isLearner
                && Members[p].recentActive == progress[p].recentActive
      { assert Holds(p); }
    }

    lemma FieldsAt(p: Id)
      requires Valid() && p in progress
      ensures p in Members && Members[p].matched == progress[p].matched && Members[p].next == progress[p].next
      ensures Members[p].sentCommit == progress[p].sentCommit && Members[p].state == progress[p].state
      ensures Members[p].recentActive == progress[p].recentActive && Members[p].paused == progress[p].msgAppFlowPaused
      ensures Members[p].isLearner == progress[p].isLearner
    {
      assert Holds(p);
    }

    method Full(p: Id) returns (full: bool)
      requires Valid() && p in progress
      ensures full <==> Members[p].inflights.Full()
    {
      assert Holds(p);
      full := progress[p].inflights.Full();
    }

    /** The last index that a quorum of the voters holds. */
    method Committed() returns (at: Index)
      requires Valid()
      ensures at == JointCommitted(voters, Matches(Members))
    {
      hide JointCommitted, Holds;
      FieldsAgree();
      var matches := map p | p in progress :: progress[p].matched;
      assert matches == Matches(Members);
      at := JointCommittedIndex(voters, matches);
    }

    /** Whether a quorum of the voters has been heard from. */
    method QuorumActive() returns (active: bool)
      requires Valid()
      ensures active <==> JointVote(voters, Heard(Members)) == VoteWon
    {
      hide JointVote, Holds;
      FieldsAgree();
      var heard := map p | p in progress && !progress[p].isLearner :: progress[p].recentActive;
      assert heard == Heard(Members);
      var res := CountJointVotes(voters, heard);
      return res == VoteWon;
    }

    // --------------------------------------------------------------- votes

    method ResetVotes()
      modifies `votes
      ensures votes == map[]
    {
      votes := map[];
    }

    method RecordVote(id: Id, v: bool)
      modifies `votes
      ensures votes == if id in old(votes) then old(votes) else old(votes)[id := v]
    {
      if id !in votes { votes := votes[id := v]; }
    }

    method TallyVotes() returns (res: VoteResult)
      ensures res == JointVote(voters, votes)
    {
      res := CountJointVotes(voters, votes);
    }
  }
}
