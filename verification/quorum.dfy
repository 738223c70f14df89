/** Majority and joint-majority decisions: vote tallies and commit indexes.
    The specification side counts sets; the methods are the loops and the
    fill-sort-pick computation that implement it. */
module Quorum {

  type Id = nat

  /** The zero id stands for "nobody". */
  const NONE: Id := 0

  datatype VoteResult = VotePending | VoteLost | VoteWon

  /** A log position, or the largest representable index that an empty
      configuration reports. */
  datatype Index = At(i: nat) | Infinity

  /** Two groups of voters; a decision needs a majority of each. */
  datatype JointConfig = JointConfig(incoming: set<Id>, outgoing: set<Id>) {
    ghost function Ids(): set<Id> { incoming + outgoing }
  }

  // ---------------------------------------------------------------- quorums

  /** The members of c that are in q. */
  ghost function Among(c: set<Id>, q: set<Id>): set<Id> {
    set id | id in c && id in q
  }

  ghost predicate IsMajority(c: set<Id>, q: set<Id>) {
    c == {} || |Among(c, q)| >= |c| / 2 + 1
  }

  ghost predicate IsQuorum(c: JointConfig, q: set<Id>) {
    IsMajority(c.incoming, q) && IsMajority(c.outgoing, q)
  }

  lemma MajoritiesMeet(c: set<Id>, q1: set<Id>, q2: set<Id>) returns (v: Id)
    requires c != {}
    requires IsMajority(c, q1) && IsMajority(c, q2)
    ensures v in c && v in q1 && v in q2
  {
    var a, b := Among(c, q1), Among(c, q2);
    if a !! b {
      SubsetSize(a + b, c);
      assert false;
    }
    v :| v in a && v in b;
  }

  lemma SubsetSize(a: set<Id>, b: set<Id>)
    requires a <= b
    ensures |a| <= |b|
  {
    assert |b| == |a| + |b - a| by { assert b == a + (b - a); }
  }

  lemma QuorumsMeet(c: JointConfig, q1: set<Id>, q2: set<Id>) returns (v: Id)
    requires c.incoming != {}
    requires IsQuorum(c, q1) && IsQuorum(c, q2)
    ensures v in c.incoming && v in q1 && v in q2
  {
    v := MajoritiesMeet(c.incoming, q1, q2);
  }

  lemma MajorityGrows(c: set<Id>, q1: set<Id>, q2: set<Id>)
    requires IsMajority(c, q1)
    requires forall id | id in c && id in q1 :: id in q2
    ensures IsMajority(c, q2)
  {
    SubsetSize(Among(c, q1), Among(c, q2));
  }

  // ------------------------------------------------------------------ votes

  ghost function YesVotes(votes: map<Id, bool>): set<Id> {
    set id | id in votes && votes[id]
  }

  ghost function Unheard(c: set<Id>, votes: map<Id, bool>): set<Id> {
    set id | id in c && id !in votes
  }

  /** The outcome of a majority vote: won once the yes votes are a majority,
      lost once even the unheard voters could not make them one. */
  ghost function MajorityVote(c: set<Id>, votes: map<Id, bool>): VoteResult {
    if IsMajority(c, YesVotes(votes)) then VoteWon
    else if IsMajority(c, YesVotes(votes) + Unheard(c, votes)) then VotePending
    else VoteLost
  }

  ghost function JointVote(c: JointConfig, votes: map<Id, bool>): VoteResult {
    var r1, r2 := MajorityVote(c.incoming, votes), MajorityVote(c.outgoing, votes);
    if r1 == r2 then r1
    else if r1 == VoteLost || r2 == VoteLost then VoteLost
    else VotePending
  }

  lemma WonIsQuorum(c: JointConfig, votes: map<Id, bool>)
    ensures JointVote(c, votes) == VoteWon <==> IsQuorum(c, YesVotes(votes))
  {}

  /** A decided vote stays decided: adding votes of voters that had not been
      heard never changes a won or lost result. */
  lemma DecidedVoteIsFinal(c: JointConfig, votes: map<Id, bool>, more: map<Id, bool>)
    requires forall id | id in votes :: id in more && more[id] == votes[id]
    ensures JointVote(c, votes) != VotePending ==> JointVote(c, more) == JointVote(c, votes)
  {
    var r1, r2 := MajorityVote(c.incoming, votes), MajorityVote(c.outgoing, votes);
    var s1, s2 := MajorityVote(c.incoming, more), MajorityVote(c.outgoing, more);
    assert r1 != VotePending ==> s1 == r1 by {
      if r1 != VotePending { DecidedMajorityIsFinal(c.incoming, votes, more); }
    }
    assert r2 != VotePending ==> s2 == r2 by {
      if r2 != VotePending { DecidedMajorityIsFinal(c.outgoing, votes, more); }
    }
  }

  lemma DecidedMajorityIsFinal(c: set<Id>, votes: map<Id, bool>, more: map<Id, bool>)
    requires forall id | id in votes :: id in more && more[id] == votes[id]
    requires MajorityVote(c, votes) != VotePending
    ensures MajorityVote(c, more) == MajorityVote(c, votes)
  {
    var yes, later := YesVotes(votes), YesVotes(more);
    if MajorityVote(c, votes) == VoteWon {
      MajorityGrows(c, yes, later);
    } else {
      if IsMajority(c, later + Unheard(c, more)) {
        MajorityGrows(c, later + Unheard(c, more), yes + Unheard(c, votes));
        assert false;
      }
      if IsMajority(c, later) {
        MajorityGrows(c, later, later + Unheard(c, more));
      }
    }
  }

  /** The voters that have not voted could still make it a quorum. */
  ghost predicate CanStillWin(c: JointConfig, votes: map<Id, bool>) {
    IsQuorum(c, YesVotes(votes) + (c.Ids() - votes.Keys))
  }

  lemma LostIsHopeless(c: JointConfig, votes: map<Id, bool>)
    ensures JointVote(c, votes) == VoteLost <==> !CanStillWin(c, votes)
  {
    HalfCanWin(c.incoming, c.Ids(), votes);
    HalfCanWin(c.outgoing, c.Ids(), votes);
  }

  lemma HalfCanWin(half: set<Id>, all: set<Id>, votes: map<Id, bool>)
    requires half <= all
    ensures MajorityVote(half, votes) != VoteLost <==> IsMajority(half, YesVotes(votes) + (all - votes.Keys))
  {
    var yes := YesVotes(votes);
    assert Among(half, yes + Unheard(half, votes)) == Among(half, yes + (all - votes.Keys));
    if IsMajority(half, yes) { MajorityGrows(half, yes, yes + Unheard(half, votes)); }
  }

  /** A vote is lost exactly if no further votes can win it. */
  lemma LostForGood(c: JointConfig, votes: map<Id, bool>)
    ensures JointVote(c, votes) == VoteLost <==>
              forall more: map<Id, bool> | Extends(votes, more) :: JointVote(c, more) != VoteWon
  {
    hide JointVote, IsQuorum;
    if JointVote(c, votes) == VoteLost {
      forall more: map<Id, bool> | Extends(votes, more) ensures JointVote(c, more) != VoteWon {
        DecidedVoteIsFinal(c, votes, more);
      }
    } else {
      var more := votes + map id | id in c.Ids() - votes.Keys :: true;
      LostIsHopeless(c, votes);
      WonIsQuorum(c, more);
      assert YesVotes(more) == YesVotes(votes) + (c.Ids() - votes.Keys);
      assert Extends(votes, more);
    }
  }

  ghost predicate Extends(votes: map<Id, bool>, more: map<Id, bool>) {
    forall id | id in votes :: id in more && more[id] == votes[id]
  }

  /** Counts one majority's votes. */
  method CountVotes(c: set<Id>, votes: map<Id, bool>) returns (r: VoteResult)
    ensures r == MajorityVote(c, votes)
  {
    if c == {} { return VoteWon; }
    var votedCnt, missing := 0, 0;
    var todo := c;
    ghost var done: set<Id> := {};
    while todo != {}
      invariant done !! todo && done + todo == c
      invariant votedCnt == |YesOf(done, votes)| && missing == |Unheard(done, votes)|
      decreases |todo|
    {
      var id :| id in todo;
      CountOne(done, votes, id);
      if id !in votes {
        missing := missing + 1;
      } else if votes[id] {
        votedCnt := votedCnt + 1;
      }
      todo, done := todo - {id}, done + {id};
    }
    assert done == c;
    TallyIsVote(c, votes);
    var q := |c| / 2 + 1;
    if votedCnt >= q { return VoteWon; }
    if votedCnt + missing >= q { return VotePending; }
    return VoteLost;
  }

  ghost function YesOf(c: set<Id>, votes: map<Id, bool>): set<Id> {
    set id | id in c && id in votes && votes[id]
  }

  lemma CountOne(done: set<Id>, votes: map<Id, bool>, id: Id)
    requires id !in done
    ensures |YesOf(done + {id}, votes)| == |YesOf(done, votes)| + (if id in votes && votes[id] then 1 else 0)
    ensures |Unheard(done + {id}, votes)| == |Unheard(done, votes)| + (if id in votes then 0 else 1)
  {
    AddOne(YesOf(done, votes), YesOf(done + {id}, votes), id, id in votes && votes[id]);
    AddOne(Unheard(done, votes), Unheard(done + {id}, votes), id, id !in votes);
  }

  lemma AddOne(a: set<Id>, b: set<Id>, id: Id, added: bool)
    requires id !in a
    requires forall x :: x in b <==> x in a || (x == id && added)
    ensures |b| == |a| + (if added then 1 else 0)
  {
    assert b == if added then a + {id} else a;
  }

  lemma TallyIsVote(c: set<Id>, votes: map<Id, bool>)
    requires c != {}
    ensures var q, yes, mute := |c| / 2 + 1, |YesOf(c, votes)|, |Unheard(c, votes)|;
            MajorityVote(c, votes) ==
            if yes >= q then VoteWon else if yes + mute >= q then VotePending else VoteLost
  {
    var yes, mute := YesOf(c, votes), Unheard(c, votes);
    assert Among(c, YesVotes(votes)) == yes;
    assert Among(c, YesVotes(votes) + mute) == yes + mute;
    assert yes !! mute;
  }

  method CountJointVotes(c: JointConfig, votes: map<Id, bool>) returns (r: VoteResult)
    ensures r == JointVote(c, votes)
    ensures r == VoteWon <==> IsQuorum(c, YesVotes(votes))
  {
    var r1 := CountVotes(c.incoming, votes);
    var r2 := CountVotes(c.outgoing, votes);
    if r1 == r2 { return r1; }
    if r1 == VoteLost || r2 == VoteLost { return VoteLost; }
    return VotePending;
  }

  // ---------------------------------------------------------- commit indexes

  /** What a voter acknowledged; silence counts as zero. */
  function AckedIndex(acks: map<Id, nat>, id: Id): nat {
    if id in acks then acks[id] else 0
  }

  ghost function AckedAtLeast(acks: map<Id, nat>, c: set<Id>, k: nat): set<Id> {
    set id | id in c && AckedIndex(acks, id) >= k
  }

  /** k is acknowledged by a majority of c. */
  ghost predicate MajorityAcked(c: set<Id>, acks: map<Id, nat>, k: nat) {
    IsMajority(c, AckedAtLeast(acks, c, k))
  }

  ghost predicate IsCommitted(c: set<Id>, acks: map<Id, nat>, r: nat) {
    forall k: nat :: k <= r <==> MajorityAcked(c, acks, k)
  }

  lemma CommittedIsUnique(c: set<Id>, acks: map<Id, nat>, r1: nat, r2: nat)
    requires IsCommitted(c, acks, r1) && IsCommitted(c, acks, r2)
    ensures r1 == r2
  {
    assert MajorityAcked(c, acks, r1) && MajorityAcked(c, acks, r2);
  }

  /** The largest index that a majority of c has acknowledged. */
  ghost function MajorityCommitted(c: set<Id>, acks: map<Id, nat>): (r: Index)
    ensures r.Infinity? <==> c == {}
    ensures r.At? ==> IsCommitted(c, acks, r.i)
  {
    if c == {} then Infinity
    else
      CommittedExists(c, acks);
      var r: nat :| IsCommitted(c, acks, r);
      At(r)
  }

  lemma CommittedExists(c: set<Id>, acks: map<Id, nat>)
    requires c != {}
    ensures exists r: nat :: IsCommitted(c, acks, r)
  {
    var top: nat := AckBound(c, acks);
    assert Among(c, AckedAtLeast(acks, c, 0)) == c;
    while !MajorityAcked(c, acks, top)
      invariant forall k: nat | top < k :: !MajorityAcked(c, acks, k)
      decreases top
    {
      assert top != 0;
      top := top - 1;
    }
    forall k: nat | k <= top ensures MajorityAcked(c, acks, k) {
      MajorityGrows(c, AckedAtLeast(acks, c, top), AckedAtLeast(acks, c, k));
    }
    assert IsCommitted(c, acks, top);
  }

  lemma AckBound(c: set<Id>, acks: map<Id, nat>) returns (top: nat)
    ensures forall id | id in c :: AckedIndex(acks, id) <= top
    ensures forall k: nat | top < k :: AckedAtLeast(acks, c, k) == {}
    decreases |c|
  {
    if c == {} { return 0; }
    var id :| id in c;
    top := AckBound(c - {id}, acks);
    if top < AckedIndex(acks, id) { top := AckedIndex(acks, id); }
  }

  ghost function JointCommitted(c: JointConfig, acks: map<Id, nat>): Index {
    MinIndex(MajorityCommitted(c.incoming, acks), MajorityCommitted(c.outgoing, acks))
  }

  function MinIndex(a: Index, b: Index): Index {
    if a.Infinity? then b else if b.Infinity? || a.i < b.i then a else b
  }

  /** The joint commit index is exact: it is the largest index acknowledged by
      a majority of each non-empty half. */
  lemma JointCommittedIsExact(c: JointConfig, acks: map<Id, nat>, k: nat)
    requires c.Ids() != {}
    ensures var r := JointCommitted(c, acks);
            r.At? && (k <= r.i <==> IsQuorum(c, AckedAtLeast(acks, c.Ids(), k)))
  {
    CommittedInHalf(c.incoming, c.Ids(), acks, k);
    CommittedInHalf(c.outgoing, c.Ids(), acks, k);
  }

  lemma CommittedInHalf(half: set<Id>, all: set<Id>, acks: map<Id, nat>, k: nat)
    requires half <= all
    ensures IsMajority(half, AckedAtLeast(acks, all, k)) <==>
            (var r := MajorityCommitted(half, acks); r.At? ==> k <= r.i)
  {
    assert Among(half, AckedAtLeast(acks, all, k)) == Among(half, AckedAtLeast(acks, half, k));
    var r := MajorityCommitted(half, acks);
    assert r.At? ==> (k <= r.i <==> MajorityAcked(half, acks, k));
  }

  // ------------------------------------------------- the fill-sort-pick form

  function CountGE(s: seq<nat>, k: nat): nat {
    if s == [] then 0 else (if s[0] >= k then 1 else 0) + CountGE(s[1..], k)
  }

  predicate Ascending(s: seq<nat>) {
    forall i, j | 0 <= i < j < |s| :: s[i] <= s[j]
  }

  function Insert(x: nat, s: seq<nat>): (r: seq<nat>)
    requires Ascending(s)
    ensures Ascending(r) && |r| == |s| + 1
    ensures forall i | 0 <= i < |r| :: r[i] == x || r[i] in s
  {
    if s == [] || x <= s[0] then [x] + s
    else
      var rest := Insert(x, s[1..]);
      assert forall i | 0 <= i < |rest| :: s[0] <= rest[i];
      [s[0]] + rest
  }

  function Sort(s: seq<nat>): (r: seq<nat>)
    ensures Ascending(r) && |r| == |s|
  {
    if s == [] then [] else Insert(s[0], Sort(s[1..]))
  }

  lemma InsertCounts(x: nat, s: seq<nat>, k: nat)
    requires Ascending(s)
    ensures CountGE(Insert(x, s), k) == (if x >= k then 1 else 0) + CountGE(s, k)
  {}

  lemma {:induction false} SortCounts(s: seq<nat>, k: nat)
    ensures CountGE(Sort(s), k) == CountGE(s, k)
  {
    if s != [] {
      SortCounts(s[1..], k);
      InsertCounts(s[0], Sort(s[1..]), k);
    }
  }

  lemma {:induction false} CountBounded(s: seq<nat>, k: nat)
    ensures CountGE(s, k) <= |s|
    ensures (forall i | 0 <= i < |s| :: s[i] >= k) ==> CountGE(s, k) == |s|
    ensures (forall i | 0 <= i < |s| :: s[i] < k) ==> CountGE(s, k) == 0
  {
    if s != [] { CountBounded(s[1..], k); }
  }

  lemma {:induction false} CountAppend(a: seq<nat>, b: seq<nat>, k: nat)
    ensures CountGE(a + b, k) == CountGE(a, k) + CountGE(b, k)
  {
    if a == [] {
      assert a + b == b;
    } else {
      assert (a + b)[1..] == a[1..] + b;
      CountAppend(a[1..], b, k);
    }
  }

  /** In an ascending sequence, the element at pos is at least k exactly when
      the elements from pos on, or more, are. */
  lemma PickCounts(s: seq<nat>, pos: nat, k: nat)
    requires Ascending(s) && pos < |s|
    ensures s[pos] >= k <==> CountGE(s, k) >= |s| - pos
  {
    if s[pos] >= k {
      CountsFrom(s, pos, k);
    } else {
      CountsBefore(s, pos + 1, k);
    }
  }

  lemma CountsFrom(s: seq<nat>, at: nat, k: nat)
    requires Ascending(s) && at < |s| && s[at] >= k
    ensures CountGE(s, k) >= |s| - at
  {
    hide CountGE;
    CountSplit(s, at, k);
    CountAll(s[at..], k) by { assert forall i | 0 <= i < |s[at..]| :: s[at] <= s[at..][i]; }
  }

  lemma CountsBefore(s: seq<nat>, at: nat, k: nat)
    requires Ascending(s) && 0 < at <= |s| && s[at - 1] < k
    ensures CountGE(s, k) <= |s| - at
  {
    hide CountGE;
    CountSplit(s, at, k);
    CountNone(s[..at], k) by { assert forall i | 0 <= i < at :: s[..at][i] <= s[at - 1]; }
    CountBounded(s[at..], k);
  }

  lemma CountSplit(s: seq<nat>, at: nat, k: nat)
    requires at <= |s|
    ensures CountGE(s, k) == CountGE(s[..at], k) + CountGE(s[at..], k)
  {
    hide CountGE;
    assert s == s[..at] + s[at..];
    CountAppend(s[..at], s[at..], k);
  }

  lemma CountAll(s: seq<nat>, k: nat)
    requires forall i | 0 <= i < |s| :: s[i] >= k
    ensures CountGE(s, k) == |s|
  {
    hide CountGE;
    CountBounded(s, k);
  }

  lemma CountNone(s: seq<nat>, k: nat)
    requires forall i | 0 <= i < |s| :: s[i] < k
    ensures CountGE(s, k) == 0
  {
    hide CountGE;
    CountBounded(s, k);
  }

  lemma CountSet(s: seq<nat>, i: nat, x: nat, k: nat)
    requires i < |s| && s[i] == 0 && k > 0
    ensures CountGE(s[i := x], k) == CountGE(s, k) + (if x >= k then 1 else 0)
  {
    assert s == s[..i] + [0] + s[i + 1..];
    assert s[i := x] == s[..i] + [x] + s[i + 1..];
    CountAppend(s[..i] + [0], s[i + 1..], k);
    CountAppend(s[..i], [0], k);
    CountAppend(s[..i] + [x], s[i + 1..], k);
    CountAppend(s[..i], [x], k);
  }

  /** The counts that the array built so far must have. */
  ghost predicate Counts(s: seq<nat>, acks: map<Id, nat>, done: set<Id>) {
    forall k: nat | k > 0 :: CountGE(s, k) == |AckedAtLeast(acks, done, k)|
  }

  /** Fills an array from the right with the acknowledged indexes, sorts it and
      picks the position that a majority of the elements reach. */
  method CommittedIndex(c: set<Id>, acks: map<Id, nat>) returns (r: Index)
    ensures r == MajorityCommitted(c, acks)
  {
    var n := |c|;
    if n == 0 { return Infinity; }
    var srt := new nat[n](_ => 0);
    var i := n - 1;
    var todo := c;
    ghost var done := {};
    CountsEmpty(srt[..], acks);
    while todo != {}
      invariant done !! todo && done + todo == c
      invariant |todo| - 1 <= i < n
      invariant forall j | 0 <= j <= i :: srt[j] == 0
      invariant Counts(srt[..], acks, done)
      decreases |todo|
    {
      var id :| id in todo;
      CountsAdd(srt[..], i, acks, done, id);
      todo, done := todo - {id}, done + {id};
      if id in acks {
        ghost var before := srt[..];
        srt[i] := acks[id];
        assert srt[..] == before[i := acks[id]];
        i := i - 1;
      }
    }
    var sorted := Sort(srt[..]);
    var pos := n - (n / 2 + 1);
    assert done == c;
    PickIsCommitted(c, acks, srt[..], pos);
    CommittedIsUnique(c, acks, sorted[pos], MajorityCommitted(c, acks).i);
    return At(sorted[pos]);
  }

  lemma CountsEmpty(s: seq<nat>, acks: map<Id, nat>)
    requires forall i | 0 <= i < |s| :: s[i] == 0
    ensures Counts(s, acks, {})
  {
    forall k: nat | k > 0 ensures CountGE(s, k) == |AckedAtLeast(acks, {}, k)| { CountBounded(s, k); }
  }

  lemma CountsAdd(s: seq<nat>, i: nat, acks: map<Id, nat>, done: set<Id>, id: Id)
    requires i < |s| && s[i] == 0 && id !in done
    requires Counts(s, acks, done)
    ensures Counts(if id in acks then s[i := acks[id]] else s, acks, done + {id})
  {
    var s' := if id in acks then s[i := acks[id]] else s;
    forall k: nat | k > 0 ensures CountGE(s', k) == |AckedAtLeast(acks, done + {id}, k)| {
      CountSet(s, i, AckedIndex(acks, id), k);
      assert AckedAtLeast(acks, done + {id}, k) ==
             AckedAtLeast(acks, done, k) + (if AckedIndex(acks, id) >= k then {id} else {});
    }
  }

  lemma PickIsCommitted(c: set<Id>, acks: map<Id, nat>, s: seq<nat>, pos: nat)
    requires |s| == |c| != 0 && pos == |c| - (|c| / 2 + 1)
    requires Counts(s, acks, c)
    ensures IsCommitted(c, acks, Sort(s)[pos])
  {
    forall k: nat ensures k <= Sort(s)[pos] <==> MajorityAcked(c, acks, k) {
      PickCounts(Sort(s), pos, k);
      SortCounts(s, k);
      assert Among(c, AckedAtLeast(acks, c, k)) == AckedAtLeast(acks, c, k);
      if k == 0 { assert AckedAtLeast(acks, c, 0) == c; }
    }
  }

  method JointCommittedIndex(c: JointConfig, acks: map<Id, nat>) returns (r: Index)
    ensures r == JointCommitted(c, acks)
  {
    var idx0 := CommittedIndex(c.incoming, acks);
    var idx1 := CommittedIndex(c.outgoing, acks);
    r := MinIndex(idx0, idx1);
  }
}
