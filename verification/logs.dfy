/** Raft logs as sequences: entry i of the sequence has log index i + 1.
    These are the operations of the log on its abstract value; the two-part
    log that implements them is in module TwoPartLog. */
module Logs {

  datatype Option<T> = None | Some(value: T)

  datatype Entry = Entry(term: nat, index: nat, data: string)

  datatype EntryID = EntryID(term: nat, index: nat)

  /** The term at index i; index 0 holds the dummy entry of term 0 and indexes
      past the end are unavailable. */
  function TermAt(log: seq<Entry>, i: nat): Option<nat> {
    if i == 0 then Some(0) else if i <= |log| then Some(log[i - 1].term) else None
  }

  function LastTerm(log: seq<Entry>): nat {
    if log == [] then 0 else log[|log| - 1].term
  }

  predicate MatchTerm(log: seq<Entry>, id: EntryID) {
    TermAt(log, id.index) == Some(id.term)
  }

  /** Whether a log that ends in `their` may replace ours as a leader's. */
  predicate IsUpToDate(log: seq<Entry>, their: EntryID) {
    their.term > LastTerm(log) || (their.term == LastTerm(log) && their.index >= |log|)
  }

  /** The entries have consecutive indexes, the first being `from`. */
  ghost predicate Consecutive(ents: seq<Entry>, from: nat) {
    forall i | 0 <= i < |ents| :: ents[i].index == from + i
  }

  /** The logs share their first k entries. */
  ghost predicate Agree(a: seq<Entry>, b: seq<Entry>, k: nat) {
    k <= |a| && k <= |b| && a[..k] == b[..k]
  }

  lemma AgreeLess(a: seq<Entry>, b: seq<Entry>, k: nat, j: nat)
    requires Agree(a, b, k) && j <= k
    ensures Agree(a, b, j)
  {
    assert a[..j] == a[..k][..j] && b[..j] == b[..k][..j];
  }

  lemma AgreeTrans(a: seq<Entry>, b: seq<Entry>, c: seq<Entry>, k: nat)
    requires Agree(a, b, k) && Agree(b, c, k)
    ensures Agree(a, c, k)
  {}

  lemma AgreeAt(a: seq<Entry>, b: seq<Entry>, k: nat, i: nat)
    requires Agree(a, b, k) && i < k
    ensures a[i] == b[i]
  {
    assert a[i] == a[..k][i] && b[i] == b[..k][i];
  }

  lemma AgreePrefix(a: seq<Entry>, b: seq<Entry>, more: seq<Entry>, k: nat)
    requires k <= |b| && b <= more
    ensures Agree(a, b, k) <==> Agree(a, more, k)
  {
    assert b[..k] == more[..k];
  }

  // ---------------------------------------------------------------- appends

  /** The index of the first entry of `ents` (which follow index prev) that the
      log does not hold, or 0 if it holds them all. */
  function FindConflict(log: seq<Entry>, prev: nat, ents: seq<Entry>): nat
    decreases |ents|
  {
    if ents == [] then 0
    else if !MatchTerm(log, EntryID(ents[0].term, prev + 1)) then prev + 1
    else FindConflict(log, prev + 1, ents[1..])
  }

  datatype Appended = Rejected | Panicked | Accepted(log: seq<Entry>, committed: nat)

  /** The log after the entries following prev have overwritten it from the
      first conflict on. */
  function Spliced(log: seq<Entry>, prev: nat, ents: seq<Entry>): seq<Entry> {
    var ci := FindConflict(log, prev, ents);
    if prev < ci <= prev + |ents| && ci <= |log| + 1 then log[..ci - 1] + ents[ci - 1 - prev..] else log
  }

  function CommitTo(committed: nat, tocommit: nat): nat {
    if committed < tocommit then tocommit else committed
  }

  /** Committing past the end of the log is refused. */
  predicate CommitPanics(log: seq<Entry>, committed: nat, tocommit: nat) {
    committed < tocommit && |log| < tocommit
  }

  function Min(a: nat, b: nat): nat { if a < b then a else b }
  function Max(a: nat, b: nat): nat { if a < b then b else a }

  /** The outcome of an append anchored at prev: rejected when the log does not
      match at prev, a panic when an entry would conflict at or below the commit
      index; otherwise conflicting entries are replaced and the commit index
      moves, no further than the log then reaches. */
  function MaybeAppend(log: seq<Entry>, committed: nat, prev: EntryID, ents: seq<Entry>, commit: nat): Appended {
    if !MatchTerm(log, prev) then Rejected
    else
      var lastnewi := prev.index + |ents|;
      var ci := FindConflict(log, prev.index, ents);
      if ci != 0 && ci <= committed then Panicked
      else Accepted(Spliced(log, prev.index, ents), CommitTo(committed, Min(commit, lastnewi)))
  }

  /** Log matching between two logs: an equal term at an index means an equal
      prefix up to it. */
  ghost predicate Matching(a: seq<Entry>, b: seq<Entry>) {
    forall i | 0 <= i < |a| && i < |b| && a[i].term == b[i].term :: Agree(a, b, i + 1)
  }

  /** ents are the entries of L that follow prev. */
  ghost predicate IsSlice(L: seq<Entry>, prev: EntryID, ents: seq<Entry>) {
    prev.index + |ents| <= |L| && MatchTerm(L, prev) && ents == L[prev.index..prev.index + |ents|]
  }

  /** The follower agrees with the leader exactly up to the first conflict. */
  lemma {:induction false} AgreeToConflict(log: seq<Entry>, L: seq<Entry>, prev: EntryID, ents: seq<Entry>)
    requires Matching(log, L) && MatchTerm(log, prev) && IsSlice(L, prev, ents)
    ensures var ci := FindConflict(log, prev.index, ents);
            if ci == 0 then Agree(log, L, prev.index + |ents|)
            else prev.index < ci <= prev.index + |ents| && Agree(log, L, ci - 1) && !Agree(log, L, ci)
    decreases |ents|
  {
    hide Matching;
    var p := prev.index;
    MatchingAt(log, L, p);
    if ents != [] {
      assert ents[0] == L[p];
      var next := EntryID(ents[0].term, p + 1);
      if MatchTerm(log, next) {
        assert ents[1..] == L[p + 1..p + 1 + |ents[1..]|];
        AgreeToConflict(log, L, next, ents[1..]);
      } else {
        DifferentTermAt(log, L, p + 1);
      }
    }
  }

  lemma MatchingAt(a: seq<Entry>, b: seq<Entry>, k: nat)
    requires Matching(a, b) && TermAt(a, k).Some? && TermAt(a, k) == TermAt(b, k)
    ensures Agree(a, b, k)
  {
    if k > 0 { assert Agree(a, b, k - 1 + 1); }
  }

  lemma DifferentTermAt(a: seq<Entry>, b: seq<Entry>, k: nat)
    requires TermAt(a, k) != TermAt(b, k)
    ensures !Agree(a, b, k)
  {
    if Agree(a, b, k) && k > 0 { AgreeAt(a, b, k, k - 1); }
  }

  /** Appending a slice of the leader's log L: the follower's log agrees with L
      through the last entry of the slice... */
  lemma AppendFollowsLeader(log: seq<Entry>, L: seq<Entry>, prev: EntryID, ents: seq<Entry>)
    requires Matching(log, L) && MatchTerm(log, prev) && IsSlice(L, prev, ents)
    ensures var r, last := Spliced(log, prev.index, ents), prev.index + |ents|;
            Agree(r, L, last) && (r == log || r == L[..last])
  {
    hide Matching;
    AgreeToConflict(log, L, prev, ents);
    var ci := FindConflict(log, prev.index, ents);
    if ci != 0 { SpliceIsPrefix(log, L, prev.index, ents, ci); }
  }

  lemma SpliceIsPrefix(log: seq<Entry>, L: seq<Entry>, p: nat, ents: seq<Entry>, ci: nat)
    requires p < ci <= p + |ents| <= |L| && ents == L[p..p + |ents|] && Agree(log, L, ci - 1)
    ensures log[..ci - 1] + ents[ci - 1 - p..] == L[..p + |ents|]
  {
    var last := p + |ents|;
    assert ents[ci - 1 - p..] == L[ci - 1..last];
    assert L[..last] == L[..ci - 1] + L[ci - 1..last];
  }

  /** ... keeps every prefix it already had in common with L, and changes only
      beyond every such prefix. */
  lemma AppendKeeps(log: seq<Entry>, L: seq<Entry>, prev: EntryID, ents: seq<Entry>, k: nat)
    requires Matching(log, L) && MatchTerm(log, prev) && IsSlice(L, prev, ents) && Agree(log, L, k)
    ensures Agree(Spliced(log, prev.index, ents), L, k)
    ensures FindConflict(log, prev.index, ents) == 0 || k < FindConflict(log, prev.index, ents)
  {
    hide Matching;
    AgreeToConflict(log, L, prev, ents);
    AppendFollowsLeader(log, L, prev, ents);
    var r, ci := Spliced(log, prev.index, ents), FindConflict(log, prev.index, ents);
    if ci != 0 {
      if k >= ci { AgreeLess(log, L, k, ci); }
      AgreeLess(r, L, prev.index + |ents|, k);
    }
  }

  // ----------------------------------------------------------- fast probing

  /** The largest guess <= index whose term is at most `term` or is not known,
      with its term (0 if not known). */
  function FindConflictByTerm(log: seq<Entry>, index: nat, term: nat): (nat, nat)
    decreases index
  {
    if index == 0 then (0, 0)
    else match TermAt(log, index)
      case None => (index, 0)
      case Some(ourTerm) => if ourTerm <= term then (index, ourTerm) else FindConflictByTerm(log, index - 1, term)
  }

  /** A follower's hint when its log does not match at prev: its guess of the
      last index, with its term, at which the logs agree. */
  function RejectionHint(log: seq<Entry>, prev: EntryID): EntryID {
    var (index, term) := FindConflictByTerm(log, Min(prev.index, |log|), prev.term);
    EntryID(term, index)
  }

  /** The leader's guess from the hint. */
  function NextProbeIndex(log: seq<Entry>, hint: EntryID): nat {
    if hint.term > 0 then FindConflictByTerm(log, hint.index, hint.term).0 else hint.index
  }

  // ------------------------------------------------------------------ sizes

  function EntsSize(size: Entry -> nat, ents: seq<Entry>): nat {
    if ents == [] then 0 else size(ents[0]) + EntsSize(size, ents[1..])
  }

  function PayloadsSize(ents: seq<Entry>): nat {
    if ents == [] then 0 else |ents[0].data| + PayloadsSize(ents[1..])
  }

  /** The longest prefix whose total size is within maxSize, but never empty
      for a non-empty input. */
  function LimitSize(size: Entry -> nat, ents: seq<Entry>, maxSize: nat): (r: seq<Entry>)
    ensures r <= ents && (ents != [] ==> r != [])
  {
    if |ents| <= 1 || EntsSize(size, ents) <= maxSize then ents
    else
      assert ents[..|ents| - 1] <= ents;
      LimitSize(size, ents[..|ents| - 1], maxSize)
  }
}
