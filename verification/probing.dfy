/** Fast probing: how the follower's hints and the leader's searches find the
    last index at which two logs agree. */
module Probing {
  import opened Quorum
  import opened Logs
  import opened Flow
  import opened RaftSpec
  import opened History
  import opened Safety

  // -------------------------------------------------- the last matching index

  ghost function LastMatch(a: seq<Entry>, b: seq<Entry>): nat {
    if a == [] || b == [] || a[0] != b[0] then 0 else 1 + LastMatch(a[1..], b[1..])
  }

  lemma {:induction false} LastMatchIsLast(a: seq<Entry>, b: seq<Entry>, k: nat)
    ensures Agree(a, b, k) <==> k <= LastMatch(a, b)
    decreases |a|
  {
    if a != [] && b != [] && k > 0 {
      if a[0] == b[0] {
        LastMatchIsLast(a[1..], b[1..], k - 1);
        if k <= |a| && k <= |b| {
          assert a[..k] == [a[0]] + a[1..][..k - 1] && b[..k] == [b[0]] + b[1..][..k - 1];
        }
      } else if Agree(a, b, k) {
        AgreeAt(a, b, k, 0);
      }
    }
  }

  // ---------------------------------------------------------------- searching

  /** The search stops at the last position up to `index` whose term is at most
      `term`. */
  lemma {:induction false} SearchStops(log: seq<Entry>, index: nat, term: nat)
    requires index <= |log|
    ensures var (i, t) := FindConflictByTerm(log, index, term);
            && i <= index && TermAt(log, i) == Some(t) && t <= term
            && forall j | i <= j < index :: log[j].term > term
    decreases index
  {
    if index > 0 && log[index - 1].term > term { SearchStops(log, index - 1, term); }
  }

  /** ... so it does not pass a position whose term is at most `term`. */
  lemma SearchNotBelow(log: seq<Entry>, index: nat, term: nat, k: nat)
    requires k <= index && (k == 0 || index > |log| || log[k - 1].term <= term)
    ensures FindConflictByTerm(log, index, term).0 >= k
  {
    if 0 < index <= |log| { SearchStops(log, index, term); }
  }

  lemma SortedBelow(log: seq<Entry>, i: nat, j: nat)
    requires Sorted(log) && 0 < i <= j <= |log|
    ensures log[i - 1].term <= log[j - 1].term
  {}

  // ------------------------------------------------------------------ probes

  /** The follower with log F rejects the probe at index p of leader log L. */
  predicate Rejects(L: seq<Entry>, F: seq<Entry>, p: nat)
    requires p <= |L|
  {
    !MatchTerm(F, EntryID(TermAt(L, p).value, p))
  }

  /** A probe is accepted exactly up to the last matching index. */
  lemma AcceptedIffMatching(L: seq<Entry>, F: seq<Entry>, p: nat)
    requires Matching(F, L) && p <= |L|
    ensures Rejects(L, F, p) <==> LastMatch(F, L) < p
  {
    LastMatchIsLast(F, L, p);
    if !Rejects(L, F, p) { MatchingAt(F, L, p); }
    else if p <= LastMatch(F, L) && p > 0 { AgreeAt(F, L, p, p - 1); }
  }

  /** The next index the leader guesses after the probe at p was rejected. */
  function Guess(L: seq<Entry>, F: seq<Entry>, p: nat): nat
    requires p <= |L|
  {
    NextProbeIndex(L, RejectionHint(F, EntryID(TermAt(L, p).value, p)))
  }

  /** Sound: the guess is never below the last matching index. */
  lemma GuessNotBelow(L: seq<Entry>, F: seq<Entry>, p: nat)
    requires Matching(F, L) && Sorted(L) && Sorted(F) && p <= |L| && Rejects(L, F, p)
    ensures Guess(L, F, p) >= LastMatch(F, L)
  {
    hide Matching, Sorted;
    AcceptedIffMatching(L, F, p);
    var k, t, hi := LastMatch(F, L), TermAt(L, p).value, Min(p, |F|);
    LastMatchIsLast(F, L, k);
    if k > 0 {
      AgreeAt(F, L, k, k - 1);
      SortedBelow(L, k, p);
      SearchNotBelow(F, hi, t, k);
      SearchStops(F, hi, t);
      var (i, ti) := FindConflictByTerm(F, hi, t);
      SortedBelow(F, k, i);
      SearchNotBelow(L, i, ti, k);
    }
  }

  /** Fast: a guess in the term of the rejected probe is already a match. */
  lemma SameTermMatches(L: seq<Entry>, F: seq<Entry>, p: nat, q: nat)
    requires Matching(F, L) && Sorted(L) && Sorted(F) && TermsPositive(F) && p <= |L|
    requires 0 < q <= Guess(L, F, p) && q < p && L[q - 1].term == L[p - 1].term
    ensures q <= LastMatch(F, L)
  {
    hide Matching, Sorted;
    var t, hi := L[p - 1].term, Min(p, |F|);
    SearchStops(F, hi, t);
    var (i, ti) := FindConflictByTerm(F, hi, t);
    assert i > 0 && ti > 0;
    SearchStops(L, i, ti);
    var (g, tg) := FindConflictByTerm(L, i, ti);
    SortedBelow(L, q, g);
    SortedBelow(L, g, i);
    SortedBelow(L, i, p);
    assert TermAt(F, i) == TermAt(L, i);
    MatchingAt(F, L, i);
    LastMatchIsLast(F, L, i);
  }

  // ---------------------------------------------------- a series of rejections

  ghost predicate LogsOk(L: seq<Entry>, F: seq<Entry>) {
    Matching(F, L) && Sorted(L) && Sorted(F) && TermsPositive(F)
  }

  /** The leader with log L probes a follower with log F. */
  ghost predicate IsProbing(L: seq<Entry>, F: seq<Entry>, pr: Progress) {
    pr.state.StateProbe? && pr.matched < pr.next <= |L| + 1 && Agree(F, L, pr.matched)
  }

  function AfterReject(L: seq<Entry>, F: seq<Entry>, pr: Progress): (Progress, bool)
    requires pr.next <= |L| + 1
  {
    pr.MaybeDecrTo(pr.next - 1, Guess(L, F, pr.next - 1))
  }

  /** One rejection: it is taken for genuine, the next probe is earlier but not
      below the last match, and if it is rejected too then in a smaller term. */
  lemma RejectStep(L: seq<Entry>, F: seq<Entry>, pr: Progress)
    requires LogsOk(L, F) && IsProbing(L, F, pr) && Rejects(L, F, pr.next - 1)
    ensures var (pr', genuine) := AfterReject(L, F, pr);
            && genuine && IsProbing(L, F, pr') && LastMatch(F, L) < pr'.next < pr.next
            && (Rejects(L, F, pr'.next - 1) ==> 0 < pr'.next - 1 && L[pr'.next - 2].term < L[pr.next - 2].term)
  {
    hide Matching, Sorted, TermsPositive;
    var p, pr' := pr.next - 1, AfterReject(L, F, pr).0;
    AcceptedIffMatching(L, F, p);
    LastMatchIsLast(F, L, pr.matched);
    GuessNotBelow(L, F, p);
    var q := pr'.next - 1;
    AcceptedIffMatching(L, F, q);
    if Rejects(L, F, q) {
      SortedBelow(L, q, p);
      if L[q - 1].term == L[p - 1].term { SameTermMatches(L, F, p, q); }
    }
  }

  /** How often the follower rejects, and the progress at which it accepts. */
  ghost function Rejections(L: seq<Entry>, F: seq<Entry>, pr: Progress): nat
    requires LogsOk(L, F) && IsProbing(L, F, pr)
    decreases pr.next
  {
    if !Rejects(L, F, pr.next - 1) then 0
    else
      RejectStep(L, F, pr);
      1 + Rejections(L, F, AfterReject(L, F, pr).0)
  }

  ghost function Settled(L: seq<Entry>, F: seq<Entry>, pr: Progress): Progress
    requires LogsOk(L, F) && IsProbing(L, F, pr)
    decreases pr.next
  {
    if !Rejects(L, F, pr.next - 1) then pr
    else
      RejectStep(L, F, pr);
      Settled(L, F, AfterReject(L, F, pr).0)
  }

  ghost function TermsOf(log: seq<Entry>): set<nat> {
    set e | e in log :: e.term
  }

  /** A prefix that ends in a smaller term has fewer terms. */
  lemma FewerTerms(L: seq<Entry>, q: nat, p: nat)
    requires Sorted(L) && 0 < q < p <= |L| && L[q - 1].term < L[p - 1].term
    ensures |TermsOf(L[..q])| < |TermsOf(L[..p])|
  {
    var a, b, t := TermsOf(L[..q]), TermsOf(L[..p]), L[p - 1].term;
    assert L[..p][p - 1] in L[..p];
    forall x | x in a ensures x in b && x != t {
      var e :| e in L[..q] && e.term == x;
      var i :| 0 <= i < q && L[..q][i] == e;
      assert L[..p][i] == e;
    }
    SmallerSet(a, b, t);
  }

  lemma {:induction false} SmallerSet(a: set<nat>, b: set<nat>, t: nat)
    requires a <= b && t in b && t !in a
    ensures |a| < |b|
  {
    if a != {} {
      var x :| x in a;
      SmallerSet(a - {x}, b - {x}, t);
    }
  }

  lemma SomeTerm(L: seq<Entry>, p: nat)
    requires 0 < p <= |L|
    ensures |TermsOf(L[..p])| > 0
  {
    assert L[..p][0].term in TermsOf(L[..p]);
  }

  /** Probing ends at the last index at which the logs agree, or where it began
      if that was earlier, after at most as many rejections as the leader's log
      has terms. */
  lemma {:induction false} ProbingConverges(L: seq<Entry>, F: seq<Entry>, pr: Progress)
    requires LogsOk(L, F) && IsProbing(L, F, pr)
    ensures Settled(L, F, pr).next - 1 == Min(pr.next - 1, LastMatch(F, L))
    ensures Rejections(L, F, pr) <= |TermsOf(L[..pr.next - 1])|
    decreases pr.next
  {
    hide LogsOk, Agree, Progress.MaybeDecrTo, Guess, TermsOf, MatchTerm;
    var p := pr.next - 1;
    AcceptedIffMatching(L, F, p) by { LogsParts(L, F); }
    if Rejects(L, F, p) {
      RejectStep(L, F, pr);
      SomeTerm(L, p);
      var pr' := AfterReject(L, F, pr).0;
      ProbingConverges(L, F, pr');
      if Rejects(L, F, pr'.next - 1) {
        FewerTerms(L, pr'.next - 1, p) by { LogsParts(L, F); }
      }
    }
  }

  lemma LogsParts(L: seq<Entry>, F: seq<Entry>)
    requires LogsOk(L, F)
    ensures Matching(F, L) && Sorted(L)
  {}

  // ------------------------------------------------------------ the handlers

  /** The probe that a leader sends to a peer at its progress. */
  predicate IsProbe(n: Node, q: Id, m: Message) {
    && q in n.progress && n.progress[q].next <= |n.log| + 1
    && m.MsgApp? && m.from == n.id && m.to == q && m.term == n.term
    && m.prev == EntryID(TermAt(n.log, n.progress[q].next - 1).value, n.progress[q].next - 1)
  }

  function Rejection(f: Node, m: Message): Message
    requires m.MsgApp?
  {
    MsgAppResp(f.id, m.from, f.term, m.prev.index, true, RejectionHint(f.log, m.prev))
  }

  /** A peer rejects a probe with its hint... */
  lemma PeerRejects(n: Node, f: Node, m: Message)
    requires IsProbe(n, f.id, m) && Rejects(n.log, f.log, m.prev.index) && f.committed <= m.prev.index
    ensures HandleAppendEntries(f, m) == Send(f, Rejection(f, m))
  {
    hide Send, RejectionHint, Spliced, FindConflict;
  }

  /** ... and the leader that gets it steps back as the search does and sends the
      next probe from there. */
  lemma LeaderProbes(c: Config, n: Node, f: Node, m: Message) returns (m': Message)
    requires IsProbe(n, f.id, m) && LogsOk(n.log, f.log) && IsProbing(n.log, f.log, n.progress[f.id])
    requires Rejects(n.log, f.log, m.prev.index)
    ensures var n', pr := HandleReject(c, n, Rejection(f, m)), AfterReject(n.log, f.log, n.progress[f.id]).0;
            && n' == SendAppend(c, SetProgress(n, f.id, pr), f.id)
            && f.id in n'.progress && n'.progress[f.id].next == pr.next && n'.progress[f.id].matched == pr.matched
            && n'.progress[f.id].state == pr.state && n'.log == n.log
            && n'.msgs == n.msgs + [m'] && IsProbe(n', f.id, m')
  {
    hide LogsOk, RejectionHint, FindConflictByTerm, MatchTerm, Agree, RaftSpec.NextEntries, PayloadsSize;
    RejectStep(n.log, f.log, n.progress[f.id]);
    var n1 := SetProgress(n, f.id, AfterReject(n.log, f.log, n.progress[f.id]).0);
    m' := NextProbe(c, n1, f.id);
  }

  /** Sending to a peer that is probed and not paused sends the probe. */
  lemma NextProbe(c: Config, n: Node, q: Id) returns (m': Message)
    requires q in n.progress && n.progress[q].state.StateProbe? && !n.progress[q].paused && n.progress[q].next <= |n.log| + 1
    ensures var n', pr := SendAppend(c, n, q), n.progress[q];
            && q in n'.progress && n'.progress[q].next == pr.next && n'.progress[q].matched == pr.matched
            && n'.progress[q].state == pr.state && n'.log == n.log
            && n'.msgs == n.msgs + [m'] && IsProbe(n', q, m')
  {
    hide RaftSpec.NextEntries, PayloadsSize;
    var pr := n.progress[q];
    m' := MsgApp(n.id, q, n.term, EntryID(TermAt(n.log, pr.next - 1).value, pr.next - 1), RaftSpec.NextEntries(c, n, q), n.committed);
  }

  // --------------------------------------------------------- probing in runs

  lemma RunLogsOk(c: Config, run: seq<Cluster>, i: nat, a: Id, q: Id)
    requires c.Valid() && IsRun(c, run) && i < |run| && a in run[i].nodes && q in run[i].nodes
    ensures LogsOk(run[i].nodes[a].log, run[i].nodes[q].log)
  {
    LogMatching(c, run, i, i, q, a);
    LogMatching(c, run, i, i, a, q);
  }

  /** In every reachable state a leader that probes a peer of its own term finds
      the last matching index within as many rejections as its log has terms. */
  lemma ProbingInRuns(c: Config, run: seq<Cluster>, i: nat, a: Id, q: Id)
    requires c.Valid() && IsRun(c, run) && i < |run| && a in run[i].nodes && q in run[i].nodes
    requires run[i].nodes[a].role.Leader? && run[i].nodes[a].term == run[i].nodes[q].term
    ensures q in run[i].nodes[a].progress
    ensures var L, F, pr := run[i].nodes[a].log, run[i].nodes[q].log, run[i].nodes[a].progress[q];
            pr.state.StateProbe? ==>
              && LogsOk(L, F) && IsProbing(L, F, pr)
              && Settled(L, F, pr).next - 1 == Min(pr.next - 1, LastMatch(F, L))
              && Rejections(L, F, pr) <= |TermsOf(L[..pr.next - 1])|
  {
    hide IsRun, LogsOk, Settled, Rejections;
    MatchSoundness(c, run, i, a, q);
    RunLogsOk(c, run, i, a, q);
    var L, F, pr := run[i].nodes[a].log, run[i].nodes[q].log, run[i].nodes[a].progress[q];
    if pr.state.StateProbe? { ProbingConverges(L, F, pr); }
  }

  /** ... and a rejection on the way is handled by the two nodes as the series of
      rejections has it: the peer's answer to the probe, and what the leader makes of
      that answer, is one step of the series and the next probe. */
  lemma RejectionInRuns(c: Config, run: seq<Cluster>, i: nat, a: Id, q: Id, m: Message) returns (m': Message)
    requires c.Valid() && IsRun(c, run) && i < |run| && a in run[i].nodes && q in run[i].nodes
    requires run[i].nodes[a].role.Leader? && run[i].nodes[a].term == run[i].nodes[q].term
    requires IsProbe(run[i].nodes[a], q, m) && run[i].nodes[a].progress[q].state.StateProbe?
             && Rejects(run[i].nodes[a].log, run[i].nodes[q].log, m.prev.index)
    ensures run[i].nodes[q].id == q
    ensures var n, f := run[i].nodes[a], run[i].nodes[q];
            var n', pr := HandleReject(c, n, Rejection(f, m)), AfterReject(n.log, f.log, n.progress[q]).0;
            && HandleAppendEntries(f, m) == Send(f, Rejection(f, m))
            && n' == SendAppend(c, SetProgress(n, q, pr), q) && n'.msgs == n.msgs + [m'] && IsProbe(n', q, m')
            && n'.progress[q].next == pr.next && LastMatch(f.log, n.log) < pr.next < n.progress[q].next
  {
    hide IsRun, LogsOk, Rejects, HandleAppendEntries, HandleReject, SendAppend, Send, AfterReject, RejectionHint, LastMatch;
    var n, f := run[i].nodes[a], run[i].nodes[q];
    NodeIds(c, run, i, q);
    MatchSoundness(c, run, i, a, q);
    RunLogsOk(c, run, i, a, q);
    NotBelowCommit(c, run, i, a, q, m.prev.index);
    PeerRejects(n, f, m);
    m' := LeaderProbes(c, n, f, m);
    RejectStep(n.log, f.log, n.progress[q]);
  }

  /** A probe that is rejected is not below the peer's commit index. */
  lemma NotBelowCommit(c: Config, run: seq<Cluster>, i: nat, a: Id, q: Id, p: nat)
    requires c.Valid() && IsRun(c, run) && i < |run| && a in run[i].nodes && q in run[i].nodes
    requires run[i].nodes[a].role.Leader? && run[i].nodes[a].term == run[i].nodes[q].term
    requires p <= |run[i].nodes[a].log| && Rejects(run[i].nodes[a].log, run[i].nodes[q].log, p)
    ensures run[i].nodes[q].committed <= p
  {
    hide IsRun, LogsOk, LastMatch, Rejects;
    var L, F, k := run[i].nodes[a].log, run[i].nodes[q].log, run[i].nodes[q].committed;
    LeaderHasCommitted(c, run, i, q, a);
    RunLogsOk(c, run, i, a, q);
    LogsParts(L, F);
    AcceptedIffMatching(L, F, p);
    LastMatchIsLast(F, L, k);
  }
}
