/** A follower's progress: what freeing its window removes, the order that every
    use of the window keeps, and what becomes of the equations for snapshots. */
module FlowLaws {
  import opened Logs
  import opened Flow

  // ----------------------------------------------------------------- windows

  ghost predicate Increasing(items: seq<Inflight>) {
    forall i, j | 0 <= i < j < |items| :: items[i].index < items[j].index
  }

  lemma {:induction false} BytesAdd(items: seq<Inflight>, x: Inflight)
    ensures Bytes(items + [x]) == Bytes(items) + x.bytes
  {
    if items == [] {
      assert items + [x] == [x];
    } else {
      assert (items + [x])[1..] == items[1..] + [x];
      BytesAdd(items[1..], x);
    }
  }

  /** Freeing drops a prefix. */
  lemma {:induction false} DropsPrefix(items: seq<Inflight>, to: nat) returns (k: nat)
    ensures k <= |items| && DropLE(items, to) == items[k..]
    ensures (forall i | 0 <= i < k :: items[i].index <= to) && (k < |items| ==> to < items[k].index)
    ensures Bytes(DropLE(items, to)) <= Bytes(items)
    decreases |items|
  {
    if items == [] || to < items[0].index {
      k := 0;
    } else {
      var j := DropsPrefix(items[1..], to);
      k := j + 1;
      assert items[k..] == items[1..][j..];
      forall i | 0 <= i < k ensures items[i].index <= to { if i > 0 { assert items[i] == items[1..][i - 1]; } }
    }
  }

  /** In an increasing window it removes exactly the indexes up to `to`. */
  lemma FreesExactly(items: seq<Inflight>, to: nat, x: Inflight)
    requires Increasing(items)
    ensures x in DropLE(items, to) <==> x in items && to < x.index
    ensures Increasing(DropLE(items, to))
  {
    var k := DropsPrefix(items, to);
    var rest := items[k..];
    if x in items && to < x.index {
      var i :| 0 <= i < |items| && items[i] == x;
      assert rest[i - k] == x;
    }
    if x in rest {
      var i :| 0 <= i < |rest| && rest[i] == x;
      assert items[k + i] == x;
    }
  }

  // ---------------------------------------------------------------- progress

  /** The messages in flight are ordered strictly between Match and Next, are no
      more than the window has room for, exceed the byte limit at most by the last
      one, and are only kept while replicating. Then everything past Match and before
      Next is in flight, and sending pauses only while the window is full. */
  ghost predicate InOrder(pr: Progress) {
    && WindowFits(pr.inflights, pr.matched, pr.next)
    && (if pr.state.StateReplicate?
        then pr.next - 1 == LastSent(pr.inflights.items, pr.matched) && (pr.paused ==> pr.inflights.Full())
        else pr.inflights.items == [])
  }

  /** The last index in flight, or Match if there is none. */
  function LastSent(items: seq<Inflight>, matched: nat): nat {
    if items == [] then matched else items[|items| - 1].index
  }

  ghost predicate WindowFits(w: Window, lo: nat, hi: nat) {
    && Increasing(w.items) && (forall i | 0 <= i < |w.items| :: lo < w.items[i].index < hi)
    && |w.items| <= w.size
    && (w.items == [] || w.maxBytes == 0 || Bytes(w.items) < w.maxBytes + w.items[|w.items| - 1].bytes)
  }

  lemma AddFits(w: Window, lo: nat, hi: nat, index: nat, bytes: nat)
    requires WindowFits(w, lo, hi) && !w.Full() && lo < index && hi <= index
    ensures WindowFits(w.Add(index, bytes), lo, index + 1)
  {
    BytesAdd(w.items, Inflight(index, bytes));
  }

  /** A window is full exactly if whatever is sent next would not fit. */
  lemma FullIsTight(w: Window, lo: nat, hi: nat, index: nat, bytes: nat)
    requires WindowFits(w, lo, hi) && lo < index && hi <= index
    ensures w.Full() <==> !WindowFits(w.Add(index, bytes), lo, index + 1)
  {
    BytesAdd(w.items, Inflight(index, bytes));
    if !w.Full() { AddFits(w, lo, hi, index, bytes); }
  }

  /** After an append nothing more is sent to a follower that is probed exactly if the
      append had entries or nothing was to be sent anyway, and to one that is replicated
      to exactly if nothing more would fit. */
  lemma SendingPauses(pr: Progress, entries: nat, bytes: nat, bytes': nat)
    requires InOrder(pr) && pr.matched < pr.next && !pr.state.StateSnapshot?
    requires pr.state.StateReplicate? && entries > 0 ==> !pr.inflights.Full()
    ensures var pr' := pr.SentEntries(entries, bytes);
            && pr'.next == (if pr.state.StateReplicate? then pr.next + entries else pr.next)
            && (pr'.IsPaused() <==>
                  if pr.state.StateProbe? then entries > 0 || pr.paused
                  else !WindowFits(pr'.inflights.Add(pr'.next, bytes'), pr'.matched, pr'.next + 1))
  {
    hide WindowFits, Window.Full, Window.Add;
    SendKeepsOrder(pr, entries, bytes);
    var pr' := pr.SentEntries(entries, bytes);
    FullIsTight(pr'.inflights, pr'.matched, pr'.next, pr'.next, bytes');
  }

  lemma SendKeepsOrder(pr: Progress, entries: nat, bytes: nat)
    requires InOrder(pr) && pr.matched < pr.next && !pr.state.StateSnapshot?
    requires pr.state.StateReplicate? && entries > 0 ==> !pr.inflights.Full()
    ensures InOrder(pr.SentEntries(entries, bytes))
  {
    hide WindowFits, Window.Full;
    if pr.state.StateReplicate? && entries > 0 { AddFits(pr.inflights, pr.matched, pr.next, pr.next + entries - 1, bytes); }
  }

  lemma SuffixOrder(items: seq<Inflight>, k: nat, n: nat, hi: nat)
    requires Increasing(items) && k <= |items| && (k < |items| ==> n < items[k].index)
    requires forall i | 0 <= i < |items| :: items[i].index < hi
    ensures Increasing(items[k..]) && forall i | 0 <= i < |items[k..]| :: n < items[k..][i].index < hi
  {
    var rest := items[k..];
    forall i | 0 <= i < |rest| ensures n < rest[i].index < hi { assert rest[i] == items[k + i]; }
    forall i, j | 0 <= i < j < |rest| ensures rest[i].index < rest[j].index {
      assert rest[i] == items[k + i] && rest[j] == items[k + j];
    }
  }

  lemma FreeFits(w: Window, lo: nat, hi: nat, n: nat)
    requires WindowFits(w, lo, hi)
    ensures WindowFits(w.FreeLE(n), n, hi)
  {
    hide Increasing, Bytes, DropLE;
    var k := DropsPrefix(w.items, n);
    SuffixOrder(w.items, k, n, hi);
    if k < |w.items| { assert w.items[k..][|w.items| - k - 1] == w.items[|w.items| - 1]; }
  }

  lemma FreeSkipsNone(w: Window, lo: nat, hi: nat, n: nat)
    requires WindowFits(w, lo, hi) && lo < n
    ensures LastSent(w.FreeLE(n).items, n) == Max(n, LastSent(w.items, lo))
  {
    hide Increasing, DropLE;
    var k := DropsPrefix(w.items, n);
    if 0 < k == |w.items| { assert w.items[k - 1].index <= n; }
    else if k < |w.items| { LaterIsLarger(w.items, k); }
  }

  lemma LaterIsLarger(items: seq<Inflight>, k: nat)
    requires Increasing(items) && k < |items|
    ensures items[k].index <= items[|items| - 1].index && items[k..][|items| - k - 1] == items[|items| - 1]
  {}

  lemma FitsLater(w: Window, lo: nat, hi: nat, hi': nat)
    requires WindowFits(w, lo, hi) && hi <= hi'
    ensures WindowFits(w, lo, hi')
  {}

  /** An acknowledgement that is news, handled as the leader does. */
  lemma AckKeepsOrder(pr: Progress, n: nat)
    requires InOrder(pr) && n > pr.matched && pr.state.StateReplicate?
    ensures var pr' := pr.MaybeUpdate(n).0; InOrder(pr'.(inflights := pr'.inflights.FreeLE(n)))
  {
    hide WindowFits, Window.FreeLE;
    FreeFits(pr.inflights, pr.matched, pr.next, n);
    FitsLater(pr.inflights.FreeLE(n), n, pr.next, pr.MaybeUpdate(n).0.next);
    FreeSkipsNone(pr.inflights, pr.matched, pr.next, n);
  }

  /** Every change of state starts with an empty window. */
  lemma TransitionsKeepOrder(pr: Progress, snapshoti: nat)
    ensures InOrder(pr.BecomeProbe()) && InOrder(pr.BecomeReplicate()) && InOrder(pr.BecomeSnapshot(snapshoti))
    ensures pr.BecomeProbe().matched < pr.BecomeProbe().next && pr.BecomeReplicate().matched < pr.BecomeReplicate().next
    ensures snapshoti >= pr.matched ==> pr.BecomeSnapshot(snapshoti).matched < pr.BecomeSnapshot(snapshoti).next
  {}

  /** A rejection, handled as the leader does: a replicating follower is probed
      again. */
  lemma RejectKeepsOrder(pr: Progress, rejected: nat, matchHint: nat)
    requires InOrder(pr) && pr.matched < pr.next
    ensures var (pr', genuine) := pr.MaybeDecrTo(rejected, matchHint);
            var pr'' := if genuine && pr'.state.StateReplicate? then pr'.BecomeProbe() else pr';
            InOrder(pr'') && pr''.matched < pr''.next && (genuine ==> pr''.next <= pr.next)
  {}

  // --------------------------------------------------------------- snapshots

  /** What the documentation promises of a follower that is sent a snapshot. */
  ghost predicate NextAfterSnapshot(pr: Progress) { pr.next == pr.pendingSnapshot + 1 }

  ghost predicate CommitAtSnapshot(pr: Progress) { pr.sentCommit == pr.pendingSnapshot }

  /** It holds when the snapshot is sent, and nothing is sent meanwhile. */
  lemma SnapshotStarts(pr: Progress, snapshoti: nat)
    ensures var pr' := pr.BecomeSnapshot(snapshoti);
            pr'.state.StateSnapshot? && pr'.IsPaused() && NextAfterSnapshot(pr') && CommitAtSnapshot(pr')
  {}

  /** Once the snapshot is through, the follower is probed right after it or after
      Match, whichever is later, with nothing in flight. */
  lemma SnapshotEnds(pr: Progress, snapshoti: nat, n: nat)
    ensures var pr' := pr.BecomeSnapshot(snapshoti).MaybeUpdate(n).0.BecomeProbe();
            && pr'.state.StateProbe? && !pr'.IsPaused() && pr'.inflights.items == [] && pr'.pendingSnapshot == 0
            && pr'.matched == Max(pr.matched, n) && pr'.next == Max(pr'.matched, snapshoti) + 1
  {}

  /** But a rejection of the append before the snapshot breaks it. */
  lemma SnapshotEquationFails(w: Window)
    ensures var pr := Progress(0, 6, 0, StateProbe, 0, true, false, w, false).BecomeSnapshot(5);
            var pr' := pr.MaybeDecrTo(5, 0).0;
            NextAfterSnapshot(pr) && pr.matched < pr.next && pr'.state.StateSnapshot? && !NextAfterSnapshot(pr')
  {}

  /** A rejection keeps it exactly if it is not for the snapshot's index, or the
      follower is known to match there. */
  lemma RejectKeepsEquation(pr: Progress, rejected: nat, matchHint: nat)
    requires pr.state.StateSnapshot? && NextAfterSnapshot(pr) && pr.matched < pr.next
    ensures NextAfterSnapshot(pr.MaybeDecrTo(rejected, matchHint).0) <==>
              rejected != pr.pendingSnapshot || pr.matched == pr.pendingSnapshot
  {}

  /** An acknowledgement keeps it exactly if it does not pass the snapshot. */
  lemma AckKeepsEquation(pr: Progress, n: nat)
    requires pr.state.StateSnapshot? && NextAfterSnapshot(pr) && pr.matched < pr.next
    ensures NextAfterSnapshot(pr.MaybeUpdate(n).0) <==> n <= pr.pendingSnapshot
  {}

  /** The commit index in flight stays at the snapshot exactly if a heartbeat
      carries that very index, or a rejection does not move Next below it. */
  lemma CommitEquation(pr: Progress, commit: nat, rejected: nat, matchHint: nat)
    requires pr.state.StateSnapshot? && NextAfterSnapshot(pr) && CommitAtSnapshot(pr) && pr.matched < pr.next
    ensures CommitAtSnapshot(pr.SentCommit(commit)) <==> commit == pr.pendingSnapshot
    ensures CommitAtSnapshot(pr.MaybeDecrTo(rejected, matchHint).0) <==>
              rejected != pr.pendingSnapshot || pr.matched == pr.pendingSnapshot
  {}
}
