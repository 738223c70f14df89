/** Handing committed entries to the application: which entries the next Ready
    contains and how the cursors move, and that over every run each committed
    entry is handed out exactly once and in order. */
module Applying {
  import opened Logs
  import opened Sizes

  /** Entries up to `applying` have been handed out and those up to `applied` have
      been applied; `size` is the size of those in between, and no more are
      handed out while `paused`. */
  datatype Cursor = Cursor(applying: nat, applied: nat, size: nat, max: nat, paused: bool) {
    /** The entries to hand out of the available ones. The room left is positive
        unless the code would panic. */
    function Next(sizeOf: Entry -> nat, available: seq<Entry>): seq<Entry>
      requires !paused && available != [] ==> size < max
    {
      if paused || available == [] then [] else LimitSize(sizeOf, available, max - size)
    }

    /** Entries up to i, of the given size, were handed out; had there been no
        limit it could have been up to `appliable`. */
    function Accept(i: nat, more: nat, appliable: nat): Cursor {
      this.(applying := i, size := size + more, paused := size + more >= max || i < appliable)
    }

    /** Entries up to i, of the given size, were applied. */
    function AppliedTo(i: nat, done: nat): Cursor {
      var left := if size > done then size - done else 0;
      this.(applied := i, applying := Max(applying, i), size := left, paused := left >= max)
    }
  }

  // -------------------------------------------------------------------- runs

  /** The log, how much of it is committed and how much of it is stable, the
      cursors, the batches handed out but not applied yet, and everything that
      was ever handed out. */
  datatype State = State(
    log: seq<Entry>, committed: nat, stable: nat, cursor: Cursor, pending: seq<seq<Entry>>, handed: seq<Entry>)

  function Appliable(s: State, allowUnstable: bool): nat {
    if allowUnstable then s.committed else Min(s.committed, s.stable)
  }

  /** The log changes beyond its committed part and more of it is committed. */
  predicate Grows(s: State, s': State) {
    && s.committed <= s'.committed <= |s'.log| && s.committed <= |s.log| && s'.stable <= |s'.log|
    && s'.log[..s.committed] == s.log[..s.committed]
    && s' == s.(log := s'.log, committed := s'.committed, stable := s'.stable)
  }

  /** A Ready with committed entries is accepted. */
  predicate Accepts(sizeOf: Entry -> nat, s: State, s': State, allowUnstable: bool) {
    var cur, hi := s.cursor, Appliable(s, allowUnstable);
    && cur.applying < hi <= |s.log| && (cur.paused || cur.size < cur.max)
    && var batch := cur.Next(sizeOf, s.log[cur.applying..hi]);
       && batch != []
       && s' == s.(cursor := cur.Accept(batch[|batch| - 1].index, EntsSize(sizeOf, batch), hi),
                   pending := s.pending + [batch], handed := s.handed + batch)
  }

  /** The oldest batch was applied. */
  predicate Applies(sizeOf: Entry -> nat, s: State, s': State) {
    && s.pending != [] && s.pending[0] != []
    && var batch := s.pending[0];
       s' == s.(cursor := s.cursor.AppliedTo(Max(batch[|batch| - 1].index, s.cursor.applied), EntsSize(sizeOf, batch)),
                pending := s.pending[1..])
  }

  ghost predicate Next(sizeOf: Entry -> nat, s: State, s': State) {
    || Grows(s, s')
    || (exists allowUnstable :: Accepts(sizeOf, s, s', allowUnstable))
    || Applies(sizeOf, s, s')
  }

  ghost predicate Starts(s: State, start: nat) {
    && start <= s.committed <= |s.log| && s.stable <= |s.log| && s.pending == [] && s.handed == []
    && s.cursor.applied == s.cursor.applying == start && s.cursor.size == 0 && s.cursor.max > 0 && !s.cursor.paused
  }

  ghost predicate IsRun(sizeOf: Entry -> nat, run: seq<State>, start: nat) {
    && |run| > 0 && Starts(run[0], start)
    && (forall i | 0 <= i < |run| :: Consecutive(run[i].log, 1))
    && forall i, j | 0 <= i && j == i + 1 && j < |run| :: Next(sizeOf, run[i], run[j])
  }

  // --------------------------------------------------------------- invariant

  function Concat(batches: seq<seq<Entry>>): seq<Entry> {
    if batches == [] then [] else batches[0] + Concat(batches[1..])
  }

  lemma ConcatFirst(batches: seq<seq<Entry>>)
    requires batches != []
    ensures Concat(batches) == batches[0] + Concat(batches[1..])
  {}

  lemma {:induction false} ConcatAdd(batches: seq<seq<Entry>>, b: seq<Entry>)
    ensures Concat(batches + [b]) == Concat(batches) + b
  {
    if batches == [] {
      assert Concat([b][1..]) == [];
    } else {
      assert (batches + [b])[1..] == batches[1..] + [b];
      ConcatAdd(batches[1..], b);
    }
  }

  /** What was handed out, and of it what is pending, are ranges of the log. */
  ghost predicate Contents(s: State, start: nat) {
    && start <= s.cursor.applied <= s.cursor.applying <= s.committed <= |s.log| && s.stable <= |s.log|
    && s.handed == s.log[start..s.cursor.applying]
    && Concat(s.pending) == s.log[s.cursor.applied..s.cursor.applying]
    && (forall b | b in s.pending :: b != [])
  }

  /** The outstanding size is that of the pending entries and is bounded. */
  ghost predicate Bounded(sizeOf: Entry -> nat, cur: Cursor, log: seq<Entry>, pending: seq<Entry>) {
    && cur.size == EntsSize(sizeOf, pending)
    && cur.max > 0 && (if cur.paused then cur.applied < cur.applying else cur.size < cur.max)
    && (cur.applied < cur.applying <= |log| ==> cur.size < cur.max + sizeOf(log[cur.applying - 1]))
  }

  ghost predicate Inv(sizeOf: Entry -> nat, s: State, start: nat) {
    Contents(s, start) && Bounded(sizeOf, s.cursor, s.log, Concat(s.pending))
  }

  lemma GrowKeeps(sizeOf: Entry -> nat, s: State, s': State, start: nat)
    requires Inv(sizeOf, s, start) && Grows(s, s')
    ensures Inv(sizeOf, s', start)
  {
    var k := s.committed;
    assert forall i, j | 0 <= i <= j <= k :: s'.log[i..j] == s'.log[..k][i..j];
    assert forall i, j | 0 <= i <= j <= k :: s.log[i..j] == s.log[..k][i..j];
    if s.cursor.applied < s.cursor.applying { assert s'.log[..k][s.cursor.applying - 1] == s.log[..k][s.cursor.applying - 1]; }
  }

  /** A batch is the next part of the log, and fits the room or is one entry. */
  lemma BatchFits(sizeOf: Entry -> nat, log: seq<Entry>, lo: nat, hi: nat, room: nat)
    requires Positive(sizeOf) && Consecutive(log, 1) && lo < hi <= |log| && room > 0
    ensures var batch := LimitSize(sizeOf, log[lo..hi], room);
            && 0 < |batch| <= hi - lo && batch == log[lo..lo + |batch|] && batch[|batch| - 1].index == lo + |batch|
            && EntsSize(sizeOf, batch) < room + sizeOf(log[lo + |batch| - 1])
  {
    var batch := LimitSize(sizeOf, log[lo..hi], room);
    LimitIsCut(sizeOf, log[lo..hi], room);
    assert batch == log[lo..hi][..|batch|] == log[lo..lo + |batch|];
    assert batch[|batch| - 1] == log[lo + |batch| - 1];
    if |batch| == 1 { assert batch == [log[lo]]; } else { assert sizeOf(log[lo + |batch| - 1]) > 0; }
  }

  lemma AcceptContents(s: State, s': State, start: nat, batch: seq<Entry>, k: nat)
    requires Contents(s, start) && s.cursor.applying <= k <= s.committed && batch != []
             && batch == s.log[s.cursor.applying..k]
    requires s'.log == s.log && s'.committed == s.committed && s'.stable == s.stable
    requires s'.cursor.applied == s.cursor.applied && s'.cursor.applying == k
    requires s'.pending == s.pending + [batch] && s'.handed == s.handed + batch
    ensures Contents(s', start) && Concat(s'.pending) == Concat(s.pending) + batch
  {
    hide Concat;
    var mid := s.cursor.applying;
    assert s.log[start..k] == s.log[start..mid] + s.log[mid..k];
    assert s.log[s.cursor.applied..k] == s.log[s.cursor.applied..mid] + s.log[mid..k];
    ConcatAdd(s.pending, batch);
  }

  lemma CursorOrder(s: State, start: nat)
    requires Contents(s, start)
    ensures s.cursor.applied <= s.cursor.applying
  {}

  lemma AcceptKeeps(sizeOf: Entry -> nat, s: State, s': State, start: nat, allowUnstable: bool)
    requires Positive(sizeOf) && Consecutive(s.log, 1) && Inv(sizeOf, s, start) && Accepts(sizeOf, s, s', allowUnstable)
    ensures Inv(sizeOf, s', start)
  {
    hide Consecutive, LimitSize, EntsSize, Concat, Contents, Positive;
    CursorOrder(s, start);
    var cur, hi := s.cursor, Appliable(s, allowUnstable);
    BatchFits(sizeOf, s.log, cur.applying, hi, cur.max - cur.size);
    var batch := LimitSize(sizeOf, s.log[cur.applying..hi], cur.max - cur.size);
    AcceptContents(s, s', start, batch, cur.applying + |batch|);
    EntsSizeConcat(sizeOf, Concat(s.pending), batch);
  }

  /** The oldest pending batch is the log right after what was applied. */
  lemma ApplyContents(s: State, start: nat, batch: seq<Entry>, rest: seq<Entry>)
    requires Consecutive(s.log, 1) && Contents(s, start) && batch != [] && Concat(s.pending) == batch + rest
    ensures var k := s.cursor.applied + |batch|;
            k <= s.cursor.applying && batch[|batch| - 1].index == k && rest == s.log[k..s.cursor.applying]
  {
    hide Concat;
    var window, n := s.log[s.cursor.applied..s.cursor.applying], |batch|;
    assert window[n - 1] == batch[n - 1] && window[n - 1] == s.log[s.cursor.applied + n - 1];
    assert window[n..] == rest;
    assert window[n..] == s.log[s.cursor.applied + n..s.cursor.applying];
  }

  lemma ApplyKeeps(sizeOf: Entry -> nat, s: State, s': State, start: nat)
    requires Positive(sizeOf) && Consecutive(s.log, 1) && Inv(sizeOf, s, start) && Applies(sizeOf, s, s')
    ensures Inv(sizeOf, s', start)
  {
    hide EntsSize, Consecutive, Positive, Concat;
    var batch, rest := s.pending[0], Concat(s.pending[1..]);
    ConcatFirst(s.pending);
    ApplyContents(s, start, batch, rest);
    EntsSizeConcat(sizeOf, batch, rest);
    assert forall b | b in s'.pending :: b in s.pending;
    if rest == [] { NoSize(sizeOf); }
  }

  lemma NoSize(sizeOf: Entry -> nat)
    ensures EntsSize(sizeOf, []) == 0
  {}

  lemma {:induction false} InvHolds(sizeOf: Entry -> nat, run: seq<State>, start: nat, i: nat)
    requires Positive(sizeOf) && IsRun(sizeOf, run, start) && i < |run|
    ensures Inv(sizeOf, run[i], start)
  {
    hide Inv, Grows, Accepts, Applies, Positive;
    if i == 0 {
      FirstInv(sizeOf, run[0], start);
    } else {
      InvHolds(sizeOf, run, start, i - 1);
      var k: nat := i - 1;
      assert Next(sizeOf, run[k], run[i]) && Consecutive(run[k].log, 1);
      if Grows(run[k], run[i]) { GrowKeeps(sizeOf, run[k], run[i], start); }
      else if Applies(sizeOf, run[k], run[i]) { ApplyKeeps(sizeOf, run[k], run[i], start); }
      else {
        var allowUnstable :| Accepts(sizeOf, run[k], run[i], allowUnstable);
        AcceptKeeps(sizeOf, run[k], run[i], start, allowUnstable);
      }
    }
  }

  lemma FirstInv(sizeOf: Entry -> nat, s: State, start: nat)
    requires Starts(s, start)
    ensures Inv(sizeOf, s, start)
  {
    assert s.log[start..start] == [];
  }

  /** In every state of every run: what was handed out is the log from the start
      up to `applying`, without gap or repetition; the cursors are in order; the
      outstanding size is exactly that of the batches not applied yet and less
      than the limit plus the last entry. */
  lemma ExactlyOnceInOrder(sizeOf: Entry -> nat, run: seq<State>, start: nat, i: nat)
    requires Positive(sizeOf) && IsRun(sizeOf, run, start) && i < |run|
    ensures var s, cur := run[i], run[i].cursor;
            && start <= cur.applied <= cur.applying <= s.committed <= |s.log|
            && s.handed == s.log[start..cur.applying]
            && cur.size == EntsSize(sizeOf, Concat(s.pending))
            && (cur.applied < cur.applying ==> cur.size < cur.max + sizeOf(s.log[cur.applying - 1]))
            && (cur.applied == cur.applying ==> cur.size == 0)
  {
    InvHolds(sizeOf, run, start, i);
    var s := run[i];
    if s.cursor.applied == s.cursor.applying { assert s.log[s.cursor.applied..s.cursor.applying] == []; }
  }

  /** Nothing that was handed out is ever taken back... */
  lemma {:induction false} HandedOnlyGrows(sizeOf: Entry -> nat, run: seq<State>, start: nat, i: nat, j: nat)
    requires IsRun(sizeOf, run, start) && i <= j < |run|
    ensures run[i].handed <= run[j].handed
    decreases j
  {
    if i < j {
      HandedOnlyGrows(sizeOf, run, start, i, j - 1);
      var k: nat := j - 1;
      assert Next(sizeOf, run[k], run[j]);
    }
  }

  /** ... nor replaced in the log. */
  lemma HandedStays(sizeOf: Entry -> nat, run: seq<State>, start: nat, i: nat, j: nat)
    requires Positive(sizeOf) && IsRun(sizeOf, run, start) && i <= j < |run|
    ensures var k := run[i].cursor.applying;
            start <= k <= |run[i].log| && k <= |run[j].log| && run[j].log[start..k] == run[i].log[start..k]
  {
    hide IsRun, EntsSize, Concat, Positive;
    ExactlyOnceInOrder(sizeOf, run, start, i);
    ExactlyOnceInOrder(sizeOf, run, start, j);
    HandedOnlyGrows(sizeOf, run, start, i, j);
    SliceOfSlice(run[j].log, start, run[i].cursor.applying, run[j].cursor.applying);
  }

  lemma SliceOfSlice(log: seq<Entry>, lo: nat, mid: nat, hi: nat)
    requires lo <= mid <= hi <= |log|
    ensures log[lo..mid] == log[lo..hi][..mid - lo]
  {}

  /** Application never gets stuck: once everything handed out was applied, more
      can be handed out as soon as more is appliable. */
  lemma NeverBlocked(sizeOf: Entry -> nat, run: seq<State>, start: nat, i: nat, allowUnstable: bool)
    requires Positive(sizeOf) && IsRun(sizeOf, run, start) && i < |run|
    requires run[i].cursor.applied == run[i].cursor.applying <
             if allowUnstable then run[i].committed else Min(run[i].committed, run[i].stable)
    ensures exists s' :: Accepts(sizeOf, run[i], s', allowUnstable)
  {
    hide LimitSize, EntsSize, Concat;
    InvHolds(sizeOf, run, start, i);
    var s, cur, hi := run[i], run[i].cursor, Appliable(run[i], allowUnstable);
    var batch := cur.Next(sizeOf, s.log[cur.applying..hi]);
    assert Accepts(sizeOf, s,
                   s.(cursor := cur.Accept(batch[|batch| - 1].index, EntsSize(sizeOf, batch), hi),
                      pending := s.pending + [batch], handed := s.handed + batch), allowUnstable);
  }

  /** Handing out goes as far as it can. Of what is committed, and is stable unless
      unstable entries may be applied, either all is handed out, or one entry more would
      exceed the limit; and no more is handed out afterwards exactly if that is so or
      the limit is reached. */
  lemma HandsOutAll(sizeOf: Entry -> nat, run: seq<State>, start: nat, i: nat, s': State, allowUnstable: bool)
    requires Positive(sizeOf) && IsRun(sizeOf, run, start) && i < |run| && Accepts(sizeOf, run[i], s', allowUnstable)
    ensures var s, cur := run[i], s'.cursor; var hi := if allowUnstable then s.committed else Min(s.committed, s.stable);
            && s.cursor.applying < cur.applying <= hi <= |s.log|
            && (cur.applying < hi ==> cur.size + sizeOf(s.log[cur.applying]) > cur.max)
            && (cur.paused <==> cur.size >= cur.max || cur.applying < hi)
  {
    hide EntsSize, Concat, IsRun, Positive, LimitSize, Consecutive, Contents;
    InvHolds(sizeOf, run, start, i);
    CursorOrder(run[i], start);
    LogsAreConsecutive(sizeOf, run, start, i);
    var s, cur := run[i], run[i].cursor;
    var hi := Appliable(s, allowUnstable);
    BatchFits(sizeOf, s.log, cur.applying, hi, cur.max - cur.size);
    BatchIsMaximal(sizeOf, s.log, cur.applying, hi, cur.max - cur.size);
  }

  lemma LogsAreConsecutive(sizeOf: Entry -> nat, run: seq<State>, start: nat, i: nat)
    requires IsRun(sizeOf, run, start) && i < |run|
    ensures Consecutive(run[i].log, 1)
  {}

  lemma BatchIsMaximal(sizeOf: Entry -> nat, log: seq<Entry>, lo: nat, hi: nat, room: nat)
    requires lo < hi <= |log|
    ensures var batch := LimitSize(sizeOf, log[lo..hi], room);
            0 < |batch| <= hi - lo && (|batch| < hi - lo ==> EntsSize(sizeOf, batch) + sizeOf(log[lo + |batch|]) > room)
  {
    var ents := log[lo..hi];
    var k := |LimitSize(sizeOf, ents, room)|;
    LimitIsCut(sizeOf, ents, room);
    assert LimitSize(sizeOf, ents, room) == ents[..k];
    if k < |ents| { OneMore(sizeOf, ents, k); }
  }

  /** Applying lets more be handed out exactly once what is still outstanding is below
      the limit. */
  lemma ApplyingResumes(sizeOf: Entry -> nat, run: seq<State>, start: nat, i: nat, s': State)
    requires Positive(sizeOf) && IsRun(sizeOf, run, start) && i < |run| && Applies(sizeOf, run[i], s')
    ensures s'.cursor.paused <==> EntsSize(sizeOf, Concat(s'.pending)) >= s'.cursor.max
    ensures s'.cursor.applying == run[i].cursor.applying && s'.cursor.applied == run[i].cursor.applied + |run[i].pending[0]|
  {
    hide EntsSize, Concat, IsRun, Positive;
    InvHolds(sizeOf, run, start, i);
    LogsAreConsecutive(sizeOf, run, start, i);
    ApplyKeeps(sizeOf, run[i], s', start);
    ConcatFirst(run[i].pending);
    ApplyContents(run[i], start, run[i].pending[0], Concat(run[i].pending[1..]));
  }
}
