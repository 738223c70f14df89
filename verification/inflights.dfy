/** The leader's bookkeeping of a follower as objects: a lazily grown ring buffer
    of messages in flight, and the progress that uses it. */
module Tracking {
  import opened Logs
  import opened Flow
  import opened FlowLaws

  // ------------------------------------------------------------------- rings

  /** A ring of up to `size` places, of which the first n exist: they hold all of
      the count elements from start on, and all places exist once it wraps. */
  predicate RingOk(n: nat, start: nat, count: nat, size: nat) {
    n <= size && count <= size && (start == 0 || start < size) && (start + count <= n || n == size)
  }

  /** The place of the i-th element. */
  function Place(start: nat, i: nat, size: nat): int {
    if start + i < size then start + i else start + i - size
  }

  lemma PlaceExists(n: nat, start: nat, count: nat, size: nat, i: nat)
    requires RingOk(n, start, count, size) && i < count
    ensures 0 <= Place(start, i, size) < n
  {}

  /** The elements in order. */
  function RingItems(buf: seq<Inflight>, start: nat, count: nat, size: nat): (r: seq<Inflight>)
    requires RingOk(|buf|, start, count, size)
    ensures |r| == count && forall i | 0 <= i < count :: 0 <= Place(start, i, size) < |buf| && r[i] == buf[Place(start, i, size)]
    decreases count
  {
    if count == 0 then []
    else
      PlaceExists(|buf|, start, count, size, count - 1);
      RingItems(buf, start, count - 1, size) + [buf[Place(start, count - 1, size)]]
  }

  lemma RingAt(buf: seq<Inflight>, start: nat, count: nat, size: nat)
    requires RingOk(|buf|, start, count, size)
    ensures |RingItems(buf, start, count, size)| == count
    ensures forall i | 0 <= i < count ::
              0 <= Place(start, i, size) < |buf| && RingItems(buf, start, count, size)[i] == buf[Place(start, i, size)]
  {}

  lemma SameItems(a: seq<Inflight>, b: seq<Inflight>)
    requires |a| == |b| && forall i | 0 <= i < |a| :: a[i] == b[i]
    ensures a == b
  {}

  lemma RingAdd(buf: seq<Inflight>, start: nat, count: nat, size: nat, x: Inflight)
    requires RingOk(|buf|, start, count, size) && count < size && 0 <= Place(start, count, size) < |buf|
    ensures var buf' := buf[Place(start, count, size) := x];
            RingOk(|buf'|, start, count + 1, size) && RingItems(buf', start, count + 1, size) == RingItems(buf, start, count, size) + [x]
  {
    var buf' := buf[Place(start, count, size) := x];
    SameItems(RingItems(buf', start, count + 1, size), RingItems(buf, start, count, size) + [x]);
  }

  lemma RingGrow(buf: seq<Inflight>, buf': seq<Inflight>, start: nat, count: nat, size: nat)
    requires RingOk(|buf|, start, count, size) && buf <= buf' && |buf'| <= size
    ensures RingOk(|buf'|, start, count, size)
            && RingItems(buf', start, count, size) == RingItems(buf, start, count, size)
  {
    SameItems(RingItems(buf', start, count, size), RingItems(buf, start, count, size));
  }

  lemma RingFree(buf: seq<Inflight>, start: nat, count: nat, size: nat, i: nat)
    requires RingOk(|buf|, start, count, size) && i <= count
    ensures var start' := if i == count then 0 else Place(start, i, size);
            0 <= start' && RingOk(|buf|, start', count - i, size)
            && RingItems(buf, start', count - i, size) == RingItems(buf, start, count, size)[i..]
  {
    var start' := if i == count then 0 else Place(start, i, size);
    SameItems(RingItems(buf, start', count - i, size), RingItems(buf, start, count, size)[i..]);
  }

  lemma DropStep(items: seq<Inflight>, i: nat, to: nat)
    requires i < |items| && items[i].index <= to
    ensures DropLE(items[i..], to) == DropLE(items[i + 1..], to)
            && Bytes(items[i..]) == items[i].bytes + Bytes(items[i + 1..])
  {
    assert items[i..][1..] == items[i + 1..];
  }

  lemma DropStops(items: seq<Inflight>, i: nat, to: nat)
    requires i == |items| || (i < |items| && to < items[i].index)
    ensures DropLE(items[i..], to) == items[i..]
  {}

  // -------------------------------------------------------- the ring as a window

  class Inflights {
    var start: nat
    var count: nat
    var bytes: nat
    const size: nat
    const maxBytes: nat
    /** A ring buffer, grown on demand up to size elements. */
    var buffer: array<Inflight>

    ghost predicate Valid()
      reads this, buffer
    {
      RingOk(buffer.Length, start, count, size) && bytes == Bytes(RingItems(buffer[..], start, count, size))
    }

    ghost function View(): Window
      requires Valid()
      reads this, buffer
    {
      Window(size, maxBytes, RingItems(buffer[..], start, count, size))
    }

    constructor (size: nat, maxBytes: nat)
      ensures Valid() && fresh(buffer) && View() == Window(size, maxBytes, [])
    {
      this.size, this.maxBytes := size, maxBytes;
      start, count, bytes := 0, 0, 0;
      buffer := new Inflight[0];
    }

    method Full() returns (full: bool)
      requires Valid()
      ensures full <==> View().Full()
    {
      return count == size || (maxBytes != 0 && bytes >= maxBytes);
    }

    /** Doubles the buffer, up to size, and keeps what is in it. */
    method Grow()
      requires Valid() && buffer.Length < size
      modifies `buffer
      ensures fresh(buffer) && old(buffer.Length) < buffer.Length <= size
      ensures Valid() && View() == old(View())
    {
      hide RingItems;
      var newSize := buffer.Length * 2;
      if newSize == 0 {
        newSize := 1;
      } else if newSize > size {
        newSize := size;
      }
      var newBuffer := new Inflight[newSize](_ => Inflight(0, 0));
      forall i | 0 <= i < buffer.Length { newBuffer[i] := buffer[i]; }
      assert buffer[..] == old(buffer[..]) && buffer[..] <= newBuffer[..];
      RingGrow(buffer[..], newBuffer[..], start, count, size);
      buffer := newBuffer;
    }

    method Add(index: nat, more: nat)
      requires Valid() && !View().Full()
      modifies this, buffer
      ensures Valid() && View() == old(View()).Add(index, more) && (buffer == old(buffer) || fresh(buffer))
    {
      hide RingItems, Bytes;
      var next := start + count;
      if next >= size { next := next - size; }
      if next >= buffer.Length { Grow(); }
      RingAdd(buffer[..], start, count, size, Inflight(index, more));
      BytesAdd(RingItems(buffer[..], start, count, size), Inflight(index, more));
      buffer[next] := Inflight(index, more);
      count := count + 1;
      bytes := bytes + more;
    }

    /** How many messages from the front have an index up to `to`, their bytes, and
        the place of the first one that remains. */
    method Acknowledged(to: nat) returns (i: nat, idx: nat, freed: nat)
      requires Valid() && count > 0
      ensures i <= count && (i < count ==> idx == Place(start, i, size))
      ensures View().FreeLE(to).items == View().items[i..] && freed + Bytes(View().items[i..]) == bytes
    {
      hide RingItems, DropLE, Bytes;
      ghost var items := View().items;
      RingAt(buffer[..], start, count, size);
      assert items[0..] == items;
      i, idx, freed := 0, start, 0;
      while i < count && to >= buffer[idx].index
        invariant i <= count && (i < count ==> idx == Place(start, i, size))
        invariant DropLE(items, to) == DropLE(items[i..], to) && freed + Bytes(items[i..]) == bytes
      {
        DropStep(items, i, to);
        freed := freed + buffer[idx].bytes;
        idx := idx + 1;
        if idx >= size { idx := idx - size; }
        i := i + 1;
      }
      DropStops(items, i, to);
    }

    method FreeLE(to: nat)
      requires Valid()
      modifies `start, `count, `bytes
      ensures Valid() && View() == old(View()).FreeLE(to)
    {
      hide RingItems, DropLE, Bytes;
      RingAt(buffer[..], start, count, size);
      if count == 0 || to < buffer[start].index {
        DropStops(View().items, 0, to);
        assert View().items[0..] == View().items;
        return;
      }
      var i, idx, freed := Acknowledged(to);
      RingFree(buffer[..], start, count, size, i);
      count := count - i;
      bytes := bytes - freed;
      start := idx;
      if count == 0 { start := 0; }
    }

    method Reset()
      requires Valid()
      modifies `start, `count, `bytes
      ensures Valid() && View() == old(View()).(items := [])
    {
      start, count, bytes := 0, 0, 0;
    }
  }

  // ------------------------------------------------------------------ progress

  class PeerProgress {
    var matched: nat
    var next: Position
    var sentCommit: nat
    var state: StateType
    var pendingSnapshot: nat
    var recentActive: bool
    var msgAppFlowPaused: bool
    var inflights: Inflights
    var isLearner: bool

    ghost predicate Valid()
      reads this, inflights, inflights.buffer
    {
      inflights.Valid()
    }

    ghost function View(): Progress
      requires Valid()
      reads this, inflights, inflights.buffer
    {
      Progress(matched, next, sentCommit, state, pendingSnapshot, recentActive, msgAppFlowPaused, inflights.View(), isLearner)
    }

    constructor (next: Position, inflights: Inflights, isLearner: bool)
      requires inflights.Valid()
      ensures Valid() && this.inflights == inflights
      ensures View() == Progress(0, next, 0, StateProbe, 0, false, false, inflights.View(), isLearner)
    {
      matched, this.next, sentCommit, state, pendingSnapshot := 0, next, 0, StateProbe, 0;
      recentActive, msgAppFlowPaused, this.inflights, this.isLearner := false, false, inflights, isLearner;
    }

    /** The ring and its buffer are the ones from before. */
    twostate predicate SameRing()
      reads this, inflights
    {
      inflights == old(inflights) && inflights.buffer == old(inflights.buffer)
    }

    /** Starts the progress over, with a new ring. */
    method Renew(isSelf: bool, last: nat, size: nat, maxBytes: nat)
      requires Valid()
      modifies this
      ensures Valid() && fresh(inflights) && fresh(inflights.buffer)
      ensures View() == old(View()).StartOver(isSelf, last, size, maxBytes)
    {
      hide Inflights.Valid, Inflights.View;
      matched, next, sentCommit, state, pendingSnapshot := if isSelf then last else 0, last + 1, 0, StateProbe, 0;
      recentActive, msgAppFlowPaused := false, false;
      inflights := new Inflights(size, maxBytes);
    }

    method ResetState(st: StateType)
      requires Valid()
      modifies this, inflights
      ensures Valid() && View() == old(View()).ResetState(st) && SameRing()
    {
      msgAppFlowPaused := false;
      pendingSnapshot := 0;
      state := st;
      inflights.Reset();
    }

    method BecomeProbe()
      requires Valid()
      modifies this, inflights
      ensures Valid() && View() == old(View()).BecomeProbe() && SameRing()
    {
      if state.StateSnapshot? {
        var pending := pendingSnapshot;
        ResetState(StateProbe);
        next := Max(matched + 1, pending + 1);
      } else {
        ResetState(StateProbe);
        next := matched + 1;
      }
      sentCommit := Min(sentCommit, next - 1);
    }

    method BecomeReplicate()
      requires Valid()
      modifies this, inflights
      ensures Valid() && View() == old(View()).BecomeReplicate() && SameRing()
    {
      ResetState(StateReplicate);
      next := matched + 1;
    }

    method BecomeSnapshot(snapshoti: nat)
      requires Valid()
      modifies this, inflights
      ensures Valid() && View() == old(View()).BecomeSnapshot(snapshoti) && SameRing()
    {
      ResetState(StateSnapshot);
      pendingSnapshot := snapshoti;
      next := snapshoti + 1;
      sentCommit := snapshoti;
    }

    method SentEntries(entries: nat, bytes: nat)
      requires Valid() && !View().state.StateSnapshot? && (View().state.StateReplicate? && entries > 0 ==> !View().inflights.Full())
      modifies this, inflights, inflights.buffer
      ensures Valid() && View() == old(View()).SentEntries(entries, bytes)
      ensures inflights == old(inflights) && (inflights.buffer == old(inflights.buffer) || fresh(inflights.buffer))
    {
      hide Inflights.Valid, Inflights.View, Window.Full, Window.Add;
      if state.StateReplicate? {
        if entries > 0 {
          next := next + entries;
          inflights.Add(next - 1, bytes);
        }
        msgAppFlowPaused := inflights.Full();
      } else if entries > 0 {
        msgAppFlowPaused := true;
      }
    }

    method SentCommit(commit: nat)
      requires Valid()
      modifies this
      ensures Valid() && View() == old(View()).SentCommit(commit) && SameRing()
    {
      sentCommit := commit;
    }

    method SetActive(active: bool)
      requires Valid()
      modifies this
      ensures Valid() && View() == old(View()).(recentActive := active) && SameRing()
    {
      recentActive := active;
    }

    method Unpause()
      requires Valid()
      modifies this
      ensures Valid() && View() == old(View()).(paused := false) && SameRing()
    {
      msgAppFlowPaused := false;
    }

    method FreeLE(to: nat)
      requires Valid()
      modifies inflights
      ensures Valid() && View() == old(View()).(inflights := old(View()).inflights.FreeLE(to)) && SameRing()
    {
      inflights.FreeLE(to);
    }

    method MaybeUpdate(n: nat) returns (updated: bool)
      requires Valid()
      modifies this
      ensures Valid() && (View(), updated) == old(View()).MaybeUpdate(n) && SameRing()
    {
      if n <= matched { return false; }
      matched := n;
      next := Max(next, n + 1);
      msgAppFlowPaused := false;
      return true;
    }

    method MaybeDecrTo(rejected: nat, matchHint: nat) returns (genuine: bool)
      requires Valid()
      modifies this
      ensures Valid() && (View(), genuine) == old(View()).MaybeDecrTo(rejected, matchHint) && SameRing()
    {
      if state.StateReplicate? {
        if rejected <= matched { return false; }
        next := matched + 1;
        sentCommit := Min(sentCommit, next - 1);
        return true;
      }
      if next - 1 != rejected { return false; }
      next := Max(Min(rejected, matchHint + 1), matched + 1);
      sentCommit := Min(sentCommit, next - 1);
      msgAppFlowPaused := false;
      return true;
    }
  }
}
