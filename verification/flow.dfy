/** The leader's view of one follower: the replication progress and the window
    of append messages in flight, as values. */
module Flow {
  import opened Logs

  datatype StateType = StateProbe | StateReplicate | StateSnapshot

  /** One in-flight append: its last index and its payload bytes. */
  datatype Inflight = Inflight(index: nat, bytes: nat)

  function Bytes(items: seq<Inflight>): nat {
    if items == [] then 0 else items[0].bytes + Bytes(items[1..])
  }

  /** The in-flight messages in sending order, with the limits on their number
      and on their total bytes (0 for no byte limit). */
  datatype Window = Window(size: nat, maxBytes: nat, items: seq<Inflight>) {
    predicate Full() {
      |items| == size || (maxBytes != 0 && Bytes(items) >= maxBytes)
    }

    function Add(index: nat, bytes: nat): Window {
      this.(items := items + [Inflight(index, bytes)])
    }

    function FreeLE(to: nat): Window {
      this.(items := DropLE(items, to))
    }
  }

  /** Frees from the front while the front index is at most `to`. */
  function DropLE(items: seq<Inflight>, to: nat): seq<Inflight> {
    if items == [] || to < items[0].index then items else DropLE(items[1..], to)
  }

  /** A log index that can hold an entry. */
  type Position = n: nat | n >= 1 witness 1

  datatype Progress = Progress(
    matched: nat, next: Position, sentCommit: nat, state: StateType, pendingSnapshot: nat,
    recentActive: bool, paused: bool, inflights: Window, isLearner: bool)
  {
    function ResetState(st: StateType): Progress {
      this.(paused := false, pendingSnapshot := 0, state := st, inflights := inflights.(items := []))
    }

    /** What a member starts a term with; `last` is the last index of the node's
        own log. */
    function StartOver(isSelf: bool, last: nat, size: nat, maxBytes: nat): Progress {
      Progress(if isSelf then last else 0, last + 1, 0, StateProbe, 0, false, false, Window(size, maxBytes, []), isLearner)
    }

    function BecomeProbe(): Progress {
      var p := ResetState(StateProbe).(next :=
        if state.StateSnapshot? then Max(matched + 1, pendingSnapshot + 1) else matched + 1);
      p.(sentCommit := Min(p.sentCommit, p.next - 1))
    }

    function BecomeReplicate(): Progress {
      ResetState(StateReplicate).(next := matched + 1)
    }

    function BecomeSnapshot(snapshoti: nat): Progress {
      ResetState(StateSnapshot).(pendingSnapshot := snapshoti, next := snapshoti + 1, sentCommit := snapshoti)
    }

    /** Bookkeeping for a sent append. The window must have room for it, and
        nothing is sent in StateSnapshot. */
    function SentEntries(entries: nat, bytes: nat): Progress
      requires !state.StateSnapshot?
      requires state.StateReplicate? && entries > 0 ==> !inflights.Full()
    {
      if state.StateReplicate? then
        var p := if entries > 0
                 then this.(next := next + entries, inflights := inflights.Add(next + entries - 1, bytes))
                 else this;
        p.(paused := p.inflights.Full())
      else if entries > 0 then this.(paused := true) else this
    }

    predicate CanBumpCommit(index: nat) {
      index > sentCommit && sentCommit < next - 1
    }

    function SentCommit(commit: nat): Progress { this.(sentCommit := commit) }

    /** An acknowledgement of index n; second result: whether it was news. */
    function MaybeUpdate(n: nat): (Progress, bool) {
      if n <= matched then (this, false)
      else (this.(matched := n, next := Max(next, n + 1), paused := false), true)
    }

    /** A rejection of the append at `rejected`; second result: whether it was
        genuine. */
    function MaybeDecrTo(rejected: nat, matchHint: nat): (Progress, bool) {
      if state.StateReplicate? then
        if rejected <= matched then (this, false)
        else (this.(next := matched + 1, sentCommit := Min(sentCommit, matched)), true)
      else if next - 1 != rejected then (this, false)
      else
        var next' := Max(Min(rejected, matchHint + 1), matched + 1);
        (this.(next := next', sentCommit := Min(sentCommit, next' - 1), paused := false), true)
    }

    predicate IsPaused() { state.StateSnapshot? || paused }
  }
}
