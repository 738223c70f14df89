/** Pending linearizable reads of a leader. Reads are numbered from 1 in the
    order they were queued; a heartbeat context is the number of the last read
    it confirms, 0 standing for the empty context. */
module ReadQueue {
  import opened Quorum
  import opened Logs

  datatype ReadRequest = ReadRequest(from: Id, ctx: string)

  /** A queued request with the commit index at the time it was queued. */
  datatype PendingRead = PendingRead(req: ReadRequest, index: nat)

  datatype ReadOnly = ReadOnly(acks: map<Id, nat>, unconfirmed: seq<PendingRead>, confirmed: nat) {
    /** The number of reads queued so far. */
    function Total(): nat { confirmed + |unconfirmed| }

    function AddRequest(commitIndex: nat, req: ReadRequest): ReadOnly {
      this.(unconfirmed := unconfirmed + [PendingRead(req, commitIndex)])
    }

    function HeartbeatCtx(): nat {
      if unconfirmed == [] then 0 else Total()
    }

    function RecvAck(from: Id, ctx: nat): ReadOnly {
      if ctx != 0 then this.(acks := acks[from := Max(AckedIndex(acks, from), ctx)]) else this
    }

    /** Whether cutting n confirmed reads off the queue stays in range. */
    predicate InRange(n: Index) {
      n.At? && n.i <= Total()
    }

    /** The reads that a quorum of acknowledgements confirms, oldest first. */
    ghost function Confirmable(c: JointConfig): seq<PendingRead> {
      var n := JointCommitted(c, acks);
      if InRange(n) && n.i > confirmed then unconfirmed[..n.i - confirmed] else []
    }

    ghost function MaybeAdvance(c: JointConfig): ReadOnly {
      var n := JointCommitted(c, acks);
      if InRange(n) && n.i > confirmed
      then this.(unconfirmed := unconfirmed[n.i - confirmed..], confirmed := n.i)
      else this
    }
  }

  const NO_READS := ReadOnly(map[], [], 0)
}
