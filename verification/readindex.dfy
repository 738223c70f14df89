/** The queue of reads as the object the leader keeps, and the heartbeat contexts
    that number its reads on the wire. */
module ReadIndex {
  import opened Quorum
  import opened Logs
  import opened ReadQueue
  import opened RaftSpec

  // --------------------------------------------------------------- contexts

  type Byte = n: nat | n < 256

  /** n in k bytes, the lowest first. */
  function Encode(n: nat, k: nat): (bytes: seq<Byte>)
    ensures |bytes| == k
  {
    if k == 0 then [] else [n % 256] + Encode(n / 256, k - 1)
  }

  function Decode(bytes: seq<Byte>): nat {
    if bytes == [] then 0 else bytes[0] + 256 * Decode(bytes[1..])
  }

  function Power256(k: nat): nat { if k == 0 then 1 else 256 * Power256(k - 1) }

  lemma {:induction false} DecodeInverts(n: nat, k: nat)
    requires n < Power256(k)
    ensures Decode(Encode(n, k)) == n
  {
    if k > 0 {
      DecodeInverts(n / 256, k - 1);
      assert Encode(n, k)[1..] == Encode(n / 256, k - 1);
    }
  }

  /** A position on the wire: nothing for no position, else eight bytes. */
  function Context(position: nat): seq<Byte> {
    if position == 0 then [] else Encode(position, 8)
  }

  function Position(context: seq<Byte>): nat {
    if context == [] then 0 else Decode(context)
  }

  /** Contexts carry 64-bit positions faithfully. */
  lemma ContextRoundTrip(position: nat)
    requires position < Power256(8)
    ensures Position(Context(position)) == position
  {
    DecodeInverts(position, 8);
  }

  // ------------------------------------------------------------------- queue

  /** Advancing splits the queue: what is released and what remains are together
      the old queue in order, and the number of reads queued stays the same. */
  lemma AdvanceSplits(ro: ReadOnly, c: JointConfig)
    ensures ro.Confirmable(c) + ro.MaybeAdvance(c).unconfirmed == ro.unconfirmed
    ensures ro.MaybeAdvance(c).confirmed == ro.confirmed + |ro.Confirmable(c)|
            && ro.MaybeAdvance(c).Total() == ro.Total()
    ensures ro.MaybeAdvance(c).acks == ro.acks
  {}

  /** A read is released exactly once a quorum of each half has acknowledged its
      position or a later one. */
  lemma ReleasedByQuorum(ro: ReadOnly, c: JointConfig, p: nat)
    requires c.Ids() != {} && ro.confirmed < p <= ro.Total() && ro.InRange(JointCommitted(c, ro.acks))
    ensures p <= ro.MaybeAdvance(c).confirmed <==> IsQuorum(c, AckedAtLeast(ro.acks, c.Ids(), p))
  {
    hide IsQuorum, JointCommitted, AckedAtLeast;
    JointCommittedIsExact(c, ro.acks, p);
  }

  // ----------------------------------------------------------------- answers

  /** Whether a request came from the leader's own host. */
  predicate IsLocal(id: Id, req: ReadRequest) { req.from == NONE || req.from == id }

  function LocalAnswers(id: Id, batch: seq<PendingRead>): seq<ReadState> {
    if batch == [] then []
    else (if IsLocal(id, batch[0].req) then [ReadState(batch[0].index, batch[0].req.ctx)] else []) + LocalAnswers(id, batch[1..])
  }

  function RemoteAnswers(id: Id, term: nat, batch: seq<PendingRead>): seq<Message> {
    if batch == [] then []
    else
      (if IsLocal(id, batch[0].req) then []
       else [MsgReadIndexResp(id, batch[0].req.from, term, batch[0].index, batch[0].req.ctx)]) + RemoteAnswers(id, term, batch[1..])
  }

  /** Released reads are answered in the order they were queued, each with the
      index it was queued with, and nothing else about the node changes. */
  lemma {:induction false} AnsweredInOrder(n: Node, batch: seq<PendingRead>)
    ensures RespondAll(n, batch) ==
              n.(readStates := n.readStates + LocalAnswers(n.id, batch), msgs := n.msgs + RemoteAnswers(n.id, n.term, batch))
    decreases |batch|
  {
    hide Respond, LocalAnswers, RemoteAnswers;
    if batch == [] {
      EmptyAnswers(n.id, n.term);
    } else {
      var states, msgs := LocalAnswers(n.id, [batch[0]]), RemoteAnswers(n.id, n.term, [batch[0]]);
      var rest := batch[1..];
      OneAnswer(n, batch[0]);
      FirstAnswer(n.id, n.term, batch);
      AnsweredInOrder(Respond(n, batch[0].req, batch[0].index), rest);
      assert n.readStates + states + LocalAnswers(n.id, rest) == n.readStates + (states + LocalAnswers(n.id, rest));
      assert n.msgs + msgs + RemoteAnswers(n.id, n.term, rest) == n.msgs + (msgs + RemoteAnswers(n.id, n.term, rest));
    }
  }

  lemma EmptyAnswers(id: Id, term: nat)
    ensures LocalAnswers(id, []) == [] && RemoteAnswers(id, term, []) == []
  {}

  lemma FirstAnswer(id: Id, term: nat, batch: seq<PendingRead>)
    requires batch != []
    ensures LocalAnswers(id, batch) == LocalAnswers(id, [batch[0]]) + LocalAnswers(id, batch[1..])
    ensures RemoteAnswers(id, term, batch) == RemoteAnswers(id, term, [batch[0]]) + RemoteAnswers(id, term, batch[1..])
  {
    assert [batch[0]][1..] == [];
  }

  lemma OneAnswer(n: Node, r: PendingRead)
    ensures Respond(n, r.req, r.index) ==
              n.(readStates := n.readStates + LocalAnswers(n.id, [r]), msgs := n.msgs + RemoteAnswers(n.id, n.term, [r]))
  {
    assert LocalAnswers(n.id, [r][1..]) == [] && RemoteAnswers(n.id, n.term, [r][1..]) == [];
  }

  class ReadRequests {
    var acks: map<Id, nat>
    var unconfirmedReads: seq<PendingRead>
    var confirmedReads: nat

    ghost function View(): ReadOnly
      reads this
    {
      ReadOnly(acks, unconfirmedReads, confirmedReads)
    }

    constructor ()
      ensures View() == NO_READS
    {
      acks, unconfirmedReads, confirmedReads := map[], [], 0;
    }

    method AddRequest(commitIndex: nat, req: ReadRequest)
      modifies this
      ensures View() == old(View()).AddRequest(commitIndex, req)
    {
      unconfirmedReads := unconfirmedReads + [PendingRead(req, commitIndex)];
    }

    /** A member acknowledged a position. */
    method Acknowledge(from: Id, position: nat)
      modifies this
      ensures View() == old(View()).(acks := old(acks)[from := Max(AckedIndex(old(acks), from), position)])
    {
      var have := if from in acks then acks[from] else 0;
      acks := acks[from := Max(have, position)];
    }

    method RecvAck(from: Id, ctx: seq<Byte>)
      modifies this
      ensures View() == if ctx == [] then old(View())
                        else old(View()).(acks := old(acks)[from := Max(AckedIndex(old(acks), from), Decode(ctx))])
    {
      if |ctx| != 0 { Acknowledge(from, Decode(ctx)); }
    }

    /** The position that confirms all queued reads, 0 for none. */
    method LastPosition() returns (position: nat)
      ensures position == View().HeartbeatCtx()
    {
      return if |unconfirmedReads| == 0 then 0 else confirmedReads + |unconfirmedReads|;
    }

    method HeartbeatCtx() returns (ctx: seq<Byte>)
      ensures ctx == Context(View().HeartbeatCtx())
    {
      var position := LastPosition();
      return if position == 0 then [] else Encode(position, 8);
    }

    /** Releases the reads that the acknowledgements confirm, oldest first. More
        than are queued cannot be released: the program panics there. */
    method MaybeAdvance(c: JointConfig) returns (released: seq<PendingRead>, ok: bool)
      modifies this
      ensures ok <==> old(View()).InRange(JointCommitted(c, old(acks)))
      ensures View() == old(View()).MaybeAdvance(c) && released == old(View()).Confirmable(c)
      ensures released + unconfirmedReads == old(unconfirmedReads)
    {
      AdvanceSplits(View(), c);
      var at := JointCommittedIndex(c, acks);
      if !at.At? || at.i > confirmedReads + |unconfirmedReads| { return [], false; }
      if at.i <= confirmedReads { return [], true; }
      var n := at.i - confirmedReads;
      released, ok := unconfirmedReads[..n], true;
      unconfirmedReads := unconfirmedReads[n..];
      confirmedReads := at.i;
    }
  }
}
