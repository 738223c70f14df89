/** The node's side of the storage and apply threads: what a Ready hands to them
    and what their responses do to the log. */
module LocalThreads {
  import opened Logs
  import opened Sizes
  import opened UnstableTail
  import opened StableStorage
  import opened Applying
  import opened TwoPartLog
  import Pipeline

  class RawNode {
    const raftLog: RaftLog
    const asyncStorageWrites: bool
    var term: nat

    ghost predicate Valid()
      reads this, raftLog, raftLog.storage, raftLog.unstable
    {
      raftLog.Valid() && (!raftLog.applyingEntsPaused ==> raftLog.applyingEntsSize < raftLog.maxApplyingEntsSize)
    }

    constructor (raftLog: RaftLog, asyncStorageWrites: bool, term: nat)
      requires raftLog.Valid() && (!raftLog.applyingEntsPaused ==> raftLog.applyingEntsSize < raftLog.maxApplyingEntsSize)
      ensures Valid() && this.raftLog == raftLog && this.asyncStorageWrites == asyncStorageWrites && this.term == term
    {
      this.raftLog, this.asyncStorageWrites, this.term := raftLog, asyncStorageWrites, term;
    }

    /** The index up to which entries may be applied: unstable ones only if storage
        writes are synchronous. */
    ghost function Appliable(): nat
      reads this, raftLog, raftLog.unstable
      requires raftLog.unstable.offset > 0
    {
      if !asyncStorageWrites then raftLog.committed else Min(raftLog.committed, raftLog.unstable.offset - 1)
    }

    /** Hands out the entries to write, with the acknowledgement to return once
        they and all before them are written. */
    method HandEntries() returns (write: Pipeline.Write)
      requires Valid()
      modifies raftLog.unstable
      ensures Valid() && raftLog.View() == old(raftLog.View())
      ensures write.entries == old(raftLog.View().Range(raftLog.unstable.offsetInProgress, raftLog.View().Last() + 1))
      ensures write.resp == if old(raftLog.unstable.entries) == [] then None
                            else Some(Pipeline.Response(term, EntryID(raftLog.View().LastTerm(), raftLog.View().Last())))
      ensures raftLog.unstable.View() == old(raftLog.unstable.View()).AcceptInProgress()
      ensures raftLog.unstable.offset == old(raftLog.unstable.offset)
    {
      hide Whole, Fits, Positive;
      var ents := raftLog.NextUnstableEnts();
      var resp: Option<Pipeline.Response> := None;
      if |raftLog.unstable.entries| > 0 {
        var last := raftLog.LastEntryID();
        resp := Some(Pipeline.Response(term, last));
      }
      write := Pipeline.Write(ents, resp);
      raftLog.AcceptUnstable();
    }

    /** Hands out the next committed entries to apply. */
    method HandCommitted() returns (batch: seq<Entry>)
      requires Valid()
      modifies raftLog
      ensures Valid() && raftLog.View() == old(raftLog.View()) && raftLog.committed == old(raftLog.committed)
      ensures batch == if old(Appliable()) <= old(raftLog.applying) then []
                       else old(raftLog.Cursors().Next(raftLog.size, raftLog.View().Range(raftLog.applying + 1, Appliable() + 1)))
      ensures raftLog.Cursors() ==
                if batch == [] then old(raftLog.Cursors())
                else old(raftLog.Cursors()).Accept(old(raftLog.applying) + |batch|, EntsSize(raftLog.size, batch), Appliable())
    {
      hide LimitSize, EntsSize, Whole, Fits, Positive, Suffix.Range, Suffix.Valid, Unstable.Valid;
      raftLog.ValidView();
      raftLog.Bounds();
      ghost var cur, hi := raftLog.Cursors(), Appliable();
      batch := raftLog.NextCommittedEnts(!asyncStorageWrites);
      if |batch| > 0 {
        BatchEnds(raftLog.size, raftLog.View(), cur, hi);
        var size := SumSizes(raftLog.size, batch);
        raftLog.AcceptApplying(batch[|batch| - 1].index, size, !asyncStorageWrites);
      }
    }

    /** A Ready: entries to write and entries to apply. The log itself does not
        change, only what is in progress does. */
    method Ready() returns (write: Pipeline.Write, batch: seq<Entry>)
      requires Valid()
      modifies raftLog, raftLog.unstable
      ensures Valid() && raftLog.View() == old(raftLog.View()) && raftLog.committed == old(raftLog.committed)
      ensures raftLog.unstable.View() == old(raftLog.unstable.View()).AcceptInProgress()
      ensures write.entries == old(raftLog.View().Range(raftLog.unstable.offsetInProgress, raftLog.View().Last() + 1))
      ensures write.resp.Some? <==> old(raftLog.unstable.entries) != []
      ensures raftLog.applying == old(raftLog.applying) + |batch|
      ensures raftLog.applyingEntsSize == old(raftLog.applyingEntsSize) + EntsSize(raftLog.size, batch)
    {
      hide LimitSize, EntsSize, Whole, Fits, Positive;
      write := HandEntries();
      batch := HandCommitted();
      NoSize(raftLog.size);
    }

    /** Storage has written everything up to r.id; a response of an earlier term is
        ignored. Within the term the caller guarantees that storage has taken over
        the tail up to there. */
    method HandleStorageAppendResp(r: Pipeline.Response)
      requires Valid() && r.term <= term
      requires r.term == term ==> Stabilized(raftLog.storage.View(), raftLog.unstable.View(), r.id)
      modifies raftLog.unstable
      ensures Valid() && raftLog.View() == old(raftLog.View())
      ensures raftLog.unstable.View() == if r.term < term then old(raftLog.unstable.View()) else old(raftLog.unstable.View()).StableTo(r.id)
    {
      if r.term < term { return; }
      raftLog.StableTo(r.id);
    }

    /** The application has applied a batch. */
    method HandleStorageApplyResp(batch: seq<Entry>)
      requires Valid() && (batch != [] ==> batch[|batch| - 1].index <= raftLog.committed)
      modifies raftLog
      ensures Valid() && raftLog.View() == old(raftLog.View()) && raftLog.committed == old(raftLog.committed)
      ensures raftLog.Cursors() ==
                if batch == [] then old(raftLog.Cursors())
                else old(raftLog.Cursors()).AppliedTo(Max(batch[|batch| - 1].index, old(raftLog.applied)), EntsSize(raftLog.size, batch))
    {
      if |batch| > 0 {
        var size := SumSizes(raftLog.size, batch);
        raftLog.AppliedTo(Max(batch[|batch| - 1].index, raftLog.applied), size);
      }
    }
  }

  /** The last entry of a batch taken after `applying` has the index its length
      says. */
  lemma BatchEnds(size: Entry -> nat, log: Suffix, cur: Cursor, hi: nat)
    requires log.Valid() && log.base.index <= cur.applying < hi <= log.Last() && !cur.paused && cur.size < cur.max
    ensures var batch := cur.Next(size, log.Range(cur.applying + 1, hi + 1));
            batch != [] && batch[|batch| - 1].index == cur.applying + |batch| <= hi
  {
    var range := log.Range(cur.applying + 1, hi + 1);
    var batch := cur.Next(size, range);
    assert batch[|batch| - 1] == range[|batch| - 1];
  }

  // ------------------------------------------- these are the pipeline's steps

  /** The pipeline state that a storage without compaction and a tail make up. */
  ghost function Seen(term: nat, stable: seq<Entry>, u: Unstable, queue: seq<Pipeline.Write>, acks: set<Pipeline.Response>): Pipeline.State
    requires Fits(Suffix(EntryID(0, 0), stable), u)
  {
    Pipeline.State(term, Whole(Suffix(EntryID(0, 0), stable), u).entries, u, stable, queue, acks)
  }

  /** What a Ready does to the tail and hands out is the pipeline's step. */
  lemma ReadyHands(term: nat, stable: seq<Entry>, u: Unstable, queue: seq<Pipeline.Write>, acks: set<Pipeline.Response>,
      w: Pipeline.Write)
    requires Fits(Suffix(EntryID(0, 0), stable), u)
    requires var log := Whole(Suffix(EntryID(0, 0), stable), u);
             && 1 <= u.offsetInProgress <= log.Last() + 1 && w.entries == log.Range(u.offsetInProgress, log.Last() + 1)
             && w.resp == if u.entries == [] then None else Some(Pipeline.Response(term, EntryID(log.LastTerm(), log.Last())))
    ensures var s := Seen(term, stable, u, queue, acks);
            Pipeline.Hands(s, s.(unstable := u.AcceptInProgress(), queue := queue + [w]))
  {
    hide Whole, Fits, Suffix.Range, Suffix.LastTerm, Unstable.NextEntries, Pipeline.ReadTerm, Pipeline.LastIndex;
    NextIsRange(stable, u);
    if u.entries != [] { LastIsRead(Seen(term, stable, u, queue, acks)); }
  }

  lemma NextIsRange(stable: seq<Entry>, u: Unstable)
    requires Fits(Suffix(EntryID(0, 0), stable), u)
    ensures var log := Whole(Suffix(EntryID(0, 0), stable), u);
            && u.offset <= u.offsetInProgress <= u.offset + |u.entries| && 1 <= u.offsetInProgress <= log.Last() + 1
            && u.NextEntries() == log.Range(u.offsetInProgress, log.Last() + 1)
  {
    hide Whole;
    var stored := Suffix(EntryID(0, 0), stable);
    WholeIsValid(stored, u);
    WholeStarts(stored, u);
    RangeSplits(stored, u, u.offsetInProgress, u.offset + |u.entries|);
  }

  lemma WholeStarts(stable: Suffix, u: Unstable)
    requires Fits(stable, u)
    ensures Whole(stable, u).First() == stable.First()
  {}

  /** The last entry, read through the tail. */
  lemma LastIsRead(s: Pipeline.State)
    requires Fits(Suffix(EntryID(0, 0), s.stable), s.unstable) && s.unstable.entries != []
    requires s.log == Whole(Suffix(EntryID(0, 0), s.stable), s.unstable).entries
    ensures var log := Whole(Suffix(EntryID(0, 0), s.stable), s.unstable);
            Pipeline.LastIndex(s) == log.Last() && Pipeline.ReadTerm(s, log.Last()) == Some(log.LastTerm())
  {}

  /** A storage append is the pipeline's write. */
  lemma AppendWrites(stable: seq<Entry>, ents: seq<Entry>)
    requires Pipeline.NoGap(stable, ents)
    ensures Suffix(EntryID(0, 0), stable).Overwrite(ents) == Suffix(EntryID(0, 0), Pipeline.Written(stable, ents))
  {}

  /** An append to the log is the pipeline's update: accepted or not, with or
      without conflict. */
  lemma AppendUpdates(L: Pipeline.Leaders, s: Pipeline.State, prev: EntryID, ents: seq<Entry>)
    requires Pipeline.Inv(L, s) && s.term in L && IsSlice(L[s.term], prev, ents)
    ensures var log := Suffix(EntryID(0, 0), s.log);
            Pipeline.Updates(L, s, if !log.Matches(prev) then s
                                   else s.(unstable := SplicedTail(log, s.unstable, prev.index, ents),
                                           log := Splice(log, prev.index, ents).entries), prev, ents)
  {
    hide Pipeline.QueueOk, Pipeline.RespOk, Pipeline.TailOk, Pipeline.FromLeaders, Pipeline.Overwrites, Pipeline.ReadTerm,
      Pipeline.ReadConflict, Conflict, FindConflict, Spliced, Splice, SplicedTail, Suffix.TermOf, Unstable.TruncateAndAppend;
    var log := Suffix(EntryID(0, 0), s.log);
    Pipeline.ReadsLog(s, prev.index);
    Pipeline.ReadsConflict(s, prev.index, ents);
    SliceIsConsecutive(L, s.term, prev.index, ents);
    SearchesAgree(s.log, ents, prev.index, 0, 0);
    SpliceAgrees(s.log, prev.index, ents);
    MatchesAgree(s.log, prev);
    if MatchTerm(s.log, prev) {
      Pipeline.ConflictOverwrites(L, s, prev, ents);
      Pipeline.OffsetsInOrder(s);
      TailSplices(log, s.unstable, prev.index, ents);
      if FindConflict(s.log, prev.index, ents) == 0 { NothingSpliced(s.log, prev.index, ents); }
    }
  }

  lemma MatchesAgree(log: seq<Entry>, id: EntryID)
    ensures Suffix(EntryID(0, 0), log).Matches(id) <==> MatchTerm(log, id)
  {}

  lemma NothingSpliced(log: seq<Entry>, prev: nat, ents: seq<Entry>)
    requires FindConflict(log, prev, ents) == 0
    ensures Spliced(log, prev, ents) == log
  {}

  lemma SliceIsConsecutive(L: Pipeline.Leaders, term: nat, prev: nat, ents: seq<Entry>)
    requires Pipeline.Family(L) && term in L && prev + |ents| <= |L[term]| && ents == L[term][prev..prev + |ents|]
    ensures Consecutive(ents, prev + 1)
  {
    assert Pipeline.FromLeaders(L, L[term]);
  }
}
