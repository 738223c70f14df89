/** The raft log as the program keeps it: stable storage and the in-memory tail,
    read and written as one sequence. */
module TwoPartLog {
  import opened Logs
  import opened Sizes
  import opened UnstableTail
  import opened StableStorage
  import opened Applying
  import Pipeline

  // -------------------------------------------------------- the one sequence

  /** The log that a storage and a tail make up. */
  ghost predicate Fits(stable: Suffix, u: Unstable) {
    && stable.Valid() && u.Valid() && stable.First() <= u.offset <= stable.Last() + 1
    && (u.entries == [] ==> u.offset == stable.Last() + 1)
  }

  ghost function Whole(stable: Suffix, u: Unstable): Suffix
    requires Fits(stable, u)
  {
    Suffix(stable.base, stable.entries[..u.offset - stable.First()] + u.entries)
  }

  lemma WholeIsValid(stable: Suffix, u: Unstable)
    requires Fits(stable, u)
    ensures Whole(stable, u).Valid() && Whole(stable, u).Last() + 1 == u.offset + |u.entries|
  {}

  /** Where a term is found: in the tail, or else in storage. */
  lemma TermSplits(stable: Suffix, u: Unstable, i: nat)
    requires Fits(stable, u)
    ensures u.MaybeTerm(i).Some? ==> Whole(stable, u).TermOf(i) == Ok(u.MaybeTerm(i).value)
    ensures u.MaybeTerm(i).None? && i <= Whole(stable, u).Last() ==> Whole(stable, u).TermOf(i) == stable.TermOf(i)
  {}

  /** A range is a range of the tail, of storage, or of both. */
  lemma RangeSplits(stable: Suffix, u: Unstable, lo: nat, hi: nat)
    requires Fits(stable, u) && stable.First() <= lo <= hi <= Whole(stable, u).Last() + 1
    ensures u.offset <= lo ==> Whole(stable, u).Range(lo, hi) == u.entries[lo - u.offset..hi - u.offset]
    ensures hi <= u.offset ==> Whole(stable, u).Range(lo, hi) == stable.Range(lo, hi)
    ensures lo <= u.offset <= hi ==>
              Whole(stable, u).Range(lo, hi) == stable.Range(lo, u.offset) + u.entries[..hi - u.offset]
  {
    hide Suffix.Valid, Unstable.Valid;
    var k, i, j := u.offset - stable.First(), lo - stable.First(), hi - stable.First();
    if u.offset <= lo { SliceRight(stable.entries, u.entries, k, i, j); }
    if hi <= u.offset { SliceLeft(stable.entries, u.entries, k, i, j); }
    if lo <= u.offset <= hi { SliceBoth(stable.entries, u.entries, k, i, j); }
  }

  lemma SliceRight(s: seq<Entry>, t: seq<Entry>, k: nat, i: nat, j: nat)
    requires k <= |s| && k <= i <= j <= k + |t|
    ensures (s[..k] + t)[i..j] == t[i - k..j - k]
  {}

  lemma SliceLeft(s: seq<Entry>, t: seq<Entry>, k: nat, i: nat, j: nat)
    requires k <= |s| && i <= j <= k
    ensures (s[..k] + t)[i..j] == s[i..j]
  {}

  lemma SliceBoth(s: seq<Entry>, t: seq<Entry>, k: nat, i: nat, j: nat)
    requires k <= |s| && i <= k <= j <= k + |t|
    ensures (s[..k] + t)[i..j] == s[i..k] + t[..j - k]
  {}

  /** Appending to the tail is appending to the whole, from any index after the
      base. */
  lemma AppendSplits(stable: Suffix, u: Unstable, ents: seq<Entry>)
    requires Fits(stable, u) && ents != [] && Consecutive(ents, ents[0].index)
    requires stable.First() <= ents[0].index <= Whole(stable, u).Last() + 1
    ensures Fits(stable, u.TruncateAndAppend(ents))
    ensures Whole(stable, u.TruncateAndAppend(ents)) == Whole(stable, u).Overwrite(ents)
  {
    var w, k := Whole(stable, u).entries, ents[0].index - stable.First();
    if ents[0].index <= u.offset {
      assert w[..k] == stable.entries[..k];
    } else {
      assert w[..k] == stable.entries[..u.offset - stable.First()] + u.entries[..ents[0].index - u.offset];
    }
  }

  /** Storage has taken over the tail up to id. */
  ghost predicate Stabilized(stable: Suffix, u: Unstable, id: EntryID)
    requires Fits(stable, u)
  {
    u.MaybeTerm(id.index) == Some(id.term) ==>
      && id.index <= stable.Last()
      && stable.Range(u.offset, id.index + 1) == u.entries[..id.index + 1 - u.offset]
      && (id.index == Whole(stable, u).Last() ==> stable.Last() == id.index)
  }

  lemma StableSplits(stable: Suffix, u: Unstable, id: EntryID)
    requires Fits(stable, u) && Stabilized(stable, u, id)
    ensures Fits(stable, u.StableTo(id)) && Whole(stable, u.StableTo(id)) == Whole(stable, u)
  {
    if u.MaybeTerm(id.index) == Some(id.term) {
      var n, k := id.index + 1 - u.offset, u.offset - stable.First();
      assert u.entries == u.entries[..n] + u.entries[n..];
      assert stable.entries[..k + n] == stable.entries[..k] + stable.entries[k..k + n];
    }
  }

  // --------------------------------------------------------------- searching

  /** The index of the first entry that the log does not hold, or 0. */
  function Conflict(log: Suffix, ents: seq<Entry>): nat {
    if ents == [] then 0
    else if !log.Matches(EntryID(ents[0].term, ents[0].index)) then ents[0].index
    else Conflict(log, ents[1..])
  }

  function ConflictByTerm(log: Suffix, index: nat, term: nat): (nat, nat) {
    if index == 0 then (0, 0)
    else match log.TermOf(index)
      case Err(_) => (index, 0)
      case Ok(ourTerm) => if ourTerm <= term then (index, ourTerm) else ConflictByTerm(log, index - 1, term)
  }

  /** On a log from which nothing was compacted these are the operations of the
      abstract log. */
  lemma {:induction false} SearchesAgree(log: seq<Entry>, ents: seq<Entry>, prev: nat, index: nat, term: nat)
    requires Consecutive(ents, prev + 1)
    ensures Conflict(Suffix(EntryID(0, 0), log), ents) == FindConflict(log, prev, ents)
    ensures ConflictByTerm(Suffix(EntryID(0, 0), log), index, term) == FindConflictByTerm(log, index, term)
    decreases |ents| + index
  {
    if ents != [] { SearchesAgree(log, ents[1..], prev + 1, index, term); }
    if index > 0 { SearchesAgree(log, ents, prev, index - 1, term); }
  }

  /** How an append fares: the log does not match at its anchor, an entry conflicts
      with a committed one (the program panics), or it goes in up to an index. */
  datatype Attempt = Mismatch | Clash | Appends(lastnewi: nat)

  function Outcome(log: Suffix, committed: nat, prev: EntryID, ents: seq<Entry>): Attempt {
    if !log.Matches(prev) then Mismatch
    else if Conflict(log, ents) != 0 && Conflict(log, ents) <= committed then Clash
    else Appends(prev.index + |ents|)
  }

  /** What an append accepted at prev makes of the log: from the first conflict
      on, the new entries replace it. */
  function Splice(log: Suffix, prev: nat, ents: seq<Entry>): Suffix {
    var ci := Conflict(log, ents);
    if prev < ci <= prev + |ents| && ents[ci - 1 - prev].index <= log.Last() + 1 then log.Overwrite(ents[ci - 1 - prev..]) else log
  }

  /** The tail after such an append. */
  function SplicedTail(log: Suffix, u: Unstable, prev: nat, ents: seq<Entry>): Unstable {
    var ci := Conflict(log, ents);
    if prev < ci <= prev + |ents| && ents[ci - 1 - prev].index <= u.offset + |u.entries|
    then u.TruncateAndAppend(ents[ci - 1 - prev..]) else u
  }

  lemma SpliceAgrees(log: seq<Entry>, prev: nat, ents: seq<Entry>)
    requires Consecutive(ents, prev + 1)
    ensures Splice(Suffix(EntryID(0, 0), log), prev, ents) == Suffix(EntryID(0, 0), Spliced(log, prev, ents))
  {
    SearchesAgree(log, ents, prev, 0, 0);
  }

  /** The spliced log ends no earlier than the entries appended. */
  lemma SpliceReaches(log: Suffix, prev: nat, ents: seq<Entry>)
    requires log.Valid() && Consecutive(ents, prev + 1) && log.base.index <= prev <= log.Last()
    ensures var ci := Conflict(log, ents);
            && (ci != 0 ==> prev < ci <= prev + |ents| && ci <= log.Last() + 1 && ents[ci - 1 - prev].index == ci)
            && Splice(log, prev, ents) == (if ci == 0 then log else log.Overwrite(ents[ci - 1 - prev..]))
            && Splice(log, prev, ents).Last() >= prev + |ents|
  {
    hide Conflict, Suffix.TermOf, Suffix.Overwrite, Consecutive;
    ConflictInRange(log, ents, prev + 1);
    var ci := Conflict(log, ents);
    if ci == 0 {
      NoConflictInRange(log, ents, prev + 1);
    } else {
      StartsAt(ents, prev + 1);
      DropConsecutive(ents, ci - 1 - prev);
      OverwriteReads(log, ents[ci - 1 - prev..], 0);
    }
  }

  lemma TailSplices(log: Suffix, u: Unstable, prev: nat, ents: seq<Entry>)
    requires log.Last() + 1 == u.offset + |u.entries|
    requires var ci := Conflict(log, ents);
             ci != 0 ==> prev < ci <= prev + |ents| && ci <= log.Last() + 1 && ents[ci - 1 - prev].index == ci
    ensures var ci := Conflict(log, ents);
            SplicedTail(log, u, prev, ents) == if ci == 0 then u else u.TruncateAndAppend(ents[ci - 1 - prev..])
  {
    hide Conflict, Unstable.TruncateAndAppend;
  }

  lemma StartsAt(ents: seq<Entry>, from: nat)
    requires ents != [] && Consecutive(ents, from)
    ensures ents[0].index == from
  {}

  lemma {:induction false} ConflictInRange(log: Suffix, ents: seq<Entry>, from: nat)
    requires log.Valid() && Consecutive(ents, from) && log.First() <= from <= log.Last() + 1
    ensures var ci := Conflict(log, ents);
            ci != 0 ==> ents != [] && from <= ci < from + |ents| && ci <= log.Last() + 1
    decreases |ents|
  {
    if ents != [] && log.Matches(EntryID(ents[0].term, ents[0].index)) { ConflictInRange(log, ents[1..], from + 1); }
  }

  /** Extends the n entries `stored`, already limited to `ents`, by as much of
      `rest` as the limit allows. */
  method LimitBoth(size: Entry -> nat, ghost stored: seq<Entry>, n: nat, ents: seq<Entry>, rest: seq<Entry>, maxSize: nat)
      returns (r: seq<Entry>)
    requires Positive(size) && stored != [] && n == |stored| && rest != [] && ents == LimitSize(size, stored, maxSize)
    ensures r == LimitSize(size, stored + rest, maxSize)
  {
    hide LimitSize, EntsSize;
    LimitedLength(size, stored, maxSize);
    if |ents| < n {
      CutInFirst(size, stored, rest, maxSize);
      return ents;
    }
    var total := SumSizes(size, ents);
    if total >= maxSize {
      CutBetween(size, stored, rest, maxSize);
      return ents;
    }
    CutInSecond(size, stored, rest, maxSize);
    var limited := LimitEntries(size, rest, maxSize - total);
    var restSize := SumSizes(size, limited);
    if |limited| == 1 && total + restSize > maxSize { return ents; }
    return ents + limited;
  }

  // ---------------------------------------------------------------- the object

  class RaftLog {
    const storage: MemoryStorage
    const unstable: UnstableLog
    const size: Entry -> nat
    const maxApplyingEntsSize: nat
    var committed: nat
    var applying: nat
    var applied: nat
    var applyingEntsSize: nat
    var applyingEntsPaused: bool

    ghost predicate Valid()
      reads this, storage, unstable
    {
      && storage.Valid() && unstable.Valid() && Fits(storage.View(), unstable.View()) && Positive(size)
      && storage.View().base.index <= applied <= applying <= committed <= View().Last()
    }

    ghost function View(): Suffix
      requires storage.Valid() && Fits(storage.View(), unstable.View())
      reads this, storage, unstable
    {
      Whole(storage.View(), unstable.View())
    }

    ghost function Cursors(): Cursor
      reads this
    {
      Cursor(applying, applied, applyingEntsSize, maxApplyingEntsSize, applyingEntsPaused)
    }

    constructor (storage: MemoryStorage, size: Entry -> nat, maxApplyingEntsSize: nat)
      requires storage.Valid() && Positive(size)
      ensures this.storage == storage && this.size == size && fresh(unstable) && Valid() && View() == storage.View()
      ensures committed == storage.View().base.index
      ensures Cursors() == Cursor(committed, committed, 0, maxApplyingEntsSize, false)
    {
      var firstIndex := storage.FirstIndex();
      var lastIndex := storage.LastIndex();
      this.storage, this.size, this.maxApplyingEntsSize := storage, size, maxApplyingEntsSize;
      unstable := new UnstableLog(lastIndex);
      committed, applying, applied := firstIndex - 1, firstIndex - 1, firstIndex - 1;
      applyingEntsSize, applyingEntsPaused := 0, false;
    }

    // ---------------------------------------------------------------- reading

    method FirstIndex() returns (i: nat)
      requires Valid()
      ensures i == View().First()
    {
      i := storage.FirstIndex();
    }

    method LastIndex() returns (i: nat)
      requires Valid()
      ensures i == View().Last()
    {
      var last := unstable.MaybeLastIndex();
      if last.Some? { return last.value; }
      i := storage.LastIndex();
    }

    method Term(i: nat) returns (r: Result<nat>)
      requires Valid()
      ensures r == View().TermOf(i)
    {
      TermSplits(storage.View(), unstable.View(), i);
      var t := unstable.MaybeTerm(i);
      if t.Some? { return Ok(t.value); }
      var first := FirstIndex();
      if i + 1 < first { return Err(Compacted); }
      var last := LastIndex();
      if i > last { return Err(Unavailable); }
      r := storage.Term(i);
    }

    method MatchTerm(id: EntryID) returns (ok: bool)
      requires Valid()
      ensures ok <==> View().Matches(id)
    {
      var t := Term(id.index);
      return t.Ok? && t.value == id.term;
    }

    method LastEntryID() returns (id: EntryID)
      requires Valid()
      ensures id == EntryID(View().LastTerm(), View().Last())
    {
      var index := LastIndex();
      var t := Term(index);
      return EntryID(t.value, index);
    }

    method IsUpToDate(their: EntryID) returns (ok: bool)
      requires Valid()
      ensures ok <==> their.term > View().LastTerm() || (their.term == View().LastTerm() && their.index >= View().Last())
    {
      var our := LastEntryID();
      return their.term > our.term || (their.term == our.term && their.index >= our.index);
    }

    method FindConflict(ents: seq<Entry>) returns (ci: nat)
      requires Valid()
      ensures ci == Conflict(View(), ents)
    {
      for i := 0 to |ents|
        invariant Conflict(View(), ents) == Conflict(View(), ents[i..])
      {
        assert ents[i..][0] == ents[i] && ents[i..][1..] == ents[i + 1..];
        var ok := MatchTerm(EntryID(ents[i].term, ents[i].index));
        if !ok { return ents[i].index; }
      }
      return 0;
    }

    method FindConflictByTerm(index: nat, term: nat) returns (i: nat, t: nat)
      requires Valid()
      ensures (i, t) == ConflictByTerm(View(), index, term)
    {
      i := index;
      while i > 0
        invariant ConflictByTerm(View(), index, term) == ConflictByTerm(View(), i, term)
      {
        var ourTerm := Term(i);
        if ourTerm.Err? { return i, 0; }
        if ourTerm.value <= term { return i, ourTerm.value; }
        i := i - 1;
      }
      return 0, 0;
    }

    /** The size-limited prefix of the entries in [lo, hi), as one sequence. */
    method Slice(lo: nat, hi: nat, maxSize: nat) returns (r: Result<seq<Entry>>)
      requires Valid() && lo <= hi <= View().Last() + 1
      ensures r == if lo < View().First() then Err(Compacted) else Ok(LimitSize(size, View().Range(lo, hi), maxSize))
    {
      hide LimitSize, EntsSize, Fits, Suffix.Valid, Unstable.Valid;
      var first := FirstIndex();
      if lo < first { return Err(Compacted); }
      if lo == hi {
        NothingToLimit(size, View().Range(lo, hi), maxSize);
        return Ok([]);
      }
      ghost var whole := View().Range(lo, hi);
      RangeSplits(storage.View(), unstable.View(), lo, hi);
      Bounds();
      if lo >= unstable.offset {
        var part := unstable.Slice(lo, hi);
        var limited := LimitEntries(size, part, maxSize);
        return Ok(limited);
      }
      var cut := Min(hi, unstable.offset);
      ghost var a := storage.View().Range(lo, cut);
      var stored := storage.Entries(size, lo, cut, maxSize);
      var ents := stored.value;
      if hi <= unstable.offset { return Ok(ents); }
      var rest := unstable.Slice(unstable.offset, hi);
      assert whole == a + rest;
      var both := LimitBoth(size, a, cut - lo, ents, rest, maxSize);
      return Ok(both);
    }

    lemma Bounds()
      requires Valid()
      ensures storage.View().First() <= unstable.offset <= storage.View().Last() + 1
              && View().Last() + 1 == unstable.offset + |unstable.entries|
      ensures unstable.Valid() && View().First() == storage.View().First()
    {
      WholeIsValid(storage.View(), unstable.View());
    }

    method Entries(i: nat, maxSize: nat) returns (r: Result<seq<Entry>>)
      requires Valid()
      ensures r == if i > View().Last() then Ok([])
                   else if i < View().First() then Err(Compacted)
                   else Ok(LimitSize(size, View().Range(i, View().Last() + 1), maxSize))
    {
      var last := LastIndex();
      if i > last { return Ok([]); }
      r := Slice(i, last + 1, maxSize);
    }

    /** Visits the entries in [lo, hi) page by page until `stop` says so. The
        pages are what was visited. */
    method Scan(lo: nat, hi: nat, pageSize: nat, stop: seq<Entry> -> bool) returns (pages: seq<seq<Entry>>,
        r: Result<bool>)
      requires Valid() && lo <= hi <= View().Last() + 1
      ensures lo < hi && lo < View().First() ==> pages == [] && r == Err(Compacted)
      ensures lo == hi ==> pages == [] && r == Ok(true)
      ensures lo >= View().First() ==>
                && r.Ok?
                && (if r.value then Concat(pages) == View().Range(lo, hi)
                    else pages != [] && stop(pages[|pages| - 1]) && Concat(pages) <= View().Range(lo, hi))
                && (forall p | p in pages :: p != [] && (EntsSize(size, p) <= pageSize || |p| == 1))
    {
      hide Whole, Fits, LimitSize, EntsSize, Concat, Suffix.Range, Positive;
      var at := lo;
      pages := [];
      NoPages();
      if lo >= View().First() { RangePrefix(View(), lo, lo, hi); }
      while at < hi
        invariant lo <= at <= hi && (at == lo ==> pages == []) && (at > lo ==> lo >= View().First())
        invariant lo >= View().First() ==> Concat(pages) == View().Range(lo, at)
        invariant forall p | p in pages :: p != [] && (EntsSize(size, p) <= pageSize || |p| == 1)
      {
        var page := Slice(at, hi, pageSize);
        if page.Err? { return pages, Err(page.error); }
        var ents := page.value;
        RangePrefix(View(), lo, at, hi);
        PageFits(size, View().Range(at, hi), pageSize);
        RangeExtends(View(), lo, at, hi, ents);
        ConcatAdd(pages, ents);
        pages := pages + [ents];
        at := at + |ents|;
        if stop(ents) {
          RangePrefix(View(), lo, at, hi);
          return pages, Ok(false);
        }
      }
      return pages, Ok(true);
    }

    // ---------------------------------------------------------------- writing

    method Append(ents: seq<Entry>) returns (last: nat)
      requires Valid() && (ents != [] ==> Consecutive(ents, ents[0].index) && committed < ents[0].index <= View().Last() + 1)
      modifies unstable
      ensures Valid() && View() == old(View()).Overwrite(ents) && last == View().Last()
      ensures unstable.View() == if ents == [] then old(unstable.View()) else old(unstable.View()).TruncateAndAppend(ents)
    {
      hide Positive;
      if |ents| > 0 {
        WholeIsValid(storage.View(), unstable.View());
        AppendSplits(storage.View(), unstable.View(), ents);
        unstable.TruncateAndAppend(ents);
      }
      last := LastIndex();
    }

    /** Moves the commit index forward; refused, where the program panics, past
        the end of the log. */
    method CommitTo(tocommit: nat) returns (ok: bool)
      requires Valid()
      modifies `committed
      ensures Valid() && View() == old(View()) && (ok <==> tocommit <= old(committed) || tocommit <= View().Last())
      ensures committed == if ok then Logs.CommitTo(old(committed), tocommit) else old(committed)
    {
      if committed < tocommit {
        var last := LastIndex();
        if last < tocommit { return false; }
        committed := tocommit;
      }
      return true;
    }

    /** Appends a slice that follows prev, if the log matches there and no entry of
        the slice conflicts with a committed one. */
    method MaybeAppend(prev: EntryID, ents: seq<Entry>, commit: nat) returns (r: Attempt)
      requires Valid() && Consecutive(ents, prev.index + 1)
      modifies unstable, `committed
      ensures Valid() && r == Outcome(old(View()), old(committed), prev, ents)
      ensures !r.Appends? ==> View() == old(View()) && unstable.View() == old(unstable.View()) && committed == old(committed)
      ensures r.Appends? ==>
                && View() == Splice(old(View()), prev.index, ents)
                && unstable.View() == SplicedTail(old(View()), old(unstable.View()), prev.index, ents)
                && committed == Logs.CommitTo(old(committed), Min(commit, prev.index + |ents|))
    {
      hide Positive, Whole, Fits, Conflict, Splice, SplicedTail, Suffix.Overwrite, Unstable.TruncateAndAppend;
      var ok := MatchTerm(prev);
      if !ok { return Mismatch; }
      var last := prev.index + |ents|;
      var ci := FindConflict(ents);
      if ci != 0 && ci <= committed { return Clash; }
      ReplaceFrom(ci, prev, ents);
      var _ := CommitTo(Min(commit, last));
      return Appends(last);
    }

    /** Replaces the log from the first conflict with the entries after prev, if
        there is one. */
    method ReplaceFrom(ci: nat, prev: EntryID, ents: seq<Entry>)
      requires Valid() && Consecutive(ents, prev.index + 1) && View().Matches(prev)
      requires ci == Conflict(View(), ents) && (ci == 0 || committed < ci)
      modifies unstable
      ensures Valid() && View() == Splice(old(View()), prev.index, ents) && View().Last() >= prev.index + |ents|
      ensures unstable.View() == SplicedTail(old(View()), old(unstable.View()), prev.index, ents)
    {
      hide Positive, Whole, Fits, Conflict, Splice, SplicedTail, Suffix.Overwrite, Unstable.TruncateAndAppend;
      ValidView();
      Bounds();
      SpliceReaches(View(), prev.index, ents);
      TailSplices(View(), unstable.View(), prev.index, ents);
      if ci != 0 {
        DropConsecutive(ents, ci - 1 - prev.index);
        var _ := Append(ents[ci - 1 - prev.index..]);
      }
    }

    lemma CommittedInLog()
      requires Valid()
      ensures committed <= View().Last()
    {}

    lemma ValidView()
      requires Valid()
      ensures View().Valid()
    {
      WholeIsValid(storage.View(), unstable.View());
    }

    method MaybeCommit(at: EntryID) returns (advanced: bool)
      requires Valid()
      modifies `committed
      ensures Valid() && View() == old(View()) && (advanced <==> at.term != 0 && at.index > old(committed) && View().Matches(at))
      ensures committed == if advanced then at.index else old(committed)
    {
      if at.term != 0 && at.index > committed {
        var ok := MatchTerm(at);
        if ok {
          var _ := CommitTo(at.index);
          return true;
        }
      }
      return false;
    }

    // ------------------------------------------------------------- persisting

    /** The entries not yet handed out for writing. */
    method NextUnstableEnts() returns (ents: seq<Entry>)
      requires Valid()
      ensures ents == View().Range(unstable.offsetInProgress, View().Last() + 1)
    {
      RangeSplits(storage.View(), unstable.View(), unstable.offsetInProgress, View().Last() + 1);
      ents := unstable.NextEntries();
    }

    method AcceptUnstable()
      requires Valid()
      modifies unstable
      ensures Valid() && View() == old(View()) && unstable.View() == old(unstable.View()).AcceptInProgress()
      ensures unstable.offset == old(unstable.offset) && unstable.offsetInProgress == View().Last() + 1
    {
      unstable.AcceptInProgress();
    }

    /** Storage acknowledges everything up to id. */
    method StableTo(id: EntryID)
      requires Valid() && Stabilized(storage.View(), unstable.View(), id)
      modifies unstable
      ensures Valid() && View() == old(View()) && unstable.View() == old(unstable.View()).StableTo(id)
      ensures unstable.offset == if old(unstable.View().MaybeTerm(id.index)) == Some(id.term) then id.index + 1 else old(unstable.offset)
    {
      StableSplits(storage.View(), unstable.View(), id);
      unstable.StableTo(id);
    }

    // --------------------------------------------------------------- applying

    method MaxAppliableIndex(allowUnstable: bool) returns (hi: nat)
      requires Valid()
      ensures hi == if allowUnstable then committed else Min(committed, unstable.offset - 1)
    {
      hi := committed;
      if !allowUnstable { hi := Min(hi, unstable.offset - 1); }
    }

    method NextCommittedEnts(allowUnstable: bool) returns (ents: seq<Entry>)
      requires Valid() && (!applyingEntsPaused ==> applyingEntsSize < maxApplyingEntsSize)
      ensures var hi := if allowUnstable then committed else Min(committed, unstable.offset - 1);
              ents == if hi <= applying then [] else Cursors().Next(size, View().Range(applying + 1, hi + 1))
    {
      hide LimitSize, Whole, Fits, Suffix.Range, Positive;
      if applyingEntsPaused { return []; }
      Bounds();
      var hi := MaxAppliableIndex(allowUnstable);
      if applying + 1 >= hi + 1 { return []; }
      var r := Slice(applying + 1, hi + 1, maxApplyingEntsSize - applyingEntsSize);
      return r.value;
    }

    method AcceptApplying(i: nat, more: nat, allowUnstable: bool)
      requires Valid() && applying <= i <= committed
      modifies `applying, `applyingEntsSize, `applyingEntsPaused
      ensures Valid()
      ensures Cursors() == old(Cursors()).Accept(i, more, if allowUnstable then committed else Min(committed, unstable.offset - 1))
    {
      applying := i;
      applyingEntsSize := applyingEntsSize + more;
      var hi := MaxAppliableIndex(allowUnstable);
      applyingEntsPaused := applyingEntsSize >= maxApplyingEntsSize || i < hi;
    }

    method AppliedTo(i: nat, done: nat)
      requires Valid() && applied <= i <= committed
      modifies `applying, `applied, `applyingEntsSize, `applyingEntsPaused
      ensures Valid() && Cursors() == old(Cursors()).AppliedTo(i, done)
    {
      applied := i;
      applying := Max(applying, i);
      if applyingEntsSize > done {
        applyingEntsSize := applyingEntsSize - done;
      } else {
        applyingEntsSize := 0;
      }
      applyingEntsPaused := applyingEntsSize >= maxApplyingEntsSize;
    }
  }

  /** In the append pipeline an acknowledgement is only heeded when storage has
      taken over the tail up to it, as StableTo requires. */
  lemma HeededAckStabilizes(L: Pipeline.Leaders, run: seq<Pipeline.State>, k: nat, r: Pipeline.Response)
    requires Pipeline.Family(L) && Pipeline.IsRun(L, run) && k < |run| && r in run[k].responses && r.term == run[k].term
    ensures var s, stable := run[k], Suffix(EntryID(0, 0), run[k].stable);
            && Fits(stable, s.unstable) && Whole(stable, s.unstable) == Suffix(EntryID(0, 0), s.log)
            && Stabilized(stable, s.unstable, r.id)
  {
    hide Pipeline.QueueOk, Pipeline.RespOk, Pipeline.FromLeaders, Pipeline.Family, Pipeline.IsRun;
    Pipeline.InvHolds(L, run, k);
    var s, u := run[k], run[k].unstable;
    if u.MaybeTerm(r.id.index) == Some(r.id.term) {
      Pipeline.HeededIsSafe(L, run, k, r);
      var i := r.id.index;
      assert s.stable[u.offset - 1..i] == s.stable[..i][u.offset - 1..] == s.log[..i][u.offset - 1..];
      assert u.entries[..i + 1 - u.offset] == s.log[u.offset - 1..][..i + 1 - u.offset];
    }
  }

  // ----------------------------------------------------------------- helpers

  lemma NothingToLimit(size: Entry -> nat, s: seq<Entry>, max: nat)
    requires s == []
    ensures LimitSize(size, s, max) == []
  {}

  lemma LimitedLength(size: Entry -> nat, s: seq<Entry>, max: nat)
    ensures |LimitSize(size, s, max)| <= |s|
    ensures |LimitSize(size, s, max)| == |s| ==> LimitSize(size, s, max) == s
  {}

  lemma NoPages()
    ensures Concat([]) == []
  {}

  lemma PageFits(size: Entry -> nat, range: seq<Entry>, max: nat)
    requires range != []
    ensures var p := LimitSize(size, range, max);
            p != [] && p <= range && (EntsSize(size, p) <= max || |p| == 1)
  {
    LimitIsCut(size, range, max);
    var p := LimitSize(size, range, max);
    assert p == range[..|p|];
  }

  lemma RangePrefix(log: Suffix, lo: nat, at: nat, hi: nat)
    requires log.First() <= lo <= at <= hi <= log.Last() + 1
    ensures log.Range(lo, lo) == [] && log.Range(lo, at) <= log.Range(lo, hi) && |log.Range(at, hi)| == hi - at
  {}

  lemma RangeExtends(log: Suffix, lo: nat, at: nat, hi: nat, page: seq<Entry>)
    requires log.First() <= lo <= at <= hi <= log.Last() + 1 && page <= log.Range(at, hi)
    ensures |page| <= hi - at && log.Range(lo, at) + page == log.Range(lo, at + |page|)
  {
    var i, j, k := lo - log.First(), at - log.First(), at + |page| - log.First();
    assert page == log.entries[j..hi - log.First()][..|page|] == log.entries[j..k];
    assert log.entries[i..k] == log.entries[i..j] + log.entries[j..k];
  }

  /** Entries without conflict are all in the log. */
  lemma {:induction false} NoConflictInRange(log: Suffix, ents: seq<Entry>, from: nat)
    requires Consecutive(ents, from) && from <= log.Last() + 1 && Conflict(log, ents) == 0 && from > 0
    ensures from + |ents| <= log.Last() + 1
    decreases |ents|
  {
    if ents != [] { NoConflictInRange(log, ents[1..], from + 1); }
  }
}
