/** Stable storage: a log whose beginning may have been compacted away. */
module StableStorage {
  import opened Logs
  import opened Sizes

  datatype LogError = Compacted | Unavailable

  datatype Result<T> = Ok(value: T) | Err(error: LogError)

  /** The log after base: entries[i] has index base.index + 1 + i. Of the entry at
      base only its term is still known. */
  datatype Suffix = Suffix(base: EntryID, entries: seq<Entry>) {
    ghost predicate Valid() { Consecutive(entries, First()) }

    function First(): nat { base.index + 1 }

    function Last(): nat { base.index + |entries| }

    function TermOf(i: nat): Result<nat> {
      if i < base.index then Err(Compacted)
      else if i == base.index then Ok(base.term)
      else if i <= Last() then Ok(entries[i - First()].term)
      else Err(Unavailable)
    }

    predicate Matches(id: EntryID) { TermOf(id.index) == Ok(id.term) }

    function LastTerm(): nat {
      if entries == [] then base.term else entries[|entries| - 1].term
    }

    /** The entries with indexes in [lo, hi). */
    function Range(lo: nat, hi: nat): seq<Entry>
      requires First() <= lo <= hi <= Last() + 1
    {
      entries[lo - First()..hi - First()]
    }

    /** Replaces everything from the first given index on; what is given at or
        below the base is dropped. */
    function Overwrite(ents: seq<Entry>): Suffix
      requires ents != [] ==> ents[0].index <= Last() + 1
    {
      if ents == [] || ents[0].index + |ents| <= First() then this
      else if ents[0].index < First() then Suffix(base, ents[First() - ents[0].index..])
      else Suffix(base, entries[..ents[0].index - First()] + ents)
    }

    function Compact(i: nat): Suffix
      requires First() <= i <= Last()
    {
      Suffix(EntryID(entries[i - First()].term, i), entries[i + 1 - First()..])
    }
  }

  /** After an append the new entries are read in their places, what precedes them
      is as before and nothing follows them. */
  lemma OverwriteReads(s: Suffix, ents: seq<Entry>, i: nat)
    requires s.Valid() && ents != [] && Consecutive(ents, ents[0].index) && ents[0].index <= s.Last() + 1
    ensures var s', from := s.Overwrite(ents), ents[0].index;
            && s'.Valid() && s'.base == s.base
            && (from + |ents| > s.First() ==> s'.Last() == from + |ents| - 1)
            && s'.TermOf(i) ==
                 if from + |ents| <= s.First() || i < from || i <= s.base.index then s.TermOf(i)
                 else if i < from + |ents| then Ok(ents[i - from].term)
                 else Err(Unavailable)
  {}

  /** Compaction forgets what is before the index and nothing else. */
  lemma CompactReads(s: Suffix, k: nat, i: nat)
    requires s.Valid() && s.First() <= k <= s.Last()
    ensures s.Compact(k).Valid() && s.Compact(k).Last() == s.Last()
    ensures s.Compact(k).TermOf(i) == if i < k then Err(Compacted) else s.TermOf(i)
  {}

  lemma TailSlice(s: seq<Entry>, i: nat, j: nat)
    requires 1 <= i <= j <= |s|
    ensures s[i..j] == s[1..][i - 1..j - 1]
  {
    var t := s[1..];
    forall x | 0 <= x < j - i ensures s[i..j][x] == t[i - 1..j - 1][x] { assert t[i - 1 + x] == s[i + x]; }
  }

  lemma DropConsecutive(ents: seq<Entry>, k: nat)
    requires k < |ents| && Consecutive(ents, ents[0].index)
    ensures ents[k..][0].index == ents[0].index + k && Consecutive(ents[k..], ents[0].index + k)
  {}

  lemma KeptOverwrites(s: Suffix, ents: seq<Entry>, kept: seq<Entry>)
    requires kept != [] && s.First() <= kept[0].index <= s.Last() + 1 && ents != []
             && ents[0].index + |ents| > s.First()
    requires if ents[0].index < s.First() then kept == ents[s.First() - ents[0].index..] && kept[0].index == s.First()
             else kept == ents
    ensures ents[0].index <= s.Last() + 1
    ensures s.Overwrite(ents) == Suffix(s.base, s.entries[..kept[0].index - s.First()] + kept)
  {
    assert s.entries[..0] + kept == kept;
  }

  lemma SpliceTail(s: seq<Entry>, more: seq<Entry>, k: nat)
    requires s != [] && Consecutive(s, s[0].index) && more != [] && Consecutive(more, more[0].index)
    requires 1 <= k <= |s| && more[0].index == s[0].index + k
    ensures var r := s[..k] + more;
            Consecutive(r, s[0].index) && r[0] == s[0] && r[1..] == s[1..][..k - 1] + more
  {
    TailSlice(s, 1, k);
  }

  class MemoryStorage {
    /** ents[0] stands for the last compacted entry. */
    var ents: seq<Entry>

    ghost predicate Valid()
      reads this
    {
      |ents| > 0 && Consecutive(ents, ents[0].index)
    }

    ghost function View(): Suffix
      requires |ents| > 0
      reads this
    {
      Suffix(EntryID(ents[0].term, ents[0].index), ents[1..])
    }

    constructor ()
      ensures Valid() && View() == Suffix(EntryID(0, 0), [])
    {
      ents := [Entry(0, 0, "")];
    }

    method FirstIndex() returns (i: nat)
      requires Valid()
      ensures i == View().First()
    {
      return ents[0].index + 1;
    }

    method LastIndex() returns (i: nat)
      requires Valid()
      ensures i == View().Last()
    {
      return ents[0].index + |ents| - 1;
    }

    method Term(i: nat) returns (r: Result<nat>)
      requires Valid()
      ensures r == View().TermOf(i)
    {
      var offset := ents[0].index;
      if i < offset { return Err(Compacted); }
      if i - offset >= |ents| { return Err(Unavailable); }
      return Ok(ents[i - offset].term);
    }

    /** The size-limited prefix of the range [lo, hi). */
    method Entries(size: Entry -> nat, lo: nat, hi: nat, maxSize: nat) returns (r: Result<seq<Entry>>)
      requires Valid() && lo <= hi <= View().Last() + 1
      ensures r == if lo < View().First() then Err(Compacted)
                   else if View().entries == [] then Err(Unavailable)
                   else Ok(LimitSize(size, View().Range(lo, hi), maxSize))
    {
      var offset := ents[0].index;
      if lo <= offset { return Err(Compacted); }
      if |ents| == 1 { return Err(Unavailable); }
      TailSlice(ents, lo - offset, hi - offset);
      var limited := LimitEntries(size, ents[lo - offset..hi - offset], maxSize);
      return Ok(limited);
    }

    method Append(entries: seq<Entry>)
      requires Valid() && (entries != [] ==> entries[0].index <= View().Last() + 1 && Consecutive(entries, entries[0].index))
      modifies this
      ensures Valid() && View() == old(View()).Overwrite(entries)
    {
      hide Consecutive;
      if |entries| == 0 { return; }
      var first := ents[0].index + 1;
      var last := entries[0].index + |entries| - 1;
      if last < first { return; }
      var kept := entries;
      if first > entries[0].index {
        DropConsecutive(entries, first - entries[0].index);
        kept := entries[first - entries[0].index..];
      }
      KeptOverwrites(View(), entries, kept);
      var offset := kept[0].index - ents[0].index;
      SpliceTail(ents, kept, offset);
      ents := ents[..offset] + kept;
    }

    method Compact(compactIndex: nat) returns (ok: bool)
      requires Valid() && compactIndex <= View().Last()
      modifies this
      ensures Valid() && (ok <==> compactIndex >= old(View()).First())
      ensures View() == if ok then old(View()).Compact(compactIndex) else old(View())
    {
      var offset := ents[0].index;
      if compactIndex <= offset { return false; }
      var i := compactIndex - offset;
      ents := [Entry(ents[i].term, ents[i].index, "")] + ents[i + 1..];
      return true;
    }
  }
}
