/** The in-memory tail of the log: entries that may not be in stable storage
    yet. First as a value, then as the object the program updates in place. */
module UnstableTail {
  import opened Logs

  /** entries[i] has log index offset + i; those below offsetInProgress have been
      handed out for writing. */
  datatype Unstable = Unstable(entries: seq<Entry>, offset: nat, offsetInProgress: nat) {
    ghost predicate Valid() {
      && 1 <= offset <= offsetInProgress <= offset + |entries|
      && forall i | 0 <= i < |entries| :: entries[i].index == offset + i
    }

    function MaybeLastIndex(): Option<nat> {
      if entries == [] || offset == 0 then None else Some(offset + |entries| - 1)
    }

    function MaybeTerm(i: nat): Option<nat> {
      if offset <= i < offset + |entries| then Some(entries[i - offset].term) else None
    }

    function NextEntries(): seq<Entry>
      requires offset <= offsetInProgress <= offset + |entries|
    {
      entries[offsetInProgress - offset..]
    }

    function AcceptInProgress(): Unstable {
      if entries == [] then this else this.(offsetInProgress := entries[|entries| - 1].index + 1)
    }

    function StableTo(id: EntryID): Unstable {
      if MaybeTerm(id.index) != Some(id.term) then this
      else Unstable(entries[id.index + 1 - offset..], id.index + 1, Max(offsetInProgress, id.index + 1))
    }

    function TruncateAndAppend(ents: seq<Entry>): Unstable
      requires ents != [] && ents[0].index <= offset + |entries|
    {
      var fromIndex := ents[0].index;
      if fromIndex == offset + |entries| then this.(entries := entries + ents)
      else if fromIndex <= offset then Unstable(ents, fromIndex, fromIndex)
      else this.(entries := entries[..fromIndex - offset] + ents, offsetInProgress := Min(offsetInProgress, fromIndex))
    }
  }

  /** The log seen through the tail: what storage holds below the offset,
      followed by the tail. */
  ghost function Joined(stable: seq<Entry>, u: Unstable): seq<Entry>
    requires 1 <= u.offset <= |stable| + 1
  {
    stable[..u.offset - 1] + u.entries
  }

  /** Overwriting the tail overwrites the joined log, whichever of the three
      cases applies, and entries below the overwritten ones stay in progress. */
  lemma TruncateJoins(stable: seq<Entry>, u: Unstable, ents: seq<Entry>)
    requires u.Valid() && u.offset <= |stable| + 1 && ents != []
    requires 1 <= ents[0].index <= u.offset + |u.entries| && Consecutive(ents, ents[0].index)
    ensures var u' := u.TruncateAndAppend(ents);
            && u'.Valid() && u'.offset == Min(u.offset, ents[0].index)
            && u'.offsetInProgress == Min(u.offsetInProgress, ents[0].index)
            && Joined(stable, u') == Joined(stable, u)[..ents[0].index - 1] + ents
  {}

  /** Stabilizing removes exactly the entries up to the acknowledged one, and
      only if that one is still the entry it was. */
  lemma StableToJoins(stable: seq<Entry>, u: Unstable, id: EntryID)
    requires u.Valid() && u.offset <= |stable| + 1
    requires var log := Joined(stable, u);
             u.offset <= id.index <= |log| && log[id.index - 1].term == id.term ==> Agree(stable, log, id.index)
    ensures var u', log := u.StableTo(id), Joined(stable, u);
            && u'.Valid() && u'.offset <= |stable| + 1 && Joined(stable, u') == log
            && u'.offset == (if u.offset <= id.index <= |log| && log[id.index - 1].term == id.term then id.index + 1 else u.offset)
            && u'.offsetInProgress == Max(u.offsetInProgress, u'.offset)
  {
    var u', log := u.StableTo(id), Joined(stable, u);
    if u' != u {
      assert log[id.index..] == u'.entries;
      assert log == log[..id.index] + log[id.index..];
      assert stable[..id.index] == log[..id.index];
    }
  }

  class UnstableLog {
    var entries: seq<Entry>
    var offset: nat
    var offsetInProgress: nat

    ghost function View(): Unstable
      reads this
    {
      Unstable(entries, offset, offsetInProgress)
    }

    ghost predicate Valid()
      reads this
    {
      View().Valid()
    }

    constructor (lastIndex: nat)
      ensures Valid() && View() == Unstable([], lastIndex + 1, lastIndex + 1)
    {
      entries, offset, offsetInProgress := [], lastIndex + 1, lastIndex + 1;
    }

    method MaybeLastIndex() returns (r: Option<nat>)
      requires Valid()
      ensures r == View().MaybeLastIndex()
    {
      if |entries| != 0 { return Some(offset + |entries| - 1); }
      return None;
    }

    method MaybeTerm(i: nat) returns (r: Option<nat>)
      requires Valid()
      ensures r == View().MaybeTerm(i)
    {
      if i < offset { return None; }
      var last := MaybeLastIndex();
      if last.None? || i > last.value { return None; }
      return Some(entries[i - offset].term);
    }

    method NextEntries() returns (ents: seq<Entry>)
      requires Valid()
      ensures ents == View().NextEntries()
    {
      var inProgress := offsetInProgress - offset;
      if |entries| == inProgress { return []; }
      return entries[inProgress..];
    }

    method AcceptInProgress()
      requires Valid()
      modifies this
      ensures Valid() && View() == old(View()).AcceptInProgress() && offsetInProgress == offset + |entries|
    {
      if |entries| > 0 { offsetInProgress := entries[|entries| - 1].index + 1; }
    }

    method StableTo(id: EntryID)
      requires Valid()
      modifies this
      ensures Valid() && View() == old(View()).StableTo(id)
    {
      var gt := MaybeTerm(id.index);
      if gt.None? || gt.value != id.term { return; }
      var num := id.index + 1 - offset;
      entries := entries[num..];
      offset := id.index + 1;
      offsetInProgress := Max(offsetInProgress, offset);
    }

    /** The entries with indexes in [lo, hi). */
    method Slice(lo: nat, hi: nat) returns (ents: seq<Entry>)
      requires Valid() && offset <= lo <= hi <= offset + |entries|
      ensures ents == entries[lo - offset..hi - offset]
    {
      return entries[lo - offset..hi - offset];
    }

    method TruncateAndAppend(ents: seq<Entry>)
      requires Valid() && ents != [] && 1 <= ents[0].index <= offset + |entries| && Consecutive(ents, ents[0].index)
      modifies this
      ensures Valid() && View() == old(View()).TruncateAndAppend(ents)
    {
      var fromIndex := ents[0].index;
      if fromIndex == offset + |entries| {
        entries := entries + ents;
      } else if fromIndex <= offset {
        entries := ents;
        offset := fromIndex;
        offsetInProgress := offset;
      } else {
        var keep := Slice(offset, fromIndex);
        entries := keep + ents;
        offsetInProgress := Min(offsetInProgress, fromIndex);
      }
    }
  }
}
