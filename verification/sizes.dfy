/** Sizes of entries and the size-limited prefix of a log range. */
module Sizes {
  import opened Logs

  /** An encoded entry is never empty. */
  ghost predicate Positive(size: Entry -> nat) {
    forall e :: size(e) > 0
  }

  // -------------------------------------------------------------------- sums

  lemma {:induction false} EntsSizeConcat(size: Entry -> nat, a: seq<Entry>, b: seq<Entry>)
    ensures EntsSize(size, a + b) == EntsSize(size, a) + EntsSize(size, b)
  {
    if a == [] {
      assert a + b == b;
    } else {
      assert (a + b)[1..] == a[1..] + b;
      EntsSizeConcat(size, a[1..], b);
    }
  }

  lemma PrefixSize(size: Entry -> nat, s: seq<Entry>, i: nat, j: nat)
    requires i <= j <= |s|
    ensures EntsSize(size, s[..i]) <= EntsSize(size, s[..j])
  {
    assert s[..j] == s[..i] + s[i..j];
    EntsSizeConcat(size, s[..i], s[i..j]);
  }

  /** Accumulates the sizes in a loop. */
  method SumSizes(size: Entry -> nat, ents: seq<Entry>) returns (total: nat)
    ensures total == EntsSize(size, ents)
  {
    total := 0;
    for i := 0 to |ents|
      invariant total == EntsSize(size, ents[..i])
    {
      OneMore(size, ents, i);
      total := total + size(ents[i]);
    }
    assert ents[..|ents|] == ents;
  }

  lemma OneMore(size: Entry -> nat, ents: seq<Entry>, i: nat)
    requires i < |ents|
    ensures EntsSize(size, ents[..i + 1]) == EntsSize(size, ents[..i]) + size(ents[i])
  {
    assert ents[..i + 1] == ents[..i] + [ents[i]];
    EntsSizeConcat(size, ents[..i], [ents[i]]);
  }

  /** The payload size is the sum of the lengths of the entries' data. */
  lemma {:induction false} PayloadsAdd(a: seq<Entry>, b: seq<Entry>)
    ensures PayloadsSize(a + b) == PayloadsSize(a) + PayloadsSize(b)
    ensures |a| == 1 ==> PayloadsSize(a) == |a[0].data|
  {
    if a == [] {
      assert a + b == b;
    } else {
      assert (a + b)[1..] == a[1..] + b;
      PayloadsAdd(a[1..], b);
    }
  }

  // ---------------------------------------------------------- limited prefixes

  /** k is where a size limit cuts: the prefix fits or is a single entry, and one
      entry more would not fit. */
  ghost predicate IsCut(size: Entry -> nat, ents: seq<Entry>, max: nat, k: nat) {
    && 0 < k <= |ents|
    && (k == 1 || EntsSize(size, ents[..k]) <= max)
    && (k == |ents| || EntsSize(size, ents[..k + 1]) > max)
  }

  /** The limited prefix is the longest one within the limit, or the first entry
      alone... */
  lemma {:induction false} LimitIsCut(size: Entry -> nat, ents: seq<Entry>, max: nat)
    requires ents != []
    ensures IsCut(size, ents, max, |LimitSize(size, ents, max)|)
    decreases |ents|
  {
    var n := |ents|;
    assert ents[..n] == ents;
    if n > 1 && EntsSize(size, ents) > max {
      var rest := ents[..n - 1];
      LimitIsCut(size, rest, max);
      var k := |LimitSize(size, rest, max)|;
      assert rest[..k] == ents[..k];
      if k < n - 1 { assert rest[..k + 1] == ents[..k + 1]; }
    }
  }

  /** ... and the only such one. */
  lemma {:induction false} CutIsLimit(size: Entry -> nat, ents: seq<Entry>, max: nat, k: nat)
    requires IsCut(size, ents, max, k)
    ensures LimitSize(size, ents, max) == ents[..k]
    decreases |ents|
  {
    var n := |ents|;
    assert ents[..n] == ents;
    if k < n {
      PrefixSize(size, ents, k + 1, n);
      var rest := ents[..n - 1];
      assert rest[..k] == ents[..k];
      if k < n - 1 { assert rest[..k + 1] == ents[..k + 1]; }
      CutIsLimit(size, rest, max, k);
    }
  }

  /** Walks the entries until the next one would exceed the limit. */
  method LimitEntries(size: Entry -> nat, ents: seq<Entry>, max: nat) returns (r: seq<Entry>)
    ensures r == LimitSize(size, ents, max)
  {
    if |ents| == 0 { return ents; }
    assert ents[..1] == [ents[0]];
    var total := size(ents[0]);
    for limit := 1 to |ents|
      invariant total == EntsSize(size, ents[..limit]) && (limit == 1 || total <= max)
    {
      OneMore(size, ents, limit);
      total := total + size(ents[limit]);
      if total > max {
        CutIsLimit(size, ents, max, limit);
        return ents[..limit];
      }
    }
    CutIsLimit(size, ents, max, |ents|);
    assert ents[..|ents|] == ents;
    return ents;
  }

  // --------------------------------------------------- limiting two parts at once

  /** A limit that cuts inside the first part does not see the second. */
  lemma CutInFirst(size: Entry -> nat, a: seq<Entry>, b: seq<Entry>, max: nat)
    requires a != [] && |LimitSize(size, a, max)| < |a|
    ensures LimitSize(size, a + b, max) == LimitSize(size, a, max)
  {
    LimitIsCut(size, a, max);
    var k := |LimitSize(size, a, max)|;
    assert (a + b)[..k] == a[..k] && (a + b)[..k + 1] == a[..k + 1];
    CutIsLimit(size, a + b, max, k);
  }

  /** A first part that reaches the limit leaves no room for the second. */
  lemma CutBetween(size: Entry -> nat, a: seq<Entry>, b: seq<Entry>, max: nat)
    requires Positive(size) && a != [] && LimitSize(size, a, max) == a && EntsSize(size, a) >= max
    ensures LimitSize(size, a + b, max) == a
  {
    LimitIsCut(size, a, max);
    assert (a + b)[..|a|] == a && a[..|a|] == a;
    if b != [] {
      assert (a + b)[..|a| + 1] == a + [b[0]];
      EntsSizeConcat(size, a, [b[0]]);
    } else {
      assert a + b == a;
    }
    CutIsLimit(size, a + b, max, |a|);
  }

  /** Otherwise the second part is limited to the room that is left, unless not
      even its first entry fits. */
  lemma CutInSecond(size: Entry -> nat, a: seq<Entry>, b: seq<Entry>, max: nat)
    requires a != [] && b != [] && EntsSize(size, a) < max
    ensures var u := LimitSize(size, b, max - EntsSize(size, a));
            LimitSize(size, a + b, max) ==
              if |u| == 1 && EntsSize(size, a) + EntsSize(size, u) > max then a else a + u
  {
    hide LimitSize, EntsSize;
    var room := max - EntsSize(size, a);
    LimitIsCut(size, b, room);
    var u := LimitSize(size, b, room);
    var k := |u|;
    assert b[..k] == u;
    EntsSizeConcat(size, a, u);
    PrefixOfBoth(a, b, k);
    if k == 1 && EntsSize(size, a) + EntsSize(size, u) > max {
      PrefixOfBoth(a, b, 0);
      CutIsLimit(size, a + b, max, |a|);
    } else {
      if k < |b| {
        PrefixOfBoth(a, b, k + 1);
        EntsSizeConcat(size, a, b[..k + 1]);
      }
      CutIsLimit(size, a + b, max, |a| + k);
    }
  }

  lemma PrefixOfBoth(a: seq<Entry>, b: seq<Entry>, k: nat)
    requires k <= |b|
    ensures (a + b)[..|a| + k] == a + b[..k] && a + b[..0] == a
  {}
}
