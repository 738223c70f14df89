/** Why acknowledgements of an earlier term must be ignored: the pipeline that
    heeds them loses the log. */
module StaleAcks {
  import opened Logs
  import opened UnstableTail
  import opened Pipeline

  const A := Entry(1, 1, "a")
  const B := Entry(2, 1, "b")
  const C := Entry(3, 2, "c")

  /** Leaders of terms 1 and 2 wrote different first entries; the leader of term
      3 has the one of term 1. */
  const THREE: Leaders := map[1 := [A], 2 := [B], 3 := [A, C]]

  const WRITE_A := Write([A], Some(Response(1, EntryID(1, 1))))
  const WRITE_B := Write([B], Some(Response(2, EntryID(2, 1))))

  /** The node took A in term 1, B in term 2 and A again in term 3; only the
      first write has reached storage, and its acknowledgement has arrived. */
  function Scenario(): seq<State> {
    var s0 := State(1, [], Unstable([], 1, 1), [], [], {});
    var s1 := s0.(log := [A], unstable := Unstable([A], 1, 1));
    var s2 := s1.(unstable := Unstable([A], 1, 2), queue := [WRITE_A]);
    var s3 := s2.(term := 2);
    var s4 := s3.(log := [B], unstable := Unstable([B], 1, 1));
    var s5 := s4.(unstable := Unstable([B], 1, 2), queue := [WRITE_A, WRITE_B]);
    var s6 := s5.(term := 3);
    var s7 := s6.(log := [A], unstable := Unstable([A], 1, 1));
    var s8 := s7.(stable := [A], queue := [WRITE_B], responses := {Response(1, EntryID(1, 1))});
    [s0, s1, s2, s3, s4, s5, s6, s7, s8]
  }

  /** Taking e as the first entry, in place of a different one or of none. */
  lemma TakesEntry(s: State, s': State, e: Entry)
    requires s.term in THREE && THREE[s.term] != [] && THREE[s.term][0] == e && e.index == 1
    requires s.unstable.offset == 1 && s.stable == [] && s.unstable.entries == s.log
    requires s.log == [] || (|s.log| == 1 && s.log[0].term != e.term)
    requires s' == s.(log := [e], unstable := s.unstable.TruncateAndAppend([e]))
    ensures Next(THREE, s, s')
  {
    hide Hands, Writes, Unstable.TruncateAndAppend, ReadTerm, ReadConflict, FindConflict, Spliced;
    OnlyEntry(s, e);
    assert THREE[s.term][0..0 + 1] == [e];
    assert [e][0..] == [e];
    assert Updates(THREE, s, s', EntryID(0, 0), [e]);
  }

  lemma OnlyEntry(s: State, e: Entry)
    requires s.unstable.offset == 1 && s.stable == [] && s.unstable.entries == s.log
    requires s.log == [] || (|s.log| == 1 && s.log[0].term != e.term)
    ensures ReadTerm(s, 0) == Some(0) && ReadConflict(s, 0, [e]) == 1 && Spliced(s.log, 0, [e]) == [e]
  {
    assert ReadTerm(s, 1) == TermAt(s.log, 1) != Some(e.term);
    assert FindConflict(s.log, 0, [e]) == 1;
    assert s.log[..0] + [e][0..] == [e];
  }

  lemma HandsOut(s: State, s': State, e: Entry)
    requires s.unstable == Unstable([e], 1, 1) && e.index == 1
    requires s' == s.(unstable := Unstable([e], 1, 2), queue := s.queue + [Write([e], Some(Response(s.term, EntryID(e.term, 1))))])
    ensures Next(THREE, s, s')
  {
    hide Updates, Writes;
    assert s.unstable.NextEntries() == [e];
    assert Hands(s, s');
  }

  lemma FirstTerm()
    ensures Next(THREE, Scenario()[0], Scenario()[1]) && Next(THREE, Scenario()[1], Scenario()[2])
            && Next(THREE, Scenario()[2], Scenario()[3])
  {
    hide Next;
    var r := Scenario();
    TakesEntry(r[0], r[1], A) by { assert [] + [A] == [A]; }
    HandsOut(r[1], r[2], A) by { assert [] + [WRITE_A] == [WRITE_A]; }
    Moves(r[2], r[3], 2);
  }

  lemma SecondTerm()
    ensures Next(THREE, Scenario()[3], Scenario()[4]) && Next(THREE, Scenario()[4], Scenario()[5])
            && Next(THREE, Scenario()[5], Scenario()[6])
  {
    hide Next;
    var r := Scenario();
    TakesEntry(r[3], r[4], B);
    HandsOut(r[4], r[5], B) by { assert [WRITE_A] + [WRITE_B] == [WRITE_A, WRITE_B]; }
    Moves(r[5], r[6], 3);
  }

  lemma ThirdTerm()
    ensures Next(THREE, Scenario()[6], Scenario()[7]) && Next(THREE, Scenario()[7], Scenario()[8])
  {
    hide Next;
    var r := Scenario();
    TakesEntry(r[6], r[7], A);
    WritesFirst(r[7], r[8]);
  }

  lemma WritesFirst(s: State, s': State)
    requires s.stable == [] && s.queue == [WRITE_A, WRITE_B] && s.responses == {}
    requires s' == s.(stable := [A], queue := [WRITE_B], responses := {Response(1, EntryID(1, 1))})
    ensures Next(THREE, s, s')
  {
    hide Updates, Hands;
    assert [WRITE_A, WRITE_B][1..] == [WRITE_B];
    assert Written([], [A]) == [A];
    assert Writes(s, s');
  }

  lemma Moves(s: State, s': State, term: nat)
    requires s.term < term && s' == s.(term := term)
    ensures Next(THREE, s, s')
  {
    hide Updates, Hands, Writes;
    assert ChangesTerm(s, s', term);
  }

  lemma ThreeIsFamily()
    ensures Family(THREE)
  {
    assert THREE[1][..1] == THREE[3][..1];
  }

  lemma ScenarioIsRun()
    ensures Family(THREE) && IsRun(THREE, Scenario())
  {
    hide Next;
    ThreeIsFamily();
    FirstTerm();
    SecondTerm();
    ThirdTerm();
  }

  /** The acknowledgement from term 1 names an entry the tail holds again, so
      heeding it would empty the tail; the write of term 2 that is still queued
      would then replace the entry below the offset. */
  lemma HeedingStaleAcksLosesTheLog()
    ensures var s := Scenario()[8];
            && Family(THREE) && IsRun(THREE, Scenario()) && Response(1, EntryID(1, 1)) in s.responses
            && var heeded := s.(unstable := s.unstable.StableTo(EntryID(1, 1)));
               && WRITE_B in heeded.queue && WRITE_B.entries[0].index < heeded.unstable.offset
               && Written(heeded.stable, WRITE_B.entries)[..heeded.unstable.offset - 1] + heeded.unstable.entries != s.log
  {
    ScenarioIsRun();
  }
}
