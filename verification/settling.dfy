/** The asynchronous append pipeline gets things done: what a Ready hands to storage,
    when an acknowledgement shortens the tail, and that from wherever it is the
    pipeline can bring the whole log to storage. */
module Settling {
  import opened Logs
  import opened UnstableTail
  import opened Pipeline

  /** A Ready hands out what has not been handed out yet, all of it, and asks for an
      acknowledgement of the last entry of the log unless the tail is empty. */
  lemma HandsRest(L: Leaders, run: seq<State>, i: nat, s': State)
    requires Family(L) && IsRun(L, run) && i < |run| && Hands(run[i], s')
    ensures var s := run[i]; var k := s.unstable.offsetInProgress;
            && 1 <= k <= |s.log| + 1 && s'.unstable.offsetInProgress == |s.log| + 1 && s'.unstable.offset == s.unstable.offset
            && |s'.queue| == |s.queue| + 1 && s'.queue[..|s.queue|] == s.queue
            && s'.queue[|s.queue|].entries == s.log[k - 1..]
            && s'.queue[|s.queue|].resp == if s.unstable.offset == |s.log| + 1 then None
                                           else Some(Response(s.term, EntryID(LastTerm(s.log), |s.log|)))
  {
    hide IsRun, Family, FromLeaders, RespOk, ReadTerm, QueueOk;
    InvHolds(L, run, i);
    var s := run[i];
    AsyncAppendRefines(L, run, i);
    assert ReadTerm(s, |s.log|) == TermAt(s.log, |s.log|);
    assert s.log[s.unstable.offset - 1..] == s.unstable.entries;
  }

  predicate IsInTail(s: State, id: EntryID) {
    s.unstable.offset <= id.index && 0 < id.index <= |s.log| && s.log[id.index - 1].term == id.term
  }

  /** An acknowledgement of the current term shortens the tail exactly if the entry it is
      for is in the tail and still the one it was; then all up to it go. */
  lemma HeedRule(L: Leaders, run: seq<State>, i: nat, s': State, r: Response)
    requires Family(L) && IsRun(L, run) && i < |run| && Hears(run[i], s', r) && r.term == run[i].term
    ensures var s := run[i];
            && s' == s.(unstable := s'.unstable) && 1 <= s'.unstable.offset <= |s.log| + 1
            && s'.unstable.entries == s.log[s'.unstable.offset - 1..]
            && s'.unstable.offset == if IsInTail(s, r.id) then r.id.index + 1 else s.unstable.offset
  {
    hide IsRun, Family, FromLeaders, RespOk, QueueOk;
    InvHolds(L, run, i);
    var s := run[i];
    assert s.log[s.unstable.offset - 1..] == s.unstable.entries;
  }

  lemma Follows(L: Leaders, run: seq<State>, s': State)
    requires IsRun(L, run) && Next(L, run[|run| - 1], s')
    ensures IsRun(L, run + [s'])
  {
    hide Next, Starts;
    var run' := run + [s'];
    forall i, j | 0 <= i && j == i + 1 && j < |run'| ensures Next(L, run'[i], run'[j]) {
      if j < |run| { assert Next(L, run[i], run[j]); }
    }
  }

  ghost function Final(run: seq<State>): State
    requires run != []
  {
    run[|run| - 1]
  }

  /** The response that a write asks for. */
  predicate Awaited(queue: seq<Write>, r: Response) { exists w :: w in queue && w.resp == Some(r) }

  function WrittenOut(s: State): State
    requires s.queue != []
  {
    var w := s.queue[0];
    s.(stable := Written(s.stable, w.entries), queue := s.queue[1..],
       responses := if w.resp.Some? then s.responses + {w.resp.value} else s.responses)
  }

  /** Storage can write all it has been handed. */
  lemma {:induction false} WritesAll(L: Leaders, run: seq<State>) returns (run': seq<State>)
    requires IsRun(L, run)
    ensures IsRun(L, run') && run <= run'
    ensures var s, s' := Final(run), Final(run');
            && s'.queue == [] && s'.log == s.log && s'.term == s.term && s'.unstable == s.unstable
            && s.responses <= s'.responses && forall r | Awaited(s.queue, r) :: r in s'.responses
    decreases |Final(run).queue|
  {
    hide IsRun, Next;
    RunsStart(L, run);
    var s := Final(run);
    if s.queue == [] {
      run' := run;
    } else {
      var s1 := WrittenOut(s);
      assert Next(L, s, s1) by { GoesByWriting(L, s); }
      Follows(L, run, s1);
      run' := WritesAll(L, run + [s1]);
      forall r | Awaited(s.queue, r) ensures r in Final(run').responses {
        var w :| w in s.queue && w.resp == Some(r);
        if w != s.queue[0] { assert w in s1.queue; }
      }
    }
  }

  lemma GoesByWriting(L: Leaders, s: State)
    requires s.queue != []
    ensures Next(L, s, WrittenOut(s))
  {
    assert Writes(s, WrittenOut(s));
  }

  lemma RunsStart(L: Leaders, run: seq<State>)
    requires IsRun(L, run)
    ensures run != []
  {}

  lemma GoesByHanding(L: Leaders, s: State) returns (s': State)
    requires ReadyOk(s)
    ensures Hands(s, s') && Next(L, s, s') && s'.log == s.log && s'.term == s.term
  {
    var u := s.unstable;
    var resp := if u.entries == [] then None else Some(Response(s.term, EntryID(ReadTerm(s, LastIndex(s)).value, LastIndex(s))));
    s' := s.(unstable := u.AcceptInProgress(), queue := s.queue + [Write(u.NextEntries(), resp)]);
  }

  lemma GoesByHearing(L: Leaders, s: State, r: Response) returns (s': State)
    requires r in s.responses && r.term == s.term
    ensures Hears(s, s', r) && Next(L, s, s')
  {
    s' := s.(unstable := s.unstable.StableTo(r.id));
    assert Hears(s, s', r);
  }

  /** Nothing queued and everything handed out: storage has the log. */
  lemma AllWritten(L: Leaders, run: seq<State>, i: nat)
    requires Family(L) && IsRun(L, run) && i < |run|
    requires run[i].queue == [] && run[i].unstable.offsetInProgress == |run[i].log| + 1
    ensures run[i].stable == run[i].log
  {
    hide IsRun, Family, FromLeaders, RespOk, TailOk;
    InvHolds(L, run, i);
  }

  /** From every reachable state the pipeline can go on to one with the same log in
      which storage has the whole of it and the tail is empty. */
  lemma CanSettle(L: Leaders, run: seq<State>) returns (run': seq<State>)
    requires Family(L) && IsRun(L, run)
    ensures IsRun(L, run') && run <= run'
    ensures var s, s' := Final(run), Final(run');
            s'.log == s.log && s'.stable == s.log && s'.unstable.entries == [] && s'.unstable.offset == |s.log| + 1 && s'.queue == []
  {
    hide IsRun, Next, Family, Hands, Hears, ReadyOk;
    RunsStart(L, run);
    var s := Final(run);
    CanHand(L, run, |run| - 1);
    var s1 := GoesByHanding(L, s);
    HandsRest(L, run, |run| - 1, s1);
    Follows(L, run, s1);
    var run2 := WritesAll(L, run + [s1]);
    var s2 := Final(run2);
    AllWritten(L, run2, |run2| - 1);
    AsyncAppendRefines(L, run2, |run2| - 1);
    if s.unstable.offset == |s.log| + 1 {
      run' := run2;
    } else {
      var r := Response(s.term, EntryID(LastTerm(s.log), |s.log|));
      var w := s1.queue[|s.queue|];
      assert w in s1.queue && w.resp == Some(r);
      assert Awaited(s1.queue, r);
      var s3 := GoesByHearing(L, s2, r);
      HeedRule(L, run2, |run2| - 1, s3, r);
      Follows(L, run2, s3);
      run' := run2 + [s3];
    }
  }
}
