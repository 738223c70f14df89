/** The asynchronous append pipeline of one node: log updates and term changes
    interleave with a storage thread that writes queued entries in order and
    with acknowledgements that arrive any time later. Stable storage below the
    tail's offset, followed by the tail, is always the log. */
module Pipeline {
  import opened Logs
  import opened UnstableTail

  // ---------------------------------------------------------- leaders' logs

  /** The log of each term's leader, as long as it ever gets. */
  type Leaders = map<nat, seq<Entry>>

  /** Every entry, with all that precedes it, is in the log of the leader of its
      term. */
  ghost predicate FromLeaders(L: Leaders, log: seq<Entry>) {
    forall i | 0 <= i < |log| :: log[i].term in L && log[i].index == i + 1 && Agree(log, L[log[i].term], i + 1)
  }

  ghost predicate Family(L: Leaders) {
    forall T | T in L :: FromLeaders(L, L[T])
  }

  lemma FromLeadersPrefix(L: Leaders, log: seq<Entry>, k: nat)
    requires FromLeaders(L, log) && k <= |log|
    ensures FromLeaders(L, log[..k])
  {
    forall i | 0 <= i < k
      ensures log[..k][i].term in L && log[..k][i].index == i + 1 && Agree(log[..k], L[log[..k][i].term], i + 1)
    {
      assert log[..k][..i + 1] == log[..i + 1];
      assert Agree(log, L[log[i].term], i + 1);
    }
  }

  lemma FamilyMatches(L: Leaders, a: seq<Entry>, b: seq<Entry>)
    requires FromLeaders(L, a) && FromLeaders(L, b)
    ensures Matching(a, b)
  {
    forall i | 0 <= i < |a| && i < |b| && a[i].term == b[i].term ensures Agree(a, b, i + 1) {
      assert Agree(a, L[a[i].term], i + 1) && Agree(b, L[b[i].term], i + 1);
    }
  }

  // ------------------------------------------------------------------- state

  /** A storage acknowledgement: everything up to id is written, as of a term. */
  datatype Response = Response(term: nat, id: EntryID)

  datatype Write = Write(entries: seq<Entry>, resp: Option<Response>)

  /** `log` is the specification: it changes only by the abstract log's own
      operations and no step reads it. */
  datatype State = State(
    term: nat, log: seq<Entry>, unstable: Unstable, stable: seq<Entry>, queue: seq<Write>, responses: set<Response>)

  /** Storage after an append: entries from the first new index on are replaced;
      appending past the end panics and changes nothing. */
  function Written(stable: seq<Entry>, ents: seq<Entry>): seq<Entry> {
    if NoGap(stable, ents) && ents != [] then stable[..ents[0].index - 1] + ents else stable
  }

  predicate NoGap(stable: seq<Entry>, ents: seq<Entry>) {
    ents == [] || 1 <= ents[0].index <= |stable| + 1
  }

  // ----------------------------------------------------- reading through both

  function LastIndex(s: State): nat {
    if s.unstable.MaybeLastIndex().Some? then s.unstable.MaybeLastIndex().value else |s.stable|
  }

  /** The term of an entry: from the tail if it is there, else from storage. */
  function ReadTerm(s: State, i: nat): Option<nat> {
    if s.unstable.MaybeTerm(i).Some? then s.unstable.MaybeTerm(i)
    else if i > LastIndex(s) then None
    else TermAt(s.stable, i)
  }

  function ReadConflict(s: State, prev: nat, ents: seq<Entry>): nat
    decreases |ents|
  {
    if ents == [] then 0
    else if ReadTerm(s, prev + 1) != Some(ents[0].term) then prev + 1
    else ReadConflict(s, prev + 1, ents[1..])
  }

  // ------------------------------------------------------------------- steps

  /** The node appends entries of its term's leader (its own, if it leads). */
  predicate Updates(L: Leaders, s: State, s': State, prev: EntryID, ents: seq<Entry>) {
    && s.term in L && prev.index + |ents| <= |L[s.term]| && MatchTerm(L[s.term], prev)
    && ents == L[s.term][prev.index..prev.index + |ents|]
    && (if ReadTerm(s, prev.index) != Some(prev.term) then s' == s
        else
          var ci := ReadConflict(s, prev.index, ents);
          if ci == 0 then s' == s
          else
            && prev.index < ci <= prev.index + |ents| && ci <= s.unstable.offset + |s.unstable.entries|
            && ents[ci - 1 - prev.index].index == ci
            && s' == s.(unstable := s.unstable.TruncateAndAppend(ents[ci - 1 - prev.index..]),
                        log := Spliced(s.log, prev.index, ents)))
  }

  predicate ChangesTerm(s: State, s': State, term: nat) {
    s.term < term && s' == s.(term := term)
  }

  /** The offsets are in range and the last entry can be read. */
  predicate ReadyOk(s: State) {
    var u := s.unstable;
    && u.offset <= u.offsetInProgress <= u.offset + |u.entries|
    && (u.entries != [] ==> ReadTerm(s, LastIndex(s)).Some?)
  }

  /** A Ready hands the new entries to storage and asks for an acknowledgement of
      the last entry while the tail is not empty. */
  predicate Hands(s: State, s': State) {
    var u := s.unstable;
    && ReadyOk(s)
    && var resp := if u.entries == [] then None
                   else Some(Response(s.term, EntryID(ReadTerm(s, LastIndex(s)).value, LastIndex(s))));
       s' == s.(unstable := u.AcceptInProgress(), queue := s.queue + [Write(u.NextEntries(), resp)])
  }

  predicate Writes(s: State, s': State) {
    && s.queue != []
    && var w := s.queue[0];
       s' == s.(stable := Written(s.stable, w.entries), queue := s.queue[1..],
                responses := if w.resp.Some? then s.responses + {w.resp.value} else s.responses)
  }

  /** An acknowledgement arrives; one of an earlier term is ignored. */
  predicate Hears(s: State, s': State, r: Response) {
    r in s.responses && s' == if r.term < s.term then s else s.(unstable := s.unstable.StableTo(r.id))
  }

  ghost predicate Next(L: Leaders, s: State, s': State) {
    || (exists prev, ents :: Updates(L, s, s', prev, ents))
    || (exists term :: ChangesTerm(s, s', term))
    || Hands(s, s') || Writes(s, s')
    || (exists r :: Hears(s, s', r))
  }

  ghost predicate Starts(L: Leaders, s: State) {
    && FromLeaders(L, s.log) && s.stable == s.log && s.queue == [] && s.responses == {}
    && s.unstable == Unstable([], |s.log| + 1, |s.log| + 1)
  }

  ghost predicate IsRun(L: Leaders, run: seq<State>) {
    && |run| > 0 && Starts(L, run[0])
    && forall i, j | 0 <= i && j == i + 1 && j < |run| :: Next(L, run[i], run[j])
  }

  // --------------------------------------------------------------- invariant

  /** Queued writes leave everything up to i alone. */
  ghost predicate Later(queue: seq<Write>, i: nat) {
    forall w | w in queue :: w.entries == [] || i < w.entries[0].index
  }

  ghost predicate AllEmpty(queue: seq<Write>) {
    forall w | w in queue :: w.entries == []
  }

  /** The acknowledged entry is in the log, and with all before it in storage for
      good. */
  ghost predicate Safe(log: seq<Entry>, inProgress: nat, stable: seq<Entry>, queue: seq<Write>, id: EntryID) {
    && 0 < id.index <= |log| && log[id.index - 1].term == id.term && id.index < inProgress
    && Agree(stable, log, id.index) && Later(queue, id.index)
    && (|log| == id.index ==> |stable| == id.index && AllEmpty(queue))
  }

  /** The acknowledged entry was displaced by the term's leader and can not come
      back in this term. */
  ghost predicate Displaced(L: Leaders, term: nat, log: seq<Entry>, id: EntryID) {
    term in L && log <= L[term] && !(0 < id.index <= |L[term]| && L[term][id.index - 1].term == id.term)
  }

  ghost predicate RespOk(L: Leaders, term: nat, log: seq<Entry>, inProgress: nat, stable: seq<Entry>,
      queue: seq<Write>, r: Response) {
    && r.term <= term
    && (r.term == term ==> Safe(log, inProgress, stable, queue, r.id) || Displaced(L, term, log, r.id))
  }

  /** Follows the queue: each write finds storage without a gap and touches
      nothing below the offset, each acknowledgement will be right when it is
      given, and in the end storage has all that is in progress. */
  ghost predicate QueueOk(L: Leaders, term: nat, log: seq<Entry>, offset: nat, inProgress: nat, stable: seq<Entry>,
      queue: seq<Write>)
    decreases |queue|
  {
    if queue == [] then
      0 < inProgress && Agree(stable, log, inProgress - 1) && (inProgress == |log| + 1 ==> stable == log)
    else
      var w, stable' := queue[0], Written(stable, queue[0].entries);
      && (w.entries != [] ==> 1 <= offset <= w.entries[0].index <= |stable| + 1 && Consecutive(w.entries, w.entries[0].index))
      && (w.resp.Some? ==> RespOk(L, term, log, inProgress, stable', queue[1..], w.resp.value))
      && QueueOk(L, term, log, offset, inProgress, stable', queue[1..])
  }

  ghost predicate TailOk(s: State) {
    && s.unstable.Valid() && s.unstable.offset <= |s.stable| + 1 && Consecutive(s.stable, 1)
    && Joined(s.stable, s.unstable) == s.log
    && (s.unstable.entries == [] ==> |s.stable| == |s.log| && AllEmpty(s.queue))
  }

  ghost predicate Inv(L: Leaders, s: State) {
    && Family(L) && FromLeaders(L, s.log) && TailOk(s)
    && QueueOk(L, s.term, s.log, s.unstable.offset, s.unstable.offsetInProgress, s.stable, s.queue)
    && forall r | r in s.responses :: RespOk(L, s.term, s.log, s.unstable.offsetInProgress, s.stable, s.queue, r)
  }

  // ----------------------------------------------------------------- reading

  lemma ReadsLog(s: State, i: nat)
    requires TailOk(s)
    ensures LastIndex(s) == |s.log| && ReadTerm(s, i) == TermAt(s.log, i)
  {}

  lemma {:induction false} ReadsConflict(s: State, prev: nat, ents: seq<Entry>)
    requires TailOk(s)
    ensures ReadConflict(s, prev, ents) == FindConflict(s.log, prev, ents)
    decreases |ents|
  {
    if ents != [] {
      ReadsLog(s, prev + 1);
      ReadsConflict(s, prev + 1, ents[1..]);
    }
  }

  // ------------------------------------------------------------ a term change

  lemma {:induction false} QueueTerm(L: Leaders, term: nat, term': nat, log: seq<Entry>, offset: nat,
      inProgress: nat, stable: seq<Entry>, queue: seq<Write>)
    requires QueueOk(L, term, log, offset, inProgress, stable, queue) && term < term'
    ensures QueueOk(L, term', log, offset, inProgress, stable, queue)
    decreases |queue|
  {
    if queue != [] { QueueTerm(L, term, term', log, offset, inProgress, Written(stable, queue[0].entries), queue[1..]); }
  }

  // ------------------------------------------------------------- a log update

  /** The log is overwritten from ci on by the leader of the term. */
  ghost predicate Overwrites(L: Leaders, term: nat, log: seq<Entry>, log': seq<Entry>, ci: nat) {
    && term in L && FromLeaders(L, log) && FromLeaders(L, L[term])
    && 0 < ci <= |log'| && log' <= L[term] && Agree(log, log', ci - 1) && !Agree(log, L[term], ci)
  }

  lemma RespUpdate(L: Leaders, term: nat, log: seq<Entry>, log': seq<Entry>, ci: nat, inProgress: nat,
      stable: seq<Entry>, queue: seq<Write>, r: Response)
    requires RespOk(L, term, log, inProgress, stable, queue, r) && Overwrites(L, term, log, log', ci)
    ensures RespOk(L, term, log', Min(inProgress, ci), stable, queue, r)
  {
    if r.term == term && Safe(log, inProgress, stable, queue, r.id) {
      var i := r.id.index;
      if i < ci {
        AgreeLess(log, log', ci - 1, i);
        AgreeAt(log, log', i, i - 1);
        AgreeTrans(stable, log, log', i);
      } else {
        DisplacedNow(L, term, log, log', ci, r.id);
      }
    }
  }

  lemma DisplacedNow(L: Leaders, term: nat, log: seq<Entry>, log': seq<Entry>, ci: nat, id: EntryID)
    requires Overwrites(L, term, log, log', ci) && ci <= id.index <= |log| && log[id.index - 1].term == id.term
    ensures Displaced(L, term, log', id)
  {
    FamilyMatches(L, log, L[term]);
    if 0 < id.index <= |L[term]| && L[term][id.index - 1].term == id.term {
      MatchingAt(log, L[term], id.index);
      AgreeLess(log, L[term], id.index, ci);
    }
  }

  lemma {:induction false} QueueUpdate(L: Leaders, term: nat, log: seq<Entry>, log': seq<Entry>, ci: nat,
      offset: nat, inProgress: nat, stable: seq<Entry>, queue: seq<Write>)
    requires QueueOk(L, term, log, offset, inProgress, stable, queue) && Overwrites(L, term, log, log', ci)
             && offset <= inProgress
    ensures QueueOk(L, term, log', Min(offset, ci), Min(inProgress, ci), stable, queue)
    decreases |queue|
  {
    hide Overwrites, RespOk, Agree;
    if queue == [] {
      EndUpdate(L, term, log, log', ci, inProgress, stable);
    } else {
      var stable' := Written(stable, queue[0].entries);
      CiPositive(L, term, log, log', ci);
      if queue[0].resp.Some? { RespUpdate(L, term, log, log', ci, inProgress, stable', queue[1..], queue[0].resp.value); }
      QueueUpdate(L, term, log, log', ci, offset, inProgress, stable', queue[1..]);
    }
  }

  lemma CiPositive(L: Leaders, term: nat, log: seq<Entry>, log': seq<Entry>, ci: nat)
    requires Overwrites(L, term, log, log', ci)
    ensures ci > 0
  {}

  lemma EndUpdate(L: Leaders, term: nat, log: seq<Entry>, log': seq<Entry>, ci: nat, inProgress: nat,
      stable: seq<Entry>)
    requires Overwrites(L, term, log, log', ci) && 0 < inProgress && Agree(stable, log, inProgress - 1)
    ensures var p := Min(inProgress, ci); 0 < p && Agree(stable, log', p - 1) && p != |log'| + 1
  {
    var p := Min(inProgress, ci);
    AgreeLess(stable, log, inProgress - 1, p - 1);
    AgreeLess(log, log', ci - 1, p - 1);
    AgreeTrans(stable, log, log', p - 1);
  }

  /** What a conflict means: from there on the leader's entries replace ours. */
  lemma ConflictOverwrites(L: Leaders, s: State, prev: EntryID, ents: seq<Entry>)
    requires Inv(L, s) && s.term in L && IsSlice(L[s.term], prev, ents) && MatchTerm(s.log, prev)
    ensures var ci := FindConflict(s.log, prev.index, ents);
            ci != 0 ==>
              && prev.index < ci <= prev.index + |ents| && ci <= |s.log| + 1
              && Overwrites(L, s.term, s.log, Spliced(s.log, prev.index, ents), ci)
              && Spliced(s.log, prev.index, ents) == s.log[..ci - 1] + ents[ci - 1 - prev.index..]
  {
    hide Inv, FindConflict, Spliced, Overwrites, MatchTerm, IsSlice;
    LogsOfInv(L, s);
    SpliceOverwrites(L, s.term, s.log, prev, ents);
  }

  lemma LogsOfInv(L: Leaders, s: State)
    requires Inv(L, s)
    ensures FromLeaders(L, s.log) && forall T | T in L :: FromLeaders(L, L[T])
  {
    hide QueueOk, RespOk, TailOk, FromLeaders;
  }

  lemma SpliceOverwrites(L: Leaders, term: nat, log: seq<Entry>, prev: EntryID, ents: seq<Entry>)
    requires term in L && FromLeaders(L, log) && FromLeaders(L, L[term]) && IsSlice(L[term], prev, ents) && MatchTerm(log, prev)
    ensures var ci := FindConflict(log, prev.index, ents);
            ci != 0 ==>
              && prev.index < ci <= prev.index + |ents| && ci <= |log| + 1
              && Overwrites(L, term, log, Spliced(log, prev.index, ents), ci)
              && Spliced(log, prev.index, ents) == log[..ci - 1] + ents[ci - 1 - prev.index..]
  {
    hide Matching, FindConflict, Spliced, FromLeaders, Agree, MatchTerm, IsSlice;
    FamilyMatches(L, log, L[term]);
    SpliceFacts(log, L[term], prev, ents);
  }

  lemma SpliceFacts(log: seq<Entry>, leader: seq<Entry>, prev: EntryID, ents: seq<Entry>)
    requires Matching(log, leader) && IsSlice(leader, prev, ents) && MatchTerm(log, prev)
    ensures var ci, log' := FindConflict(log, prev.index, ents), Spliced(log, prev.index, ents);
            ci != 0 ==>
              && prev.index < ci <= prev.index + |ents| && ci <= |log| + 1
              && log' == log[..ci - 1] + ents[ci - 1 - prev.index..] && ci <= |log'| && log' <= leader
              && Agree(log, log', ci - 1) && !Agree(log, leader, ci)
  {
    hide Matching, FindConflict, MatchTerm, Agree, Spliced;
    AgreeToConflict(log, leader, prev, ents);
    var ci := FindConflict(log, prev.index, ents);
    if ci != 0 {
      KeepsPrefix(log, leader, prev.index, ents, ci);
      SpliceIsPrefix(log, leader, prev.index, ents, ci);
    }
  }

  lemma KeepsPrefix(log: seq<Entry>, leader: seq<Entry>, p: nat, ents: seq<Entry>, ci: nat)
    requires ci == FindConflict(log, p, ents) && p < ci <= p + |ents| && Agree(log, leader, ci - 1)
    ensures ci <= |log| + 1 && ci <= |Spliced(log, p, ents)|
    ensures Spliced(log, p, ents) == log[..ci - 1] + ents[ci - 1 - p..] && Agree(log, Spliced(log, p, ents), ci - 1)
  {
    hide FindConflict;
  }

  /** The tail's own operation on the entries from the conflict on. */
  lemma TailUpdate(s: State, ci: nat, ents: seq<Entry>)
    requires TailOk(s) && 1 <= ci <= |s.log| + 1 && ents != [] && Consecutive(ents, ci)
    ensures var u' := s.unstable.TruncateAndAppend(ents);
            && u'.offset == Min(s.unstable.offset, ci) && u'.offsetInProgress == Min(s.unstable.offsetInProgress, ci)
            && TailOk(s.(unstable := u', log := s.log[..ci - 1] + ents))
  {
    TruncateJoins(s.stable, s.unstable, ents);
  }

  lemma SliceConsecutive(L: Leaders, log: seq<Entry>, prev: nat, ents: seq<Entry>, ci: nat)
    requires FromLeaders(L, log) && prev + |ents| <= |log| && ents == log[prev..prev + |ents|]
             && prev < ci <= prev + |ents|
    ensures Consecutive(ents[ci - 1 - prev..], ci)
  {}

  lemma UpdateKeeps(L: Leaders, s: State, s': State, prev: EntryID, ents: seq<Entry>)
    requires Inv(L, s) && Updates(L, s, s', prev, ents)
    ensures Inv(L, s')
  {
    hide QueueOk, RespOk, FindConflict, Spliced, Overwrites, TailOk, FromLeaders;
    ReadsLog(s, prev.index);
    ReadsConflict(s, prev.index, ents);
    if MatchTerm(s.log, prev) {
      ConflictOverwrites(L, s, prev, ents);
      var ci := FindConflict(s.log, prev.index, ents);
      if ci != 0 {
        var u, tail := s.unstable, ents[ci - 1 - prev.index..];
        SliceConsecutive(L, L[s.term], prev.index, ents, ci);
        TailUpdate(s, ci, tail);
        OverwrittenLog(L, s.term, s.log, s'.log, ci);
        OffsetsInOrder(s);
        QueueUpdate(L, s.term, s.log, s'.log, ci, u.offset, u.offsetInProgress, s.stable, s.queue);
        forall r | r in s.responses ensures RespOk(L, s.term, s'.log, Min(u.offsetInProgress, ci), s.stable, s.queue, r) {
          RespUpdate(L, s.term, s.log, s'.log, ci, u.offsetInProgress, s.stable, s.queue, r);
        }
      }
    }
  }

  lemma OffsetsInOrder(s: State)
    requires TailOk(s)
    ensures 1 <= s.unstable.offset <= s.unstable.offsetInProgress
            && |s.log| + 1 == s.unstable.offset + |s.unstable.entries|
  {}

  lemma OverwrittenLog(L: Leaders, term: nat, log: seq<Entry>, log': seq<Entry>, ci: nat)
    requires Overwrites(L, term, log, log', ci)
    ensures FromLeaders(L, log')
  {
    FromLeadersPrefix(L, L[term], |log'|);
    assert log' == L[term][..|log'|];
  }

  // ------------------------------------------------------------ handing out

  /** The write a Ready hands out: the log from the in-progress offset on. */
  ghost predicate IsHandOut(term: nat, log: seq<Entry>, inProgress: nat, w: Write) {
    && 0 < inProgress <= |log| + 1 && w.entries == log[inProgress - 1..]
    && Consecutive(w.entries, inProgress)
    && (w.resp.Some? ==> |log| > 0 && w.resp.value == Response(term, EntryID(LastTerm(log), |log|)))
  }

  lemma RespHanded(L: Leaders, term: nat, log: seq<Entry>, inProgress: nat, stable: seq<Entry>, queue: seq<Write>,
      w: Write, r: Response)
    requires RespOk(L, term, log, inProgress, stable, queue, r) && IsHandOut(term, log, inProgress, w)
    ensures RespOk(L, term, log, |log| + 1, stable, queue + [w], r)
  {}

  lemma {:induction false} QueueHanded(L: Leaders, term: nat, log: seq<Entry>, offset: nat, inProgress: nat,
      stable: seq<Entry>, queue: seq<Write>, w: Write)
    requires QueueOk(L, term, log, offset, inProgress, stable, queue) && 1 <= offset <= inProgress
             && IsHandOut(term, log, inProgress, w)
    ensures QueueOk(L, term, log, offset, |log| + 1, stable, queue + [w])
    decreases |queue|
  {
    hide RespOk, IsHandOut;
    if queue == [] {
      LastWrite(L, term, log, offset, inProgress, stable, w);
      assert [] + [w] == [w];
    } else {
      var all, stable' := queue + [w], Written(stable, queue[0].entries);
      assert all[0] == queue[0] && all[1..] == queue[1..] + [w];
      if queue[0].resp.Some? { RespHanded(L, term, log, inProgress, stable', queue[1..], w, queue[0].resp.value); }
      QueueHanded(L, term, log, offset, inProgress, stable', queue[1..], w);
    }
  }

  /** The last write brings storage up to the log. */
  lemma LastWrite(L: Leaders, term: nat, log: seq<Entry>, offset: nat, inProgress: nat, stable: seq<Entry>, w: Write)
    requires IsHandOut(term, log, inProgress, w) && 1 <= offset <= inProgress
    requires Agree(stable, log, inProgress - 1) && (inProgress == |log| + 1 ==> stable == log)
    ensures QueueOk(L, term, log, offset, |log| + 1, stable, [w])
  {
    assert log == log[..inProgress - 1] + log[inProgress - 1..];
    assert Written(stable, w.entries) == log;
    assert QueueOk(L, term, log, offset, |log| + 1, log, []);
    assert [w][1..] == [];
  }

  /** What a Ready hands out is the log from the in-progress offset on. */
  lemma HandedEntries(s: State)
    requires TailOk(s)
    ensures var u := s.unstable;
            && IsHandOut(s.term, s.log, u.offsetInProgress, Write(u.NextEntries(), None))
            && (u.entries != [] ==> |s.log| > 0 && TermAt(s.log, |s.log|) == Some(LastTerm(s.log)))
            && u.AcceptInProgress() == u.(offsetInProgress := |s.log| + 1)
  {
    hide AllEmpty;
    var u := s.unstable;
    assert s.log[u.offset - 1..] == u.entries;
    assert u.NextEntries() == s.log[u.offset - 1..][u.offsetInProgress - u.offset..] == s.log[u.offsetInProgress - 1..];
  }

  lemma TailHanded(s: State, s': State, w: Write)
    requires TailOk(s) && s' == s.(unstable := s.unstable.(offsetInProgress := |s.log| + 1), queue := s.queue + [w])
    requires w.entries == s.log[s.unstable.offsetInProgress - 1..]
    ensures TailOk(s')
  {}

  lemma HandKeeps(L: Leaders, s: State, s': State)
    requires Inv(L, s) && Hands(s, s')
    ensures Inv(L, s')
  {
    hide QueueOk, RespOk, FromLeaders, Family, TailOk, ReadTerm, LastIndex;
    var u, w := s.unstable, s'.queue[|s.queue|];
    ReadsLog(s, |s.log|);
    HandedEntries(s);
    TailHanded(s, s', w);
    OffsetsInOrder(s);
    QueueHanded(L, s.term, s.log, u.offset, u.offsetInProgress, s.stable, s.queue, w);
    forall r | r in s.responses ensures RespOk(L, s.term, s.log, |s.log| + 1, s.stable, s'.queue, r) {
      RespHanded(L, s.term, s.log, u.offsetInProgress, s.stable, s.queue, w, r);
    }
  }

  // -------------------------------------------------------------- writing

  lemma WrittenKeeps(stable: seq<Entry>, ents: seq<Entry>, i: nat)
    requires NoGap(stable, ents) && (ents == [] || i < ents[0].index) && i <= |stable|
    ensures i <= |Written(stable, ents)| && Written(stable, ents)[..i] == stable[..i]
    ensures Consecutive(stable, 1) && (ents != [] ==> Consecutive(ents, ents[0].index)) ==> Consecutive(Written(stable, ents), 1)
  {}

  lemma RespWritten(L: Leaders, term: nat, log: seq<Entry>, inProgress: nat, stable: seq<Entry>, queue: seq<Write>,
      r: Response)
    requires queue != [] && NoGap(stable, queue[0].entries) && RespOk(L, term, log, inProgress, stable, queue, r)
    ensures RespOk(L, term, log, inProgress, Written(stable, queue[0].entries), queue[1..], r)
  {
    if r.term == term && Safe(log, inProgress, stable, queue, r.id) {
      assert queue[0] in queue;
      WrittenKeeps(stable, queue[0].entries, r.id.index);
    }
  }

  lemma WriteKeeps(L: Leaders, s: State, s': State)
    requires Inv(L, s) && Writes(s, s')
    ensures Inv(L, s')
  {
    hide RespOk, FromLeaders, Family;
    var u, w := s.unstable, s.queue[0];
    assert w in s.queue;
    WrittenKeeps(s.stable, w.entries, u.offset - 1);
    forall r | r in s'.responses
      ensures RespOk(L, s.term, s.log, u.offsetInProgress, s'.stable, s'.queue, r)
    {
      if r in s.responses { RespWritten(L, s.term, s.log, u.offsetInProgress, s.stable, s.queue, r); }
    }
  }

  // ---------------------------------------------------------- acknowledging

  lemma {:induction false} QueueRaised(L: Leaders, term: nat, log: seq<Entry>, offset: nat, inProgress: nat,
      stable: seq<Entry>, queue: seq<Write>, offset': nat)
    requires QueueOk(L, term, log, offset, inProgress, stable, queue) && offset <= offset' && 0 < offset'
             && Later(queue, offset' - 1)
    ensures QueueOk(L, term, log, offset', inProgress, stable, queue)
    decreases |queue|
  {
    hide RespOk;
    if queue != [] {
      assert queue[0] in queue;
      QueueRaised(L, term, log, offset, inProgress, Written(stable, queue[0].entries), queue[1..], offset');
    }
  }

  lemma SafeToHeed(L: Leaders, s: State, r: Response)
    requires Inv(L, s) && r in s.responses && r.term == s.term
    requires s.unstable.offset <= r.id.index <= |s.log| && s.log[r.id.index - 1].term == r.id.term
    ensures Safe(s.log, s.unstable.offsetInProgress, s.stable, s.queue, r.id)
  {
    hide QueueOk, FromLeaders, Family, Safe;
    assert RespOk(L, s.term, s.log, s.unstable.offsetInProgress, s.stable, s.queue, r);
  }

  lemma HearKeeps(L: Leaders, s: State, s': State, r: Response)
    requires Inv(L, s) && Hears(s, s', r)
    ensures Inv(L, s')
  {
    hide QueueOk, RespOk, FromLeaders, Family;
    var u := s.unstable;
    assert r.term <= s.term by { RespTerm(L, s, r); }
    if r.term == s.term {
      var live := u.offset <= r.id.index <= |s.log| && s.log[r.id.index - 1].term == r.id.term;
      if live { SafeToHeed(L, s, r); }
      StableToJoins(s.stable, u, r.id);
      if live {
        QueueRaised(L, s.term, s.log, u.offset, u.offsetInProgress, s.stable, s.queue, r.id.index + 1);
      }
    }
  }

  lemma RespTerm(L: Leaders, s: State, r: Response)
    requires Inv(L, s) && r in s.responses
    ensures r.term <= s.term
  {
    hide QueueOk, FromLeaders, Family, Safe, Displaced;
    assert RespOk(L, s.term, s.log, s.unstable.offsetInProgress, s.stable, s.queue, r);
  }

  // ------------------------------------------------------- nothing is refused

  lemma UpdateGoes(L: Leaders, s: State, prev: EntryID, ents: seq<Entry>)
    requires Inv(L, s) && s.term in L && IsSlice(L[s.term], prev, ents)
    ensures exists s' :: Updates(L, s, s', prev, ents)
  {
    hide QueueOk, RespOk, FindConflict, Spliced, Overwrites, FromLeaders, TailOk, ReadTerm, Unstable.TruncateAndAppend;
    ReadsLog(s, prev.index);
    ReadsConflict(s, prev.index, ents);
    if !MatchTerm(s.log, prev) || FindConflict(s.log, prev.index, ents) == 0 {
      assert Updates(L, s, s, prev, ents);
    } else {
      ConflictOverwrites(L, s, prev, ents);
      var ci := FindConflict(s.log, prev.index, ents);
      SliceConsecutive(L, L[s.term], prev.index, ents, ci);
      OffsetsInOrder(s);
      assert Updates(L, s, s.(unstable := s.unstable.TruncateAndAppend(ents[ci - 1 - prev.index..]),
                              log := Spliced(s.log, prev.index, ents)), prev, ents);
    }
  }

  lemma HandGoes(L: Leaders, s: State)
    requires Inv(L, s)
    ensures ReadyOk(s)
  {
    hide QueueOk, RespOk, FromLeaders, ReadTerm, LastIndex;
    ReadsLog(s, |s.log|);
  }

  // --------------------------------------------------------------- theorems

  lemma NextKeeps(L: Leaders, s: State, s': State)
    requires Inv(L, s) && Next(L, s, s')
    ensures Inv(L, s')
  {
    hide Inv, Updates, Hands, Writes, Hears;
    if prev, ents :| Updates(L, s, s', prev, ents) { UpdateKeeps(L, s, s', prev, ents); }
    else if term :| ChangesTerm(s, s', term) { TermKeeps(L, s, s', term); }
    else if Hands(s, s') { HandKeeps(L, s, s'); }
    else if Writes(s, s') { WriteKeeps(L, s, s'); }
    else {
      var r :| Hears(s, s', r);
      HearKeeps(L, s, s', r);
    }
  }

  lemma TermKeeps(L: Leaders, s: State, s': State, term: nat)
    requires Inv(L, s) && ChangesTerm(s, s', term)
    ensures Inv(L, s')
  {
    hide QueueOk, FromLeaders, Family, Safe, Displaced;
    QueueTerm(L, s.term, term, s.log, s.unstable.offset, s.unstable.offsetInProgress, s.stable, s.queue);
    forall r | r in s.responses ensures RespOk(L, term, s.log, s.unstable.offsetInProgress, s.stable, s.queue, r) {
      assert RespOk(L, s.term, s.log, s.unstable.offsetInProgress, s.stable, s.queue, r);
    }
  }

  lemma {:induction false} InvHolds(L: Leaders, run: seq<State>, i: nat)
    requires Family(L) && IsRun(L, run) && i < |run|
    ensures Inv(L, run[i])
  {
    hide Inv, Next, Family;
    if i == 0 {
      FirstInv(L, run[0]);
    } else {
      InvHolds(L, run, i - 1);
      var k: nat := i - 1;
      assert Next(L, run[k], run[i]);
      NextKeeps(L, run[k], run[i]);
    }
  }

  lemma FirstInv(L: Leaders, s: State)
    requires Family(L) && Starts(L, s)
    ensures Inv(L, s)
  {}

  /** In every reachable state storage below the offset followed by the tail is
      the log, every read through the two gives the log's answer, no queued write
      touches an index below the offset, and the next one leaves no gap. */
  lemma AsyncAppendRefines(L: Leaders, run: seq<State>, i: nat)
    requires Family(L) && IsRun(L, run) && i < |run|
    ensures var s := run[i];
            && 1 <= s.unstable.offset <= |s.stable| + 1 && Joined(s.stable, s.unstable) == s.log
            && LastIndex(s) == |s.log| && (forall k: nat :: ReadTerm(s, k) == TermAt(s.log, k))
            && (forall w | w in s.queue && w.entries != [] :: s.unstable.offset <= w.entries[0].index)
            && (s.queue != [] ==> NoGap(s.stable, s.queue[0].entries))
  {
    hide IsRun, Family, FromLeaders, RespOk, ReadTerm;
    InvHolds(L, run, i);
    var s := run[i];
    ReadsLog(s, 0);
    forall k: nat ensures ReadTerm(s, k) == TermAt(s.log, k) { ReadsLog(s, k); }
    QueueAbove(L, s.term, s.log, s.unstable.offset, s.unstable.offsetInProgress, s.stable, s.queue);
  }

  lemma {:induction false} QueueAbove(L: Leaders, term: nat, log: seq<Entry>, offset: nat, inProgress: nat,
      stable: seq<Entry>, queue: seq<Write>)
    requires QueueOk(L, term, log, offset, inProgress, stable, queue)
    ensures forall w | w in queue && w.entries != [] :: offset <= w.entries[0].index
    decreases |queue|
  {
    hide RespOk;
    if queue != [] {
      QueueAbove(L, term, log, offset, inProgress, Written(stable, queue[0].entries), queue[1..]);
      assert queue == [queue[0]] + queue[1..];
    }
  }

  /** An acknowledgement that is heeded is one that is safe to heed: the entry is
      still in the log, and with all before it in storage for good. */
  lemma HeededIsSafe(L: Leaders, run: seq<State>, i: nat, r: Response)
    requires Family(L) && IsRun(L, run) && i < |run| && r in run[i].responses && r.term == run[i].term
    requires run[i].unstable.MaybeTerm(r.id.index) == Some(r.id.term)
    ensures Safe(run[i].log, run[i].unstable.offsetInProgress, run[i].stable, run[i].queue, r.id)
  {
    hide IsRun, Family, FromLeaders, RespOk, QueueOk, Safe;
    InvHolds(L, run, i);
    SafeToHeed(L, run[i], r);
  }

  /** The conditions under which an append of the term's leader would panic do not
      arise... */
  lemma CanUpdate(L: Leaders, run: seq<State>, i: nat, prev: EntryID, ents: seq<Entry>)
    requires Family(L) && IsRun(L, run) && i < |run| && run[i].term in L && IsSlice(L[run[i].term], prev, ents)
    ensures exists s' :: Updates(L, run[i], s', prev, ents)
  {
    hide IsRun, Family, Inv, Updates, IsSlice;
    InvHolds(L, run, i);
    UpdateGoes(L, run[i], prev, ents);
  }

  /** ... and neither do those under which a Ready would. */
  lemma CanHand(L: Leaders, run: seq<State>, i: nat)
    requires Family(L) && IsRun(L, run) && i < |run|
    ensures ReadyOk(run[i])
  {
    hide IsRun, Family, Inv, ReadyOk;
    InvHolds(L, run, i);
    HandGoes(L, run[i]);
  }
}
