/** The event dispatcher of quantworks/dispatcher.py: an ordered list of
    subjects kept sorted by dispatch priority, and a run loop that, round
    after round, dispatches every subject whose next event is due at the
    smallest pending datetime (or whose datetime is unknown), until all
    subjects are at their end, then stops and joins every subject.

    A subject is modelled by what the dispatcher can observe of it: an
    identity, a priority, and the queue of its pending dispatch steps (the
    datetime `peekDateTime` reports before each step, and what the
    `dispatch` call of that step does). It is at its end when the queue is
    empty. The calls the dispatcher makes are recorded, in order, in `log`. */
module Dispatching {
  import opened Wrappers

  /** A subject's dispatch priority: a rank, or the LAST sentinel. */
  datatype Priority = Rank(rank: int) | Last

  /** What a `dispatch()` call does: produce events (returns True), produce
      none (returns anything else), or raise. */
  datatype DispatchOutcome = Produced | NothingProduced | Raises

  /** One pending dispatch: the datetime peeked before it (`None` for a
      realtime subject) and what the call does. */
  datatype Step = Step(time: Option<int>, outcome: DispatchOutcome)

  datatype Subject = Subject(id: nat, priority: Priority, steps: seq<Step>) {
    predicate Eof() {
      steps == []
    }

    function PeekDateTime(): Option<int> {
      if steps == [] then None else steps[0].time
    }
  }

  /** The subject after one dispatch call. */
  function Advance(s: Subject): (r: Subject)
    requires !s.Eof()
    ensures r.id == s.id && r.priority == s.priority && |r.steps| == |s.steps| - 1
  {
    s.(steps := s.steps[1..])
  }

  /** The calls a dispatcher makes on its subjects and its two events. */
  datatype Call =
    | Registered(id: nat)
    | Started(id: nat)
    | Dispatched(id: nat)
    | Stopped(id: nat)
    | Joined(id: nat)
    | StartEvent
    | IdleEvent

  /* ---------------------------------------------------------------------- */
  /* Registration                                                            */

  function Ids(subs: seq<Subject>): (r: seq<nat>)
    ensures |r| == |subs| && forall i :: 0 <= i < |subs| ==> r[i] == subs[i].id
  {
    seq(|subs|, i requires 0 <= i < |subs| => subs[i].id)
  }

  predicate DistinctIds(subs: seq<Subject>) {
    forall i, j :: 0 <= i < j < |subs| ==> subs[i].id != subs[j].id
  }

  /** `a` may come before `b`: LAST subjects last, ranks non-decreasing. */
  predicate Ordered(a: Priority, b: Priority) {
    b.Last? || (a.Rank? && a.rank <= b.rank)
  }

  predicate SortedByPriority(subs: seq<Subject>) {
    forall i, j :: 0 <= i < j < |subs| ==> Ordered(subs[i].priority, subs[j].priority)
  }

  /** The test of `addSubject`'s search loop: a new subject of rank `rank`
      goes before `s` when `s` is LAST or has a strictly greater rank. */
  predicate GoesBefore(rank: int, s: Subject) {
    s.priority.Last? || rank < s.priority.rank
  }

  /** The position `addSubject` finds: the first subject the new one goes
      before, or the end of the list. */
  function InsertionIndex(subs: seq<Subject>, rank: int): (k: nat)
    ensures k <= |subs|
    ensures forall j :: 0 <= j < k ==> !GoesBefore(rank, subs[j])
    ensures k < |subs| ==> GoesBefore(rank, subs[k])
    decreases |subs|
  {
    if subs == [] then 0
    else if GoesBefore(rank, subs[0]) then 0
    else 1 + InsertionIndex(subs[1..], rank)
  }

  /** Where a new subject lands: the tail for LAST, else the insertion index. */
  function InsertionPoint(subs: seq<Subject>, s: Subject): (k: nat)
    ensures k <= |subs|
  {
    if s.priority.Last? then |subs| else InsertionIndex(subs, s.priority.rank)
  }

  /** The subject list after registering a subject it does not hold. */
  function Inserted(subs: seq<Subject>, s: Subject): seq<Subject> {
    var k := InsertionPoint(subs, s);
    subs[..k] + [s] + subs[k..]
  }

  /** Registration grows the list by one, puts the new subject at the
      insertion point and keeps the others in their relative order. */
  lemma InsertedShape(subs: seq<Subject>, s: Subject)
    ensures var r := Inserted(subs, s);
            var k := InsertionPoint(subs, s);
            && |r| == |subs| + 1
            && r[k] == s
            && r[..k] + r[k + 1..] == subs
    ensures s.priority.Last? ==> Inserted(subs, s) == subs + [s]
  {
    var r := Inserted(subs, s);
    var k := InsertionPoint(subs, s);
    assert r[..k] == subs[..k];
    assert r[k + 1..] == subs[k..];
  }

  /** A non-LAST subject lands after every subject of rank at most its own
      and before every LAST subject and every subject of greater rank: the
      list stays sorted and equal ranks keep their registration order. */
  lemma InsertionIndexSplitsSorted(subs: seq<Subject>, rank: int)
    requires SortedByPriority(subs)
    ensures var k := InsertionIndex(subs, rank);
            forall j :: 0 <= j < |subs| ==>
              (j < k <==> subs[j].priority.Rank? && subs[j].priority.rank <= rank)
  {
    var k := InsertionIndex(subs, rank);
    forall j | k < j < |subs|
      ensures GoesBefore(rank, subs[j])
    {
      assert Ordered(subs[k].priority, subs[j].priority);
    }
  }

  /** Where each subject of the grown list comes from. */
  lemma InsertedAt(subs: seq<Subject>, s: Subject, i: nat)
    requires i <= |subs|
    ensures var k := InsertionPoint(subs, s);
            Inserted(subs, s)[i] == if i < k then subs[i] else if i == k then s else subs[i - 1]
  {
  }

  /** Registration keeps the list sorted by priority. */
  lemma InsertedKeepsSorted(subs: seq<Subject>, s: Subject)
    requires SortedByPriority(subs)
    ensures SortedByPriority(Inserted(subs, s))
  {
    var r := Inserted(subs, s);
    var k := InsertionPoint(subs, s);
    InsertedShape(subs, s);
    if s.priority.Rank? {
      InsertionIndexSplitsSorted(subs, s.priority.rank);
    }
    forall i, j | 0 <= i < j < |r|
      ensures Ordered(r[i].priority, r[j].priority)
    {
      InsertedAt(subs, s, i);
      InsertedAt(subs, s, j);
    }
  }

  /** Registering a new identity keeps identities distinct. */
  lemma InsertedKeepsDistinct(subs: seq<Subject>, s: Subject)
    requires DistinctIds(subs)
    requires s.id !in Ids(subs)
    ensures DistinctIds(Inserted(subs, s))
  {
    var r := Inserted(subs, s);
    InsertedShape(subs, s);
    forall m | 0 <= m < |subs|
      ensures subs[m].id != s.id
    {
      assert Ids(subs)[m] == subs[m].id;
    }
    forall i, j | 0 <= i < j < |r|
      ensures r[i].id != r[j].id
    {
      InsertedAt(subs, s, i);
      InsertedAt(subs, s, j);
    }
  }

  /* ---------------------------------------------------------------------- */
  /* One dispatch round                                                      */

  /** `utils.safe_min`: the smaller of two datetimes, `None` ignored. */
  function SafeMin(a: Option<int>, b: Option<int>): Option<int> {
    if a.None? then b
    else if b.None? then a
    else if b.value < a.value then b
    else a
  }

  /** The scan of a round: the smallest peeked datetime among the subjects
      that are not at their end. */
  function SmallestDateTime(subs: seq<Subject>): Option<int>
    decreases |subs|
  {
    if subs == [] then None
    else
      var prev := SmallestDateTime(subs[..|subs| - 1]);
      var s := subs[|subs| - 1];
      if s.Eof() then prev else SafeMin(prev, s.PeekDateTime())
  }

  predicate AllEof(subs: seq<Subject>) {
    forall i :: 0 <= i < |subs| ==> subs[i].Eof()
  }

  /** The round's smallest datetime is unknown exactly when every live
      subject is realtime; otherwise it is the peeked datetime of some live
      subject and no live subject peeks an earlier one. */
  lemma {:induction false} SmallestIsMinimum(subs: seq<Subject>)
    ensures SmallestDateTime(subs).None? <==>
              forall i :: 0 <= i < |subs| && !subs[i].Eof() ==> subs[i].PeekDateTime().None?
    ensures SmallestDateTime(subs).Some? ==>
              exists i :: 0 <= i < |subs| && !subs[i].Eof() && subs[i].PeekDateTime() == SmallestDateTime(subs)
    ensures SmallestDateTime(subs).Some? ==>
              forall i :: 0 <= i < |subs| && !subs[i].Eof() && subs[i].PeekDateTime().Some? ==>
                SmallestDateTime(subs).value <= subs[i].PeekDateTime().value
    decreases |subs|
  {
    if subs != [] {
      var init := subs[..|subs| - 1];
      SmallestIsMinimum(init);
      assert forall i :: 0 <= i < |init| ==> init[i] == subs[i];
      var prev := SmallestDateTime(init);
      if prev.Some? {
        var w :| 0 <= w < |init| && !init[w].Eof() && init[w].PeekDateTime() == prev;
        assert subs[w] == init[w];
      }
    }
  }

  /** `__dispatchSubject`'s test: not at its end, and peeking `None` or the
      round's datetime. */
  predicate Due(s: Subject, t: Option<int>) {
    !s.Eof() && (s.PeekDateTime().None? || s.PeekDateTime() == t)
  }

  /** The state of a round part-way through the subject list. */
  datatype RoundState = RoundState(subjects: seq<Subject>, calls: seq<Call>, dispatched: bool, raisedBy: Option<nat>)

  /** One subject's turn in a round: a due subject is dispatched; its call
      may produce events or raise, which ends the round. */
  function DispatchAt(st: RoundState, i: nat, s: Subject, t: Option<int>): RoundState
    requires i < |st.subjects|
  {
    if st.raisedBy.Some? || !Due(s, t) then st
    else
      RoundState(
        st.subjects[i := Advance(s)],
        st.calls + [Dispatched(s.id)],
        st.dispatched || s.steps[0].outcome == Produced,
        if s.steps[0].outcome == Raises then Some(s.id) else None)
  }

  /** Two subject lists with the same identities and priorities, in order. */
  predicate SameShape(a: seq<Subject>, b: seq<Subject>) {
    |a| == |b| && forall i :: 0 <= i < |a| ==> a[i].id == b[i].id && a[i].priority == b[i].priority
  }

  /** The round after the first `n` subjects had their turn. */
  function DispatchPrefix(subs: seq<Subject>, t: Option<int>, n: nat): (r: RoundState)
    requires n <= |subs|
    ensures |r.subjects| == |subs|
    decreases n
  {
    if n == 0 then RoundState(subs, [], false, None)
    else DispatchAt(DispatchPrefix(subs, t, n - 1), n - 1, subs[n - 1], t)
  }

  /** A round keeps every subject's identity and priority, leaves the
      subjects that have not had their turn untouched, and changes any
      subject only by advancing it one step. */
  lemma {:induction false} RoundKeepsShape(subs: seq<Subject>, t: Option<int>, n: nat)
    requires n <= |subs|
    ensures SameShape(DispatchPrefix(subs, t, n).subjects, subs)
    ensures forall i :: n <= i < |subs| ==> DispatchPrefix(subs, t, n).subjects[i] == subs[i]
    ensures forall i :: 0 <= i < |subs| ==>
              var s := DispatchPrefix(subs, t, n).subjects[i];
              s == subs[i] || (!subs[i].Eof() && s == Advance(subs[i]))
    decreases n
  {
    if n > 0 {
      RoundKeepsShape(subs, t, n - 1);
    }
  }

  /** Unless a call raised, each of the first `n` subjects was advanced by
      one step exactly when it was due. */
  lemma {:induction false} RoundAdvancesDueSubjects(subs: seq<Subject>, t: Option<int>, n: nat)
    requires n <= |subs|
    requires DispatchPrefix(subs, t, n).raisedBy.None?
    ensures forall i :: 0 <= i < n ==>
              DispatchPrefix(subs, t, n).subjects[i] == if Due(subs[i], t) then Advance(subs[i]) else subs[i]
    decreases n
  {
    if n > 0 {
      RoundAdvancesDueSubjects(subs, t, n - 1);
      RoundKeepsShape(subs, t, n - 1);
    }
  }

  /** Unless a call raised, the round produced events exactly when some due
      subject's call produced. */
  lemma {:induction false} RoundDispatchedIffProduced(subs: seq<Subject>, t: Option<int>, n: nat)
    requires n <= |subs|
    requires DispatchPrefix(subs, t, n).raisedBy.None?
    ensures DispatchPrefix(subs, t, n).dispatched <==>
              exists i :: 0 <= i < n && Due(subs[i], t) && subs[i].steps[0].outcome == Produced
    decreases n
  {
    if n > 0 {
      RoundDispatchedIffProduced(subs, t, n - 1);
    }
  }

  /** The dispatch calls of a round are the due subjects, in list order. */
  function DueCalls(subs: seq<Subject>, t: Option<int>): seq<Call>
    decreases |subs|
  {
    if subs == [] then []
    else
      var s := subs[|subs| - 1];
      DueCalls(subs[..|subs| - 1], t) + (if Due(s, t) then [Dispatched(s.id)] else [])
  }

  /** A round that does not raise calls `dispatch` on exactly the due
      subjects, in list order, each once. */
  lemma {:induction false} RoundCallsDueSubjects(subs: seq<Subject>, t: Option<int>, n: nat)
    requires n <= |subs|
    requires DispatchPrefix(subs, t, n).raisedBy.None?
    ensures DispatchPrefix(subs, t, n).calls == DueCalls(subs[..n], t)
    decreases n
  {
    if n > 0 {
      RoundCallsDueSubjects(subs, t, n - 1);
      assert subs[..n][..n - 1] == subs[..n - 1];
    }
  }

  /** Once a call raised, the rest of the list has no turn. */
  lemma {:induction false} RaiseEndsRound(subs: seq<Subject>, t: Option<int>, n: nat, m: nat)
    requires n <= m <= |subs|
    requires DispatchPrefix(subs, t, n).raisedBy.Some?
    ensures DispatchPrefix(subs, t, m) == DispatchPrefix(subs, t, n)
    decreases m - n
  {
    if m > n {
      RaiseEndsRound(subs, t, n, m - 1);
    }
  }

  /** A round raises with the identity of a due subject whose call raises. */
  lemma {:induction false} RaiseComesFromDueSubject(subs: seq<Subject>, t: Option<int>, n: nat)
    requires n <= |subs|
    requires DispatchPrefix(subs, t, n).raisedBy.Some?
    ensures exists k :: 0 <= k < n && Due(subs[k], t) && subs[k].steps[0].outcome == Raises
                     && DispatchPrefix(subs, t, n).raisedBy == Some(subs[k].id)
    decreases n
  {
    if DispatchPrefix(subs, t, n - 1).raisedBy.Some? {
      RaiseComesFromDueSubject(subs, t, n - 1);
    }
  }

  /** Some live subject is always due: a realtime one, or one peeking the
      smallest datetime. So every round that is not the last dispatches. */
  lemma SomeSubjectIsDue(subs: seq<Subject>)
    requires !AllEof(subs)
    ensures exists i :: 0 <= i < |subs| && Due(subs[i], SmallestDateTime(subs))
  {
    SmallestIsMinimum(subs);
    var t := SmallestDateTime(subs);
    if t.None? {
      var i :| 0 <= i < |subs| && !subs[i].Eof();
      assert Due(subs[i], t);
    } else {
      var i :| 0 <= i < |subs| && !subs[i].Eof() && subs[i].PeekDateTime() == t;
      assert Due(subs[i], t);
    }
  }

  /** The number of pending steps over all subjects. */
  function TotalSteps(subs: seq<Subject>): nat
    decreases |subs|
  {
    if subs == [] then 0 else TotalSteps(subs[..|subs| - 1]) + |subs[|subs| - 1].steps|
  }

  lemma {:induction false} TotalStepsDecrease(a: seq<Subject>, b: seq<Subject>, k: nat)
    requires |a| == |b| && k < |a|
    requires forall i :: 0 <= i < |a| ==> |b[i].steps| <= |a[i].steps|
    requires |b[k].steps| < |a[k].steps|
    ensures TotalSteps(b) < TotalSteps(a)
    decreases |a|
  {
    var n := |a| - 1;
    if k < n {
      TotalStepsDecrease(a[..n], b[..n], k);
    } else {
      TotalStepsNoIncrease(a[..n], b[..n]);
    }
  }

  lemma {:induction false} TotalStepsNoIncrease(a: seq<Subject>, b: seq<Subject>)
    requires |a| == |b|
    requires forall i :: 0 <= i < |a| ==> |b[i].steps| <= |a[i].steps|
    ensures TotalSteps(b) <= TotalSteps(a)
    decreases |a|
  {
    if a != [] {
      TotalStepsNoIncrease(a[..|a| - 1], b[..|b| - 1]);
    }
  }

  /** A full round that neither ends the run nor raises consumes at least
      one pending step. */
  lemma RoundMakesProgress(subs: seq<Subject>)
    requires !AllEof(subs)
    requires DispatchPrefix(subs, SmallestDateTime(subs), |subs|).raisedBy.None?
    ensures TotalSteps(DispatchPrefix(subs, SmallestDateTime(subs), |subs|).subjects) < TotalSteps(subs)
  {
    SomeSubjectIsDue(subs);
    var k :| 0 <= k < |subs| && Due(subs[k], SmallestDateTime(subs));
    RoundConsumesDueStep(subs, SmallestDateTime(subs), k);
  }

  lemma RoundConsumesDueStep(subs: seq<Subject>, t: Option<int>, k: nat)
    requires k < |subs| && Due(subs[k], t)
    requires DispatchPrefix(subs, t, |subs|).raisedBy.None?
    ensures TotalSteps(DispatchPrefix(subs, t, |subs|).subjects) < TotalSteps(subs)
  {
    var r := DispatchPrefix(subs, t, |subs|).subjects;
    RoundAdvancesDueSubjects(subs, t, |subs|);
    RoundKeepsShape(subs, t, |subs|);
    assert r[k] == Advance(subs[k]);
    forall i | 0 <= i < |subs|
      ensures |r[i].steps| <= |subs[i].steps|
    {
      assert r[i] == subs[i] || (!subs[i].Eof() && r[i] == Advance(subs[i]));
    }
    TotalStepsDecrease(subs, r, k);
  }

  /* ---------------------------------------------------------------------- */
  /* The run loop                                                            */

  datatype LoopResult = LoopResult(subjects: seq<Subject>, calls: seq<Call>, raisedBy: Option<nat>)

  /** The rounds of `run` from a state with the stop flag clear: stop after
      a round where every subject is at its end; emit the idle event after a
      round that dispatched nothing; end early when a call raises. */
  function RunLoop(subs: seq<Subject>): LoopResult
    decreases TotalSteps(subs)
  {
    if AllEof(subs) then LoopResult(subs, [], None)
    else
      var round := DispatchPrefix(subs, SmallestDateTime(subs), |subs|);
      if round.raisedBy.Some? then LoopResult(round.subjects, round.calls, round.raisedBy)
      else
        RoundMakesProgress(subs);
        var rest := RunLoop(round.subjects);
        LoopResult(rest.subjects, round.calls + (if round.dispatched then [] else [IdleEvent]) + rest.calls, rest.raisedBy)
  }

  /** What the loop of `run` does from a subject list and a stop flag: a
      flag already set skips every round. */
  function RunOutcome(subs: seq<Subject>, stopped: bool): LoopResult {
    if stopped then LoopResult(subs, [], None) else RunLoop(subs)
  }

  /** One round of the run loop from `cur`. */
  lemma RunLoopUnfold(cur: seq<Subject>)
    ensures AllEof(cur) ==> RunLoop(cur) == LoopResult(cur, [], None)
    ensures !AllEof(cur) ==>
              var round := DispatchPrefix(cur, SmallestDateTime(cur), |cur|);
              && (round.raisedBy.Some? ==> RunLoop(cur) == LoopResult(round.subjects, round.calls, round.raisedBy))
              && (round.raisedBy.None? ==>
                    var rest := RunLoop(round.subjects);
                    RunLoop(cur) == LoopResult(rest.subjects,
                                               round.calls + (if round.dispatched then [] else [IdleEvent]) + rest.calls,
                                               rest.raisedBy))
  {
  }

  /** Where the run loop stands after some rounds, `target` being the
      outcome of the whole loop: the calls made so far are `done` and the
      subjects are `cur`; the loop ended by the stop flag or by a raise, or
      its remaining rounds are those of a run loop from `cur`. */
  ghost predicate RunsTo(target: LoopResult, cur: seq<Subject>, done: seq<Call>, stopped: bool, raisedBy: Option<nat>) {
    if raisedBy.Some? then target == LoopResult(cur, done, raisedBy)
    else if stopped then target == LoopResult(cur, done, None)
    else
      var rest := RunLoop(cur);
      target == LoopResult(rest.subjects, done + rest.calls, rest.raisedBy)
  }

  /** A round where every subject is at its end stops the loop. */
  lemma RunsToEof(target: LoopResult, cur: seq<Subject>, done: seq<Call>)
    requires RunsTo(target, cur, done, false, None) && AllEof(cur)
    ensures RunsTo(target, cur, done, true, None)
  {
    RunLoopUnfold(cur);
    assert done + [] == done;
  }

  /** One round of the run loop, stated on `RunsTo`. */
  lemma RunsToStep(target: LoopResult, cur: seq<Subject>, done: seq<Call>, round: RoundState)
    requires RunsTo(target, cur, done, false, None)
    requires !AllEof(cur) && round == DispatchPrefix(cur, SmallestDateTime(cur), |cur|)
    ensures round.raisedBy.Some? ==> RunsTo(target, round.subjects, done + round.calls, false, round.raisedBy)
    ensures round.raisedBy.None? ==>
              RunsTo(target, round.subjects, done + round.calls + (if round.dispatched then [] else [IdleEvent]), false, None)
  {
    RunLoopUnfold(cur);
    if round.raisedBy.None? {
      var idle: seq<Call> := if round.dispatched then [] else [IdleEvent];
      ComposeCalls(target, done, round.calls + idle, RunLoop(round.subjects));
    }
  }

  lemma ComposeCalls(target: LoopResult, done: seq<Call>, calls: seq<Call>, rest: LoopResult)
    requires target == LoopResult(rest.subjects, done + (calls + rest.calls), rest.raisedBy)
    ensures target == LoopResult(rest.subjects, done + calls + rest.calls, rest.raisedBy)
  {
    assert done + (calls + rest.calls) == done + calls + rest.calls;
  }

  /** A run that no call interrupted ends with every subject at its end. */
  lemma {:induction false} RunLoopDrains(subs: seq<Subject>)
    requires RunLoop(subs).raisedBy.None?
    ensures AllEof(RunLoop(subs).subjects)
    decreases TotalSteps(subs)
  {
    if !AllEof(subs) {
      var round := DispatchPrefix(subs, SmallestDateTime(subs), |subs|);
      RoundMakesProgress(subs);
      RunLoopDrains(round.subjects);
    }
  }

  /** The run loop keeps every subject's identity and priority in place. */
  lemma {:induction false} RunLoopKeepsShape(subs: seq<Subject>)
    ensures SameShape(RunLoop(subs).subjects, subs)
    decreases TotalSteps(subs)
  {
    if !AllEof(subs) {
      var round := DispatchPrefix(subs, SmallestDateTime(subs), |subs|);
      RoundKeepsShape(subs, SmallestDateTime(subs), |subs|);
      if round.raisedBy.None? {
        RoundMakesProgress(subs);
        RunLoopKeepsShape(round.subjects);
        SameShapeTransitive(RunLoop(round.subjects).subjects, round.subjects, subs);
      }
    }
  }

  /** The three loops of `run` that call one method on every subject. */
  datatype Phase = StartPhase | StopPhase | JoinPhase

  function PhaseCall(p: Phase, id: nat): Call {
    match p
    case StartPhase => Started(id)
    case StopPhase => Stopped(id)
    case JoinPhase => Joined(id)
  }

  function EachSubject(subs: seq<Subject>, p: Phase): (r: seq<Call>)
    ensures |r| == |subs|
    ensures forall i :: 0 <= i < |subs| ==> r[i] == PhaseCall(p, subs[i].id)
    decreases |subs|
  {
    if subs == [] then [] else EachSubject(subs[..|subs| - 1], p) + [PhaseCall(p, subs[|subs| - 1].id)]
  }

  lemma SameShapeSameCalls(a: seq<Subject>, b: seq<Subject>, p: Phase)
    requires SameShape(a, b)
    ensures EachSubject(a, p) == EachSubject(b, p)
  {
  }

  lemma SameShapeTransitive(a: seq<Subject>, b: seq<Subject>, c: seq<Subject>)
    requires SameShape(a, b) && SameShape(b, c)
    ensures SameShape(a, c)
  {
  }

  lemma SameShapeValid(a: seq<Subject>, b: seq<Subject>)
    requires SameShape(a, b)
    requires SortedByPriority(a) && DistinctIds(a)
    ensures SortedByPriority(b) && DistinctIds(b)
  {
    forall i, j | 0 <= i < j < |b|
      ensures Ordered(b[i].priority, b[j].priority) && b[i].id != b[j].id
    {
      assert Ordered(a[i].priority, a[j].priority) && a[i].id != a[j].id;
    }
  }

  /* ---------------------------------------------------------------------- */
  /* The dispatcher object                                                   */

  class Dispatcher {
    var subjects: seq<Subject>
    var stopRequested: bool
    var currDateTime: Option<int>
    var log: seq<Call>

    /** The subject list is sorted by priority and holds each subject once. */
    ghost predicate Valid()
      reads this`subjects
    {
      SortedByPriority(subjects) && DistinctIds(subjects)
    }

    constructor ()
      ensures Valid()
      ensures subjects == [] && !stopRequested && currDateTime.None? && log == []
    {
      subjects := [];
      stopRequested := false;
      currDateTime := None;
      log := [];
    }

    /** `getCurrentDateTime`. */
    function GetCurrentDateTime(): Option<int>
      reads this
    {
      currDateTime
    }

    /** `stop`: request the run loop to end before its next round. */
    method Stop()
      modifies this
      ensures stopRequested
      ensures subjects == old(subjects) && currDateTime == old(currDateTime) && log == old(log)
    {
      stopRequested := true;
    }

    /** `addSubject`: a subject already registered is skipped; a LAST one is
        appended; any other goes before the first subject that is LAST or
        has a greater rank. The subject is then told it was registered. */
    method AddSubject(s: Subject)
      requires Valid()
      modifies this
      ensures Valid()
      ensures s.id in Ids(old(subjects)) ==> subjects == old(subjects) && log == old(log)
      ensures s.id !in Ids(old(subjects)) ==>
                subjects == Inserted(old(subjects), s) && log == old(log) + [Registered(s.id)]
      ensures stopRequested == old(stopRequested) && currDateTime == old(currDateTime)
    {
      if s.id in Ids(subjects) {
        return;
      }
      InsertedKeepsSorted(subjects, s);
      InsertedKeepsDistinct(subjects, s);
      if s.priority.Last? {
        subjects := subjects + [s];
      } else {
        var pos := 0;
        while pos < |subjects| && !GoesBefore(s.priority.rank, subjects[pos])
          invariant 0 <= pos <= |subjects|
          invariant forall j :: 0 <= j < pos ==> !GoesBefore(s.priority.rank, subjects[j])
        {
          pos := pos + 1;
        }
        InsertionIndexUnique(subjects, s.priority.rank, pos);
        subjects := subjects[..pos] + [s] + subjects[pos..];
      }
      log := log + [Registered(s.id)];
    }

    /** `__dispatchSubject` for the subject at `i`: dispatch it if it is due
        at `t`; the result is whether its call returned True. */
    method DispatchSubject(i: nat, t: Option<int>) returns (ret: bool, raised: bool)
      requires i < |subjects|
      modifies this
      ensures var st := DispatchAt(RoundState(old(subjects), old(log), false, None), i, old(subjects)[i], t);
              && subjects == st.subjects && log == st.calls
              && ret == st.dispatched
              && raised == st.raisedBy.Some?
      ensures stopRequested == old(stopRequested) && currDateTime == old(currDateTime)
    {
      ret, raised := false, false;
      var s := subjects[i];
      if Due(s, t) {
        log := log + [Dispatched(s.id)];
        subjects := subjects[i := Advance(s)];
        ret := s.steps[0].outcome == Produced;
        raised := s.steps[0].outcome == Raises;
      }
    }

    /** The scan at the start of `__dispatch`: whether every subject is at
        its end, and the smallest datetime the live subjects peek. */
    method ScanRound() returns (eof: bool, smallest: Option<int>)
      ensures eof == AllEof(subjects)
      ensures smallest == SmallestDateTime(subjects)
    {
      smallest := None;
      eof := true;
      var i := 0;
      while i < |subjects|
        invariant 0 <= i <= |subjects|
        invariant eof == AllEof(subjects[..i])
        invariant smallest == SmallestDateTime(subjects[..i])
      {
        assert subjects[..i + 1][..i] == subjects[..i];
        if !subjects[i].Eof() {
          eof := false;
          smallest := SafeMin(smallest, subjects[i].PeekDateTime());
        }
        i := i + 1;
      }
      assert subjects[..|subjects|] == subjects;
    }

    /** The dispatch loop of `__dispatch`: give each subject its turn at
        datetime `t`, in list order, until a call raises. */
    method DispatchDue(t: Option<int>) returns (eventsDispatched: bool, raisedBy: Option<nat>)
      modifies this
      ensures var round := DispatchPrefix(old(subjects), t, |old(subjects)|);
              && subjects == round.subjects && log == old(log) + round.calls
              && eventsDispatched == round.dispatched && raisedBy == round.raisedBy
      ensures stopRequested == old(stopRequested) && currDateTime == old(currDateTime)
    {
      eventsDispatched, raisedBy := false, None;
      var i := 0;
      while i < |subjects| && raisedBy.None?
        invariant 0 <= i <= |subjects| == |old(subjects)|
        invariant var st := DispatchPrefix(old(subjects), t, i);
                  && subjects == st.subjects && log == old(log) + st.calls
                  && eventsDispatched == st.dispatched && raisedBy == st.raisedBy
        invariant stopRequested == old(stopRequested) && currDateTime == old(currDateTime)
      {
        RoundKeepsShape(old(subjects), t, i);
        var id := subjects[i].id;
        var ret, raised := DispatchSubject(i, t);
        if raised {
          raisedBy := Some(id);
        } else if ret {
          eventsDispatched := true;
        }
        i := i + 1;
      }
      if raisedBy.Some? {
        RaiseEndsRound(old(subjects), t, i, |old(subjects)|);
      }
    }

    /** `__dispatch`: one round. When every subject is at its end nothing is
        dispatched and the current datetime is left as it was; otherwise the
        current datetime becomes the round's smallest datetime and each due
        subject is dispatched in list order, until a call raises. */
    method DispatchRound() returns (eof: bool, eventsDispatched: bool, raisedBy: Option<nat>)
      requires Valid()
      modifies this
      ensures Valid()
      ensures eof == AllEof(old(subjects))
      ensures eof ==> subjects == old(subjects) && log == old(log) && currDateTime == old(currDateTime)
                      && !eventsDispatched && raisedBy.None?
      ensures !eof ==>
                var t := SmallestDateTime(old(subjects));
                var round := DispatchPrefix(old(subjects), t, |old(subjects)|);
                && currDateTime == t
                && subjects == round.subjects && log == old(log) + round.calls
                && eventsDispatched == round.dispatched && raisedBy == round.raisedBy
      ensures stopRequested == old(stopRequested)
    {
      var smallest;
      eof, smallest := ScanRound();
      eventsDispatched, raisedBy := false, None;
      if !eof {
        currDateTime := smallest;
        ghost var subs0 := subjects;
        eventsDispatched, raisedBy := DispatchDue(smallest);
        RoundKeepsShape(subs0, smallest, |subs0|);
        SameShapeValid(subs0, subjects);
      }
    }

    /** One of the loops of `run` that calls the same method on every
        subject, in list order. */
    method CallEach(p: Phase)
      modifies this
      ensures log == old(log) + EachSubject(subjects, p)
      ensures subjects == old(subjects) && stopRequested == old(stopRequested) && currDateTime == old(currDateTime)
    {
      var i := 0;
      while i < |subjects|
        invariant 0 <= i <= |subjects|
        invariant log == old(log) + EachSubject(subjects[..i], p)
        invariant subjects == old(subjects) && stopRequested == old(stopRequested) && currDateTime == old(currDateTime)
      {
        assert subjects[..i + 1][..i] == subjects[..i];
        log := log + [PhaseCall(p, subjects[i].id)];
        i := i + 1;
      }
      assert subjects[..|subjects|] == subjects;
    }

    /** One pass of the `while not self.__stop` loop of `run`: a round;
        the stop flag is set when every subject was at its end, and the idle
        event is emitted when the round dispatched nothing. The calls made
        since position `start` of the log follow the run loop towards
        `target`. */
    method RunOneRound(ghost target: LoopResult, ghost start: nat) returns (raised: Option<nat>)
      requires Valid() && !stopRequested
      requires start <= |log| && RunsTo(target, subjects, log[start..], false, None)
      modifies this
      ensures Valid()
      ensures start <= |log| && log[..start] == old(log)[..start]
      ensures RunsTo(target, subjects, log[start..], stopRequested, raised)
      ensures raised.Some? ==> !stopRequested
      ensures !stopRequested && raised.None? ==> TotalSteps(subjects) < TotalSteps(old(subjects))
    {
      ghost var before := subjects;
      ghost var done := log[start..];
      var eof, eventsDispatched;
      eof, eventsDispatched, raised := DispatchRound();
      if eof {
        RunsToEof(target, before, done);
        stopRequested := true;
      } else {
        ghost var round := DispatchPrefix(before, SmallestDateTime(before), |before|);
        RunsToStep(target, before, done, round);
        assert log[start..] == done + round.calls;
        if raised.None? {
          RoundMakesProgress(before);
          if !eventsDispatched {
            log := log + [IdleEvent];
            assert log[start..] == done + round.calls + [IdleEvent];
          }
        }
      }
    }

    /** The `while not self.__stop` loop of `run`; a raising call ends it. */
    method RunRounds() returns (raisedBy: Option<nat>)
      requires Valid()
      modifies this
      ensures Valid()
      ensures var L := RunOutcome(old(subjects), old(stopRequested));
              subjects == L.subjects && log == old(log) + L.calls && raisedBy == L.raisedBy
      ensures stopRequested == (old(stopRequested) || raisedBy.None?)
    {
      raisedBy := None;
      ghost var start := |log|;
      ghost var target := RunLoop(subjects);
      assert log[start..] == [];
      while !stopRequested && raisedBy.None?
        invariant Valid()
        invariant old(stopRequested) ==>
                    stopRequested && subjects == old(subjects) && log == old(log) && currDateTime == old(currDateTime)
        invariant raisedBy.Some? ==> !stopRequested
        invariant start == |old(log)| <= |log| && log[..start] == old(log)
        invariant !old(stopRequested) ==>
                    target == RunLoop(old(subjects)) && RunsTo(target, subjects, log[start..], stopRequested, raisedBy)
        decreases if stopRequested || raisedBy.Some? then 0 else TotalSteps(subjects) + 1
      {
        raisedBy := RunOneRound(target, start);
      }
      assert log == log[..start] + log[start..];
    }

    /** The `try` part of `run` before its loop: start every subject, in
        list order, then emit the start event. */
    method StartAll()
      modifies this
      ensures log == old(log) + EachSubject(subjects, StartPhase) + [StartEvent]
      ensures subjects == old(subjects) && stopRequested == old(stopRequested) && currDateTime == old(currDateTime)
    {
      CallEach(StartPhase);
      log := log + [StartEvent];
    }

    /** The `finally` part of `run`: clear the current datetime, stop every
        subject, then join every subject, in list order. */
    method Finish()
      modifies this
      ensures currDateTime.None?
      ensures log == old(log) + EachSubject(subjects, StopPhase) + EachSubject(subjects, JoinPhase)
      ensures subjects == old(subjects) && stopRequested == old(stopRequested)
    {
      currDateTime := None;
      CallEach(StopPhase);
      CallEach(JoinPhase);
    }

    /** `run`: start every subject, emit the start event, run rounds until
        the stop flag is set (by a round where every subject is at its end)
        or a call raises; then, on every path, clear the current datetime,
        stop every subject and join every subject, in list order. */
    method Run() returns (r: Result<(), nat>)
      requires Valid()
      modifies this
      ensures Valid()
      ensures currDateTime.None?
      ensures stopRequested == (old(stopRequested) || r.Ok?)
      ensures var L := RunOutcome(old(subjects), old(stopRequested));
              && subjects == L.subjects
              && log == old(log) + EachSubject(old(subjects), StartPhase) + [StartEvent] + L.calls
                        + EachSubject(old(subjects), StopPhase) + EachSubject(old(subjects), JoinPhase)
              && (r.Ok? <==> L.raisedBy.None?)
              && (r.Err? ==> L.raisedBy == Some(r.error))
    {
      StartAll();
      ghost var subs0 := subjects;
      var raisedBy := RunRounds();
      if !old(stopRequested) {
        RunLoopKeepsShape(subs0);
      }
      SameShapeSameCalls(subs0, subjects, StopPhase);
      SameShapeSameCalls(subs0, subjects, JoinPhase);
      Finish();
      r := if raisedBy.Some? then Err(raisedBy.value) else Ok(());
    }
  }

  /** The search loop of `addSubject` stops at the insertion index. */
  lemma InsertionIndexUnique(subs: seq<Subject>, rank: int, pos: nat)
    requires pos <= |subs|
    requires forall j :: 0 <= j < pos ==> !GoesBefore(rank, subs[j])
    requires pos < |subs| ==> GoesBefore(rank, subs[pos])
    ensures pos == InsertionIndex(subs, rank)
  {
  }
}
