/**
 The tool-call hook and the child-event handler as they run on one task, and that what they do is a run of
 the interleaving machine.
 */
module SubAgentCalls {
  import opened Messages
  import opened SubAgentObserver

  /** What one task does inside a call: delegate, call another tool, or consume a child's events. */
  datatype Work =
    | Delegated(delegation: Delegation, work: seq<Work>, ok: bool)
    | Called(work: seq<Work>, ok: bool)
    | Child(events: seq<ChildEvent>)

  /** What a child's events are told as: each call as made, each result by whether it is a retry, in order. */
  function Reported(d: Option<Delegation>, events: seq<ChildEvent>, n: nat): seq<Event>
    requires n <= |events|
  {
    if n == 0 || d.None? then []
    else
      match events[n - 1]
      case ToolCalled(callId, tool) =>
        Reported(d, events, n - 1)
        + [Progress(d.value, "tool_call", d.value.agent + ": calling " + tool, callId, tool, None)]
      case ToolReturned(callId, tool, retryPart, retried) =>
        if retryPart || retried then
          Reported(d, events, n - 1)
          + [Progress(d.value, "tool_result", d.value.agent + ": " + tool + " failed", callId, tool, Some(false))]
        else
          Reported(d, events, n - 1)
          + [Progress(d.value, "tool_result", d.value.agent + ": " + tool + " returned", callId, tool, Some(true))]
      case OtherEvent => Reported(d, events, n - 1)
  }

  /** What is announced, given the delegation the task is inside of. */
  function Told(w: Work, inside: Option<Delegation>): seq<Event>
    decreases w
  {
    match w
    case Delegated(d, work, ok) =>
      [Started(d)] + ToldAll(work, |work|, Some(d)) + [if ok then Finished(d) else Failed(d)]
    case Called(work, _) => ToldAll(work, |work|, inside)
    case Child(events) => Reported(inside, events, |events|)
  }

  function ToldAll(work: seq<Work>, n: nat, inside: Option<Delegation>): seq<Event>
    requires n <= |work|
    decreases work, n
  {
    if n == 0 then [] else ToldAll(work, n - 1, inside) + Told(work[n - 1], inside)
  }

  /** What has been announced, with some more; nothing where no channel is bound. */
  function Announced(sink: Option<seq<Event>>, more: seq<Event>): Option<seq<Event>> {
    match sink
    case None => None
    case Some(before) => Some(before + more)
  }

  lemma AnnouncedNothing(sink: Option<seq<Event>>)
    ensures Announced(sink, []) == sink
  {
    if sink.Some? {
      assert sink.value + [] == sink.value;
    }
  }

  lemma AnnouncedTwice(sink: Option<seq<Event>>, a: seq<Event>, b: seq<Event>)
    ensures Announced(Announced(sink, a), b) == Announced(sink, a + b)
  {
    if sink.Some? {
      assert sink.value + a + b == sink.value + (a + b);
    }
  }

  /** The context variable of the task, and the channel of the run when one is bound. */
  class TaskContext {
    var delegation: Option<Delegation>
    var sink: Option<seq<Event>>

    constructor (bound: bool)
      ensures delegation == None && sink == if bound then Some([]) else None
    {
      delegation, sink := None, if bound then Some([]) else None;
    }

    method Emit(event: Event)
      modifies this`sink
      ensures sink == Announced(old(sink), [event])
    {
      if sink.Some? {
        sink := Some(sink.value + [event]);
      }
    }

    method ForwardChildEvents(events: seq<ChildEvent>)
      modifies this`sink
      ensures sink == Announced(old(sink), Reported(delegation, events, |events|))
    {
      var captured := delegation;
      AnnouncedNothing(sink);
      for k := 0 to |events|
        invariant sink == Announced(old(sink), Reported(captured, events, k))
      {
        if captured.None? {
          continue;
        }
        var report := Report(captured.value, events[k]);
        AnnouncedNothing(sink);
        if report.Some? {
          AnnouncedTwice(old(sink), Reported(captured, events, k), [report.value]);
          Emit(report.value);
        }
      }
    }

    /** Every way out announces the end of what was announced on the way in, and gives the variable back. */
    method Perform(w: Work) returns (ok: bool)
      modifies this
      ensures delegation == old(delegation)
      ensures sink == Announced(old(sink), Told(w, old(delegation)))
      ensures ok == (w.Child? || w.ok)
      decreases w, 1
    {
      match w {
        case Delegated(d, work, succeeds) =>
          var saved := delegation;
          ghost var inner := ToldAll(work, |work|, Some(d));
          AnnouncedTwice(sink, [Started(d)], inner);
          AnnouncedTwice(sink, [Started(d)] + inner, [if succeeds then Finished(d) else Failed(d)]);
          delegation := Some(d);
          Emit(Started(d));
          PerformAll(work);
          if succeeds {
            Emit(Finished(d));
          } else {
            Emit(Failed(d));
          }
          delegation := saved;
          return succeeds;
        case Called(work, succeeds) =>
          PerformAll(work);
          return succeeds;
        case Child(events) =>
          ForwardChildEvents(events);
          return true;
      }
    }

    method PerformAll(work: seq<Work>)
      modifies this
      ensures delegation == old(delegation)
      ensures sink == Announced(old(sink), ToldAll(work, |work|, old(delegation)))
      decreases work, 0
    {
      AnnouncedNothing(sink);
      for k := 0 to |work|
        invariant delegation == old(delegation)
        invariant sink == Announced(old(sink), ToldAll(work, k, old(delegation)))
      {
        AnnouncedTwice(old(sink), ToldAll(work, k, delegation), Told(work[k], delegation));
        var ok := Perform(work[k]);
      }
    }
  }

  // ---- One task's work is a run of the machine ----------------------------------------------------------------

  function Hearing(events: seq<ChildEvent>, n: nat): seq<Move>
    requires n <= |events|
  {
    if n == 0 then [] else Hearing(events, n - 1) + [Hear(0, events[n - 1])]
  }

  function Moves(w: Work): seq<Move>
    decreases w
  {
    match w
    case Delegated(d, work, ok) => [Delegate(0, d)] + MovesAll(work, |work|) + [Return(0, ok)]
    case Called(work, ok) => [CallOther(0)] + MovesAll(work, |work|) + [Return(0, ok)]
    case Child(events) => [Handle(0)] + Hearing(events, |events|) + [Return(0, true)]
  }

  function MovesAll(work: seq<Work>, n: nat): seq<Move>
    requires n <= |work|
    decreases work, n
  {
    if n == 0 then [] else MovesAll(work, n - 1) + Moves(work[n - 1])
  }

  /** The call ids a piece of work uses, in order. */
  function CallIds(w: Work): seq<Id>
    decreases w
  {
    match w
    case Delegated(d, work, _) => [d.id] + CallIdsAll(work, |work|)
    case Called(work, _) => CallIdsAll(work, |work|)
    case Child(_) => []
  }

  function CallIdsAll(work: seq<Work>, n: nat): seq<Id>
    requires n <= |work|
    decreases work, n
  {
    if n == 0 then [] else CallIdsAll(work, n - 1) + CallIds(work[n - 1])
  }

  /** Whether a list of ids is new to a run, and without repeats. */
  function UsedUp(used: set<Id>, ids: seq<Id>): Option<set<Id>>
    decreases |ids|
  {
    if ids == [] then Some(used) else if ids[0] in used then None else UsedUp(used + {ids[0]}, ids[1..])
  }

  lemma {:induction false} UsedUpConcat(used: set<Id>, a: seq<Id>, b: seq<Id>)
    ensures UsedUp(used, a + b) == match UsedUp(used, a) case None => None case Some(more) => UsedUp(more, b)
    decreases |a|
  {
    if a == [] {
      assert a + b == b;
    } else if a[0] !in used {
      assert (a + b)[1..] == a[1..] + b;
      UsedUpConcat(used + {a[0]}, a[1..], b);
    }
  }

  /** The state after some more moves, where all of them can be made. */
  function Onward(s: State, moves: seq<Move>): Option<State>
    decreases |moves|
  {
    if moves == [] then Some(s)
    else if Enabled(s, moves[0]) then Onward(Do(s, moves[0]), moves[1..])
    else None
  }

  lemma {:induction false} OnwardConcat(s: State, a: seq<Move>, b: seq<Move>)
    ensures Onward(s, a + b) == match Onward(s, a) case None => None case Some(t) => Onward(t, b)
    decreases |a|
  {
    if a == [] {
      assert a + b == b;
    } else if Enabled(s, a[0]) {
      assert (a + b)[1..] == a[1..] + b;
      OnwardConcat(Do(s, a[0]), a[1..], b);
    }
  }

  /** A run with one task. */
  ghost predicate Alone(s: State) {
    |s.tasks| == 1 && s.tasks[0].alive
  }

  lemma OneMove(s: State, m: Move)
    requires Enabled(s, m)
    ensures Onward(s, [m]) == Some(Do(s, m))
  {
    assert [m][1..] == [];
  }

  lemma OneMoreHeard(s: State, captured: Option<Delegation>, events: seq<ChildEvent>, n: nat)
    requires 0 < n <= |events|
    ensures Heard(s.(log := s.log + Reported(captured, events, n - 1)), captured, events[n - 1])
            == s.(log := s.log + Reported(captured, events, n))
  {
    if captured.Some? && Report(captured.value, events[n - 1]).Some? {
      var e := Report(captured.value, events[n - 1]).value;
      assert s.log + Reported(captured, events, n - 1) + [e] == s.log + (Reported(captured, events, n - 1) + [e]);
    }
  }

  lemma {:induction false} HearingRuns(s: State, captured: Option<Delegation>, events: seq<ChildEvent>, n: nat)
    requires Alone(s) && n <= |events|
    requires s.tasks[0].frames != [] && s.tasks[0].frames[|s.tasks[0].frames| - 1] == Handling(captured)
    ensures Onward(s, Hearing(events, n)) == Some(s.(log := s.log + Reported(captured, events, n)))
  {
    if n == 0 {
      assert s.log + [] == s.log;
    } else {
      HearingRuns(s, captured, events, n - 1);
      var t := s.(log := s.log + Reported(captured, events, n - 1));
      OnwardConcat(s, Hearing(events, n - 1), [Hear(0, events[n - 1])]);
      OneMove(t, Hear(0, events[n - 1]));
      OneMoreHeard(s, captured, events, n);
    }
  }

  /** Into an activation, its work, and out again. */
  lemma Around(s: State, first: Move, work: seq<Move>, last: Move, inside: State)
    requires Enabled(s, first) && Onward(Do(s, first), work) == Some(inside) && Enabled(inside, last)
    ensures Onward(s, [first] + work + [last]) == Some(Do(inside, last))
  {
    OneMove(s, first);
    OnwardConcat(s, [first], work);
    OnwardConcat(s, [first] + work, [last]);
    OneMove(inside, last);
  }

  lemma SetBack(tasks: seq<Task>, pushed: Task)
    requires |tasks| == 1
    ensures tasks[0 := pushed][0 := tasks[0]] == tasks
  {
  }

  lemma BackFromACall(s: State, frame: Frame, log: seq<Event>, used: set<Id>, ok: bool)
    requires Alone(s) && !frame.Delegating?
    ensures var inside := Push(s, 0, frame).(log := log, used := used);
            Popped(inside, 0, ok) == s.(log := log, used := used)
  {
    var frames := s.tasks[0].frames;
    assert (frames + [frame])[..|frames|] == frames;
    SetBack(s.tasks, s.tasks[0].(frames := frames + [frame]));
  }

  lemma BackFromADelegation(s: State, d: Delegation, log: seq<Event>, used: set<Id>, ok: bool)
    requires Alone(s) && d.id !in s.open
    ensures var inside := Opened(s, 0, d).(log := log, used := used);
            Popped(inside, 0, ok) == s.(log := log + [if ok then Finished(d) else Failed(d)], used := used)
  {
    var task := s.tasks[0];
    var frame := Delegating(d, task.current);
    assert (task.frames + [frame])[..|task.frames|] == task.frames;
    SetBack(s.tasks, task.(current := Some(d), frames := task.frames + [frame]));
    assert s.open[d.id := Place(0, |task.frames|)] - {d.id} == s.open;
  }

  lemma Wrapped(s: State, first: Move, work: seq<Move>, told: seq<Event>, used: set<Id>, ok: bool)
    requires Alone(s) && first in {CallOther(0), Handle(0)}
    requires Onward(Do(s, first), work) == Some(Do(s, first).(log := s.log + told, used := used))
    ensures Onward(s, [first] + work + [Return(0, ok)]) == Some(s.(log := s.log + told, used := used))
  {
    var inside := Do(s, first).(log := s.log + told, used := used);
    Around(s, first, work, Return(0, ok), inside);
    BackFromACall(s, if first == Handle(0) then Handling(s.tasks[0].current) else Other, s.log + told, used, ok);
  }

  lemma Regrouped(a: seq<Event>, b: seq<Event>, c: seq<Event>, d: seq<Event>)
    ensures a + b + c + d == a + (b + c + d)
  {
  }

  lemma WrappedDelegation(s: State, d: Delegation, work: seq<Move>, told: seq<Event>, used: set<Id>, ok: bool)
    requires Alone(s) && d.id !in s.used && d.id !in s.open
    requires Onward(Opened(s, 0, d), work) == Some(Opened(s, 0, d).(log := s.log + [Started(d)] + told, used := used))
    ensures Onward(s, [Delegate(0, d)] + work + [Return(0, ok)])
            == Some(s.(log := s.log + ([Started(d)] + told + [if ok then Finished(d) else Failed(d)]), used := used))
  {
    var log := s.log + [Started(d)] + told;
    var inside := Opened(s, 0, d).(log := log, used := used);
    assert Do(s, Delegate(0, d)) == Opened(s, 0, d);
    BackFromADelegation(s, d, log, used, ok);
    InsideADelegation(s, d, log, used);
    Around(s, Delegate(0, d), work, Return(0, ok), inside);
    Regrouped(s.log, [Started(d)], told, [if ok then Finished(d) else Failed(d)]);
  }

  lemma InsideADelegation(s: State, d: Delegation, log: seq<Event>, used: set<Id>)
    requires Alone(s)
    ensures forall ok :: Enabled(Opened(s, 0, d).(log := log, used := used), Return(0, ok))
  {
  }

  /** Work done on one task announces what a run of the machine announces, and leaves it where it was. */
  lemma {:induction false} WorkRuns(s: State, w: Work)
    requires Alone(s) && s.open.Keys <= s.used && UsedUp(s.used, CallIds(w)).Some?
    ensures Onward(s, Moves(w))
            == Some(s.(log := s.log + Told(w, s.tasks[0].current), used := UsedUp(s.used, CallIds(w)).value))
    decreases w
  {
    match w {
      case Delegated(d, work, ok) =>
        var inside := Do(s, Delegate(0, d));
        assert ([d.id] + CallIdsAll(work, |work|))[1..] == CallIdsAll(work, |work|);
        AllRuns(inside, work, |work|);
        WrappedDelegation(s, d, MovesAll(work, |work|), ToldAll(work, |work|, Some(d)),
            UsedUp(s.used, CallIds(w)).value, ok);
      case Called(work, ok) =>
        AllRuns(Do(s, CallOther(0)), work, |work|);
        Wrapped(s, CallOther(0), MovesAll(work, |work|), Told(w, s.tasks[0].current), UsedUp(s.used, CallIds(w)).value,
            ok);
      case Child(events) =>
        HearingRuns(Do(s, Handle(0)), s.tasks[0].current, events, |events|);
        Wrapped(s, Handle(0), Hearing(events, |events|), Told(w, s.tasks[0].current), s.used, true);
    }
  }

  lemma {:induction false} AllRuns(s: State, work: seq<Work>, n: nat)
    requires n <= |work| && Alone(s) && s.open.Keys <= s.used && UsedUp(s.used, CallIdsAll(work, n)).Some?
    ensures Onward(s, MovesAll(work, n))
            == Some(s.(log := s.log + ToldAll(work, n, s.tasks[0].current),
                used := UsedUp(s.used, CallIdsAll(work, n)).value))
    decreases work, n
  {
    if n == 0 {
      assert s.log + [] == s.log;
    } else {
      var inside := s.tasks[0].current;
      UsedUpConcat(s.used, CallIdsAll(work, n - 1), CallIds(work[n - 1]));
      AllRuns(s, work, n - 1);
      var t := s.(log := s.log + ToldAll(work, n - 1, inside), used := UsedUp(s.used, CallIdsAll(work, n - 1)).value);
      UsedUpGrows(s.used, CallIdsAll(work, n - 1));
      WorkRuns(t, work[n - 1]);
      OnwardConcat(s, MovesAll(work, n - 1), Moves(work[n - 1]));
      assert t.log + Told(work[n - 1], inside) == s.log + ToldAll(work, n, inside);
    }
  }

  lemma {:induction false} UsedUpGrows(used: set<Id>, ids: seq<Id>)
    requires UsedUp(used, ids).Some?
    ensures used <= UsedUp(used, ids).value
    decreases |ids|
  {
    if ids != [] {
      UsedUpGrows(used + {ids[0]}, ids[1..]);
    }
  }

  lemma {:induction false} OnwardFromTheStart(moves: seq<Move>, n: nat)
    requires n <= |moves|
    ensures Onward(Start(), moves[..n]) == Run(moves, n)
  {
    if n > 0 {
      OnwardFromTheStart(moves, n - 1);
      assert moves[..n] == moves[..n - 1] + [moves[n - 1]];
      OnwardConcat(Start(), moves[..n - 1], [moves[n - 1]]);
      if Run(moves, n - 1).Some? && Enabled(Run(moves, n - 1).value, moves[n - 1]) {
        OneMove(Run(moves, n - 1).value, moves[n - 1]);
      }
    }
  }

  lemma {:induction false} UsedUpTakesAll(used: set<Id>, ids: seq<Id>, id: Id)
    requires UsedUp(used, ids).Some?
    ensures id in UsedUp(used, ids).value <==> id in used || id in ids
    decreases |ids|
  {
    if ids != [] {
      UsedUpTakesAll(used + {ids[0]}, ids[1..], id);
    }
  }

  /** Work done on one task with call ids of its own brackets every one of them, and speaks of no other. */
  lemma WorkIsBracketed(w: Work, id: Id)
    requires UsedUp({}, CallIds(w)).Some?
    ensures var events := Of(Told(w, None), |Told(w, None)|, id); if id in CallIds(w) then Bracketed(events)
            else events == []
  {
    var moves := Moves(w);
    WorkRuns(Start(), w);
    OnwardFromTheStart(moves, |moves|);
    assert moves[..|moves|] == moves;
    assert [] + Told(w, None) == Told(w, None);
    EveryDelegationIsBracketed(moves, id);
    UsedUpTakesAll({}, CallIds(w), id);
  }
}
