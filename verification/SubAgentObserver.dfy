/**
 Reporting delegations: a tool call opens one and closes it on every way out, and the handler of the child
 run's events knows which it belongs to only from the context variable of the task it runs on. Tasks come
 and go inside tool calls, and interleave freely.
 */
module SubAgentObserver {
  import opened Messages

  datatype Delegation = Delegation(id: Id, agent: string)

  datatype Event =
    | Started(delegation: Delegation)
    | Progress(delegation: Delegation, phase: string, status: string, toolCallId: Id, toolName: string,
        ok: Option<bool>)
    | Finished(delegation: Delegation)
    | Failed(delegation: Delegation)

  /** What a child run's stream carries: its function tools' calls and results, and whatever else. */
  datatype ChildEvent =
    | ToolCalled(callId: Id, tool: string)
    | ToolReturned(callId: Id, tool: string, retryPart: bool, retried: bool)
    | OtherEvent

  /** What the handler of a delegation says of one event of its child. */
  function Report(d: Delegation, e: ChildEvent): Option<Event> {
    match e
    case ToolCalled(callId, tool) => Some(Progress(d, "tool_call", d.agent + ": calling " + tool, callId, tool, None))
    case ToolReturned(callId, tool, retryPart, retried) =>
      var ok := !(retryPart || retried);
      Some(Progress(d, "tool_result", d.agent + ": " + tool + (if ok then " returned" else " failed"), callId, tool,
          Some(ok)))
    case OtherEvent => None
  }

  // ---- Tasks -------------------------------------------------------------------------------------------

  /**
   One activation on a task: a delegating call with the variable's value to restore, a handler with the value it read,
   another call.
   */
  datatype Frame =
    | Delegating(delegation: Delegation, saved: Option<Delegation>)
    | Handling(captured: Option<Delegation>)
    | Other

  /** A task with its own copy of the variable, spawned inside the first `depth` activations of its parent. */
  datatype Task = Task(alive: bool, parent: nat, depth: nat, current: Option<Delegation>, frames: seq<Frame>)

  datatype Place = Place(task: nat, depth: nat)

  /** The tasks of a run, the call ids delegated so far, where the open ones are, and what has been announced. */
  datatype State = State(tasks: seq<Task>, used: set<Id>, open: map<Id, Place>, log: seq<Event>)

  function Start(): State {
    State([Task(true, 0, 0, None, [])], {}, map[], [])
  }

  datatype Move =
    | Delegate(task: nat, delegation: Delegation)
    | CallOther(task: nat)
    | Handle(task: nat)
    | Hear(task: nat, event: ChildEvent)
    | Return(task: nat, ok: bool)
    | Spawn(task: nat)
    | End(task: nat)

  /** No task spawned inside the first `depth` activations of `t`, and not yet over, would be left behind. */
  predicate Joined(s: State, t: nat, depth: nat) {
    forall c :: t < c < |s.tasks| && s.tasks[c].alive && s.tasks[c].parent == t ==> s.tasks[c].depth < depth
  }

  /** Tool call ids are not reused, and an activation waits for the tasks spawned inside it. */
  predicate Enabled(s: State, m: Move) {
    && m.task < |s.tasks| && s.tasks[m.task].alive
    && var frames := s.tasks[m.task].frames;
       match m
       case Delegate(_, d) => d.id !in s.used
       case CallOther(_) => true
       case Handle(_) => true
       case Hear(_, _) => frames != [] && frames[|frames| - 1].Handling?
       case Return(t, _) => frames != [] && Joined(s, t, |frames|)
       case Spawn(_) => true
       case End(t) => frames == [] && Joined(s, t, 0)
  }

  function SetTask(s: State, t: nat, task: Task): State
    requires t < |s.tasks|
  {
    s.(tasks := s.tasks[t := task])
  }

  function Push(s: State, t: nat, frame: Frame): State
    requires t < |s.tasks|
  {
    SetTask(s, t, s.tasks[t].(frames := s.tasks[t].frames + [frame]))
  }

  function Emit(s: State, e: Event): State {
    s.(log := s.log + [e])
  }

  /** The way out of the activation on top: a delegation is closed, and the variable is what it was before it. */
  function Popped(s: State, t: nat, ok: bool): State
    requires t < |s.tasks| && s.tasks[t].frames != []
  {
    var task := s.tasks[t];
    var n := |task.frames| - 1;
    match task.frames[n]
    case Delegating(d, saved) =>
      Emit(SetTask(s, t, task.(current := saved, frames := task.frames[..n])), if ok then Finished(d)
          else Failed(d)).(open := s.open - {d.id})
    case _ => SetTask(s, t, task.(frames := task.frames[..n]))
  }

  function Opened(s: State, t: nat, d: Delegation): State
    requires t < |s.tasks|
  {
    var task := s.tasks[t];
    var pushed := SetTask(s, t, task.(current := Some(d), frames := task.frames + [Delegating(d, task.current)]));
    Emit(pushed, Started(d)).(used := s.used + {d.id}, open := s.open[d.id := Place(t, |task.frames|)])
  }

  function Heard(s: State, captured: Option<Delegation>, e: ChildEvent): State {
    if captured.None? then s
    else match Report(captured.value, e)
         case None => s
         case Some(event) => Emit(s, event)
  }

  function Do(s: State, m: Move): State
    requires Enabled(s, m)
  {
    var task := s.tasks[m.task];
    match m
    case Delegate(t, d) => Opened(s, t, d)
    case CallOther(t) => Push(s, t, Other)
    case Handle(t) => Push(s, t, Handling(task.current))
    case Hear(t, e) => Heard(s, task.frames[|task.frames| - 1].captured, e)
    case Return(t, ok) => Popped(s, t, ok)
    case Spawn(t) => s.(tasks := s.tasks + [Task(true, t, |task.frames|, task.current, [])])
    case End(t) => SetTask(s, t, task.(alive := false))
  }

  /** The state after `n` moves, where all of them could be made. */
  function Run(moves: seq<Move>, n: nat): Option<State>
    requires n <= |moves|
  {
    if n == 0 then Some(Start())
    else
      match Run(moves, n - 1)
      case None => None
      case Some(s) => if Enabled(s, moves[n - 1]) then Some(Do(s, moves[n - 1])) else None
  }

  // ---- Whose a task's work is -----------------------------------------------------------------------------

  /** A task's parent came before it, and is still inside what it was spawned in. */
  ghost predicate Attached(s: State) {
    && s.tasks != []
    && forall c :: 0 < c < |s.tasks| && s.tasks[c].alive ==>
         s.tasks[c].parent < c && s.tasks[s.tasks[c].parent].alive
             && s.tasks[c].depth <= |s.tasks[s.tasks[c].parent].frames|
  }

  predicate Live(s: State, t: nat) {
    t < |s.tasks| && s.tasks[t].alive
  }

  /** The delegation around the first `k` activations of a task, by where the task stands and not by any variable. */
  ghost function Owner(s: State, t: nat, k: nat): Option<Delegation>
    requires Attached(s) && Live(s, t) && k <= |s.tasks[t].frames|
    decreases t, k
  {
    if k > 0 then
      match s.tasks[t].frames[k - 1]
      case Delegating(d, _) => Some(d)
      case _ => Owner(s, t, k - 1)
    else if t == 0 then None
    else Owner(s, s.tasks[t].parent, s.tasks[t].depth)
  }

  /** What an activation holds of the variable is the delegation around it. */
  ghost predicate FrameAgrees(s: State, t: nat, k: nat)
    requires Attached(s) && Live(s, t) && k < |s.tasks[t].frames|
  {
    match s.tasks[t].frames[k]
    case Delegating(d, saved) => saved == Owner(s, t, k) && d.id in s.open && s.open[d.id] == Place(t, k)
    case Handling(captured) => captured == Owner(s, t, k)
    case Other => true
  }

  ghost predicate TaskAgrees(s: State, t: nat)
    requires Attached(s) && Live(s, t)
  {
    && s.tasks[t].current == Owner(s, t, |s.tasks[t].frames|)
    && forall k: nat :: k < |s.tasks[t].frames| ==> FrameAgrees(s, t, k)
  }

  // ---- What has been said of one delegation -------------------------------------------------------------------

  datatype Status = Unopened | Open | Closed | Broken

  /** Started once, then its own steps, then finished or failed once. */
  function Follow(status: Status, e: Event, id: Id): Status {
    if e.delegation.id != id then status
    else
      match e
      case Started(_) => if status.Unopened? then Open else Broken
      case Progress(_, _, _, _, _, _) => if status.Open? then Open else Broken
      case _ => if status.Open? then Closed else Broken
  }

  function StatusOf(log: seq<Event>, n: nat, id: Id): Status
    requires n <= |log|
  {
    if n == 0 then Unopened else Follow(StatusOf(log, n - 1, id), log[n - 1], id)
  }

  function Expected(s: State, id: Id): Status {
    if id in s.open then Open else if id in s.used then Closed else Unopened
  }

  ghost predicate OpenIsThere(s: State, id: Id)
    requires id in s.open
  {
    var p := s.open[id];
    && Live(s, p.task) && p.depth < |s.tasks[p.task].frames|
    && s.tasks[p.task].frames[p.depth].Delegating? && s.tasks[p.task].frames[p.depth].delegation.id == id
  }

  /** Every activation holds the delegation around it, and the open delegations are where they are noted to be. */
  ghost predicate InPlace(s: State) {
    && Attached(s)
    && (forall t: nat :: Live(s, t) ==> TaskAgrees(s, t))
    && (forall id :: id in s.open ==> OpenIsThere(s, id))
  }

  /** What has been said of each delegation is what can have been. */
  ghost predicate InOrder(s: State) {
    && (forall id :: id in s.open ==> id in s.used)
    && (forall id :: StatusOf(s.log, |s.log|, id) == Expected(s, id))
  }

  // ---- Keeping it ---------------------------------------------------------------------------------------------

  lemma {:induction false} OwnerIsOpen(s: State, t: nat, k: nat)
    requires Attached(s) && Live(s, t) && k <= |s.tasks[t].frames| && Owner(s, t, k).Some?
    requires forall t: nat :: Live(s, t) ==> TaskAgrees(s, t)
    ensures Owner(s, t, k).value.id in s.open
    decreases t, k
  {
    if k > 0 {
      assert FrameAgrees(s, t, k - 1);
      if !s.tasks[t].frames[k - 1].Delegating? {
        OwnerIsOpen(s, t, k - 1);
      }
    } else {
      OwnerIsOpen(s, s.tasks[t].parent, s.tasks[t].depth);
    }
  }

  /** One task, before and after: standing in the same place, as far down as both go. */
  ghost predicate SameTask(a: Task, b: Task) {
    && a.alive && b.parent == a.parent && b.depth == a.depth
    && forall k :: 0 <= k < |a.frames| && k < |b.frames| ==> b.frames[k] == a.frames[k]
  }

  ghost predicate SameBelow(s: State, s': State) {
    && |s.tasks| <= |s'.tasks|
    && forall t :: 0 <= t < |s.tasks| && s'.tasks[t].alive ==> SameTask(s.tasks[t], s'.tasks[t])
  }

  lemma {:induction false} OwnerStays(s: State, s': State, t: nat, k: nat)
    requires Attached(s) && Attached(s') && SameBelow(s, s') && t < |s.tasks| && Live(s', t)
    requires s.tasks[t].alive && k <= |s.tasks[t].frames| && k <= |s'.tasks[t].frames|
    ensures Owner(s', t, k) == Owner(s, t, k)
    decreases t, k
  {
    assert SameTask(s.tasks[t], s'.tasks[t]);
    if k > 0 {
      assert s'.tasks[t].frames[k - 1] == s.tasks[t].frames[k - 1];
      if !s.tasks[t].frames[k - 1].Delegating? {
        OwnerStays(s, s', t, k - 1);
      }
    } else if t > 0 {
      var parent, depth := s.tasks[t].parent, s.tasks[t].depth;
      OwnerStays(s, s', parent, depth);
    }
  }

  /** A frame that stays where it was holds what it held, if its place is still its own. */
  lemma FrameStays(s: State, s': State, t: nat, k: nat)
    requires Attached(s) && Attached(s') && SameBelow(s, s') && t < |s.tasks| && Live(s, t) && Live(s', t)
    requires k < |s.tasks[t].frames| && k < |s'.tasks[t].frames| && FrameAgrees(s, t, k)
    requires s.tasks[t].frames[k].Delegating? ==>
             var id := s.tasks[t].frames[k].delegation.id; id in s'.open && s'.open[id] == Place(t, k)
    ensures FrameAgrees(s', t, k)
  {
    assert SameTask(s.tasks[t], s'.tasks[t]);
    OwnerStays(s, s', t, k);
  }

  lemma Agrees(s: State, t: nat, k: nat)
    requires InPlace(s) && Live(s, t) && k < |s.tasks[t].frames|
    ensures FrameAgrees(s, t, k)
  {
    assert TaskAgrees(s, t);
  }

  /** A task nothing happened to goes on holding what it held. */
  lemma OtherTaskAgrees(s: State, s': State, t: nat)
    requires Attached(s) && Attached(s') && SameBelow(s, s') && t < |s.tasks| && Live(s, t) && Live(s', t)
    requires s'.tasks[t] == s.tasks[t] && TaskAgrees(s, t)
    requires forall id :: id in s.open && s.open[id].task == t ==> id in s'.open && s'.open[id] == s.open[id]
    ensures TaskAgrees(s', t)
  {
    OwnerStays(s, s', t, |s.tasks[t].frames|);
    forall k: nat | k < |s'.tasks[t].frames| ensures FrameAgrees(s', t, k) {
      assert FrameAgrees(s, t, k);
      FrameStays(s, s', t, k);
    }
  }

  lemma OpenStaysThere(s: State, s': State, id: Id)
    requires id in s.open && OpenIsThere(s, id) && id in s'.open && s'.open[id] == s.open[id]
    requires var p := s.open[id];
             Live(s', p.task) && p.depth < |s'.tasks[p.task].frames|
                 && s'.tasks[p.task].frames[p.depth] == s.tasks[p.task].frames[p.depth]
    ensures OpenIsThere(s', id)
  {
  }

  /** Going one activation deeper on one task. */
  ghost predicate Deeper(s: State, s': State, t: nat, frame: Frame) {
    && Live(s, t) && |s'.tasks| == |s.tasks| && Live(s', t)
    && (forall c :: 0 <= c < |s.tasks| && c != t ==> s'.tasks[c] == s.tasks[c])
    && s'.tasks[t].parent == s.tasks[t].parent && s'.tasks[t].depth == s.tasks[t].depth
    && s'.tasks[t].frames == s.tasks[t].frames + [frame]
    && (forall id :: id in s.open ==> id in s'.open && s'.open[id] == s.open[id])
  }

  lemma DeeperStands(s: State, s': State, t: nat, frame: Frame)
    requires Attached(s) && Deeper(s, s', t, frame)
    ensures Attached(s') && SameBelow(s, s')
  {
    forall c | 0 <= c < |s.tasks| && s'.tasks[c].alive ensures SameTask(s.tasks[c], s'.tasks[c]) {
    }
  }

  lemma DeeperFrames(s: State, s': State, t: nat, frame: Frame)
    requires InPlace(s) && Deeper(s, s', t, frame) && Attached(s') && SameBelow(s, s')
    requires FrameAgrees(s', t, |s.tasks[t].frames|)
    ensures forall k: nat :: k < |s'.tasks[t].frames| ==> FrameAgrees(s', t, k)
  {
    forall k: nat | k < |s'.tasks[t].frames| ensures FrameAgrees(s', t, k) {
      if k < |s.tasks[t].frames| {
        Agrees(s, t, k);
        FrameStays(s, s', t, k);
      }
    }
  }

  lemma DeeperOther(s: State, s': State, t: nat, frame: Frame, c: nat)
    requires InPlace(s) && Deeper(s, s', t, frame) && Attached(s') && SameBelow(s, s') && Live(s', c) && c != t
    ensures TaskAgrees(s', c)
  {
    assert s'.tasks[c] == s.tasks[c];
    OtherTaskAgrees(s, s', c);
  }

  lemma DeeperOpen(s: State, s': State, t: nat, frame: Frame, id: Id)
    requires InPlace(s) && Deeper(s, s', t, frame) && id in s.open
    ensures OpenIsThere(s', id)
  {
    assert OpenIsThere(s, id);
    OpenStaysThere(s, s', id);
  }

  lemma DeeperKeeps(s: State, s': State, t: nat, frame: Frame)
    requires InPlace(s) && Deeper(s, s', t, frame)
    requires Attached(s') && FrameAgrees(s', t, |s.tasks[t].frames|)
    requires s'.tasks[t].current == Owner(s', t, |s'.tasks[t].frames|)
    requires forall id :: id in s'.open ==> id in s.open || OpenIsThere(s', id)
    ensures InPlace(s')
  {
    DeeperStands(s, s', t, frame);
    DeeperFrames(s, s', t, frame);
    forall c: nat | Live(s', c) ensures TaskAgrees(s', c) {
      if c != t {
        DeeperOther(s, s', t, frame, c);
      }
    }
    forall id | id in s'.open ensures OpenIsThere(s', id) {
      if id in s.open {
        DeeperOpen(s, s', t, frame, id);
      }
    }
  }

  lemma PushKeeps(s: State, t: nat, frame: Frame)
    requires InPlace(s) && Live(s, t) && frame in {Other, Handling(s.tasks[t].current)}
    ensures InPlace(Push(s, t, frame))
  {
    var s' := Push(s, t, frame);
    DeeperStands(s, s', t, frame);
    OwnerStays(s, s', t, |s.tasks[t].frames|);
    DeeperKeeps(s, s', t, frame);
  }

  lemma OpenedKeeps(s: State, t: nat, d: Delegation)
    requires InPlace(s) && Live(s, t) && d.id !in s.open
    ensures InPlace(Opened(s, t, d))
  {
    var s' := Opened(s, t, d);
    var frame := Delegating(d, s.tasks[t].current);
    DeeperStands(s, s', t, frame);
    OwnerStays(s, s', t, |s.tasks[t].frames|);
    assert OpenIsThere(s', d.id);
    DeeperKeeps(s, s', t, frame);
  }

  lemma PoppedStands(s: State, t: nat, ok: bool)
    requires InPlace(s) && Live(s, t) && s.tasks[t].frames != [] && Joined(s, t, |s.tasks[t].frames|)
    ensures var s' := Popped(s, t, ok);
            && Attached(s') && SameBelow(s, s') && Live(s', t)
            && s'.tasks[t].frames == s.tasks[t].frames[..|s.tasks[t].frames| - 1]
            && (forall c :: 0 <= c < |s.tasks| && c != t ==> s'.tasks[c] == s.tasks[c])
  {
  }

  /** Popping a delegation takes exactly its own id out of the open ones. */
  lemma PoppedOpen(s: State, t: nat, ok: bool, id: Id)
    requires InPlace(s) && Live(s, t) && s.tasks[t].frames != []
    ensures var s' := Popped(s, t, ok);
            id in s'.open <==> id in s.open && s.open[id] != Place(t, |s.tasks[t].frames| - 1)
    ensures id in Popped(s, t, ok).open ==> Popped(s, t, ok).open[id] == s.open[id]
  {
    Agrees(s, t, |s.tasks[t].frames| - 1);
    if id in s.open {
      assert OpenIsThere(s, id);
    }
  }

  lemma PoppedCurrent(s: State, t: nat, ok: bool)
    requires InPlace(s) && Live(s, t) && s.tasks[t].frames != [] && Joined(s, t, |s.tasks[t].frames|)
    ensures Attached(Popped(s, t, ok)) && Live(Popped(s, t, ok), t)
    ensures var s' := Popped(s, t, ok); s'.tasks[t].current == Owner(s', t, |s'.tasks[t].frames|)
  {
    var n := |s.tasks[t].frames| - 1;
    PoppedStands(s, t, ok);
    Agrees(s, t, n);
    OwnerStays(s, Popped(s, t, ok), t, n);
  }

  lemma PoppedKeeps(s: State, t: nat, ok: bool)
    requires InPlace(s) && Live(s, t) && s.tasks[t].frames != [] && Joined(s, t, |s.tasks[t].frames|)
    ensures InPlace(Popped(s, t, ok))
  {
    var s' := Popped(s, t, ok);
    PoppedStands(s, t, ok);
    PoppedCurrent(s, t, ok);
    forall c: nat | Live(s', c) ensures TaskAgrees(s', c) {
      if c != t {
        forall id | id in s.open && s.open[id].task == c ensures id in s'.open && s'.open[id] == s.open[id] {
          PoppedOpen(s, t, ok, id);
        }
        OtherTaskAgrees(s, s', c);
      } else {
        forall k: nat | k < |s'.tasks[t].frames| ensures FrameAgrees(s', t, k) {
          assert FrameAgrees(s, t, k);
          if s.tasks[t].frames[k].Delegating? {
            PoppedOpen(s, t, ok, s.tasks[t].frames[k].delegation.id);
          }
          FrameStays(s, s', t, k);
        }
      }
    }
    forall id | id in s'.open ensures OpenIsThere(s', id) {
      PoppedOpen(s, t, ok, id);
      OpenStaysThere(s, s', id);
    }
  }

  lemma SpawnKeeps(s: State, t: nat)
    requires InPlace(s) && Live(s, t)
    ensures InPlace(Do(s, Spawn(t)))
  {
    var s' := Do(s, Spawn(t));
    var n := |s.tasks|;
    assert forall c :: 0 <= c < n ==> s'.tasks[c] == s.tasks[c];
    assert Attached(s');
    forall c | 0 <= c < n && s'.tasks[c].alive ensures SameTask(s.tasks[c], s'.tasks[c]) {
    }
    forall c: nat | Live(s', c) ensures TaskAgrees(s', c) {
      if c < n {
        OtherTaskAgrees(s, s', c);
      } else {
        OwnerStays(s, s', t, |s.tasks[t].frames|);
      }
    }
    forall id | id in s'.open ensures OpenIsThere(s', id) {
      OpenStaysThere(s, s', id);
    }
  }

  lemma EndKeeps(s: State, t: nat)
    requires InPlace(s) && Live(s, t) && s.tasks[t].frames == [] && Joined(s, t, 0)
    ensures InPlace(Do(s, End(t)))
  {
    var s' := Do(s, End(t));
    assert forall c :: 0 <= c < |s.tasks| && c != t ==> s'.tasks[c] == s.tasks[c];
    assert Attached(s');
    forall c | 0 <= c < |s.tasks| && s'.tasks[c].alive ensures SameTask(s.tasks[c], s'.tasks[c]) {
    }
    forall c: nat | Live(s', c) ensures TaskAgrees(s', c) {
      OtherTaskAgrees(s, s', c);
    }
    forall id | id in s'.open ensures OpenIsThere(s', id) {
      assert OpenIsThere(s, id);
      OpenStaysThere(s, s', id);
    }
  }

  /** The same tasks with the same open delegations stand as they stood, whatever was said. */
  lemma SameStanding(s: State, s': State)
    requires InPlace(s) && s'.tasks == s.tasks && s'.open == s.open
    ensures InPlace(s')
  {
    forall c | 0 <= c < |s.tasks| && s'.tasks[c].alive ensures SameTask(s.tasks[c], s'.tasks[c]) {
    }
    forall c: nat | Live(s', c) ensures TaskAgrees(s', c) {
      OtherTaskAgrees(s, s', c);
    }
    forall id | id in s'.open ensures OpenIsThere(s', id) {
      OpenStaysThere(s, s', id);
    }
  }

  /** Announcing moves nothing. */
  lemma HeardKeeps(s: State, captured: Option<Delegation>, e: ChildEvent)
    requires InPlace(s)
    ensures InPlace(Heard(s, captured, e))
  {
    SameStanding(s, Heard(s, captured, e));
  }

  lemma MoveKeepsPlaces(s: State, m: Move)
    requires InPlace(s) && Enabled(s, m) && (m.Delegate? ==> m.delegation.id !in s.open)
    ensures InPlace(Do(s, m))
  {
    match m {
      case Delegate(t, d) => OpenedKeeps(s, t, d);
      case CallOther(t) => PushKeeps(s, t, Other);
      case Handle(t) => PushKeeps(s, t, Handling(s.tasks[t].current));
      case Hear(t, e) => HeardKeeps(s, s.tasks[t].frames[|s.tasks[t].frames| - 1].captured, e);
      case Return(t, ok) => PoppedKeeps(s, t, ok);
      case Spawn(t) => SpawnKeeps(s, t);
      case End(t) => EndKeeps(s, t);
    }
  }

  lemma OneMoreSaid(log: seq<Event>, e: Event, id: Id)
    ensures StatusOf(log + [e], |log| + 1, id) == Follow(StatusOf(log, |log|, id), e, id)
  {
    StatusOfPrefix(log, e, |log|, id);
  }

  lemma {:induction false} StatusOfPrefix(log: seq<Event>, e: Event, n: nat, id: Id)
    requires n <= |log|
    ensures StatusOf(log + [e], n, id) == StatusOf(log, n, id)
  {
    if n > 0 {
      StatusOfPrefix(log, e, n - 1, id);
    }
  }

  lemma OpenedInOrder(s: State, t: nat, d: Delegation)
    requires InOrder(s) && t < |s.tasks| && d.id !in s.used
    ensures InOrder(Opened(s, t, d))
  {
    forall id ensures StatusOf(Opened(s, t, d).log, |s.log| + 1, id) == Expected(Opened(s, t, d), id) {
      OneMoreSaid(s.log, Started(d), id);
    }
  }

  lemma PoppedInOrder(s: State, t: nat, ok: bool)
    requires InOrder(s) && t < |s.tasks| && s.tasks[t].frames != []
    requires var top := s.tasks[t].frames[|s.tasks[t].frames| - 1]; top.Delegating? ==> top.delegation.id in s.open
    ensures InOrder(Popped(s, t, ok))
  {
    var s' := Popped(s, t, ok);
    var top := s.tasks[t].frames[|s.tasks[t].frames| - 1];
    forall id ensures StatusOf(s'.log, |s'.log|, id) == Expected(s', id) {
      if top.Delegating? {
        OneMoreSaid(s.log, if ok then Finished(top.delegation) else Failed(top.delegation), id);
      }
    }
  }

  lemma HeardInOrder(s: State, captured: Option<Delegation>, e: ChildEvent)
    requires InOrder(s) && (captured.Some? ==> captured.value.id in s.open)
    ensures InOrder(Heard(s, captured, e))
  {
    var s' := Heard(s, captured, e);
    forall id ensures StatusOf(s'.log, |s'.log|, id) == Expected(s', id) {
      if captured.Some? && Report(captured.value, e).Some? {
        OneMoreSaid(s.log, Report(captured.value, e).value, id);
      }
    }
  }

  lemma MoveKeepsOrder(s: State, m: Move)
    requires InPlace(s) && InOrder(s) && Enabled(s, m)
    ensures InOrder(Do(s, m))
  {
    var frames := s.tasks[m.task].frames;
    match m {
      case Delegate(t, d) => OpenedInOrder(s, t, d);
      case Hear(t, e) =>
        Agrees(s, t, |frames| - 1);
        var captured := frames[|frames| - 1].captured;
        if captured.Some? {
          OwnerIsOpen(s, t, |frames| - 1);
        }
        HeardInOrder(s, captured, e);
      case Return(t, ok) =>
        Agrees(s, t, |frames| - 1);
        PoppedInOrder(s, t, ok);
      case _ =>
        forall id ensures StatusOf(Do(s, m).log, |Do(s, m).log|, id) == Expected(Do(s, m), id) {
        }
    }
  }

  // ---- Every run ------------------------------------------------------------------------------------------------

  lemma {:induction false} EveryRunIsBracketed(moves: seq<Move>, n: nat)
    requires n <= |moves| && Run(moves, n).Some?
    ensures InPlace(Run(moves, n).value) && InOrder(Run(moves, n).value)
  {
    if n > 0 {
      EveryRunIsBracketed(moves, n - 1);
      var s := Run(moves, n - 1).value;
      MoveKeepsPlaces(s, moves[n - 1]);
      MoveKeepsOrder(s, moves[n - 1]);
    }
  }

  /** The events of one delegation, in order. */
  function Of(log: seq<Event>, n: nat, id: Id): seq<Event>
    requires n <= |log|
  {
    if n == 0 then [] else Of(log, n - 1, id) + if log[n - 1].delegation.id == id then [log[n - 1]] else []
  }

  ghost predicate Steps(events: seq<Event>) {
    forall k :: 0 <= k < |events| ==> events[k].Progress?
  }

  /** Started, then steps, and so far nothing more. */
  ghost predicate Underway(events: seq<Event>) {
    events != [] && events[0].Started? && Steps(events[1..])
  }

  /** Started, then steps, then finished or failed. */
  ghost predicate Bracketed(events: seq<Event>) {
    |events| >= 2 && Underway(events[..|events| - 1])
        && (events[|events| - 1].Finished? || events[|events| - 1].Failed?)
  }

  lemma {:induction false} StatusMeans(log: seq<Event>, n: nat, id: Id)
    requires n <= |log| && !StatusOf(log, n, id).Broken?
    ensures match StatusOf(log, n, id)
            case Unopened => Of(log, n, id) == []
            case Open => Underway(Of(log, n, id))
            case _ => Bracketed(Of(log, n, id))
  {
    if n > 0 {
      StatusMeans(log, n - 1, id);
      var before, e := Of(log, n - 1, id), log[n - 1];
      if e.delegation.id == id {
        assert (before + [e])[..|before|] == before;
        if before != [] {
          assert (before + [e])[1..] == before[1..] + [e];
        }
      } else {
        assert before + [] == before;
      }
    }
  }

  /**
   For every interleaving of delegations, nested or side by side, however each ends: what has been announced
   under one call id is nothing, or started and its own steps, or that and one finish or failure; and once
   every task is over no delegation is left open.
   */
  lemma EveryDelegationIsBracketed(moves: seq<Move>, id: Id)
    requires Run(moves, |moves|).Some?
    ensures var s := Run(moves, |moves|).value;
            var events := Of(s.log, |s.log|, id);
            && (id !in s.used ==> events == [])
            && (id in s.open ==> id in s.used && Underway(events))
            && (id in s.used && id !in s.open ==> Bracketed(events))
            && ((forall t :: 0 <= t < |s.tasks| ==> !s.tasks[t].alive) ==> id !in s.open)
  {
    EveryRunIsBracketed(moves, |moves|);
    var s := Run(moves, |moves|).value;
    StatusMeans(s.log, |s.log|, id);
    if id in s.open {
      assert OpenIsThere(s, id);
    }
  }

  /**
   A step is announced under the delegation the handler runs inside of, wherever it runs: the innermost one
   around it, across the tasks it was spawned through, and not whichever was opened last. A call is told as made, and
   a result as returned unless it is a retry, whichever way it is marked as one.
   */
  lemma StepsAreTheirOwners(moves: seq<Move>, t: nat, e: ChildEvent)
    requires Run(moves, |moves|).Some? && Enabled(Run(moves, |moves|).value, Hear(t, e))
    ensures var s := Run(moves, |moves|).value;
            && Attached(s) && Live(s, t)
            && var owner := Owner(s, t, |s.tasks[t].frames| - 1);
               var log := Do(s, Hear(t, e)).log;
               match e
               case ToolCalled(callId, tool) =>
                 log == if owner == None then s.log else s.log + [
                   Progress(owner.value, "tool_call", owner.value.agent + ": calling " + tool, callId, tool, None)]
               case ToolReturned(callId, tool, retryPart, retried) =>
                 log == if owner == None then s.log else if retryPart || retried then s.log + [
                   Progress(owner.value, "tool_result", owner.value.agent + ": " + tool + " failed", callId, tool,
                            Some(false))]
                 else s.log + [
                   Progress(owner.value, "tool_result", owner.value.agent + ": " + tool + " returned", callId, tool,
                            Some(true))]
               case OtherEvent => log == s.log
  {
    EveryRunIsBracketed(moves, |moves|);
    var s := Run(moves, |moves|).value;
    Agrees(s, t, |s.tasks[t].frames| - 1);
  }

  /**
   And a delegation is announced as started when it is called, and as finished or failed, by how the call ends, when
   the call that the task is then innermost inside of is its own; nothing else is announced by calls and returns.
   */
  lemma EndsAreTheirOwners(moves: seq<Move>, m: Move)
    requires Run(moves, |moves|).Some? && Enabled(Run(moves, |moves|).value, m) && !m.Hear?
    ensures var s := Run(moves, |moves|).value;
            && Attached(s) && Live(s, m.task)
            && var frames := s.tasks[m.task].frames;
               var owner := Owner(s, m.task, |frames|);
               Do(s, m).log
               == match m
                  case Delegate(_, d) => s.log + [Started(d)]
                  case Return(_, ok) =>
                    if !frames[|frames| - 1].Delegating? then s.log
                    else if ok then s.log + [Finished(owner.value)] else s.log + [Failed(owner.value)]
                  case _ => s.log
  {
    EveryRunIsBracketed(moves, |moves|);
  }
}
