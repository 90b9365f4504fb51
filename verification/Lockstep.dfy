/**
 A stack of stream stages between a source and the client: list-sink injectors, the sub-agent injector
 and the heartbeat, in any number and order. Stage 0 wraps the source; link `i` joins what feeds stage
 `i` to it, and link `n` joins the outermost stage to the client. Each stage yields what it received
 and what it injects; only yielding and being asked for more are observable between stages.
 */
module Lockstep {

  /** Something on the wire: made by the source (origin 0) or injected by stage `origin - 1`. */
  datatype Frame = Frame(origin: nat, content: nat)

  /** What a generator's consumer sees: it is being asked, it is suspended at a yield, it is over, or it has raised. */
  datatype Link = Asked | Holding(frame: Frame) | Over | Broken(error: nat)

  datatype Kind = ListSink | Delegations | Heartbeat

  /** Where a stage is with what it wraps. */
  datatype Phase = Expecting | Carrying(frame: Frame) | Passing(frame: Frame) | Flushing | Done | Failed

  /**
   One stage. `sink` holds what was recorded for it and not yet taken, `batch` what a list sink took in
   one drain and has still to yield. `recorded` and `injected` are its history, and `owed` is how much
   had been recorded when it saw the end of what it wraps.
   */
  datatype Stage = Stage(kind: Kind, phase: Phase, sink: seq<nat>, batch: seq<nat>,
                         recorded: seq<nat>, injected: seq<nat>, owed: nat)

  /** `atEnd` is how much each stage had recorded when the source ended. */
  datatype State = State(links: seq<Link>, stages: seq<Stage>, produced: seq<nat>, out: seq<Frame>, atEnd: seq<nat>)

  datatype Action =
    | Produce(content: nat)
    | SourceEnd
    | SourceError(error: nat)
    | Record(stage: nat, content: nat)
    | Receive(stage: nat)
    | Inject(stage: nat, content: nat)
    | Forward(stage: nat)
    | Back(stage: nat)
    | SeeEnd(stage: nat)
    | Finish(stage: nat)
    | Propagate(stage: nat)
    | ClientBack

  function Initial(kinds: seq<Kind>): State {
    State(
      seq(|kinds| + 1, i => Asked),
      seq(|kinds|, i requires 0 <= i < |kinds| => Stage(kinds[i], Expecting, [], [], [], [], 0)),
      [], [], [])
  }

  /** What a stage may inject next: a list sink from its drained batch, a delegation's progress from its queue. */
  function Waiting(stage: Stage): seq<nat> {
    match stage.kind
    case ListSink => stage.batch
    case Delegations => stage.sink
    case Heartbeat => []
  }

  predicate MayInject(stage: Stage, content: nat) {
    match stage.kind
    case ListSink => (stage.phase.Carrying? || stage.phase.Flushing?) && stage.batch != [] && stage.batch[0] == content
    case Delegations => (stage.phase.Expecting? || stage.phase.Carrying? || stage.phase.Flushing?) && stage.sink != []
        && stage.sink[0] == content
    case Heartbeat => stage.phase.Expecting? || stage.phase.Carrying?
  }

  predicate Shaped(s: State) {
    |s.links| == |s.stages| + 1
  }

  predicate Enabled(s: State, a: Action)
    requires Shaped(s)
  {
    var n := |s.stages|;
    match a
    case Produce(_) => s.links[0].Asked?
    case SourceEnd => s.links[0].Asked?
    case SourceError(_) => s.links[0].Asked?
    case Record(i, _) => i < n && !s.stages[i].kind.Heartbeat?
    case Receive(i) =>
      i < n && s.stages[i].phase.Expecting? && s.links[i].Holding?
          && (s.stages[i].kind.ListSink? ==> s.links[i + 1].Asked?)
    case Inject(i, content) => i < n && s.links[i + 1].Asked? && MayInject(s.stages[i], content)
    case Forward(i) => i < n && s.links[i + 1].Asked? && s.stages[i].phase.Carrying? && Waiting(s.stages[i]) == []
    case Back(i) => i < n && s.links[i + 1].Asked? && s.stages[i].phase.Passing?
    case SeeEnd(i) => i < n && s.stages[i].phase.Expecting? && s.links[i].Over?
    case Finish(i) => i < n && s.links[i + 1].Asked? && s.stages[i].phase.Flushing? && Waiting(s.stages[i]) == []
    case Propagate(i) => i < n && s.links[i + 1].Asked? && s.stages[i].phase.Expecting? && s.links[i].Broken?
    case ClientBack => s.links[n].Holding?
  }

  /** Yield a frame on a link; what reaches the last one reaches the client. */
  function Yield(s: State, j: nat, frame: Frame): State
    requires j < |s.links|
  {
    s.(links := s.links[j := Holding(frame)], out := if j == |s.links| - 1 then s.out + [frame] else s.out)
  }

  /** A list sink empties its list into a batch each time its upstream gets somewhere. */
  function Drained(stage: Stage): Stage {
    if stage.kind.ListSink? then stage.(batch := stage.batch + stage.sink, sink := []) else stage
  }

  function Injected(stage: Stage, content: nat): Stage
    requires MayInject(stage, content)
  {
    var more := stage.(injected := stage.injected + [content]);
    match stage.kind
    case ListSink => more.(batch := stage.batch[1..])
    case Delegations => more.(sink := stage.sink[1..])
    case Heartbeat => more
  }

  function SetStage(s: State, i: nat, stage: Stage): State
    requires i < |s.stages|
  {
    s.(stages := s.stages[i := stage])
  }

  function Do(s: State, a: Action): State
    requires Shaped(s) && Enabled(s, a)
  {
    match a
    case Produce(c) => Yield(s.(produced := s.produced + [c]), 0, Frame(0, c))
    case SourceEnd =>
      s.(links := s.links[0 := Over],
         atEnd := seq(|s.stages|, i requires 0 <= i < |s.stages| => |s.stages[i].recorded|))
    case SourceError(e) => s.(links := s.links[0 := Broken(e)])
    case Record(i, c) =>
      SetStage(s, i, s.stages[i].(sink := s.stages[i].sink + [c], recorded := s.stages[i].recorded + [c]))
    case Receive(i) => SetStage(s, i, Drained(s.stages[i]).(phase := Carrying(s.links[i].frame)))
    case Inject(i, c) => Yield(SetStage(s, i, Injected(s.stages[i], c)), i + 1, Frame(i + 1, c))
    case Forward(i) =>
      var x := s.stages[i].phase.frame;
      Yield(SetStage(s, i, s.stages[i].(phase := Passing(x))), i + 1, x)
    case Back(i) => SetStage(s, i, s.stages[i].(phase := Expecting)).(links := s.links[i := Asked])
    case SeeEnd(i) =>
      SetStage(s, i, Drained(s.stages[i]).(phase := Flushing, owed := |s.stages[i].recorded|))
    case Finish(i) => SetStage(s, i, s.stages[i].(phase := Done)).(links := s.links[i + 1 := Over])
    case Propagate(i) =>
      SetStage(s, i, s.stages[i].(phase := Failed)).(links := s.links[i + 1 := Broken(s.links[i].error)])
    case ClientBack => s.(links := s.links[|s.stages| := Asked])
  }

  // ---- What every step keeps ------------------------------------------------------------------

  /** Whether a stage's phase is what its two links say. */
  ghost predicate StageAgrees(s: State, i: nat)
    requires Shaped(s) && i < |s.stages|
  {
    var inner, outer := s.links[i], s.links[i + 1];
    match s.stages[i].phase
    case Expecting => outer.Asked? || (outer.Holding? && outer.frame.origin == i + 1)
    case Carrying(x) => inner == Holding(x) && (outer.Asked? || (outer.Holding? && outer.frame.origin == i + 1))
    case Passing(x) => inner == Holding(x) && (outer.Asked? || outer == Holding(x))
    case Flushing => inner.Over? && (outer.Asked? || (outer.Holding? && outer.frame.origin == i + 1))
    case Done => inner.Over? && outer.Over?
    case Failed => inner.Broken? && outer == inner
  }

  /** Whether what a link holds was made at or below it. */
  ghost predicate LinkAgrees(s: State, i: nat)
    requires Shaped(s) && i < |s.links|
  {
    match s.links[i]
    case Holding(x) =>
      if i == 0 then x.origin == 0 else x.origin == i || (x.origin < i && s.stages[i - 1].phase == Passing(x))
    case Over => i == 0 || s.stages[i - 1].phase.Done?
    case Broken(_) => i == 0 || s.stages[i - 1].phase.Failed?
    case Asked => true
  }

  ghost predicate Linked(s: State) {
    && Shaped(s)
    && (forall i :: 0 <= i < |s.stages| ==> StageAgrees(s, i))
    && (forall i :: 0 <= i < |s.links| ==> LinkAgrees(s, i))
  }

  /** What a stage does, and not the source, the client or a recorder. */
  predicate Inside(a: Action) {
    !a.Produce? && !a.SourceEnd? && !a.SourceError? && !a.Record? && !a.ClientBack?
  }

  lemma StageKeepsOutside(s: State, a: Action, i: nat)
    requires Linked(s) && Enabled(s, a) && i < |s.stages|
    requires !Inside(a)
    ensures StageAgrees(Do(s, a), i)
  {
    assert StageAgrees(s, i) && LinkAgrees(s, i);
  }

  lemma StageKeepsItself(s: State, a: Action, i: nat)
    requires Linked(s) && Enabled(s, a) && i < |s.stages| && Inside(a) && a.stage == i
    ensures StageAgrees(Do(s, a), i)
  {
    assert StageAgrees(s, i) && LinkAgrees(s, i);
  }

  lemma StageKeepsOther(s: State, a: Action, i: nat)
    requires Linked(s) && Enabled(s, a) && i < |s.stages| && Inside(a) && a.stage != i
    ensures StageAgrees(Do(s, a), i)
  {
    assert StageAgrees(s, i) && StageAgrees(s, a.stage) && LinkAgrees(s, i);
  }

  lemma StageKeeps(s: State, a: Action, i: nat)
    requires Linked(s) && Enabled(s, a) && i < |s.stages|
    ensures StageAgrees(Do(s, a), i)
  {
    if !Inside(a) {
      StageKeepsOutside(s, a, i);
    } else if a.stage == i {
      StageKeepsItself(s, a, i);
    } else {
      StageKeepsOther(s, a, i);
    }
  }

  lemma LinkKeepsOutside(s: State, a: Action, i: nat)
    requires Linked(s) && Enabled(s, a) && i < |s.links| && !Inside(a)
    ensures LinkAgrees(Do(s, a), i)
  {
    assert LinkAgrees(s, i);
  }

  lemma LinkKeepsInside(s: State, a: Action, i: nat)
    requires Linked(s) && Enabled(s, a) && i < |s.links| && Inside(a)
    ensures LinkAgrees(Do(s, a), i)
  {
    assert LinkAgrees(s, i) && StageAgrees(s, a.stage) && LinkAgrees(s, a.stage);
  }

  lemma LinkKeeps(s: State, a: Action, i: nat)
    requires Linked(s) && Enabled(s, a) && i < |s.links|
    ensures LinkAgrees(Do(s, a), i)
  {
    if Inside(a) {
      LinkKeepsInside(s, a, i);
    } else {
      LinkKeepsOutside(s, a, i);
    }
  }

  lemma LinkedKeeps(s: State, a: Action)
    requires Linked(s) && Enabled(s, a)
    ensures Linked(Do(s, a))
  {
    forall i: nat | i < |s.stages| ensures StageAgrees(Do(s, a), i) {
      StageKeeps(s, a, i);
    }
    forall i: nat | i < |s.links| ensures LinkAgrees(Do(s, a), i) {
      LinkKeeps(s, a, i);
    }
  }

  // ---- Nothing is lost or repeated on the way out -----------------------------------------------

  /** The frame a link holds that has not yet reached the client, if any. */
  function Pending(s: State, i: nat): (held: seq<Frame>)
    requires Shaped(s) && i < |s.links|
    ensures |held| <= 1
    decreases |s.links| - i
  {
    if i == |s.stages| || !s.links[i].Holding? then []
    else if s.stages[i].phase.Passing? then Pending(s, i + 1)
    else [s.links[i].frame]
  }

  /** What was made at an origin: by the source, or by the stage that injects under it. */
  function Made(s: State, origin: nat): seq<nat>
    requires origin <= |s.stages|
  {
    if origin == 0 then s.produced else s.stages[origin - 1].injected
  }

  /** The contents of one origin's frames, in order. */
  function Erase(frames: seq<Frame>, origin: nat): seq<nat> {
    if frames == [] then []
    else
      var n := |frames| - 1;
      Erase(frames[..n], origin) + if frames[n].origin == origin then [frames[n].content] else []
  }

  lemma EraseOneMore(frames: seq<Frame>, frame: Frame, origin: nat)
    ensures Erase(frames + [frame], origin) == Erase(frames, origin) + if frame.origin == origin then [frame.content]
            else []
  {
    assert (frames + [frame])[..|frames|] == frames;
  }

  /** What of an origin reached the client, and what of it is still on its way: all that was made there. */
  ghost predicate Conserved(s: State, origin: nat)
    requires Shaped(s) && origin <= |s.stages|
  {
    Made(s, origin) == Erase(s.out, origin) + Erase(Pending(s, origin), origin)
  }

  /** Whether two states pend alike at one place. */
  ghost predicate Alike(s: State, s': State, k: nat)
    requires Shaped(s) && Shaped(s') && |s.links| == |s'.links| && k < |s.stages|
  {
    && (s'.links[k] == s.links[k] || (!s'.links[k].Holding? && !s.links[k].Holding?))
    && s'.stages[k].phase.Passing? == s.stages[k].phase.Passing?
  }

  /** A step above link `i` that leaves what `i` holds pending leaves it so further down. */
  lemma {:induction false} PendingBelow(s: State, s': State, j: nat, i: nat)
    requires Shaped(s) && Shaped(s') && |s.links| == |s'.links| && j <= i < |s.links|
    requires forall k :: j <= k < i ==> Alike(s, s', k)
    requires Pending(s', i) == Pending(s, i)
    ensures Pending(s', j) == Pending(s, j)
    decreases i - j
  {
    if j < i {
      PendingBelow(s, s', j + 1, i);
      assert Alike(s, s', j);
    }
  }

  lemma PendingAlike(s: State, s': State, j: nat)
    requires Shaped(s) && Shaped(s') && |s.links| == |s'.links| && j < |s.links|
    requires forall k :: j <= k < |s.stages| ==> Alike(s, s', k)
    ensures Pending(s', j) == Pending(s, j)
  {
    PendingBelow(s, s', j, |s.stages|);
  }

  /** A frame that came up through a link is what every link below it, down to its origin, still holds. */
  lemma {:induction false} HeldSinceOrigin(s: State, i: nat, j: nat, x: Frame)
    requires Linked(s) && i < |s.links| && s.links[i] == Holding(x) && x.origin <= j <= i
    ensures s.links[j] == Holding(x)
    ensures j < i ==> s.stages[j].phase == Passing(x)
    decreases i - j
  {
    assert LinkAgrees(s, i);
    if j < i {
      assert StageAgrees(s, i - 1);
      HeldSinceOrigin(s, i - 1, j, x);
    }
  }

  /** ... so from its origin it is pending just as it is there. */
  lemma {:induction false} PendingFromOrigin(s: State, i: nat, j: nat, x: Frame)
    requires Linked(s) && i < |s.links| && s.links[i] == Holding(x) && x.origin <= j <= i
    ensures Pending(s, j) == Pending(s, i)
    decreases i - j
  {
    if j < i {
      HeldSinceOrigin(s, i, j, x);
      PendingFromOrigin(s, i, j + 1, x);
    }
  }
  /** Steps that move nothing on or off a link. */
  lemma QuietKeeps(s: State, a: Action, o: nat)
    requires Linked(s) && Enabled(s, a) && o <= |s.stages| && Conserved(s, o)
    requires a.SourceEnd? || a.SourceError? || a.Record? || a.Receive? || a.SeeEnd? || a.Finish? || a.Propagate?
             || a.ClientBack?
    ensures Conserved(Do(s, a), o)
  {
    var s' := Do(s, a);
    forall k: nat | k < |s.stages| ensures Alike(s, s', k) {
    }
    PendingAlike(s, s', o);
  }

  /** One more made, and it is on its way or out already. */
  lemma OneMoreMade(s: State, s': State, o: nat, x: Frame)
    requires Shaped(s) && Shaped(s') && |s.stages| == |s'.stages| && o <= |s.stages| && Conserved(s, o) && x.origin == o
    requires Made(s', o) == Made(s, o) + [x.content] && Pending(s, o) == []
    requires (s'.out == s.out + [x] && Pending(s', o) == []) || (s'.out == s.out && Pending(s', o) == [x])
    ensures Conserved(s', o)
  {
    EraseOneMore(s.out, x, o);
    EraseOne(x, o);
  }

  /** Another origin's frame reaches the client, or nothing does. */
  lemma AnotherMoved(s: State, s': State, o: nat, x: Frame)
    requires Shaped(s) && Shaped(s') && |s.stages| == |s'.stages| && o <= |s.stages| && Conserved(s, o) && x.origin != o
    requires Made(s', o) == Made(s, o) && (s'.out == s.out || s'.out == s.out + [x])
    requires Pending(s', o) == Pending(s, o) || (Pending(s, o) == [x] && Pending(s', o) == [])
    ensures Conserved(s', o)
  {
    EraseOneMore(s.out, x, o);
    EraseOne(x, o);
  }

  /** What was on its way reaches the client. */
  lemma OwnArrived(s: State, s': State, o: nat, x: Frame)
    requires Shaped(s) && Shaped(s') && |s.stages| == |s'.stages| && o <= |s.stages| && Conserved(s, o) && x.origin == o
    requires Made(s', o) == Made(s, o) && s'.out == s.out + [x] && Pending(s, o) == [x] && Pending(s', o) == []
    ensures Conserved(s', o)
  {
    EraseOneMore(s.out, x, o);
    EraseOne(x, o);
  }

  lemma EraseOne(x: Frame, o: nat)
    ensures Erase([x], o) == (if x.origin == o then [x.content] else []) && Erase([], o) == []
  {
    EraseOneMore([], x, o);
    assert [] + [x] == [x];
  }

  lemma ProduceKeeps(s: State, c: nat, o: nat)
    requires Linked(s) && Enabled(s, Produce(c)) && o <= |s.stages| && Conserved(s, o)
    ensures Conserved(Do(s, Produce(c)), o)
  {
    var s' := Do(s, Produce(c));
    if o > 0 {
      PendingAlike(s, s', o);
      AnotherMoved(s, s', o, Frame(0, c));
    } else {
      if |s.stages| > 0 {
        ProducedIsPending(s, c);
      }
      OneMoreMade(s, s', 0, Frame(0, c));
    }
  }

  lemma ProducedIsPending(s: State, c: nat)
    requires Linked(s) && Enabled(s, Produce(c)) && |s.stages| > 0
    ensures Pending(s, 0) == [] && Pending(Do(s, Produce(c)), 0) == [Frame(0, c)]
  {
    assert StageAgrees(s, 0);
  }

  lemma InjectKeeps(s: State, i: nat, c: nat, o: nat)
    requires Linked(s) && Enabled(s, Inject(i, c)) && o <= |s.stages| && Conserved(s, o)
    ensures Conserved(Do(s, Inject(i, c)), o)
  {
    var s' := Do(s, Inject(i, c));
    if o <= i {
      assert Pending(s', i) == Pending(s, i);
      PendingBelow(s, s', o, i);
      AnotherMoved(s, s', o, Frame(i + 1, c));
    } else if o > i + 1 {
      PendingAlike(s, s', o);
      AnotherMoved(s, s', o, Frame(i + 1, c));
    } else {
      if o < |s.stages| {
        assert StageAgrees(s, o);
      }
      OneMoreMade(s, s', o, Frame(i + 1, c));
    }
  }

  lemma BackKeeps(s: State, i: nat, o: nat)
    requires Linked(s) && Enabled(s, Back(i)) && o <= |s.stages| && Conserved(s, o)
    ensures Conserved(Do(s, Back(i)), o)
  {
    var s' := Do(s, Back(i));
    assert StageAgrees(s, i);
    if o <= i {
      assert Pending(s, i) == [];
      assert Pending(s', i) == [];
      PendingBelow(s, s', o, i);
    } else {
      PendingAlike(s, s', o);
    }
  }

  /** Passing a frame on to another stage moves what is pending, and loses nothing. */
  lemma ForwardInsideKeeps(s: State, i: nat, o: nat)
    requires Linked(s) && Enabled(s, Forward(i)) && i + 1 < |s.stages| && o <= |s.stages| && Conserved(s, o)
    ensures Conserved(Do(s, Forward(i)), o)
  {
    var s' := Do(s, Forward(i));
    var x := s.stages[i].phase.frame;
    assert StageAgrees(s, i) && StageAgrees(s, i + 1) && LinkAgrees(s, i);
    if o <= i {
      assert Pending(s, i) == [x];
      assert Pending(s', i + 1) == [x];
      assert Pending(s', i) == [x];
      PendingBelow(s, s', o, i);
    } else if o == i + 1 {
      assert Pending(s, o) == [];
      assert Pending(s', o) == [] + [x];
      EraseOneMore([], x, o);
    } else {
      PendingAlike(s, s', o);
    }
  }

  /** Below the frame that reaches the client, either nothing changes or that frame is no longer pending. */
  lemma {:induction false} ArrivedBelow(s: State, s': State, j: nat, i: nat, x: Frame)
    requires Shaped(s) && Shaped(s') && |s.links| == |s'.links| && j <= i < |s.links|
    requires forall k :: j <= k < i ==> Alike(s, s', k)
    requires Pending(s, i) == [x] && Pending(s', i) == []
    ensures Pending(s', j) == Pending(s, j) || (Pending(s, j) == [x] && Pending(s', j) == [])
    decreases i - j
  {
    if j < i {
      ArrivedBelow(s, s', j + 1, i, x);
      assert Alike(s, s', j);
    }
  }

  lemma ForwardOutOwn(s: State, i: nat, o: nat)
    requires Linked(s) && Enabled(s, Forward(i)) && i + 1 == |s.stages| && o <= |s.stages|
    requires o == s.stages[i].phase.frame.origin
    ensures o <= i && Pending(s, o) == [s.stages[i].phase.frame] && Pending(Do(s, Forward(i)), o) == []
  {
    var x := s.stages[i].phase.frame;
    assert StageAgrees(s, i) && LinkAgrees(s, i);
    LinkedKeeps(s, Forward(i));
    PendingFromOrigin(s, i, o, x);
    PendingFromOrigin(Do(s, Forward(i)), i + 1, o, x);
  }

  lemma ForwardOutOther(s: State, i: nat, o: nat)
    requires Linked(s) && Enabled(s, Forward(i)) && i + 1 == |s.stages| && o <= i
    ensures var s', x := Do(s, Forward(i)), s.stages[i].phase.frame;
            Pending(s', o) == Pending(s, o) || (Pending(s, o) == [x] && Pending(s', o) == [])
  {
    assert StageAgrees(s, i) && LinkAgrees(s, i);
    ArrivedBelow(s, Do(s, Forward(i)), o, i, s.stages[i].phase.frame);
  }

  lemma ForwardOutKeeps(s: State, i: nat, o: nat)
    requires Linked(s) && Enabled(s, Forward(i)) && i + 1 == |s.stages| && o <= |s.stages| && Conserved(s, o)
    ensures Conserved(Do(s, Forward(i)), o)
  {
    var s' := Do(s, Forward(i));
    var x := s.stages[i].phase.frame;
    if o == x.origin {
      ForwardOutOwn(s, i, o);
      OwnArrived(s, s', o, x);
    } else {
      if o <= i {
        ForwardOutOther(s, i, o);
      }
      AnotherMoved(s, s', o, x);
    }
  }

  lemma ConservedKeeps(s: State, a: Action, o: nat)
    requires Linked(s) && Enabled(s, a) && o <= |s.stages| && Conserved(s, o)
    ensures Conserved(Do(s, a), o)
  {
    match a {
      case Produce(c) => ProduceKeeps(s, c, o);
      case Inject(i, c) => InjectKeeps(s, i, c, o);
      case Back(i) => BackKeeps(s, i, o);
      case Forward(i) =>
        if i + 1 < |s.stages| {
          ForwardInsideKeeps(s, i, o);
        } else {
          ForwardOutKeeps(s, i, o);
        }
      case _ => QuietKeeps(s, a, o);
    }
  }
  // ---- Nothing recorded is lost -----------------------------------------------------------------

  /** What was recorded for a stage is what it injected, what it drained and what it has yet to drain. */
  ghost predicate SinkAgrees(stage: Stage) {
    && (!stage.kind.Heartbeat? ==> stage.recorded == stage.injected + stage.batch + stage.sink)
    && (stage.kind.ListSink? || stage.batch == [])
    && (stage.phase.Expecting? || stage.phase.Passing? ==> stage.batch == [])
    && (stage.phase.Flushing? && !stage.kind.Heartbeat? ==>
          stage.owed <= |stage.injected| + |stage.batch| + if stage.kind.Delegations? then |stage.sink| else 0)
    && (stage.phase.Done? && !stage.kind.Heartbeat? ==> stage.owed <= |stage.injected| && stage.batch == [])
  }

  lemma SinkRecords(stage: Stage, c: nat)
    requires SinkAgrees(stage)
    ensures SinkAgrees(stage.(sink := stage.sink + [c], recorded := stage.recorded + [c]))
  {
  }

  lemma SinkDrains(stage: Stage)
    requires SinkAgrees(stage) && stage.phase.Expecting?
    ensures forall x :: SinkAgrees(Drained(stage).(phase := Carrying(x)))
    ensures SinkAgrees(Drained(stage).(phase := Flushing, owed := |stage.recorded|))
  {
  }

  lemma SinkInjects(stage: Stage, c: nat)
    requires SinkAgrees(stage) && MayInject(stage, c)
    ensures SinkAgrees(Injected(stage, c))
  {
    if !stage.kind.Heartbeat? {
      assert Waiting(stage) == [c] + Waiting(stage)[1..];
    }
  }

  lemma SinkMoves(stage: Stage, phase: Phase)
    requires SinkAgrees(stage)
    requires match phase
             case Passing(_) => stage.phase.Carrying? && Waiting(stage) == []
             case Expecting => stage.phase.Passing?
             case Done => stage.phase.Flushing? && Waiting(stage) == []
             case _ => phase.Failed?
    ensures SinkAgrees(stage.(phase := phase))
  {
  }

  lemma SinkKeeps(s: State, a: Action, i: nat)
    requires Shaped(s) && Enabled(s, a) && i < |s.stages| && SinkAgrees(s.stages[i])
    ensures SinkAgrees(Do(s, a).stages[i])
  {
    var stage := s.stages[i];
    match a {
      case Record(j, c) => SinkRecords(stage, c);
      case Receive(j) => if j == i { SinkDrains(stage); }
      case SeeEnd(j) => if j == i { SinkDrains(stage); }
      case Inject(j, c) => if j == i { SinkInjects(stage, c); }
      case Forward(j) => if j == i { SinkMoves(stage, Passing(stage.phase.frame)); }
      case Back(j) => if j == i { SinkMoves(stage, Expecting); }
      case Finish(j) => if j == i { SinkMoves(stage, Done); }
      case Propagate(j) => if j == i { SinkMoves(stage, Failed); }
      case _ =>
    }
  }

  /** Whether a stage past the end of what it wraps owes at least what was recorded when the source ended. */
  ghost predicate EndAgrees(s: State, i: nat)
    requires Shaped(s) && i < |s.stages|
  {
    var stage := s.stages[i];
    && (s.links[0].Over? ==> |s.atEnd| == |s.stages| && s.atEnd[i] <= |stage.recorded|)
    && (stage.phase.Flushing? || stage.phase.Done? ==> s.links[0].Over? && s.atEnd[i] <= stage.owed <= |stage.recorded|)
  }

  lemma EndKeepsOutside(s: State, a: Action, i: nat)
    requires Linked(s) && Enabled(s, a) && i < |s.stages| && EndAgrees(s, i)
    requires a.Produce? || a.SourceEnd? || a.SourceError? || a.ClientBack? || a.Record?
    ensures EndAgrees(Do(s, a), i)
  {
    assert StageAgrees(s, i) && LinkAgrees(s, i);
  }

  /** A stage sees the end only once the source has ended. */
  lemma EndSeen(s: State, i: nat)
    requires Linked(s) && Enabled(s, SeeEnd(i)) && EndAgrees(s, i) && (i > 0 ==> EndAgrees(s, i - 1))
    ensures EndAgrees(Do(s, SeeEnd(i)), i)
  {
    assert LinkAgrees(s, i);
  }

  lemma EndKeepsInside(s: State, a: Action, i: nat)
    requires Linked(s) && Enabled(s, a) && i < |s.stages| && EndAgrees(s, i)
    requires a.Receive? || a.Inject? || a.Forward? || a.Back? || a.Finish? || a.Propagate?
             || (a.SeeEnd? && a.stage != i)
    ensures EndAgrees(Do(s, a), i)
  {
    assert StageAgrees(s, 0);
  }

  lemma EndKeeps(s: State, a: Action, i: nat)
    requires Linked(s) && Enabled(s, a) && i < |s.stages|
    requires EndAgrees(s, i) && (i > 0 ==> EndAgrees(s, i - 1))
    ensures EndAgrees(Do(s, a), i)
  {
    if a.Produce? || a.SourceEnd? || a.SourceError? || a.ClientBack? || a.Record? {
      EndKeepsOutside(s, a, i);
    } else if a.SeeEnd? && a.stage == i {
      EndSeen(s, i);
    } else {
      EndKeepsInside(s, a, i);
    }
  }

  // ---- Every run ----------------------------------------------------------------------------------

  ghost predicate Inv(s: State) {
    && Linked(s)
    && (forall o :: 0 <= o <= |s.stages| ==> Conserved(s, o))
    && (forall i :: 0 <= i < |s.stages| ==> SinkAgrees(s.stages[i]) && EndAgrees(s, i))
  }

  lemma InitiallySo(kinds: seq<Kind>)
    ensures Inv(Initial(kinds))
  {
  }

  lemma StepKeeps(s: State, a: Action)
    requires Inv(s) && Enabled(s, a)
    ensures Inv(Do(s, a))
  {
    LinkedKeeps(s, a);
    forall o: nat | o <= |s.stages| ensures Conserved(Do(s, a), o) {
      ConservedKeeps(s, a, o);
    }
    forall i: nat | i < |s.stages| ensures SinkAgrees(Do(s, a).stages[i]) && EndAgrees(Do(s, a), i) {
      SinkKeeps(s, a, i);
      EndKeeps(s, a, i);
    }
  }

  /** A state the stack of `kinds` reaches on some schedule. */
  ghost predicate Reaches(kinds: seq<Kind>, actions: seq<Action>, s: State) {
    if actions == [] then s == Initial(kinds)
    else
      var n := |actions| - 1;
      exists before :: Reaches(kinds, actions[..n], before) && Shaped(before) && Enabled(before, actions[n])
          && s == Do(before, actions[n])
  }

  /** One step of a run, the last. */
  ghost predicate LastStep(kinds: seq<Kind>, actions: seq<Action>, before: State, s: State)
    requires actions != []
  {
    var n := |actions| - 1;
    Reaches(kinds, actions[..n], before) && Shaped(before) && Enabled(before, actions[n]) && s == Do(before, actions[n])
  }

  lemma BeforeTheLast(kinds: seq<Kind>, actions: seq<Action>, s: State) returns (before: State)
    requires actions != [] && Reaches(kinds, actions, s)
    ensures LastStep(kinds, actions, before, s)
  {
    var n := |actions| - 1;
    before :| Reaches(kinds, actions[..n], before) && Shaped(before) && Enabled(before, actions[n])
        && s == Do(before, actions[n]);
  }

  lemma {:induction false} EveryRunKeeps(kinds: seq<Kind>, actions: seq<Action>, s: State)
    requires Reaches(kinds, actions, s)
    ensures Inv(s)
  {
    if actions == [] {
      InitiallySo(kinds);
    } else {
      var before := BeforeTheLast(kinds, actions, s);
      EveryRunKeeps(kinds, actions[..|actions| - 1], before);
      StepKeeps(before, actions[|actions| - 1]);
    }
  }

  /**
   With any stack of stages, on every schedule: erase what the stages injected and the client has what
   the source produced, in order, but for at most the last item; and when the source is asked for its
   next item, the client has them all and has come back from the last of them.
   */
  lemma SourceAndClientAreInLockstep(kinds: seq<Kind>, actions: seq<Action>, s: State)
    requires Reaches(kinds, actions, s)
    ensures Shaped(s)
    ensures Erase(s.out, 0) <= s.produced && |s.produced| <= |Erase(s.out, 0)| + 1
    ensures s.links[0].Asked? ==>
              && Erase(s.out, 0) == s.produced
              && !(s.links[|s.stages|].Holding? && s.links[|s.stages|].frame.origin == 0)
  {
    EveryRunKeeps(kinds, actions, s);
    assert Conserved(s, 0);
    ErasePending(s, 0);
    if s.links[|s.stages|].Holding? && s.links[|s.stages|].frame.origin == 0 {
      HeldSinceOrigin(s, |s.stages|, 0, s.links[|s.stages|].frame);
    }
  }

  lemma ErasePending(s: State, o: nat)
    requires Shaped(s) && o <= |s.stages|
    ensures |Erase(Pending(s, o), o)| <= 1
    ensures Pending(s, o) == [] ==> Erase(Pending(s, o), o) == []
  {
    var held := Pending(s, o);
    if held != [] {
      assert held == [] + [held[0]];
      EraseOneMore([], held[0], o);
    }
  }

  /** What a stage injects reaches the client once, in the order it was recorded. */
  lemma InjectionsKeepTheirOrder(kinds: seq<Kind>, actions: seq<Action>, s: State, i: nat)
    requires Reaches(kinds, actions, s) && Shaped(s) && i < |s.stages| && !s.stages[i].kind.Heartbeat?
    ensures Erase(s.out, i + 1) <= s.stages[i].recorded
  {
    EveryRunKeeps(kinds, actions, s);
    assert Conserved(s, i + 1) && SinkAgrees(s.stages[i]);
  }

  lemma {:induction false} AllOver(s: State, i: nat)
    requires Linked(s) && s.links[|s.stages|].Over? && i <= |s.stages|
    ensures s.links[i].Over? && (i < |s.stages| ==> s.stages[i].phase.Done?)
    decreases |s.stages| - i
  {
    if i < |s.stages| {
      AllOver(s, i + 1);
      assert LinkAgrees(s, i + 1) && StageAgrees(s, i);
    }
  }

  /**
   When the stream ends for the client, it has everything the source produced and everything recorded before the
   source ended.
   */
  lemma NothingRecordedIsLost(kinds: seq<Kind>, actions: seq<Action>, s: State)
    requires Reaches(kinds, actions, s) && Shaped(s) && s.links[|s.stages|].Over?
    ensures Erase(s.out, 0) == s.produced
    ensures |s.stages| > 0 ==> |s.atEnd| == |s.stages|
    ensures forall i :: 0 <= i < |s.stages| && !s.stages[i].kind.Heartbeat? ==>
              s.atEnd[i] <= |s.stages[i].recorded| && s.stages[i].recorded[..s.atEnd[i]] <= Erase(s.out, i + 1)
  {
    EveryRunKeeps(kinds, actions, s);
    AllOver(s, 0);
    ErasePending(s, 0);
    assert Conserved(s, 0);
    if |s.stages| > 0 {
      assert EndAgrees(s, 0);
    }
    forall i | 0 <= i < |s.stages| && !s.stages[i].kind.Heartbeat?
      ensures s.atEnd[i] <= |s.stages[i].recorded| && s.stages[i].recorded[..s.atEnd[i]] <= Erase(s.out, i + 1)
    {
      RecordedArrived(s, i);
    }
  }

  lemma RecordedArrived(s: State, i: nat)
    requires Inv(s) && i < |s.stages| && s.links[|s.stages|].Over? && !s.stages[i].kind.Heartbeat?
    ensures |s.atEnd| == |s.stages| && s.atEnd[i] <= |s.stages[i].recorded|
    ensures s.stages[i].recorded[..s.atEnd[i]] <= Erase(s.out, i + 1)
  {
    AllOver(s, i);
    AllOver(s, i + 1);
    assert EndAgrees(s, i) && SinkAgrees(s.stages[i]) && Conserved(s, i + 1);
    ErasePending(s, i + 1);
    var stage := s.stages[i];
    assert stage.recorded == stage.injected + stage.sink;
    assert Erase(s.out, i + 1) == stage.injected;
  }

  lemma {:induction false} AllBroken(s: State, i: nat)
    requires Linked(s) && s.links[|s.stages|].Broken? && i <= |s.stages|
    ensures s.links[i] == s.links[|s.stages|]
    decreases |s.stages| - i
  {
    if i < |s.stages| {
      AllBroken(s, i + 1);
      assert LinkAgrees(s, i + 1) && StageAgrees(s, i);
    }
  }

  /** An error reaches the client as the source raised it, behind every item the source produced before. */
  lemma AnErrorComesLast(kinds: seq<Kind>, actions: seq<Action>, s: State)
    requires Reaches(kinds, actions, s) && Shaped(s) && s.links[|s.stages|].Broken?
    ensures s.links[0] == s.links[|s.stages|] && Erase(s.out, 0) == s.produced
  {
    EveryRunKeeps(kinds, actions, s);
    AllBroken(s, 0);
    assert Conserved(s, 0);
    ErasePending(s, 0);
  }
}
