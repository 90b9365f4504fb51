/**
 The racing stages inside any stack. A stage of a stack, with the two links it stands between, looks like a stack of
 that one stage; what its tasks do is what the stage does there, and what its neighbours do is what its source and
 its client do to it alone. So the two refinements hold wherever the stages stand, and of both in one stack.
 */
module NestedStages {
  import opened Messages
  import opened OneStage
  import L = Lockstep
  import R = SubagentRace
  import H = HeartbeatRace
  import RaceRefinesStage
  import opened OutsideAnnouncements

  // ---- A stage of a stack, seen alone ---------------------------------------------------------------------

  /** What a stage is handed goes by number when it is seen alone: `names` says which frame each number is. */
  function FrameIn(names: seq<L.Frame>, i: nat, x: L.Frame): L.Frame {
    if x.origin == 0 && x.content < |names| then names[x.content] else L.Frame(i + 1, x.content)
  }

  function LinkIn(names: seq<L.Frame>, i: nat, link: L.Link): L.Link {
    match link
    case Holding(x) => L.Holding(FrameIn(names, i, x))
    case _ => link
  }

  function PhaseIn(names: seq<L.Frame>, i: nat, phase: L.Phase): L.Phase {
    match phase
    case Carrying(x) => L.Carrying(FrameIn(names, i, x))
    case Passing(x) => L.Passing(FrameIn(names, i, x))
    case _ => phase
  }

  function StageIn(names: seq<L.Frame>, i: nat, stage: L.Stage): L.Stage {
    stage.(phase := PhaseIn(names, i, stage.phase))
  }

  predicate Numbered(names: seq<L.Frame>, x: L.Frame) {
    x.origin == 0 ==> x.content < |names|
  }

  /** Every number in sight names a frame. */
  predicate AllNumbered(names: seq<L.Frame>, s: L.State)
    requires |s.links| == 2 && |s.stages| == 1
  {
    && (s.links[0].Holding? ==> Numbered(names, s.links[0].frame))
    && (s.links[1].Holding? ==> Numbered(names, s.links[1].frame))
    && (s.stages[0].phase.Carrying? || s.stages[0].phase.Passing? ==> Numbered(names, s.stages[0].phase.frame))
  }

  /** The client of the one stage may have asked again before the stage notices. */
  predicate ClientSeen(link: L.Link, alone: L.Link, names: seq<L.Frame>, i: nat) {
    link == LinkIn(names, i, alone) || (link.Asked? && alone.Holding?)
  }

  /** Stage `i` of a stack looks like the one stage of `s`. */
  ghost predicate Views(stack: L.State, i: nat, s: L.State, names: seq<L.Frame>) {
    && L.Shaped(stack) && i < |stack.stages| && |s.links| == 2 && |s.stages| == 1 && AllNumbered(names, s)
    && stack.links[i] == LinkIn(names, i, s.links[0])
    && stack.stages[i] == StageIn(names, i, s.stages[0])
    && ClientSeen(stack.links[i + 1], s.links[1], names, i)
  }

  // ---- What the stage does --------------------------------------------------------------------------------

  /** The same, of stage `i`. */
  function At(a: L.Action, i: nat): L.Action
    requires Own(a)
  {
    match a
    case Record(_, c) => L.Record(i, c)
    case Receive(_) => L.Receive(i)
    case Inject(_, c) => L.Inject(i, c)
    case Forward(_) => L.Forward(i)
    case Back(_) => L.Back(i)
    case SeeEnd(_) => L.SeeEnd(i)
    case Finish(_) => L.Finish(i)
    case Propagate(_) => L.Propagate(i)
    case _ => a
  }

  lemma OwnIsEnabled(stack: L.State, i: nat, s: L.State, names: seq<L.Frame>, a: L.Action)
    requires Views(stack, i, s, names) && Own(a) && L.Enabled(s, a)
    ensures a.stage == 0 && L.Enabled(stack, At(a, i))
  {
  }

  lemma QuietOwnStep(stack: L.State, i: nat, s: L.State, names: seq<L.Frame>, a: L.Action)
    requires Views(stack, i, s, names) && Own(a) && L.Enabled(s, a) && L.Enabled(stack, At(a, i))
    requires a.Record? || a.Receive? || a.Back? || a.SeeEnd?
    ensures Views(L.Do(stack, At(a, i)), i, L.Do(s, a), names)
  {
  }

  lemma YieldingOwnStep(stack: L.State, i: nat, s: L.State, names: seq<L.Frame>, a: L.Action)
    requires Views(stack, i, s, names) && Own(a) && L.Enabled(s, a) && L.Enabled(stack, At(a, i))
    requires a.Inject? || a.Forward? || a.Finish? || a.Propagate?
    ensures Views(L.Do(stack, At(a, i)), i, L.Do(s, a), names)
  {
  }

  /** A step of the stage alone is that step of the stage in the stack. */
  lemma OwnStep(stack: L.State, i: nat, s: L.State, names: seq<L.Frame>, a: L.Action)
    requires Views(stack, i, s, names) && Own(a) && L.Enabled(s, a)
    ensures L.Enabled(stack, At(a, i)) && Views(L.Do(stack, At(a, i)), i, L.Do(s, a), names)
  {
    OwnIsEnabled(stack, i, s, names, a);
    if a.Record? || a.Receive? || a.Back? || a.SeeEnd? {
      QuietOwnStep(stack, i, s, names, a);
    } else {
      YieldingOwnStep(stack, i, s, names, a);
    }
  }

  /** Once it has been asked again, the stage may notice. */
  lemma AskedAgain(stack: L.State, i: nat, s: L.State, names: seq<L.Frame>)
    requires Views(stack, i, s, names) && s.links[1].Holding? && stack.links[i + 1].Asked?
    ensures L.Enabled(s, L.ClientBack) && Views(stack, i, L.Do(s, L.ClientBack), names)
  {
  }

  /** All of them are steps of stage `i`. */
  ghost predicate StepsOf(actions: seq<L.Action>, i: nat) {
    forall k :: 0 <= k < |actions| ==> Own(actions[k]) && actions[k].stage == i
  }

  lemma LeadsFirst(s: L.State, a: L.Action, more: seq<L.Action>, t: L.State)
    requires L.Shaped(s) && L.Enabled(s, a) && Leads(L.Do(s, a), more, t)
    ensures Leads(s, [a] + more, t)
  {
    assert ([a] + more)[1..] == more;
  }

  /** What leads the stage alone somewhere leads the stack to where its stage is there. */
  lemma {:induction false} LeadsNested(stack: L.State, i: nat, s: L.State, names: seq<L.Frame>,
                                       actions: seq<L.Action>, t: L.State)
    returns (steps: seq<L.Action>, stack': L.State)
    requires Views(stack, i, s, names) && Leads(s, actions, t) && OwnSteps(actions)
    requires actions != [] && actions[0].ClientBack? ==> stack.links[i + 1].Asked?
    ensures Leads(stack, steps, stack') && StepsOf(steps, i) && Views(stack', i, t, names)
    decreases |actions|
  {
    if actions == [] {
      steps, stack' := [], stack;
    } else if actions[0].ClientBack? {
      AskedAgain(stack, i, s, names);
      steps, stack' := LeadsNested(stack, i, L.Do(s, actions[0]), names, actions[1..], t);
    } else {
      OwnStep(stack, i, s, names, actions[0]);
      var a := At(actions[0], i);
      steps, stack' := LeadsNested(L.Do(stack, a), i, L.Do(s, actions[0]), names, actions[1..], t);
      LeadsFirst(stack, a, steps, stack');
      steps := [a] + steps;
    }
  }

  // ---- What its neighbours do -----------------------------------------------------------------------------

  /** A step that is not stage `i`'s own. */
  predicate Elsewhere(a: L.Action, i: nat) {
    Own(a) ==> a.stage != i
  }

  /** Such a step may answer the stage's question, or ask it for more, and does nothing else to it. */
  ghost predicate Neighbourly(stack: L.State, stack': L.State, i: nat) {
    && L.Shaped(stack) && L.Shaped(stack') && i < |stack.stages| == |stack'.stages|
        && stack'.stages[i] == stack.stages[i]
    && (stack'.links[i] == stack.links[i] || (stack.links[i].Asked? && !stack'.links[i].Asked?))
    && (stack'.links[i + 1] == stack.links[i + 1] || (stack.links[i + 1].Holding? && stack'.links[i + 1].Asked?))
  }

  lemma NeighboursOnlyAnswerAndAsk(stack: L.State, a: L.Action, i: nat)
    requires L.Linked(stack) && L.Enabled(stack, a) && Elsewhere(a, i) && i < |stack.stages|
    ensures Neighbourly(stack, L.Do(stack, a), i)
  {
    if L.Inside(a) {
      assert L.StageAgrees(stack, a.stage);
    }
  }

  /** What the source of the stage alone does when its link is answered. */
  function Answer(link: L.Link, names: seq<L.Frame>): L.Action
    requires !link.Asked?
  {
    match link
    case Holding(_) => L.Produce(|names|)
    case Over => L.SourceEnd
    case Broken(e) => L.SourceError(e)
  }

  function NamesAfter(link: L.Link, names: seq<L.Frame>): seq<L.Frame> {
    if link.Holding? then names + [link.frame] else names
  }

  lemma MoreNames(names: seq<L.Frame>, more: L.Frame, i: nat, s: L.State)
    requires |s.links| == 2 && |s.stages| == 1 && AllNumbered(names, s)
    ensures AllNumbered(names + [more], s)
    ensures LinkIn(names + [more], i, s.links[1]) == LinkIn(names, i, s.links[1])
    ensures StageIn(names + [more], i, s.stages[0]) == StageIn(names, i, s.stages[0])
  {
  }

  /** An answered link is an answer of the stage's own source. */
  lemma Answered(stack: L.State, stack': L.State, i: nat, s: L.State, names: seq<L.Frame>)
    requires Views(stack, i, s, names) && Neighbourly(stack, stack', i) && stack'.links[i] != stack.links[i]
    ensures L.Enabled(s, Answer(stack'.links[i], names))
    ensures Views(stack', i, L.Do(s, Answer(stack'.links[i], names)), NamesAfter(stack'.links[i], names))
  {
    if stack'.links[i].Holding? {
      MoreNames(names, stack'.links[i].frame, i, s);
    }
  }

  lemma AskedOrUntouched(stack: L.State, stack': L.State, i: nat, s: L.State, names: seq<L.Frame>)
    requires Views(stack, i, s, names) && Neighbourly(stack, stack', i) && stack'.links[i] == stack.links[i]
    ensures Views(stack', i, s, names)
  {
  }

  // ---- The sub-agent race in any stack --------------------------------------------------------------------

  /** Stage `i` of the stack is the race. */
  ghost predicate IsRace(stack: L.State, i: nat, race: R.State, names: seq<L.Frame>) {
    Views(stack, i, RaceRefinesStage.Seen(race), names) && RaceRefinesStage.Fine(race)
  }

  /**
   Wherever the race stands in a stack, whatever its tasks do is a few steps of that stage, or none. It goes on after
   a yield only when it has been asked for more.
   */
  lemma RaceInAnyStack(stack: L.State, i: nat, race: R.State, names: seq<L.Frame>, a: R.Action)
    returns (steps: seq<L.Action>, stack': L.State)
    requires IsRace(stack, i, race, names) && R.Enabled(race, a) && !a.AnnounceFromOutside? && !a.Produce?
    requires a.Resume? ==> stack.links[i + 1].Asked?
    ensures Leads(stack, steps, stack') && StepsOf(steps, i) && IsRace(stack', i, R.Do(race, a), names)
  {
    var actions := RaceRefinesStage.StepSeen(race, a);
    R.StepKeeps(race, a);
    steps, stack' := LeadsNested(stack, i, RaceRefinesStage.Seen(race), names, actions,
        RaceRefinesStage.Seen(R.Do(race, a)));
  }

  /** What the race takes when the stage inside it answers: the numbered frame, the end or the error. */
  function RacePayload(link: L.Link, names: seq<L.Frame>): R.Payload
    requires !link.Asked?
  {
    match link
    case Holding(_) => R.Item(|names|)
    case Over => R.End
    case Broken(e) => R.Error(e)
  }

  /** The steps a neighbour's answer brings about: a generator nobody had asked yet starts, and its pump gets it. */
  ghost predicate OnlyFed(fed: seq<R.Action>) {
    forall k :: 0 <= k < |fed| ==> fed[k].Resume? || fed[k].Produce?
  }

  lemma RaceStarts(stack: L.State, i: nat, race: R.State, names: seq<L.Frame>)
    returns (fed: seq<R.Action>, started: R.State)
    requires IsRace(stack, i, race, names)
    ensures OnlyFed(fed) && After(race, fed) == Some(started)
    ensures IsRace(stack, i, started, names) && !started.consumer.Unstarted?
  {
    if race.consumer.Unstarted? {
      RaceRefinesStage.StartSeen(race);
      R.StepKeeps(race, R.Resume);
      fed, started := [R.Resume], R.Do(race, R.Resume);
    } else {
      fed, started := [], race;
    }
  }

  lemma RaceIsAsked(race: R.State)
    requires RaceRefinesStage.Fine(race) && RaceRefinesStage.SourceLink(race).Asked?
    ensures race.pump.Asking?
  {
  }

  lemma RaceTakes(race: R.State, link: L.Link, names: seq<L.Frame>)
    requires RaceRefinesStage.Fine(race) && race.pump.Asking? && !race.consumer.Unstarted? && !link.Asked?
    ensures var next := R.Do(race, R.Produce(RacePayload(link, names)));
            && RaceRefinesStage.Fine(next) && L.Shaped(RaceRefinesStage.Seen(race))
            && L.Enabled(RaceRefinesStage.Seen(race), Answer(link, names))
            && RaceRefinesStage.Seen(next) == L.Do(RaceRefinesStage.Seen(race), Answer(link, names))
  {
    var a := R.Produce(RacePayload(link, names));
    var actions := RaceRefinesStage.StepSeen(race, a);
    R.StepKeeps(race, a);
    LedByOne(RaceRefinesStage.Seen(race), Answer(link, names), RaceRefinesStage.Seen(R.Do(race, a)));
  }

  lemma {:induction false} AfterFed(s: R.State, first: seq<R.Action>, t: R.State, a: R.Action)
    requires After(s, first) == Some(t) && R.Enabled(t, a)
    ensures After(s, first + [a]) == Some(R.Do(t, a))
    decreases |first|
  {
    if first == [] {
      assert first + [a] == [a] && [a][1..] == [];
    } else {
      AfterFed(R.Do(s, first[0]), first[1..], t, a);
      assert (first + [a])[1..] == first[1..] + [a];
    }
  }

  lemma FedOn(race: R.State, fed: seq<R.Action>, started: R.State, take: R.Action) returns (more: seq<R.Action>)
    requires OnlyFed(fed) && After(race, fed) == Some(started) && R.Enabled(started, take) && take.Produce?
    ensures OnlyFed(more) && After(race, more) == Some(R.Do(started, take))
  {
    AfterFed(race, fed, started, take);
    more := fed + [take];
  }

  lemma RaceTakesAnswer(stack: L.State, stack': L.State, i: nat, race: R.State, names: seq<L.Frame>)
    requires IsRace(stack, i, race, names) && Neighbourly(stack, stack', i) && stack'.links[i] != stack.links[i]
    requires !race.consumer.Unstarted?
    ensures R.Enabled(race, R.Produce(RacePayload(stack'.links[i], names)))
    ensures var race' := R.Do(race, R.Produce(RacePayload(stack'.links[i], names)));
            IsRace(stack', i, race', NamesAfter(stack'.links[i], names))
  {
    RaceIsAsked(race);
    Answered(stack, stack', i, RaceRefinesStage.Seen(race), names);
    RaceTakes(race, stack'.links[i], names);
  }

  /** An answered link is an answer its pump takes. */
  lemma RaceIsAnswered(stack: L.State, stack': L.State, i: nat, race: R.State, names: seq<L.Frame>)
    returns (fed: seq<R.Action>, race': R.State)
    requires IsRace(stack, i, race, names) && Neighbourly(stack, stack', i) && stack'.links[i] != stack.links[i]
    ensures OnlyFed(fed) && After(race, fed) == Some(race')
    ensures IsRace(stack', i, race', NamesAfter(stack'.links[i], names))
  {
    var started;
    fed, started := RaceStarts(stack, i, race, names);
    var take := R.Produce(RacePayload(stack'.links[i], names));
    RaceTakesAnswer(stack, stack', i, started, names);
    fed := FedOn(race, fed, started, take);
    race' := R.Do(started, take);
  }

  /** Any step of another stage, of the source or of the client is nothing to it, or the answer its pump waits for. */
  lemma RaceAmongNeighbours(stack: L.State, i: nat, race: R.State, names: seq<L.Frame>, a: L.Action)
    returns (fed: seq<R.Action>, race': R.State, names': seq<L.Frame>)
    requires IsRace(stack, i, race, names) && L.Linked(stack) && L.Enabled(stack, a) && Elsewhere(a, i)
    ensures OnlyFed(fed) && After(race, fed) == Some(race') && IsRace(L.Do(stack, a), i, race', names')
  {
    var stack' := L.Do(stack, a);
    NeighboursOnlyAnswerAndAsk(stack, a, i);
    if stack'.links[i] == stack.links[i] {
      AskedOrUntouched(stack, stack', i, RaceRefinesStage.Seen(race), names);
      fed, race', names' := [], race, names;
    } else {
      fed, race' := RaceIsAnswered(stack, stack', i, race, names);
      names' := NamesAfter(stack'.links[i], names);
    }
  }

  // ---- The heartbeat in any stack -------------------------------------------------------------------------

  /** Stage `i` of the stack is the heartbeat. */
  ghost predicate IsBeat(stack: L.State, i: nat, beat: H.State, names: seq<L.Frame>) {
    Views(stack, i, H.Seen(beat), names) && H.Fine(beat)
  }

  /** The same of the heartbeat's tasks. */
  lemma HeartbeatInAnyStack(stack: L.State, i: nat, beat: H.State, names: seq<L.Frame>, a: H.Action)
    returns (steps: seq<L.Action>, stack': L.State)
    requires IsBeat(stack, i, beat, names) && H.Enabled(beat, a) && !a.Produce?
    requires a.Resume? ==> stack.links[i + 1].Asked?
    ensures Leads(stack, steps, stack') && StepsOf(steps, i) && IsBeat(stack', i, H.Do(beat, a), names)
  {
    var actions := H.StepSeen(beat, a);
    H.StepKeeps(beat, a);
    steps, stack' := LeadsNested(stack, i, H.Seen(beat), names, actions, H.Seen(H.Do(beat, a)));
  }

  function BeatPayload(link: L.Link, names: seq<L.Frame>): H.Payload
    requires !link.Asked?
  {
    match link
    case Holding(_) => H.Item(|names|)
    case Over => H.End
    case Broken(e) => H.Error(e)
  }

  function BeatAfter(s: H.State, more: seq<H.Action>): Option<H.State>
    decreases |more|
  {
    if more == [] then Some(s)
    else if H.Enabled(s, more[0]) then BeatAfter(H.Do(s, more[0]), more[1..])
    else None
  }

  /** Besides starting, its pump may have to notice first that its consumer came back. */
  ghost predicate OnlyFedBeat(fed: seq<H.Action>) {
    forall k :: 0 <= k < |fed| ==> fed[k].Resume? || fed[k].Rejoin? || fed[k].Produce?
  }

  lemma BeatIsReady(stack: L.State, i: nat, beat: H.State, names: seq<L.Frame>)
    returns (fed: seq<H.Action>, ready: H.State)
    requires IsBeat(stack, i, beat, names) && H.SourceLink(beat).Asked?
    ensures OnlyFedBeat(fed) && BeatAfter(beat, fed) == Some(ready)
    ensures IsBeat(stack, i, ready, names) && ready.pump.Asking? && !ready.consumer.Unstarted?
  {
    if beat.consumer.Unstarted? {
      H.StartSeen(beat);
      H.StepKeeps(beat, H.Resume);
      fed, ready := [H.Resume], H.Do(beat, H.Resume);
    } else if beat.pump.Asking? {
      fed, ready := [], beat;
    } else {
      BeatMayRejoin(beat);
      H.QuietSeen(beat, H.Rejoin);
      H.StepKeeps(beat, H.Rejoin);
      fed, ready := [H.Rejoin], H.Do(beat, H.Rejoin);
    }
  }

  lemma BeatMayRejoin(beat: H.State)
    requires H.Fine(beat) && H.SourceLink(beat).Asked? && !beat.consumer.Unstarted? && !beat.pump.Asking?
    ensures H.Enabled(beat, H.Rejoin)
  {
  }

  lemma BeatTakes(beat: H.State, link: L.Link, names: seq<L.Frame>)
    requires H.Fine(beat) && beat.pump.Asking? && !beat.consumer.Unstarted? && !link.Asked?
    ensures var next := H.Do(beat, H.Produce(BeatPayload(link, names)));
            && H.Fine(next) && L.Shaped(H.Seen(beat)) && L.Enabled(H.Seen(beat), Answer(link, names))
            && H.Seen(next) == L.Do(H.Seen(beat), Answer(link, names))
  {
    var a := H.Produce(BeatPayload(link, names));
    var actions := H.StepSeen(beat, a);
    H.StepKeeps(beat, a);
    LedByOne(H.Seen(beat), Answer(link, names), H.Seen(H.Do(beat, a)));
  }

  lemma {:induction false} BeatAfterFed(s: H.State, first: seq<H.Action>, t: H.State, a: H.Action)
    requires BeatAfter(s, first) == Some(t) && H.Enabled(t, a)
    ensures BeatAfter(s, first + [a]) == Some(H.Do(t, a))
    decreases |first|
  {
    if first == [] {
      assert first + [a] == [a] && [a][1..] == [];
    } else {
      BeatAfterFed(H.Do(s, first[0]), first[1..], t, a);
      assert (first + [a])[1..] == first[1..] + [a];
    }
  }

  /** Any step of another stage, of the source or of the client is nothing to it, or the answer its pump waits for. */
  lemma HeartbeatAmongNeighbours(stack: L.State, i: nat, beat: H.State, names: seq<L.Frame>, a: L.Action)
    returns (fed: seq<H.Action>, beat': H.State, names': seq<L.Frame>)
    requires IsBeat(stack, i, beat, names) && L.Linked(stack) && L.Enabled(stack, a) && Elsewhere(a, i)
    ensures OnlyFedBeat(fed) && BeatAfter(beat, fed) == Some(beat') && IsBeat(L.Do(stack, a), i, beat', names')
  {
    var stack' := L.Do(stack, a);
    NeighboursOnlyAnswerAndAsk(stack, a, i);
    if stack'.links[i] == stack.links[i] {
      AskedOrUntouched(stack, stack', i, H.Seen(beat), names);
      fed, beat', names' := [], beat, names;
    } else {
      var readying, ready := BeatIsReady(stack, i, beat, names);
      var take := H.Produce(BeatPayload(stack'.links[i], names));
      Answered(stack, stack', i, H.Seen(ready), names);
      BeatTakes(ready, stack'.links[i], names);
      fed, beat', names' := readying + [take], H.Do(ready, take), NamesAfter(stack'.links[i], names);
      BeatAfterFed(beat, readying, ready, take);
    }
  }

  // ---- Both in one stack ----------------------------------------------------------------------------------

  /** A stack whose stage `i` is the race and whose stage `j` is the heartbeat; the other stages are any. */
  datatype Both = Both(stack: L.State, race: R.State, raceNames: seq<L.Frame>, beat: H.State, beatNames: seq<L.Frame>)

  ghost predicate InOneStack(c: Both, i: nat, j: nat) {
    i != j && L.Linked(c.stack) && IsRace(c.stack, i, c.race, c.raceNames) && IsBeat(c.stack, j, c.beat, c.beatNames)
  }

  lemma BothStart(kinds: seq<L.Kind>, i: nat, j: nat)
    requires i < |kinds| && j < |kinds| && kinds[i] == L.Delegations && kinds[j] == L.Heartbeat
    ensures InOneStack(Both(L.Initial(kinds), R.INITIAL, [], H.INITIAL, []), i, j)
  {
    R.InitiallySo();
    H.InitiallySo();
    RaceRefinesStage.StartsAlike();
    H.StartsAlike();
  }

  /** While one stage moves, the heartbeat is at most answered. */
  lemma {:induction false} BeatWhileStepping(stack: L.State, steps: seq<L.Action>, t: L.State, i: nat, j: nat,
                                             beat: H.State, names: seq<L.Frame>)
    returns (fed: seq<H.Action>, beat': H.State, names': seq<L.Frame>)
    requires Leads(stack, steps, t) && L.Linked(stack) && IsBeat(stack, j, beat, names)
    requires forall k :: 0 <= k < |steps| ==> Elsewhere(steps[k], j)
    ensures L.Linked(t) && OnlyFedBeat(fed) && BeatAfter(beat, fed) == Some(beat') && IsBeat(t, j, beat', names')
    decreases |steps|
  {
    if steps == [] {
      fed, beat', names' := [], beat, names;
    } else {
      L.LinkedKeeps(stack, steps[0]);
      var first, next, more := HeartbeatAmongNeighbours(stack, j, beat, names, steps[0]);
      var rest;
      rest, beat', names' := BeatWhileStepping(L.Do(stack, steps[0]), steps[1..], t, i, j, next, more);
      fed := first + rest;
      BeatAfterBoth(beat, first, next, rest);
    }
  }

  lemma {:induction false} BeatAfterBoth(s: H.State, first: seq<H.Action>, t: H.State, rest: seq<H.Action>)
    requires BeatAfter(s, first) == Some(t)
    ensures BeatAfter(s, first + rest) == BeatAfter(t, rest)
    decreases |first|
  {
    if first == [] {
      assert first + rest == rest;
    } else {
      BeatAfterBoth(H.Do(s, first[0]), first[1..], t, rest);
      assert (first + rest)[1..] == first[1..] + rest;
    }
  }

  lemma FedBoth(race: R.State, first: seq<R.Action>, next: R.State, rest: seq<R.Action>, last: R.State)
    returns (fed: seq<R.Action>)
    requires OnlyFed(first) && OnlyFed(rest) && After(race, first) == Some(next) && After(next, rest) == Some(last)
    ensures OnlyFed(fed) && After(race, fed) == Some(last)
  {
    AfterBoth(race, first, next, rest);
    fed := first + rest;
  }

  lemma {:induction false} RaceWhileStepping(stack: L.State, steps: seq<L.Action>, t: L.State, i: nat,
                                             race: R.State, names: seq<L.Frame>)
    returns (fed: seq<R.Action>, race': R.State, names': seq<L.Frame>)
    requires Leads(stack, steps, t) && L.Linked(stack) && IsRace(stack, i, race, names)
    requires forall k :: 0 <= k < |steps| ==> Elsewhere(steps[k], i)
    ensures L.Linked(t) && OnlyFed(fed) && After(race, fed) == Some(race') && IsRace(t, i, race', names')
    decreases |steps|
  {
    if steps == [] {
      fed, race', names' := [], race, names;
    } else {
      L.LinkedKeeps(stack, steps[0]);
      var first, next, more := RaceAmongNeighbours(stack, i, race, names, steps[0]);
      var rest;
      rest, race', names' := RaceWhileStepping(L.Do(stack, steps[0]), steps[1..], t, i, next, more);
      fed := FedBoth(race, first, next, rest, race');
    }
  }

  lemma {:induction false} AfterBoth(s: R.State, first: seq<R.Action>, t: R.State, rest: seq<R.Action>)
    requires After(s, first) == Some(t)
    ensures After(s, first + rest) == After(t, rest)
    decreases |first|
  {
    if first == [] {
      assert first + rest == rest;
    } else {
      AfterBoth(R.Do(s, first[0]), first[1..], t, rest);
      assert (first + rest)[1..] == first[1..] + rest;
    }
  }

  /**
   In a stack that has both, a step of the race's tasks is steps of its stage; to the heartbeat they are its
   neighbour's.
   */
  lemma RaceMovesInBoth(c: Both, i: nat, j: nat, a: R.Action)
    returns (steps: seq<L.Action>, fed: seq<H.Action>, c': Both)
    requires InOneStack(c, i, j) && R.Enabled(c.race, a) && !a.AnnounceFromOutside? && !a.Produce?
    requires a.Resume? ==> c.stack.links[i + 1].Asked?
    ensures InOneStack(c', i, j) && Leads(c.stack, steps, c'.stack) && StepsOf(steps, i) && c'.race == R.Do(c.race, a)
    ensures OnlyFedBeat(fed) && BeatAfter(c.beat, fed) == Some(c'.beat)
  {
    var stack', beat', names';
    steps, stack' := RaceInAnyStack(c.stack, i, c.race, c.raceNames, a);
    fed, beat', names' := BeatWhileStepping(c.stack, steps, stack', i, j, c.beat, c.beatNames);
    c' := Both(stack', R.Do(c.race, a), c.raceNames, beat', names');
  }

  /** And the other way round. */
  lemma HeartbeatMovesInBoth(c: Both, i: nat, j: nat, a: H.Action)
    returns (steps: seq<L.Action>, fed: seq<R.Action>, c': Both)
    requires InOneStack(c, i, j) && H.Enabled(c.beat, a) && !a.Produce?
    requires a.Resume? ==> c.stack.links[j + 1].Asked?
    ensures InOneStack(c', i, j) && Leads(c.stack, steps, c'.stack) && StepsOf(steps, j) && c'.beat == H.Do(c.beat, a)
    ensures OnlyFed(fed) && After(c.race, fed) == Some(c'.race)
  {
    var stack', race', names';
    steps, stack' := HeartbeatInAnyStack(c.stack, j, c.beat, c.beatNames, a);
    fed, race', names' := RaceWhileStepping(c.stack, steps, stack', i, c.race, c.raceNames);
    c' := Both(stack', race', names', H.Do(c.beat, a), c.beatNames);
  }

  /** A step of any other stage, of the source or of the client is its own, and an answer at most to each of the two. */
  lemma OthersMoveInBoth(c: Both, i: nat, j: nat, a: L.Action)
    returns (fed: seq<R.Action>, fedBeat: seq<H.Action>, c': Both)
    requires InOneStack(c, i, j) && L.Enabled(c.stack, a) && Elsewhere(a, i) && Elsewhere(a, j)
    ensures InOneStack(c', i, j) && c'.stack == L.Do(c.stack, a)
    ensures OnlyFed(fed) && After(c.race, fed) == Some(c'.race)
    ensures OnlyFedBeat(fedBeat) && BeatAfter(c.beat, fedBeat) == Some(c'.beat)
  {
    var race', raceNames', beat', beatNames';
    L.LinkedKeeps(c.stack, a);
    fed, race', raceNames' := RaceAmongNeighbours(c.stack, i, c.race, c.raceNames, a);
    fedBeat, beat', beatNames' := HeartbeatAmongNeighbours(c.stack, j, c.beat, c.beatNames, a);
    c' := Both(L.Do(c.stack, a), race', raceNames', beat', beatNames');
  }
}
