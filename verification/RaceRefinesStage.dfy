/**
 The sub-agent race is a stage of the stack: every run of its tasks, queues and getters, read as its two
 neighbours see it, is a run of the one-stage stack, so what holds of any stack holds of it.
 */
module RaceRefinesStage {
  import R = SubagentRace
  import L = Lockstep
  import opened OneStage

  // ---- What the neighbours see ------------------------------------------------------------------------

  /** The announcements, and the upstream items, among what was said. */
  function Announced(said: seq<R.Said>): seq<nat> {
    if said == [] then []
    else
      var before := Announced(said[..|said| - 1]);
      match said[|said| - 1]
      case Announced(e) => before + [e]
      case Upstream(_) => before
  }

  function Items(said: seq<R.Said>): seq<nat> {
    if said == [] then []
    else
      var before := Items(said[..|said| - 1]);
      match said[|said| - 1]
      case Upstream(Item(e)) => before + [e]
      case _ => before
  }

  /** What was passed on, as frames: upstream's own, and the stage's. */
  function Frames(said: seq<R.Said>): seq<L.Frame> {
    if said == [] then []
    else
      var before := Frames(said[..|said| - 1]);
      match said[|said| - 1]
      case Upstream(Item(e)) => before + [L.Frame(0, e)]
      case Upstream(_) => before
      case Announced(e) => before + [L.Frame(1, e)]
  }

  function FrameOf(said: R.Said): L.Frame {
    match said
    case Upstream(Item(e)) => L.Frame(0, e)
    case Upstream(_) => L.Frame(0, 0)
    case Announced(e) => L.Frame(1, e)
  }

  /** Upstream is being asked, or is held at what it last said, or is over, or has raised. */
  function SourceLink(s: R.State): L.Link {
    if s.pump.Asking? || s.trace == [] then L.Asked
    else
      match s.trace[|s.trace| - 1]
      case Upstream(End) => L.Over
      case Upstream(Error(e)) => L.Broken(e)
      case said => L.Holding(FrameOf(said))
  }

  /** The consumer waits, or holds what it was last told, or has seen the end or the error. */
  function ClientLink(s: R.State): L.Link {
    match s.consumer
    case Unstarted => L.Asked
    case Waiting => L.Asked
    case Returned => L.Over
    case Raised(e) => L.Broken(e)
    case _ => if s.told == [] then L.Asked else L.Holding(FrameOf(s.told[|s.told| - 1]))
  }

  /** Whether the item the pump waits for has been passed on. */
  predicate PassedOn(s: R.State) {
    s.pump.Joining? && R.Carried(s) == []
  }

  function StagePhase(s: R.State): L.Phase {
    if s.consumer.Returned? then L.Done
    else if s.consumer.Raised? then L.Failed
    else if PassedOn(s) && s.trace != [] then L.Passing(FrameOf(s.trace[|s.trace| - 1]))
    else L.Expecting
  }

  function StageOf(s: R.State): L.Stage {
    var recorded := Announced(s.trace);
    L.Stage(L.Delegations, StagePhase(s), R.Held(s) + s.progress, [], recorded, Announced(s.told),
        if s.consumer.Returned? then |recorded| else 0)
  }

  function AtEnd(s: R.State): seq<nat> {
    if SourceLink(s).Over? then [|Announced(s.trace)|] else []
  }

  /** The race, as a stack of one stage. */
  function Seen(s: R.State): L.State {
    Stack(SourceLink(s), ClientLink(s), StageOf(s), Items(s.trace), Frames(s.told), AtEnd(s))
  }

  // ---- What else every step keeps ---------------------------------------------------------------------

  /**
   While the pump is not asking, the last thing that happened is what it got; and a yield is of what was last told.
   */
  ghost predicate Told(s: R.State) {
    && (!s.pump.Asking? ==> s.trace != [] && s.trace[|s.trace| - 1].Upstream?)
    && (s.pump.Putting? ==> s.trace[|s.trace| - 1].payload == s.pump.payload)
    && (s.pump.Joining? ==> s.trace[|s.trace| - 1].payload.Item?)
    && (s.consumer.AtDrained? || s.consumer.AtProgress? ==> s.told != [] && s.told[|s.told| - 1].Announced?)
    && (s.consumer.AtItem? ==> s.told != [] && s.trace != [] && s.told[|s.told| - 1] == s.trace[|s.trace| - 1])
    && (PassedOn(s) && !s.consumer.AtItem? ==>
        s.consumer.Waiting? && s.progress == [] && s.nextProgress.Pending? && !s.ended)
  }

  ghost predicate Fine(s: R.State) {
    R.Inv(s) && Told(s)
  }

  // ---- The race's steps, as the stage's -----------------------------------------------------------------

  lemma SaidMore(said: seq<R.Said>, x: R.Said)
    ensures Announced(said + [x]) == if x.Announced? then Announced(said) + [x.event] else Announced(said)
    ensures Items(said + [x]) == if x.Upstream? && x.payload.Item? then Items(said) + [x.payload.event] else Items(said)
    ensures Frames(said + [x]) == if x.Announced? || x.payload.Item? then Frames(said) + [FrameOf(x)] else Frames(said)
  {
    assert (said + [x])[..|said|] == said;
  }

  predicate Over(s: R.State) {
    s.consumer.Returned? || s.consumer.Raised?
  }

  /** The stage and its source look the same, whatever the client link does. */
  lemma SameStage(s: R.State, s': R.State)
    requires s'.trace == s.trace && Announced(s'.told) == Announced(s.told)
    requires s'.pump.Asking? == s.pump.Asking? && PassedOn(s') == PassedOn(s)
    requires !Over(s) && !Over(s') && R.Held(s') + s'.progress == R.Held(s) + s.progress
    ensures SourceLink(s') == SourceLink(s) && StageOf(s') == StageOf(s) && AtEnd(s') == AtEnd(s)
  {
  }

  ghost predicate Simulated(s: R.State, s': R.State, actions: seq<L.Action>) {
    Told(s') && Leads(Seen(s), actions, Seen(s'))
  }

  lemma AnnouncedStands(s: R.State, e: nat)
    requires Fine(s) && R.Enabled(s, R.Announce(e))
    ensures var s' := R.Do(s, R.Announce(e));
            && Told(s') && s'.trace == s.trace + [R.Announced(e)] && s'.told == s.told
                && ClientLink(s') == ClientLink(s)
            && SourceLink(s) == L.Asked && SourceLink(s') == L.Asked && !PassedOn(s) && !PassedOn(s') && !Over(s)
            && R.Held(s') + s'.progress == (R.Held(s) + s.progress) + [e]
  {
    assert R.Held(R.Do(s, R.Announce(e))) == R.Held(s);
  }

  lemma AnnounceSeen(s: R.State, e: nat)
    requires Fine(s) && R.Enabled(s, R.Announce(e))
    ensures Simulated(s, R.Do(s, R.Announce(e)), [L.Record(0, e)])
  {
    AnnouncedStands(s, e);
    SaidMore(s.trace, R.Announced(e));
    DoRecord(SourceLink(s), ClientLink(s), StageOf(s), Items(s.trace), Frames(s.told), AtEnd(s), e);
    LeadsByOne(Seen(s), L.Record(0, e));
  }

  lemma ProducedStands(s: R.State, x: R.Payload)
    requires Fine(s) && R.Enabled(s, R.Produce(x))
    ensures var s' := R.Do(s, R.Produce(x));
            && Told(s') && s'.trace == s.trace + [R.Upstream(x)] && ClientLink(s') == ClientLink(s)
            && SourceLink(s) == L.Asked && !PassedOn(s) && !PassedOn(s') && !Over(s)
            && R.Held(s') + s'.progress == R.Held(s) + s.progress
  {
  }

  lemma ProducedStage(s: R.State, x: R.Payload)
    requires Fine(s) && R.Enabled(s, R.Produce(x))
    ensures StageOf(R.Do(s, R.Produce(x))) == StageOf(s)
  {
    ProducedStands(s, x);
    SaidMore(s.trace, R.Upstream(x));
  }

  lemma ProduceItemSeen(s: R.State, e: nat)
    requires Fine(s) && R.Enabled(s, R.Produce(R.Item(e)))
    ensures Simulated(s, R.Do(s, R.Produce(R.Item(e))), [L.Produce(e)])
  {
    ProducedStands(s, R.Item(e));
    ProducedStage(s, R.Item(e));
    SaidMore(s.trace, R.Upstream(R.Item(e)));
    DoProduce(ClientLink(s), StageOf(s), Items(s.trace), Frames(s.told), AtEnd(s), e);
    LeadsByOne(Seen(s), L.Produce(e));
  }

  lemma ProduceEndSeen(s: R.State)
    requires Fine(s) && R.Enabled(s, R.Produce(R.End))
    ensures Simulated(s, R.Do(s, R.Produce(R.End)), [L.SourceEnd])
  {
    ProducedStands(s, R.End);
    ProducedStage(s, R.End);
    SaidMore(s.trace, R.Upstream(R.End));
    DoSourceEnd(ClientLink(s), StageOf(s), Items(s.trace), Frames(s.told), AtEnd(s));
    LeadsByOne(Seen(s), L.SourceEnd);
  }

  lemma ProduceErrorSeen(s: R.State, e: nat)
    requires Fine(s) && R.Enabled(s, R.Produce(R.Error(e)))
    ensures Simulated(s, R.Do(s, R.Produce(R.Error(e))), [L.SourceError(e)])
  {
    ProducedStands(s, R.Error(e));
    ProducedStage(s, R.Error(e));
    SaidMore(s.trace, R.Upstream(R.Error(e)));
    DoSourceError(ClientLink(s), StageOf(s), Items(s.trace), Frames(s.told), AtEnd(s), e);
    LeadsByOne(Seen(s), L.SourceError(e));
  }

  lemma PutIsQuiet(s: R.State)
    requires Fine(s) && R.Enabled(s, R.Put)
    ensures var s' := R.Do(s, R.Put);
            Told(s') && !PassedOn(s') && !PassedOn(s) && R.Held(s') + s'.progress == R.Held(s) + s.progress
  {
    assert R.Carried(R.Do(s, R.Put)) == R.Carried(s) != [];
  }

  lemma GetIsQuiet(s: R.State, a: R.Action)
    requires Fine(s) && R.Enabled(s, a) && (a.GetEvent? || a.GetProgress?)
    ensures var s' := R.Do(s, a);
            Told(s') && PassedOn(s') == PassedOn(s) && R.Held(s') + s'.progress == R.Held(s) + s.progress
  {
    var s' := R.Do(s, a);
    assert R.Carried(s') == R.Carried(s);
    assert R.Held(s') + s'.progress == R.Held(s) + s.progress;
  }

  /** Once the consumer is over nothing is left to put or to get. */
  lemma NotReturned(s: R.State, a: R.Action)
    requires Fine(s) && R.Enabled(s, a) && (a.Put? || a.GetEvent? || a.GetProgress?)
    ensures !Over(s)
  {
  }

  /** They tell nobody anything and leave the consumer where it is. */
  lemma QuietTellsNobody(s: R.State, a: R.Action)
    requires R.Enabled(s, a) && (a.Put? || a.GetEvent? || a.GetProgress?)
    ensures var s' := R.Do(s, a);
            && s'.trace == s.trace && s'.told == s.told && s'.consumer == s.consumer
            && s'.pump.Asking? == s.pump.Asking? && ClientLink(s') == ClientLink(s)
  {
  }

  /** What the pump and the getters do between them shows nowhere. */
  lemma QuietSeen(s: R.State, a: R.Action)
    requires Fine(s) && R.Enabled(s, a) && (a.Put? || a.GetEvent? || a.GetProgress?)
    ensures Simulated(s, R.Do(s, a), [])
  {
    if a.Put? {
      PutIsQuiet(s);
    } else {
      GetIsQuiet(s, a);
    }
    NotReturned(s, a);
    QuietTellsNobody(s, a);
    SameStage(s, R.Do(s, a));
  }

  lemma RejoinSeen(s: R.State)
    requires Fine(s) && R.Enabled(s, R.Rejoin)
    ensures Simulated(s, R.Do(s, R.Rejoin), [L.Back(0)])
  {
    assert R.Carried(s) == [] && R.Carried(R.Do(s, R.Rejoin)) == [];
    DoBack(SourceLink(s), FrameOf(s.trace[|s.trace| - 1]), StageOf(s), Items(s.trace), Frames(s.told), AtEnd(s));
    LeadsByOne(Seen(s), L.Back(0));
  }

  lemma ProgressMoves(s: R.State)
    requires Fine(s) && R.Enabled(s, R.Wake) && s.nextProgress.Settled?
    ensures var s', v := R.Do(s, R.Wake), s.nextProgress.value;
            && Told(s') && s'.trace == s.trace && s'.told == s.told + [R.Announced(v)] && s'.pump == s.pump
            && !PassedOn(s) && !PassedOn(s') && !Over(s) && !Over(s') && ClientLink(s) == L.Asked
            && R.Held(s) == [v] && R.Held(s') + s'.progress == s.progress && s'.consumer.AtProgress?
  {
    var s' := R.Do(s, R.Wake);
    assert R.Carried(s') == R.Carried(s);
    assert R.Held(s') + s'.progress == s.progress;
  }

  lemma ProgressLinks(s: R.State)
    requires Fine(s) && R.Enabled(s, R.Wake) && s.nextProgress.Settled?
    ensures var s', v := R.Do(s, R.Wake), s.nextProgress.value;
            && SourceLink(s') == SourceLink(s) && ClientLink(s) == L.Asked
                && ClientLink(s') == L.Holding(L.Frame(1, v)) && AtEnd(s') == AtEnd(s)
  {
    ProgressMoves(s);
  }

  lemma ProgressStage(s: R.State)
    requires Fine(s) && R.Enabled(s, R.Wake) && s.nextProgress.Settled?
    ensures var s', v := R.Do(s, R.Wake), s.nextProgress.value;
            && StageOf(s).phase.Expecting? && StageOf(s).sink == [v] + s.progress
            && StageOf(s') == StageOf(s).(sink := s.progress, injected := StageOf(s).injected + [v])
  {
    ProgressMoves(s);
    SaidMore(s.told, R.Announced(s.nextProgress.value));
  }

  lemma ProgressSeen(s: R.State)
    requires Fine(s) && R.Enabled(s, R.Wake) && s.nextProgress.Settled?
    ensures Simulated(s, R.Do(s, R.Wake), [L.Inject(0, s.nextProgress.value)])
  {
    var v := s.nextProgress.value;
    ProgressMoves(s);
    ProgressLinks(s);
    ProgressStage(s);
    SaidMore(s.told, R.Announced(v));
    assert ([v] + s.progress)[1..] == s.progress;
    DoInject(SourceLink(s), StageOf(s), Items(s.trace), Frames(s.told), AtEnd(s), v);
    LeadsByOne(Seen(s), L.Inject(0, v));
  }

  /** When the getter of events has what comes next, it is all there is to come. */
  lemma AboutToTell(s: R.State)
    requires Fine(s) && R.Enabled(s, R.Wake) && !s.nextProgress.Settled?
    ensures R.Carried(s) == [s.nextEvent.value] && s.progress == [] && R.Held(s) == []
    ensures s.trace == s.told + [R.Upstream(s.nextEvent.value)]
    ensures s.nextEvent.value.Item? ==> s.pump.Joining?
    ensures !s.nextEvent.value.Item? ==> s.pump.Finished?
  {
    assert s.nextProgress.Pending?;
    assert R.InFlight(s) == [R.Upstream(s.nextEvent.value)];
    assert R.Carried(s)[0] == s.nextEvent.value;
  }

  lemma ItemTold(s: R.State)
    requires Fine(s) && R.Enabled(s, R.Wake) && !s.nextProgress.Settled? && s.nextEvent.value.Item?
    ensures Told(R.Do(s, R.Wake)) && PassedOn(R.Do(s, R.Wake)) && R.Held(R.Do(s, R.Wake)) == []
  {
    AboutToTell(s);
    var s' := R.Do(s, R.Wake);
    assert s'.told[|s'.told| - 1] == R.Upstream(s.nextEvent.value);
    assert R.Carried(s') == [];
  }

  lemma ItemMoves(s: R.State)
    requires Fine(s) && R.Enabled(s, R.Wake) && !s.nextProgress.Settled? && s.nextEvent.value.Item?
    ensures var s' := R.Do(s, R.Wake);
            && s'.trace == s.trace && s.trace == s.told + [R.Upstream(s.nextEvent.value)] && s'.told == s.trace
            && s'.pump == s.pump && s.pump.Joining? && !PassedOn(s) && s.consumer.Waiting? && s'.consumer.AtItem?
                && s'.progress == []
  {
    AboutToTell(s);
  }

  lemma ItemLinks(s: R.State)
    requires Fine(s) && R.Enabled(s, R.Wake) && !s.nextProgress.Settled? && s.nextEvent.value.Item?
    ensures var s', x := R.Do(s, R.Wake), L.Frame(0, s.nextEvent.value.event);
            && SourceLink(s) == L.Holding(x) && SourceLink(s') == L.Holding(x) && ClientLink(s) == L.Asked
                && ClientLink(s') == L.Holding(x)
            && AtEnd(s) == [] && AtEnd(s') == []
  {
    ItemMoves(s);
  }

  lemma PhaseOncePassed(s: R.State, e: nat)
    requires s.consumer.AtItem? && PassedOn(s) && s.trace != [] && s.trace[|s.trace| - 1] == R.Upstream(R.Item(e))
    ensures StagePhase(s) == L.Passing(L.Frame(0, e))
  {
  }

  lemma PhaseBefore(s: R.State)
    requires s.consumer.Waiting? && !PassedOn(s)
    ensures StagePhase(s).Expecting?
  {
  }

  lemma ItemPhases(s: R.State)
    requires Fine(s) && R.Enabled(s, R.Wake) && !s.nextProgress.Settled? && s.nextEvent.value.Item?
    ensures StagePhase(s).Expecting? && StagePhase(R.Do(s, R.Wake)) == L.Passing(L.Frame(0, s.nextEvent.value.event))
  {
    ItemMoves(s);
    ItemTold(s);
    PhaseBefore(s);
    PhaseOncePassed(R.Do(s, R.Wake), s.nextEvent.value.event);
  }

  lemma ItemStage(s: R.State)
    requires Fine(s) && R.Enabled(s, R.Wake) && !s.nextProgress.Settled? && s.nextEvent.value.Item?
    ensures var s', x := R.Do(s, R.Wake), L.Frame(0, s.nextEvent.value.event);
            && StageOf(s).phase.Expecting? && StageOf(s).sink == []
            && StageOf(s') == StageOf(s).(phase := L.Passing(x))
  {
    AboutToTell(s);
    ItemMoves(s);
    ItemTold(s);
    ItemPhases(s);
    SaidMore(s.told, R.Upstream(s.nextEvent.value));
  }

  lemma ItemSeen(s: R.State)
    requires Fine(s) && R.Enabled(s, R.Wake) && !s.nextProgress.Settled? && s.nextEvent.value.Item?
    ensures Simulated(s, R.Do(s, R.Wake), [L.Receive(0), L.Forward(0)])
  {
    var x := L.Frame(0, s.nextEvent.value.event);
    var stage := StageOf(s);
    ItemTold(s);
    ItemMoves(s);
    ItemLinks(s);
    ItemStage(s);
    SaidMore(s.told, R.Upstream(s.nextEvent.value));
    DoReceive(x, L.Asked, stage, Items(s.trace), Frames(s.told), []);
    DoForward(L.Holding(x), x, stage.(phase := L.Carrying(x)), Items(s.trace), Frames(s.told), []);
    LeadsByTwo(Seen(s), L.Receive(0), L.Forward(0));
  }

  lemma EndShows(s: R.State)
    requires Fine(s) && R.Enabled(s, R.Wake) && !s.nextProgress.Settled? && s.nextEvent.value.End?
    ensures var s', stage := R.Do(s, R.Wake), StageOf(s);
            && Told(s') && s'.trace == s.trace && SourceLink(s) == L.Over && SourceLink(s') == L.Over
            && ClientLink(s) == L.Asked && ClientLink(s') == L.Over && Frames(s'.told) == Frames(s.told)
            && stage.phase == L.Expecting && stage.sink == [] && AtEnd(s') == AtEnd(s)
            && StageOf(s') == stage.(phase := L.Done, owed := |stage.recorded|)
  {
    AboutToTell(s);
    SaidMore(s.told, R.Upstream(R.End));
    assert R.Carried(R.Do(s, R.Wake)) == [] && R.Held(R.Do(s, R.Wake)) + R.Do(s, R.Wake).progress == [];
  }

  lemma EndSeen(s: R.State)
    requires Fine(s) && R.Enabled(s, R.Wake) && !s.nextProgress.Settled? && s.nextEvent.value.End?
    ensures Simulated(s, R.Do(s, R.Wake), [L.SeeEnd(0), L.Finish(0)])
  {
    EndShows(s);
    var stage, flushing := StageOf(s), StageOf(s).(phase := L.Flushing, owed := |StageOf(s).recorded|);
    DoSeeEnd(L.Asked, stage, Items(s.trace), Frames(s.told), AtEnd(s));
    DoFinish(L.Over, flushing, Items(s.trace), Frames(s.told), AtEnd(s));
    LeadsByTwo(Seen(s), L.SeeEnd(0), L.Finish(0));
  }

  lemma ErrorShows(s: R.State)
    requires Fine(s) && R.Enabled(s, R.Wake) && !s.nextProgress.Settled? && s.nextEvent.value.Error?
    ensures var s', e := R.Do(s, R.Wake), s.nextEvent.value.error;
            && Told(s') && s'.trace == s.trace && SourceLink(s) == L.Broken(e) && SourceLink(s') == L.Broken(e)
            && ClientLink(s) == L.Asked && ClientLink(s') == L.Broken(e) && Frames(s'.told) == Frames(s.told)
            && StagePhase(s) == L.Expecting && AtEnd(s) == [] && AtEnd(s') == []
            && StageOf(s') == StageOf(s).(phase := L.Failed)
  {
    AboutToTell(s);
    SaidMore(s.told, R.Upstream(s.nextEvent.value));
    assert R.Carried(R.Do(s, R.Wake)) == [] && R.Held(R.Do(s, R.Wake)) + R.Do(s, R.Wake).progress == [];
  }

  lemma ErrorSeen(s: R.State)
    requires Fine(s) && R.Enabled(s, R.Wake) && !s.nextProgress.Settled? && s.nextEvent.value.Error?
    ensures Simulated(s, R.Do(s, R.Wake), [L.Propagate(0)])
  {
    ErrorShows(s);
    DoPropagate(s.nextEvent.value.error, StageOf(s), Items(s.trace), Frames(s.told), []);
    LeadsByOne(Seen(s), L.Propagate(0));
  }

  /** Coming back from a yield, nothing that came from upstream moves. */
  lemma BackKeepsPlaces(s: R.State)
    requires Fine(s) && R.Enabled(s, R.Resume) && !s.consumer.Unstarted?
    ensures s.told != [] && ClientLink(s) == L.Holding(FrameOf(s.told[|s.told| - 1])) && R.Held(s) == [] && !s.ended
    ensures R.Carried(R.Do(s, R.Resume)) == R.Carried(s) && R.Do(s, R.Resume).pump == s.pump
  {
  }

  lemma BackMovesNothing(s: R.State)
    requires Fine(s) && R.Enabled(s, R.Resume) && !s.consumer.Unstarted?
    ensures var s' := R.Do(s, R.Resume);
            && s'.pump == s.pump && s'.trace == s.trace && R.Carried(s') == R.Carried(s) && !s'.ended && R.Held(s) == []
            && s.told != [] && ClientLink(s) == L.Holding(FrameOf(s.told[|s.told| - 1]))
            && (s.progress == [] ==>
                  s'.consumer.Waiting? && s'.told == s.told && s'.progress == [] && s'.nextProgress.Pending?)
            && (s.progress != [] ==>
                  && s'.consumer.AtDrained? && s'.told == s.told + [R.Announced(s.progress[0])]
                  && s'.progress == s.progress[1..] && s'.nextProgress.Absent?)
            && (s.progress != [] ==> !PassedOn(s))
  {
    BackKeepsPlaces(s);
  }

  lemma BackTold(s: R.State)
    requires Fine(s) && R.Enabled(s, R.Resume) && !s.consumer.Unstarted?
    ensures Told(R.Do(s, R.Resume))
  {
    BackMovesNothing(s);
  }

  /** Coming back from a yield with nothing recorded. */
  lemma BackToWaitShows(s: R.State)
    requires Fine(s) && R.Enabled(s, R.Resume) && !s.consumer.Unstarted? && s.progress == []
    ensures var s' := R.Do(s, R.Resume);
            && SourceLink(s') == SourceLink(s) && StageOf(s') == StageOf(s) && AtEnd(s') == AtEnd(s)
            && s'.trace == s.trace && s'.told == s.told && ClientLink(s') == L.Asked
            && s.told != [] && ClientLink(s) == L.Holding(FrameOf(s.told[|s.told| - 1]))
  {
    BackMovesNothing(s);
    SameStage(s, R.Do(s, R.Resume));
  }

  lemma BackToWaitSeen(s: R.State)
    requires Fine(s) && R.Enabled(s, R.Resume) && !s.consumer.Unstarted? && s.progress == []
    ensures Leads(Seen(s), [L.ClientBack], Seen(R.Do(s, R.Resume)))
  {
    BackToWaitShows(s);
    DoClientBack(SourceLink(s), FrameOf(s.told[|s.told| - 1]), StageOf(s), Items(s.trace), Frames(s.told), AtEnd(s));
    LeadsByOne(Seen(s), L.ClientBack);
  }

  lemma DrainedLinks(s: R.State)
    requires Fine(s) && R.Enabled(s, R.Resume) && !s.consumer.Unstarted? && s.progress != []
    ensures var s', v := R.Do(s, R.Resume), s.progress[0];
            && SourceLink(s') == SourceLink(s) && ClientLink(s') == L.Holding(L.Frame(1, v)) && AtEnd(s') == AtEnd(s)
  {
    BackMovesNothing(s);
  }

  lemma DrainedStage(s: R.State)
    requires Fine(s) && R.Enabled(s, R.Resume) && !s.consumer.Unstarted? && s.progress != []
    ensures var s', v := R.Do(s, R.Resume), s.progress[0];
            && StageOf(s).phase.Expecting? && StageOf(s).sink == s.progress
            && StageOf(s') == StageOf(s).(sink := s.progress[1..], injected := StageOf(s).injected + [v])
  {
    BackMovesNothing(s);
    SaidMore(s.told, R.Announced(s.progress[0]));
    var s' := R.Do(s, R.Resume);
    assert R.Held(s) + s.progress == s.progress && R.Held(s') + s'.progress == s.progress[1..];
  }

  /** Coming back from a yield with something recorded, which goes out next. */
  lemma BackToDrainSeen(s: R.State)
    requires Fine(s) && R.Enabled(s, R.Resume) && !s.consumer.Unstarted? && s.progress != []
    ensures Leads(Seen(s), [L.ClientBack, L.Inject(0, s.progress[0])], Seen(R.Do(s, R.Resume)))
  {
    BackMovesNothing(s);
    DrainedLinks(s);
    DrainedStage(s);
    SaidMore(s.told, R.Announced(s.progress[0]));
    DoClientBack(SourceLink(s), FrameOf(s.told[|s.told| - 1]), StageOf(s), Items(s.trace), Frames(s.told), AtEnd(s));
    DoInject(SourceLink(s), StageOf(s), Items(s.trace), Frames(s.told), AtEnd(s), s.progress[0]);
    LeadsByTwo(Seen(s), L.ClientBack, L.Inject(0, s.progress[0]));
  }

  lemma StartSeen(s: R.State)
    requires Fine(s) && s.consumer.Unstarted?
    ensures Simulated(s, R.Do(s, R.Resume), [])
  {
    var s' := R.Do(s, R.Resume);
    assert s == R.INITIAL && s'.consumer.Waiting? && R.Held(s') == R.Held(s);
    SameStage(s, s');
  }

  /** What a pump's payload is to the stage: a step of the source. */
  function SourceSays(x: R.Payload): L.Action {
    match x
    case Item(e) => L.Produce(e)
    case End => L.SourceEnd
    case Error(e) => L.SourceError(e)
  }

  /** Every step of the race is a few steps of the stage, or none. */
  lemma StepSeen(s: R.State, a: R.Action) returns (actions: seq<L.Action>)
    requires Fine(s) && R.Enabled(s, a) && !a.AnnounceFromOutside?
    ensures Simulated(s, R.Do(s, a), actions)
    ensures if a.Produce? then actions == [SourceSays(a.payload)] else OwnSteps(actions)
    ensures actions != [] && actions[0].ClientBack? ==> a.Resume?
  {
    match a {
      case Announce(e) =>
        AnnounceSeen(s, e);
        actions := [L.Record(0, e)];
      case Produce(Item(e)) =>
        ProduceItemSeen(s, e);
        actions := [L.Produce(e)];
      case Produce(End) =>
        ProduceEndSeen(s);
        actions := [L.SourceEnd];
      case Produce(Error(e)) =>
        ProduceErrorSeen(s, e);
        actions := [L.SourceError(e)];
      case Rejoin =>
        RejoinSeen(s);
        actions := [L.Back(0)];
      case Wake =>
        actions := WakeSeen(s);
      case Resume =>
        actions := ResumeSeen(s);
      case _ =>
        QuietSeen(s, a);
        actions := [];
    }
  }

  /** What passing a payload on is to the stage. */
  function PassingSteps(x: R.Payload): seq<L.Action> {
    match x
    case Item(_) => [L.Receive(0), L.Forward(0)]
    case End => [L.SeeEnd(0), L.Finish(0)]
    case Error(_) => [L.Propagate(0)]
  }

  lemma PassingIsOwn(x: R.Payload)
    ensures OwnSteps(PassingSteps(x)) && Own(PassingSteps(x)[0])
  {
  }

  lemma EventSeen(s: R.State)
    requires Fine(s) && R.Enabled(s, R.Wake) && !s.nextProgress.Settled?
    ensures Simulated(s, R.Do(s, R.Wake), PassingSteps(s.nextEvent.value))
  {
    match s.nextEvent.value {
      case Item(_) => ItemSeen(s);
      case End => EndSeen(s);
      case Error(_) => ErrorSeen(s);
    }
  }

  lemma WakeSeen(s: R.State) returns (actions: seq<L.Action>)
    requires Fine(s) && R.Enabled(s, R.Wake)
    ensures Simulated(s, R.Do(s, R.Wake), actions) && OwnSteps(actions) && (actions != [] ==> Own(actions[0]))
  {
    if s.nextProgress.Settled? {
      ProgressSeen(s);
      actions := [L.Inject(0, s.nextProgress.value)];
      OwnOne(L.Inject(0, s.nextProgress.value));
    } else {
      EventSeen(s);
      PassingIsOwn(s.nextEvent.value);
      actions := PassingSteps(s.nextEvent.value);
    }
  }

  lemma ResumeSeen(s: R.State) returns (actions: seq<L.Action>)
    requires Fine(s) && R.Enabled(s, R.Resume)
    ensures Simulated(s, R.Do(s, R.Resume), actions) && OwnSteps(actions)
  {
    if s.consumer.Unstarted? {
      StartSeen(s);
      actions := [];
    } else if s.progress == [] {
      BackTold(s);
      BackToWaitSeen(s);
      actions := [L.ClientBack];
    } else {
      BackTold(s);
      BackToDrainSeen(s);
      actions := [L.ClientBack, L.Inject(0, s.progress[0])];
    }
  }

  // ---- Every run ------------------------------------------------------------------------------------------

  lemma StartsAlike()
    ensures Seen(R.INITIAL) == L.Initial([L.Delegations])
  {
    var start := L.Initial([L.Delegations]);
    assert start.links == [L.Asked, L.Asked];
    assert start.stages == [L.Stage(L.Delegations, L.Expecting, [], [], [], [], 0)];
    assert R.Held(R.INITIAL) + R.INITIAL.progress == [];
  }

  /**
   The race refines the stage: whatever its tasks do, in whatever order, and whether upstream ends or raises, as
   long as announcements come from inside it, what its neighbours see is a run of the stack with one such stage.
   */
  lemma {:induction false} RaceIsAStage(actions: seq<R.Action>, n: nat) returns (steps: seq<L.Action>)
    requires n <= |actions| && R.Run(actions, n).Some? && R.FromInside(actions)
    ensures Fine(R.Run(actions, n).value)
    ensures L.Reaches([L.Delegations], steps, Seen(R.Run(actions, n).value))
  {
    if n == 0 {
      R.InitiallySo();
      StartsAlike();
      steps := [];
    } else {
      steps := RaceIsAStage(actions, n - 1);
      var s := R.Run(actions, n - 1).value;
      var more := StepSeen(s, actions[n - 1]);
      R.StepKeeps(s, actions[n - 1]);
      ReachesOn([L.Delegations], steps, Seen(s), more, Seen(R.Do(s, actions[n - 1])));
      steps := steps + more;
    }
  }
}
