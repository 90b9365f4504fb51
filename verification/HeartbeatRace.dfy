/**
 The heartbeat's tasks: a pump in lockstep with its consumer, a queue of one, a getter that outlives the waits,
 and a generator whose wait for it may expire. Each label of `Action` is one uninterrupted stretch of one of
 them, and a run is any sequence of labels that are enabled one after another. Every run is a run of the stack
 with one heartbeat stage, and what it sends is what the loop over its waits sends.
 */
module HeartbeatRace {
  import opened Messages
  import opened OneStage
  import L = Lockstep
  import H = HeartbeatStream

  /** What a chunk says plays no part here: a number names it. */
  type Piece = nat

  /** What the pump puts on its queue. */
  datatype Payload = Item(piece: Piece) | End | Error(error: nat)

  /** What the consumer of the stage was told: a beat, or what came from upstream. */
  datatype Said = Beat | Upstream(payload: Payload)

  datatype Pump = Asking | Putting(payload: Payload) | Joining | Finished

  /** The task waiting on the queue: not there, waiting, or done with its result not yet taken. */
  datatype Getter = Absent | Pending | Settled(payload: Payload)

  datatype Consumer = Unstarted | Waiting | AtBeat | AtItem | Returned | Raised(error: nat)

  datatype State = State(
    pump: Pump,
    queue: seq<Payload>,
    unfinished: nat,
    getter: Getter,
    consumer: Consumer,
    trace: seq<Payload>,
    told: seq<Said>)

  const CAPACITY: nat := 1

  const INITIAL := State(Asking, [], 0, Absent, Unstarted, [], [])

  datatype Action = Produce(payload: Payload) | Put | Rejoin | Get | Wake | Expire | Resume

  /** The top of the loop: a getter is made unless the last one is still waiting. */
  function Wait(s: State): State {
    s.(getter := if s.getter.Absent? then Pending else s.getter, consumer := Waiting)
  }

  /** After a wait the getter settled: its result is taken and passed on. */
  function AfterWait(s: State): State
    requires s.getter.Settled?
  {
    var taken := s.(getter := Absent, told := s.told + [Upstream(s.getter.payload)]);
    match s.getter.payload
    case Item(_) => taken.(consumer := AtItem)
    case End => taken.(consumer := Returned)
    case Error(e) => taken.(consumer := Raised(e))
  }

  /** When a label may happen. A wait expires only while its getter has not settled. */
  predicate Enabled(s: State, a: Action) {
    match a
    case Produce(_) => s.pump.Asking? && !s.consumer.Unstarted?
    case Put => s.pump.Putting? && |s.queue| < CAPACITY
    case Rejoin => s.pump.Joining? && s.unfinished == 0
    case Get => s.getter.Pending? && s.queue != []
    case Wake => s.consumer.Waiting? && s.getter.Settled?
    case Expire => s.consumer.Waiting? && s.getter.Pending?
    case Resume => s.consumer.Unstarted? || s.consumer.AtBeat? || (s.consumer.AtItem? && s.unfinished > 0)
  }

  function Do(s: State, a: Action): State
    requires Enabled(s, a)
  {
    match a
    case Produce(x) => s.(pump := Putting(x), trace := s.trace + [x])
    case Put =>
      s.(queue := s.queue + [s.pump.payload], unfinished := s.unfinished + 1,
         pump := if s.pump.payload.Item? then Joining else Finished)
    case Rejoin => s.(pump := Asking)
    case Get => s.(getter := Settled(s.queue[0]), queue := s.queue[1..])
    case Wake => AfterWait(s)
    case Expire => s.(told := s.told + [Beat], consumer := AtBeat)
    case Resume => Wait(if s.consumer.AtItem? then s.(unfinished := s.unfinished - 1) else s)
  }

  /** The state the first `n` labels lead to, when each is enabled in turn. */
  function Run(actions: seq<Action>, n: nat): Option<State>
    requires n <= |actions|
  {
    if n == 0 then Some(INITIAL)
    else
      match Run(actions, n - 1)
      case None => None
      case Some(s) => if Enabled(s, actions[n - 1]) then Some(Do(s, actions[n - 1])) else None
  }

  // ---- What every step keeps ------------------------------------------------------------------------------

  /** What came from upstream and was not yet passed on, wherever it is. */
  function Carried(s: State): Option<Payload> {
    if s.getter.Settled? then Some(s.getter.payload)
    else if s.queue != [] then Some(s.queue[0])
    else if s.pump.Putting? then Some(s.pump.payload)
    else None
  }

  function With(told: seq<Payload>, carried: Option<Payload>): seq<Payload> {
    match carried
    case None => told
    case Some(x) => told + [x]
  }

  /** What was told of upstream, the beats left out. */
  function Told(told: seq<Said>): seq<Payload> {
    if told == [] then []
    else
      var before := Told(told[..|told| - 1]);
      match told[|told| - 1]
      case Upstream(x) => before + [x]
      case Beat => before
  }

  predicate Over(s: State) {
    s.consumer.Returned? || s.consumer.Raised?
  }

  /** It is in one place only. */
  ghost predicate OnePlace(s: State) {
    && |s.queue| <= 1
    && (s.queue != [] ==> !s.pump.Putting?)
    && (s.getter.Settled? ==> s.queue == [] && !s.pump.Putting?)
  }

  ghost predicate PumpAgrees(s: State) {
    match s.pump
    case Asking => Carried(s).None? && !s.consumer.AtItem? && s.unfinished == 0
    case Putting(_) => !s.consumer.AtItem? && s.unfinished == 0
    case Joining =>
      && (s.consumer.AtItem? ==> Carried(s).None?)
      && s.unfinished == (if Carried(s).Some? || s.consumer.AtItem? then 1 else 0)
      && (Carried(s).Some? ==> Carried(s).value.Item?)
    case Finished =>
      !s.consumer.AtItem? && (if Over(s) then Carried(s).None? else Carried(s).Some? && !Carried(s).value.Item?)
  }

  ghost predicate ConsumerAgrees(s: State) {
    match s.consumer
    case Unstarted => s == INITIAL
    case Waiting => !s.getter.Absent?
    case AtBeat => !s.getter.Absent?
    case AtItem => s.getter.Absent? && s.pump.Joining? && s.unfinished == 1
    case _ => s.getter.Absent? && s.pump.Finished?
  }

  ghost predicate Inv(s: State) {
    s.trace == With(Told(s.told), Carried(s)) && OnePlace(s) && PumpAgrees(s) && ConsumerAgrees(s)
  }

  lemma ToldMore(told: seq<Said>, x: Said)
    ensures Told(told + [x]) == if x.Upstream? then Told(told) + [x.payload] else Told(told)
  {
    assert (told + [x])[..|told|] == told;
  }

  lemma PumpKeeps(s: State, a: Action)
    requires Inv(s) && Enabled(s, a) && (a.Produce? || a.Put? || a.Rejoin? || a.Get?)
    ensures Inv(Do(s, a))
  {
    assert Carried(Do(s, a)) == if a.Produce? then Some(a.payload) else Carried(s);
  }

  lemma WakeKeeps(s: State)
    requires Inv(s) && Enabled(s, Wake)
    ensures Inv(Do(s, Wake))
  {
    ToldMore(s.told, Upstream(s.getter.payload));
    assert Carried(s) == Some(s.getter.payload) && Carried(Do(s, Wake)) == None;
  }

  lemma BeatMovesNothing(s: State)
    requires Inv(s) && Enabled(s, Expire)
    ensures var s' := Do(s, Expire);
            && s'.trace == s.trace && Told(s'.told) == Told(s.told) && Carried(s') == Carried(s)
            && PumpAgrees(s') && OnePlace(s')
  {
    ToldMore(s.told, Beat);
  }

  lemma ExpireKeeps(s: State)
    requires Inv(s) && Enabled(s, Expire)
    ensures Inv(Do(s, Expire))
  {
    BeatMovesNothing(s);
  }

  lemma ResumeKeeps(s: State)
    requires Inv(s) && Enabled(s, Resume)
    ensures Inv(Do(s, Resume))
  {
    assert Carried(Do(s, Resume)) == Carried(s);
  }

  lemma StepKeeps(s: State, a: Action)
    requires Inv(s) && Enabled(s, a)
    ensures Inv(Do(s, a))
  {
    match a {
      case Wake => WakeKeeps(s);
      case Expire => ExpireKeeps(s);
      case Resume => ResumeKeeps(s);
      case _ => PumpKeeps(s, a);
    }
  }

  lemma LastStep(actions: seq<Action>, n: nat, s: State)
    requires n < |actions| && Run(actions, n + 1).Some? && Run(actions, n) == Some(s)
    ensures Enabled(s, actions[n]) && Run(actions, n + 1) == Some(Do(s, actions[n]))
  {
  }

  lemma InitiallySo()
    ensures Inv(INITIAL)
  {
  }

  lemma {:induction false} EveryRunKeeps(actions: seq<Action>, n: nat)
    requires n <= |actions| && Run(actions, n).Some?
    ensures Inv(Run(actions, n).value)
  {
    if n == 0 {
      InitiallySo();
    } else {
      var s := Run(actions, n - 1).value;
      EveryRunKeeps(actions, n - 1);
      LastStep(actions, n - 1, s);
      StepKeeps(s, actions[n - 1]);
    }
  }

  // ---- What it promises -----------------------------------------------------------------------------------

  /**
   On every schedule upstream's pieces are passed on in order, none lost to a beat; and when the stage is over, all of
   them were.
   */
  lemma PiecesAreToldInOrder(actions: seq<Action>)
    requires Run(actions, |actions|).Some?
    ensures var s := Run(actions, |actions|).value;
            && Told(s.told) <= s.trace
            && (Over(s) ==> Told(s.told) == s.trace)
  {
    EveryRunKeeps(actions, |actions|);
  }

  /** Upstream is asked only once every piece it produced was passed on and its consumer came back for more. */
  lemma UpstreamIsInLockstep(actions: seq<Action>)
    requires Run(actions, |actions|).Some?
    ensures var s := Run(actions, |actions|).value;
            && |s.trace| <= |Told(s.told)| + 1
            && (s.pump.Asking? ==> Told(s.told) == s.trace && !s.consumer.AtItem? && s.unfinished == 0)
  {
    EveryRunKeeps(actions, |actions|);
  }

  /**
   A beat is sent only in a wait whose getter has not settled. Nothing is queued at it exactly as long as the pump
   has not put since it was last asked: a piece put just as the interval ends is queued behind the beat.
   */
  lemma ABeatFindsNothingQueued(actions: seq<Action>)
    requires Run(actions, |actions|).Some? && Enabled(Run(actions, |actions|).value, Expire)
    ensures var s := Run(actions, |actions|).value;
            && s.getter.Pending?
            && (s.queue == [] <==> s.pump.Asking? || s.pump.Putting? || (s.pump.Joining? && s.unfinished == 0))
  {
    EveryRunKeeps(actions, |actions|);
    QueuedIsUnfinished(Run(actions, |actions|).value);
  }

  lemma QueuedIsUnfinished(s: State)
    requires Inv(s) && s.consumer.Waiting? && s.getter.Pending?
    ensures s.queue == [] <==> s.pump.Asking? || s.pump.Putting? || (s.pump.Joining? && s.unfinished == 0)
  {
  }

  /** The pump never finds its queue full, and a wait always has something that can happen besides expiring. */
  lemma NeverStuck(actions: seq<Action>)
    requires Run(actions, |actions|).Some?
    ensures var s := Run(actions, |actions|).value;
            && (s.pump.Putting? ==> Enabled(s, Put))
            && (s.consumer.Waiting? ==>
                s.pump.Asking? || Enabled(s, Put) || Enabled(s, Rejoin) || Enabled(s, Get) || Enabled(s, Wake))
  {
    EveryRunKeeps(actions, |actions|);
  }

  lemma OneMore(actions: seq<Action>, n: nat, s: State)
    requires n < |actions| && Run(actions, n) == Some(s) && Enabled(s, actions[n])
    ensures Run(actions, n + 1) == Some(Do(s, actions[n]))
  {
  }

  /** A schedule on which the interval ends between a piece being queued and its getter waking. */
  const AT_ONCE := [Resume, Produce(Item(0)), Put, Expire]

  /** So a beat can be sent with a piece already queued; it is told behind the beat. */
  lemma ABeatCanFindOneQueued()
    ensures Run(AT_ONCE, 4).Some?
    ensures var s := Run(AT_ONCE, 4).value; s.told == [Beat] && s.queue == [Item(0)]
  {
    OneMore(AT_ONCE, 0, INITIAL);
    var s1 := Do(INITIAL, Resume);
    OneMore(AT_ONCE, 1, s1);
    var s2 := Do(s1, Produce(Item(0)));
    OneMore(AT_ONCE, 2, s2);
    var s3 := Do(s2, Put);
    OneMore(AT_ONCE, 3, s3);
  }

  // ---- A stage of the stack -------------------------------------------------------------------------------

  /** Every beat is alike. */
  const BEAT: nat := 0

  function FrameOf(x: Payload): L.Frame {
    L.Frame(0, if x.Item? then x.piece else 0)
  }

  /** What was passed on, as frames, and the beats and the pieces among it. */
  function Frames(told: seq<Said>): seq<L.Frame> {
    if told == [] then []
    else
      var before := Frames(told[..|told| - 1]);
      match told[|told| - 1]
      case Beat => before + [L.Frame(1, BEAT)]
      case Upstream(Item(e)) => before + [L.Frame(0, e)]
      case _ => before
  }

  function Beats(told: seq<Said>): seq<nat> {
    if told == [] then []
    else
      var before := Beats(told[..|told| - 1]);
      if told[|told| - 1].Beat? then before + [BEAT] else before
  }

  function Pieces(trace: seq<Payload>): seq<nat> {
    if trace == [] then []
    else
      var before := Pieces(trace[..|trace| - 1]);
      match trace[|trace| - 1]
      case Item(e) => before + [e]
      case _ => before
  }

  /** Upstream may be asked again: the pump is asking, or has only to notice that its consumer came back. */
  predicate Free(s: State) {
    s.pump.Asking? || (s.pump.Joining? && s.unfinished == 0)
  }

  function SourceLink(s: State): L.Link {
    if Free(s) || s.trace == [] then L.Asked
    else
      match s.trace[|s.trace| - 1]
      case End => L.Over
      case Error(e) => L.Broken(e)
      case Item(e) => L.Holding(L.Frame(0, e))
  }

  function ClientLink(s: State): L.Link {
    match s.consumer
    case AtBeat => L.Holding(L.Frame(1, BEAT))
    case AtItem => if s.trace == [] then L.Asked else L.Holding(FrameOf(s.trace[|s.trace| - 1]))
    case Returned => L.Over
    case Raised(e) => L.Broken(e)
    case _ => L.Asked
  }

  function StagePhase(s: State): L.Phase {
    match s.consumer
    case AtItem => if s.trace == [] then L.Expecting else L.Passing(FrameOf(s.trace[|s.trace| - 1]))
    case Returned => L.Done
    case Raised(_) => L.Failed
    case _ => L.Expecting
  }

  function StageOf(s: State): L.Stage {
    L.Stage(L.Heartbeat, StagePhase(s), [], [], [], Beats(s.told), 0)
  }

  function AtEnd(s: State): seq<nat> {
    if SourceLink(s).Over? then [0] else []
  }

  /** The heartbeat, as a stack of one stage. */
  function Seen(s: State): L.State {
    Stack(SourceLink(s), ClientLink(s), StageOf(s), Pieces(s.trace), Frames(s.told), AtEnd(s))
  }

  lemma SaidMore(told: seq<Said>, x: Said)
    ensures Beats(told + [x]) == if x.Beat? then Beats(told) + [BEAT] else Beats(told)
    ensures Frames(told + [x]) == if x.Beat? then Frames(told) + [L.Frame(1, BEAT)]
                                  else if x.payload.Item? then Frames(told) + [L.Frame(0, x.payload.piece)]
                                      else Frames(told)
  {
    assert (told + [x])[..|told|] == told;
  }

  lemma PiecesMore(trace: seq<Payload>, x: Payload)
    ensures Pieces(trace + [x]) == if x.Item? then Pieces(trace) + [x.piece] else Pieces(trace)
  {
    assert (trace + [x])[..|trace|] == trace;
  }

  /** What is being carried is the last thing that happened; and a yield is of what was last carried. */
  ghost predicate Last(s: State) {
    && (!Free(s) ==> s.trace != [])
    && (Carried(s).Some? ==> s.trace != [] && s.trace[|s.trace| - 1] == Carried(s).value)
    && (s.consumer.AtItem? ==> s.trace != [] && s.trace[|s.trace| - 1].Item?)
  }

  ghost predicate Fine(s: State) {
    Inv(s) && Last(s)
  }

  /** A step that leaves both links and the stage as they look is no step of the stack. */
  ghost predicate Simulated(s: State, s': State, actions: seq<L.Action>) {
    Last(s') && Leads(Seen(s), actions, Seen(s'))
  }

  /** What a pump's payload is to the stage: a step of the source. */
  function SourceSays(x: Payload): L.Action {
    match x
    case Item(e) => L.Produce(e)
    case End => L.SourceEnd
    case Error(e) => L.SourceError(e)
  }

  lemma ProduceSeen(s: State, x: Payload) returns (actions: seq<L.Action>)
    requires Fine(s) && Enabled(s, Produce(x))
    ensures Simulated(s, Do(s, Produce(x)), actions) && actions == [SourceSays(x)]
  {
    PiecesMore(s.trace, x);
    var client, stage, pieces, frames := ClientLink(s), StageOf(s), Pieces(s.trace), Frames(s.told);
    match x {
      case Item(e) =>
        actions := [L.Produce(e)];
        DoProduce(client, stage, pieces, frames, [], e);
      case End =>
        actions := [L.SourceEnd];
        DoSourceEnd(client, stage, pieces, frames, []);
      case Error(e) =>
        actions := [L.SourceError(e)];
        DoSourceError(client, stage, pieces, frames, [], e);
    }
    LeadsByOne(Seen(s), actions[0]);
  }

  lemma QuietStands(s: State, a: Action)
    requires Inv(s) && Enabled(s, a) && (a.Put? || a.Rejoin? || a.Get?)
    ensures var s' := Do(s, a);
            && s'.trace == s.trace && s'.told == s.told && s'.consumer == s.consumer
            && Free(s') == Free(s) && Carried(s') == Carried(s)
  {
  }

  lemma SameLook(s: State, s': State)
    requires s'.trace == s.trace && s'.told == s.told && s'.consumer == s.consumer && Free(s') == Free(s)
    ensures Seen(s') == Seen(s)
  {
  }

  lemma QuietSeen(s: State, a: Action)
    requires Fine(s) && Enabled(s, a) && (a.Put? || a.Rejoin? || a.Get?)
    ensures Simulated(s, Do(s, a), [])
  {
    QuietStands(s, a);
    SameLook(s, Do(s, a));
  }

  /** How a stack looks from one side only: its source, and what came and went. */
  ghost predicate SourceStands(s: State, s': State) {
    SourceLink(s') == SourceLink(s) && AtEnd(s') == AtEnd(s) && Pieces(s'.trace) == Pieces(s.trace) && Last(s')
  }

  lemma TakenStands(s: State)
    requires Fine(s) && Enabled(s, Wake)
    ensures SourceStands(s, Do(s, Wake)) && Do(s, Wake).trace == s.trace
    ensures s.trace != [] && s.trace[|s.trace| - 1] == s.getter.payload && !Free(s)
    ensures s.getter.payload.End? ==> AtEnd(s) == [0]
  {
    assert Carried(s) == Some(s.getter.payload) && Carried(Do(s, Wake)) == None;
  }

  lemma ItemSeen(s: State)
    requires Fine(s) && Enabled(s, Wake) && s.getter.payload.Item?
    ensures Simulated(s, Do(s, Wake), [L.Receive(0), L.Forward(0)])
  {
    TakenStands(s);
    SaidMore(s.told, Upstream(s.getter.payload));
    var x, stage, pieces, frames := FrameOf(s.getter.payload), StageOf(s), Pieces(s.trace), Frames(s.told);
    DoReceive(x, L.Asked, stage, pieces, frames, []);
    DoForward(L.Holding(x), x, stage.(phase := L.Carrying(x)), pieces, frames, []);
    LeadsByTwo(Seen(s), L.Receive(0), L.Forward(0));
  }

  lemma EndSeen(s: State)
    requires Fine(s) && Enabled(s, Wake) && s.getter.payload.End?
    ensures Simulated(s, Do(s, Wake), [L.SeeEnd(0), L.Finish(0)])
  {
    TakenStands(s);
    SaidMore(s.told, Upstream(s.getter.payload));
    var stage, pieces, frames := StageOf(s), Pieces(s.trace), Frames(s.told);
    DoSeeEnd(L.Asked, stage, pieces, frames, [0]);
    DoFinish(L.Over, stage.(phase := L.Flushing), pieces, frames, [0]);
    LeadsByTwo(Seen(s), L.SeeEnd(0), L.Finish(0));
  }

  lemma ErrorShows(s: State)
    requires Fine(s) && Enabled(s, Wake) && s.getter.payload.Error?
    ensures var e, s' := s.getter.payload.error, Do(s, Wake);
            && SourceLink(s) == L.Broken(e) && AtEnd(s) == [] && ClientLink(s) == L.Asked
                && ClientLink(s') == L.Broken(e)
            && StageOf(s') == StageOf(s).(phase := L.Failed) && Frames(s'.told) == Frames(s.told)
  {
    TakenStands(s);
    SaidMore(s.told, Upstream(s.getter.payload));
  }

  lemma ErrorSeen(s: State)
    requires Fine(s) && Enabled(s, Wake) && s.getter.payload.Error?
    ensures Simulated(s, Do(s, Wake), [L.Propagate(0)])
  {
    TakenStands(s);
    ErrorShows(s);
    DoPropagate(s.getter.payload.error, StageOf(s), Pieces(s.trace), Frames(s.told), []);
    LeadsByOne(Seen(s), L.Propagate(0));
  }

  lemma SameSource(s: State, s': State)
    requires Last(s) && s'.trace == s.trace && Free(s') == Free(s) && Carried(s') == Carried(s) && !s'.consumer.AtItem?
    ensures SourceStands(s, s')
  {
  }

  lemma BeatStands(s: State)
    requires Fine(s) && Enabled(s, Expire)
    ensures SourceStands(s, Do(s, Expire)) && ClientLink(s) == L.Asked && StagePhase(s) == L.Expecting
  {
    BeatMovesNothing(s);
    SameSource(s, Do(s, Expire));
  }

  lemma BeatShows(s: State)
    requires Enabled(s, Expire)
    ensures var s' := Do(s, Expire);
            && ClientLink(s') == L.Holding(L.Frame(1, BEAT)) && Frames(s'.told) == Frames(s.told) + [L.Frame(1, BEAT)]
            && StageOf(s') == L.Stage(L.Heartbeat, L.Expecting, [], [], [], Beats(s.told) + [BEAT], 0)
  {
    SaidMore(s.told, Beat);
  }

  lemma ExpireSeen(s: State)
    requires Fine(s) && Enabled(s, Expire)
    ensures Simulated(s, Do(s, Expire), [L.Inject(0, BEAT)])
  {
    BeatStands(s);
    BeatShows(s);
    DoBeat(SourceLink(s), StageOf(s), Pieces(s.trace), Frames(s.told), AtEnd(s), BEAT);
    LeadsByOne(Seen(s), L.Inject(0, BEAT));
  }

  lemma BackFromBeatStands(s: State)
    requires Fine(s) && s.consumer.AtBeat?
    ensures var s' := Do(s, Resume);
            SourceStands(s, s') && ClientLink(s') == L.Asked && StageOf(s') == StageOf(s) && s'.told == s.told
  {
    assert Do(s, Resume) == s.(consumer := Waiting);
    SameSource(s, Do(s, Resume));
  }

  lemma BackFromBeatSeen(s: State)
    requires Fine(s) && s.consumer.AtBeat?
    ensures Simulated(s, Do(s, Resume), [L.ClientBack])
  {
    BackFromBeatStands(s);
    DoClientBack(SourceLink(s), L.Frame(1, BEAT), StageOf(s), Pieces(s.trace), Frames(s.told), AtEnd(s));
    LeadsByOne(Seen(s), L.ClientBack);
  }

  lemma StartSeen(s: State)
    requires Fine(s) && s.consumer.Unstarted?
    ensures Simulated(s, Do(s, Resume), [])
  {
    assert s == INITIAL && Do(s, Resume) == s.(getter := Pending, consumer := Waiting);
    assert Carried(Do(s, Resume)) == None;
  }

  lemma BackFromItemStands(s: State)
    requires Fine(s) && Enabled(s, Resume) && s.consumer.AtItem?
    ensures var s' := Do(s, Resume);
            && Last(s') && SourceLink(s') == L.Asked && ClientLink(s') == L.Asked && s'.told == s.told
                && s'.trace == s.trace
            && StageOf(s') == StageOf(s).(phase := L.Expecting) && AtEnd(s') == AtEnd(s)
    ensures s.trace != []
    ensures var x := FrameOf(s.trace[|s.trace| - 1]);
            ClientLink(s) == L.Holding(x) && StagePhase(s) == L.Passing(x)
  {
    assert Carried(Do(s, Resume)) == Carried(s);
  }

  lemma BackFromItemSeen(s: State)
    requires Fine(s) && Enabled(s, Resume) && s.consumer.AtItem?
    ensures Simulated(s, Do(s, Resume), [L.ClientBack, L.Back(0)])
  {
    BackFromItemStands(s);
    var x, stage, pieces, frames := FrameOf(s.trace[|s.trace| - 1]), StageOf(s), Pieces(s.trace), Frames(s.told);
    DoClientBack(SourceLink(s), x, stage, pieces, frames, AtEnd(s));
    DoBack(SourceLink(s), x, stage, pieces, frames, AtEnd(s));
    LeadsByTwo(Seen(s), L.ClientBack, L.Back(0));
  }

  /** What passing a payload on is to the stage. */
  function PassingSteps(x: Payload): seq<L.Action> {
    match x
    case Item(_) => [L.Receive(0), L.Forward(0)]
    case End => [L.SeeEnd(0), L.Finish(0)]
    case Error(_) => [L.Propagate(0)]
  }

  lemma PassingIsOwn(x: Payload)
    ensures OwnSteps(PassingSteps(x)) && Own(PassingSteps(x)[0])
  {
  }

  lemma WakeSeen(s: State)
    requires Fine(s) && Enabled(s, Wake)
    ensures Simulated(s, Do(s, Wake), PassingSteps(s.getter.payload))
  {
    match s.getter.payload {
      case Item(_) => ItemSeen(s);
      case End => EndSeen(s);
      case Error(_) => ErrorSeen(s);
    }
  }

  lemma ResumeSeen(s: State) returns (actions: seq<L.Action>)
    requires Fine(s) && Enabled(s, Resume)
    ensures Simulated(s, Do(s, Resume), actions) && OwnSteps(actions)
  {
    match s.consumer {
      case AtBeat =>
        BackFromBeatSeen(s);
        actions := [L.ClientBack];
      case AtItem =>
        BackFromItemSeen(s);
        actions := [L.ClientBack, L.Back(0)];
      case _ =>
        StartSeen(s);
        actions := [];
    }
  }

  /** Every step of the heartbeat's tasks is a few steps of the stage, or none. */
  lemma StepSeen(s: State, a: Action) returns (actions: seq<L.Action>)
    requires Fine(s) && Enabled(s, a)
    ensures Simulated(s, Do(s, a), actions)
    ensures if a.Produce? then actions == [SourceSays(a.payload)] else OwnSteps(actions)
    ensures actions != [] && actions[0].ClientBack? ==> a.Resume?
  {
    match a {
      case Produce(x) => actions := ProduceSeen(s, x);
      case Wake =>
        WakeSeen(s);
        PassingIsOwn(s.getter.payload);
        actions := PassingSteps(s.getter.payload);
      case Expire =>
        ExpireSeen(s);
        actions := [L.Inject(0, BEAT)];
      case Resume => actions := ResumeSeen(s);
      case _ =>
        QuietSeen(s, a);
        actions := [];
    }
  }

  lemma StartsAlike()
    ensures Fine(INITIAL) && L.Reaches([L.Heartbeat], [], Seen(INITIAL))
  {
    var start := L.Initial([L.Heartbeat]);
    assert start.links == [L.Asked, L.Asked];
    assert start.stages == [L.Stage(L.Heartbeat, L.Expecting, [], [], [], [], 0)];
  }

  lemma OneMoreSeen(steps: seq<L.Action>, s: State, a: Action) returns (more: seq<L.Action>)
    requires Fine(s) && Enabled(s, a) && L.Reaches([L.Heartbeat], steps, Seen(s))
    ensures Fine(Do(s, a)) && L.Reaches([L.Heartbeat], more, Seen(Do(s, a)))
  {
    more := StepSeen(s, a);
    StepKeeps(s, a);
    ReachesOn([L.Heartbeat], steps, Seen(s), more, Seen(Do(s, a)));
    more := steps + more;
  }

  /**
   The pump, the queue, the getter and the timed wait refine the heartbeat stage: whatever they do, in whatever
   order, and however upstream ends, what their neighbours see is a run of the stack with one such stage.
   */
  lemma {:induction false} HeartbeatIsAStage(actions: seq<Action>, n: nat) returns (steps: seq<L.Action>)
    requires n <= |actions| && Run(actions, n).Some?
    ensures Fine(Run(actions, n).value)
    ensures L.Reaches([L.Heartbeat], steps, Seen(Run(actions, n).value))
  {
    if n == 0 {
      StartsAlike();
      steps := [];
    } else {
      steps := HeartbeatIsAStage(actions, n - 1);
      LastStep(actions, n - 1, Run(actions, n - 1).value);
      steps := OneMoreSeen(steps, Run(actions, n - 1).value, actions[n - 1]);
    }
  }

  // ---- The loop over the waits ----------------------------------------------------------------------------

  function OutcomeOf(x: Payload, text: Piece -> string): H.Wait {
    match x
    case Item(e) => H.Landed(text(e))
    case End => H.Ended
    case Error(e) => H.Failed(text(e))
  }

  /** What was told, as it goes over the wire. */
  function Sent(told: seq<Said>, text: Piece -> string): seq<H.Frame> {
    if told == [] then []
    else
      var before := Sent(told[..|told| - 1], text);
      match told[|told| - 1]
      case Beat => before + [H.Beat]
      case Upstream(Item(e)) => before + [H.Chunk(text(e))]
      case _ => before
  }

  lemma {:induction false} LeftOfPrefix(waits: seq<H.Wait>, more: seq<H.Wait>, n: nat)
    requires n <= |waits|
    ensures H.Left(waits + more, n) == H.Left(waits, n)
  {
    if n > 0 {
      LeftOfPrefix(waits, more, n - 1);
    }
  }

  lemma SentMore(told: seq<Said>, x: Said, waits: seq<H.Wait>, text: Piece -> string)
    requires H.Left(waits, |waits|) == Sent(told, text)
    ensures var wait := if x.Beat? then H.Expired else OutcomeOf(x.payload, text);
            H.Left(waits + [wait], |waits + [wait]|) == Sent(told + [x], text)
  {
    assert (told + [x])[..|told|] == told;
    var wait := if x.Beat? then H.Expired else OutcomeOf(x.payload, text);
    LeftOfPrefix(waits, [wait], |waits|);
  }

  /** What a stretch of the run adds to the outcomes of its waits. */
  function Outcome(s: State, a: Action, text: Piece -> string): seq<H.Wait>
    requires Enabled(s, a)
  {
    match a
    case Expire => [H.Expired]
    case Wake => [OutcomeOf(s.getter.payload, text)]
    case _ => []
  }

  ghost predicate NoneStops(waits: seq<H.Wait>) {
    forall k :: 0 <= k < |waits| ==> !H.Stops(waits[k])
  }

  /** None of them stops the loop, or only the last one. */
  ghost predicate StopsAtLast(waits: seq<H.Wait>) {
    waits != [] && H.Stops(waits[|waits| - 1]) && NoneStops(waits[..|waits| - 1])
  }

  /** The waits so far have sent what was told, and have stopped the loop exactly when the stage is over. */
  ghost predicate SentBy(s: State, waits: seq<H.Wait>, text: Piece -> string) {
    H.Left(waits, |waits|) == Sent(s.told, text) && if Over(s) then StopsAtLast(waits) else NoneStops(waits)
  }

  lemma StopsMore(waits: seq<H.Wait>, wait: H.Wait)
    requires NoneStops(waits)
    ensures if H.Stops(wait) then StopsAtLast(waits + [wait]) else NoneStops(waits + [wait])
  {
    assert (waits + [wait])[..|waits|] == waits;
  }

  lemma BeatSent(s: State, waits: seq<H.Wait>, text: Piece -> string)
    requires Enabled(s, Expire) && SentBy(s, waits, text)
    ensures SentBy(Do(s, Expire), waits + [H.Expired], text)
  {
    StopsMore(waits, H.Expired);
    SentMore(s.told, Beat, waits, text);
  }

  lemma OverByOutcome(s: State, text: Piece -> string)
    requires Enabled(s, Wake)
    ensures Over(Do(s, Wake)) == H.Stops(OutcomeOf(s.getter.payload, text))
    ensures Do(s, Wake).told == s.told + [Upstream(s.getter.payload)]
  {
  }

  lemma PayloadSent(s: State, waits: seq<H.Wait>, text: Piece -> string)
    requires Enabled(s, Wake) && SentBy(s, waits, text)
    ensures SentBy(Do(s, Wake), waits + [OutcomeOf(s.getter.payload, text)], text)
  {
    OverByOutcome(s, text);
    StopsMore(waits, OutcomeOf(s.getter.payload, text));
    SentMore(s.told, Upstream(s.getter.payload), waits, text);
  }

  lemma OneMoreSent(s: State, a: Action, waits: seq<H.Wait>, text: Piece -> string)
    requires Enabled(s, a) && SentBy(s, waits, text)
    ensures SentBy(Do(s, a), waits + Outcome(s, a, text), text)
  {
    if a.Expire? {
      BeatSent(s, waits, text);
    } else if a.Wake? {
      PayloadSent(s, waits, text);
    } else {
      assert Do(s, a).told == s.told && Over(Do(s, a)) == Over(s);
      assert waits + [] == waits;
    }
  }

  /** How the waits of a run came out, in order. */
  function Outcomes(actions: seq<Action>, n: nat, text: Piece -> string): seq<H.Wait>
    requires n <= |actions| && Run(actions, n).Some?
  {
    if n == 0 then [] else Outcomes(actions, n - 1, text) + Outcome(Run(actions, n - 1).value, actions[n - 1], text)
  }

  /**
   On every schedule the stage has sent what the loop sends over the outcomes of its waits; and only the last
   outcome can stop the loop, which it does exactly when the stage is over.
   */
  lemma {:induction false} TheLoopSendsWhatIsTold(actions: seq<Action>, n: nat, text: Piece -> string)
    requires n <= |actions| && Run(actions, n).Some?
    ensures SentBy(Run(actions, n).value, Outcomes(actions, n, text), text)
  {
    if n > 0 {
      var s := Run(actions, n - 1).value;
      TheLoopSendsWhatIsTold(actions, n - 1, text);
      LastStep(actions, n - 1, s);
      OneMoreSent(s, actions[n - 1], Outcomes(actions, n - 1, text), text);
    }
  }
}
