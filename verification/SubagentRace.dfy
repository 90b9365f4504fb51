/**
 The stage that interleaves a delegation's progress with the stream it belongs to: a pump task in
 lockstep with its consumer, two queues, two getter tasks, and a generator that is suspended at every
 yield. Each label of `Action` is one uninterrupted stretch of one of them; a run is any sequence of
 labels that are enabled one after another, so what holds of every run holds of every schedule.
 */
module SubagentRace {
  import opened Messages

  /** What an event says plays no part here: a number names it. */
  type Event = nat

  /** What the pump puts on its queue. */
  datatype Payload = Item(event: Event) | End | Error(error: Event)

  /** One thing that happened, or one thing the consumer of the stage was told. */
  datatype Said = Announced(event: Event) | Upstream(payload: Payload)

  datatype Pump = Asking | Putting(payload: Payload) | Joining | Finished

  /** A task waiting on a queue: not there, waiting, or done with its result not yet taken. */
  datatype Getter<T> = Absent | Pending | Settled(value: T)

  /** Where the generator is: at a yield, at its wait, or over. */
  datatype Consumer = Unstarted | AtDrained | AtProgress | AtItem | Waiting | Returned | Raised(error: Event)

  datatype State = State(
    pump: Pump,
    events: seq<Payload>,
    unfinished: nat,
    progress: seq<Event>,
    nextEvent: Getter<Payload>,
    nextProgress: Getter<Event>,
    ended: bool,
    consumer: Consumer,
    trace: seq<Said>,
    told: seq<Said>)

  const CAPACITY: nat := 1

  const INITIAL := State(Asking, [], 0, [], Absent, Absent, false, Unstarted, [], [])

  datatype Action =
    | Announce(event: Event)
    | AnnounceFromOutside(event: Event)
    | Produce(payload: Payload)
    | Put
    | Rejoin
    | GetEvent
    | GetProgress
    | Wake
    | Resume

  /** The top of the loop: drain, then the end check, then the wait. */
  function Top(s: State): State {
    if s.progress != [] then
      s.(progress := s.progress[1..], told := s.told + [Announced(s.progress[0])], consumer := AtDrained)
    else if s.ended then
      s.(told := s.told + [Upstream(End)], consumer := Returned)
    else
      s.(nextEvent := if s.nextEvent.Absent? then Pending else s.nextEvent,
         nextProgress := if s.nextProgress.Absent? then Pending else s.nextProgress,
         consumer := Waiting)
  }

  /** After the wait: progress wins a tie, and the event's task keeps its result. */
  function AfterWait(s: State): State
    requires s.nextProgress.Settled? || s.nextEvent.Settled?
  {
    if s.nextProgress.Settled? then
      s.(told := s.told + [Announced(s.nextProgress.value)], consumer := AtProgress)
    else
      var taken := s.(nextEvent := Absent);
      match s.nextEvent.value
      case End => Top(taken.(ended := true))
      case Error(e) => taken.(told := s.told + [Upstream(Error(e))], consumer := Raised(e))
      case Item(e) => taken.(told := s.told + [Upstream(Item(e))], consumer := AtItem)
  }

  /** After a yield: the event is accounted for only once its consumer came back. */
  function AfterYield(s: State): State
    requires s.consumer.Unstarted? || s.consumer.AtDrained? || s.consumer.AtProgress?
             || (s.consumer.AtItem? && s.unfinished > 0)
  {
    match s.consumer
    case AtProgress => Top(s.(nextProgress := Absent))
    case AtItem => Top(s.(unfinished := s.unfinished - 1))
    case _ => Top(s)
  }

  /**
   When a label may happen. `Announce` is what the tools of the run do, and they run only while the
   pump is inside upstream; `AnnounceFromOutside` is an announcement by any other task. `Wake` waits
   until every getter whose queue is not empty has settled.
   */
  predicate Enabled(s: State, a: Action) {
    match a
    case Announce(_) => s.pump.Asking? && !s.consumer.Unstarted?
    case AnnounceFromOutside(_) => !s.consumer.Unstarted?
    case Produce(_) => s.pump.Asking? && !s.consumer.Unstarted?
    case Put => s.pump.Putting? && |s.events| < CAPACITY
    case Rejoin => s.pump.Joining? && s.unfinished == 0
    case GetEvent => s.nextEvent.Pending? && s.events != []
    case GetProgress => s.nextProgress.Pending? && s.progress != []
    case Wake =>
      && s.consumer.Waiting?
      && (s.nextEvent.Settled? || s.nextProgress.Settled?)
      && (s.nextEvent.Pending? ==> s.events == [])
      && (s.nextProgress.Pending? ==> s.progress == [])
    case Resume =>
      || s.consumer.Unstarted? || s.consumer.AtDrained? || s.consumer.AtProgress?
      || (s.consumer.AtItem? && s.unfinished > 0)
  }

  function Do(s: State, a: Action): State
    requires Enabled(s, a)
  {
    match a
    case Announce(e) => s.(progress := s.progress + [e], trace := s.trace + [Announced(e)])
    case AnnounceFromOutside(e) => s.(progress := s.progress + [e], trace := s.trace + [Announced(e)])
    case Produce(x) => s.(pump := Putting(x), trace := s.trace + [Upstream(x)])
    case Put =>
      s.(events := s.events + [s.pump.payload], unfinished := s.unfinished + 1,
         pump := if s.pump.payload.Item? then Joining else Finished)
    case Rejoin => s.(pump := Asking)
    case GetEvent => s.(nextEvent := Settled(s.events[0]), events := s.events[1..])
    case GetProgress => s.(nextProgress := Settled(s.progress[0]), progress := s.progress[1..])
    case Wake => AfterWait(s)
    case Resume => AfterYield(s)
  }

  /** The state the first `n` labels lead to, when each is enabled in turn. */
  function Run(actions: seq<Action>, n: nat): Option<State>
    requires n <= |actions|
  {
    if n == 0 then Some(INITIAL)
    else
      match Run(actions, n - 1)
      case None => None
      case Some(s) => if Enabled(s, actions[n - 1]) then Some(Do(s, actions[n - 1])) else None
  }

  /** Announcements come only from inside upstream. */
  predicate FromInside(actions: seq<Action>) {
    forall k :: 0 <= k < |actions| ==> !actions[k].AnnounceFromOutside?
  }

  // ---- What every step keeps ------------------------------------------------------------------

  function Announcements(progress: seq<Event>): seq<Said> {
    seq(|progress|, k requires 0 <= k < |progress| => Announced(progress[k]))
  }

  /** The progress a getter holds that was not yet passed on. */
  function Held(s: State): seq<Event> {
    if s.nextProgress.Settled? && !s.consumer.AtProgress? then [s.nextProgress.value] else []
  }

  /** What came from upstream and was not yet passed on, wherever it is. */
  function Carried(s: State): seq<Payload> {
    (if s.nextEvent.Settled? then [s.nextEvent.value] else [])
    + s.events
    + if s.pump.Putting? then [s.pump.payload] else []
  }

  function Carrying(payloads: seq<Payload>): seq<Said> {
    seq(|payloads|, k requires 0 <= k < |payloads| => Upstream(payloads[k]))
  }

  /** Everything that happened and was not yet told, in the order it happened. */
  function InFlight(s: State): seq<Said> {
    Announcements(Held(s) + s.progress) + Carrying(Carried(s))
  }

  /** How many items upstream produced that its consumer has not come back from. */
  function Outstanding(s: State): nat {
    |Carried(s)| + if s.consumer.AtItem? then 1 else 0
  }

  ghost predicate PumpAgrees(s: State) {
    match s.pump
    case Asking => Outstanding(s) == 0 && s.unfinished == 0
    case Putting(_) => Outstanding(s) == 1 && s.unfinished == 0
    case Joining => Outstanding(s) == s.unfinished <= 1 && (forall k :: 0 <= k < |Carried(s)| ==> Carried(s)[k].Item?)
    case Finished =>
      && !s.consumer.AtItem?
      && (if s.ended || s.consumer.Raised? then Carried(s) == [] else |Carried(s)| == 1 && !Carried(s)[0].Item?)
  }

  ghost predicate ConsumerAgrees(s: State) {
    match s.consumer
    case Unstarted => s == INITIAL
    case AtDrained => s.nextProgress.Absent?
    case AtProgress => s.nextProgress.Settled?
    case AtItem =>
      s.nextProgress.Pending? && s.progress == [] && s.pump.Joining? && s.unfinished == 1 && s.nextEvent.Absent?
    case Waiting => !s.nextEvent.Absent? && !s.nextProgress.Absent?
    case Returned => !s.nextProgress.Settled? && s.progress == [] && s.pump.Finished?
    case Raised(_) => !s.nextProgress.Settled? && s.progress == [] && s.pump.Finished?
  }

  ghost predicate Inv(s: State) {
    && s.trace == s.told + InFlight(s)
    && PumpAgrees(s)
    && ConsumerAgrees(s)
    && (s.ended <==> s.consumer.Returned?)
  }

  lemma InitiallySo()
    ensures Inv(INITIAL)
  {
  }

  lemma AnnounceKeeps(s: State, e: Event)
    requires Inv(s) && Enabled(s, Announce(e))
    ensures Inv(Do(s, Announce(e)))
  {
    var s' := Do(s, Announce(e));
    assert Carried(s) == [];
    assert InFlight(s') == InFlight(s) + [Announced(e)];
  }

  lemma PumpKeeps(s: State, a: Action)
    requires Inv(s) && Enabled(s, a) && (a.Produce? || a.Put? || a.Rejoin?)
    ensures Inv(Do(s, a))
  {
    var s' := Do(s, a);
    match a {
      case Produce(x) =>
        assert Carried(s) == [] && Carried(s') == [x];
        assert InFlight(s') == InFlight(s) + [Upstream(x)];
      case Put =>
        assert Carried(s') == Carried(s);
      case Rejoin =>
        assert Carried(s') == Carried(s);
    }
  }

  lemma GetterKeeps(s: State, a: Action)
    requires Inv(s) && Enabled(s, a) && (a.GetEvent? || a.GetProgress?)
    ensures Inv(Do(s, a))
  {
    var s' := Do(s, a);
    assert Carried(s') == Carried(s);
    assert Held(s') + s'.progress == Held(s) + s.progress;
  }

  /** What holds between leaving one suspension point and reaching the next. */
  ghost predicate Between(s: State) {
    && s.trace == s.told + InFlight(s) + (if s.ended then [Upstream(End)] else [])
    && PumpAgrees(s)
    && s.consumer.AtDrained?
    && (s.progress != [] ==> s.nextProgress.Absent?)
    && (s.ended ==> s.pump.Finished? && s.progress == [] && !s.nextProgress.Settled?)
  }

  lemma DrainKeeps(s: State)
    requires Between(s) && s.progress != []
    ensures Inv(Top(s))
  {
    assert Carried(Top(s)) == Carried(s);
    assert Held(s) + s.progress == [s.progress[0]] + (Held(Top(s)) + Top(s).progress);
    assert InFlight(s) == [Announced(s.progress[0])] + InFlight(Top(s));
  }

  lemma EndKeeps(s: State)
    requires Between(s) && s.progress == [] && s.ended
    ensures Inv(Top(s))
  {
    assert Carried(s) == [] && Carried(Top(s)) == [];
    assert InFlight(s) == [] && InFlight(Top(s)) == [];
  }

  lemma WaitKeeps(s: State)
    requires Between(s) && s.progress == [] && !s.ended
    ensures Inv(Top(s))
  {
    assert Carried(Top(s)) == Carried(s);
    assert Held(Top(s)) == Held(s);
  }

  /** The top of the loop keeps what the consumer was told a prefix of what happened. */
  lemma TopKeeps(s: State)
    requires Between(s)
    ensures Inv(Top(s))
  {
    if s.progress != [] {
      DrainKeeps(s);
    } else if s.ended {
      EndKeeps(s);
    } else {
      WaitKeeps(s);
    }
  }

  lemma ProgressWinsKeeps(s: State)
    requires Inv(s) && Enabled(s, Wake) && s.nextProgress.Settled?
    ensures Inv(AfterWait(s))
  {
    var s' := AfterWait(s);
    assert Carried(s') == Carried(s);
    assert Held(s) + s.progress == [s.nextProgress.value] + (Held(s') + s'.progress);
    assert InFlight(s) == [Announced(s.nextProgress.value)] + InFlight(s');
  }

  lemma EventKeeps(s: State)
    requires Inv(s) && Enabled(s, Wake) && !s.nextProgress.Settled?
    ensures Inv(AfterWait(s))
  {
    var taken := s.(nextEvent := Absent, consumer := AtDrained);
    assert Carried(s) == [s.nextEvent.value] && Carried(taken) == [];
    assert InFlight(s) == [Upstream(s.nextEvent.value)] && InFlight(taken) == [];
    assert Carried(s)[0] == s.nextEvent.value;
    if s.nextEvent.value.End? {
      var over := taken.(ended := true);
      assert InFlight(over) == [];
      TopKeeps(over);
    } else {
      assert InFlight(AfterWait(s)) == [];
    }
  }

  lemma ResumeKeeps(s: State)
    requires Inv(s) && Enabled(s, Resume)
    ensures Inv(Do(s, Resume))
  {
    match s.consumer {
      case AtProgress =>
        var back := s.(nextProgress := Absent, consumer := AtDrained);
        assert InFlight(back) == InFlight(s);
        TopKeeps(back);
      case AtItem =>
        var back := s.(unfinished := s.unfinished - 1, consumer := AtDrained);
        assert InFlight(back) == InFlight(s);
        TopKeeps(back);
      case Unstarted =>
        var started := s.(consumer := AtDrained);
        assert InFlight(started) == InFlight(s);
        TopKeeps(started);
      case _ =>
        TopKeeps(s);
    }
  }

  lemma StepKeeps(s: State, a: Action)
    requires Inv(s) && Enabled(s, a) && !a.AnnounceFromOutside?
    ensures Inv(Do(s, a))
  {
    match a {
      case Announce(e) => AnnounceKeeps(s, e);
      case Produce(_) => PumpKeeps(s, a);
      case Put => PumpKeeps(s, a);
      case Rejoin => PumpKeeps(s, a);
      case GetEvent => GetterKeeps(s, a);
      case GetProgress => GetterKeeps(s, a);
      case Wake =>
        if s.nextProgress.Settled? {
          ProgressWinsKeeps(s);
        } else {
          EventKeeps(s);
        }
      case Resume => ResumeKeeps(s);
      case AnnounceFromOutside(_) =>
    }
  }

  lemma OneMoreStep(actions: seq<Action>, n: nat, s: State)
    requires n < |actions| && Run(actions, n + 1).Some? && Run(actions, n) == Some(s)
    ensures Enabled(s, actions[n]) && Run(actions, n + 1) == Some(Do(s, actions[n]))
  {
  }

  lemma {:induction false} EveryRunKeeps(actions: seq<Action>, n: nat)
    requires n <= |actions| && Run(actions, n).Some? && FromInside(actions)
    ensures Inv(Run(actions, n).value)
  {
    if n == 0 {
      InitiallySo();
    } else {
      var s := Run(actions, n - 1).value;
      EveryRunKeeps(actions, n - 1);
      OneMoreStep(actions, n - 1, s);
      StepKeeps(s, actions[n - 1]);
    }
  }

  // ---- What it promises --------------------------------------------------------------------------

  /**
   On every schedule, what the stage passed on is a prefix of what happened, in the order it happened:
   each announcement once, after the event before it and before the event it was announced during; and
   when the stage is over, by its end or by raising, everything that happened was passed on.
   */
  lemma ProgressIsToldInOrder(actions: seq<Action>)
    requires Run(actions, |actions|).Some? && FromInside(actions)
    ensures var s := Run(actions, |actions|).value;
            && s.told <= s.trace
            && s.trace[|s.told|..] == InFlight(s)
            && (s.consumer.Returned? || s.consumer.Raised? ==> s.told == s.trace)
  {
    EveryRunKeeps(actions, |actions|);
    FinallyEmpty(Run(actions, |actions|).value);
  }

  lemma FinallyEmpty(s: State)
    requires Inv(s)
    ensures s.consumer.Returned? || s.consumer.Raised? ==> InFlight(s) == []
    ensures s.pump.Asking? ==> Carried(s) == []
  {
  }

  /** Upstream is asked for more only once the consumer came back from every item so far. */
  lemma UpstreamIsInLockstep(actions: seq<Action>)
    requires Run(actions, |actions|).Some? && FromInside(actions)
    ensures var s := Run(actions, |actions|).value;
            s.pump.Asking? ==>
              && !s.consumer.AtItem?
              && forall k :: |s.told| <= k < |s.trace| ==> s.trace[k].Announced?
  {
    ProgressIsToldInOrder(actions);
    EveryRunKeeps(actions, |actions|);
    var s := Run(actions, |actions|).value;
    FinallyEmpty(s);
    if s.pump.Asking? {
      forall k | |s.told| <= k < |s.trace| ensures s.trace[k].Announced? {
        assert s.trace[k] == s.trace[|s.told|..][k - |s.told|];
      }
    }
  }

  lemma PumpFindsRoom(s: State)
    requires Inv(s) && s.pump.Putting?
    ensures Enabled(s, Put)
  {
  }

  lemma WaitingIsForSomething(s: State)
    requires Inv(s) && s.consumer.Waiting? && !s.pump.Asking?
    ensures Enabled(s, Put) || Enabled(s, Rejoin) || Enabled(s, GetEvent) || Enabled(s, GetProgress) || Enabled(s, Wake)
  {
    if s.pump.Putting? {
      PumpFindsRoom(s);
    }
  }

  /** The pump never finds its queue full, and the stage never waits for nothing. */
  lemma NeverStuck(actions: seq<Action>)
    requires Run(actions, |actions|).Some? && FromInside(actions)
    ensures var s := Run(actions, |actions|).value;
            && (s.pump.Putting? ==> Enabled(s, Put))
            && (s.consumer.Waiting? ==>
                  s.pump.Asking? || Enabled(s, Put) || Enabled(s, Rejoin) || Enabled(s, GetEvent)
                      || Enabled(s, GetProgress) || Enabled(s, Wake))
  {
    EveryRunKeeps(actions, |actions|);
    var s := Run(actions, |actions|).value;
    if s.pump.Putting? {
      PumpFindsRoom(s);
    }
    if s.consumer.Waiting? && !s.pump.Asking? {
      WaitingIsForSomething(s);
    }
  }

  /** A schedule on which two announcements from outside meet a stage suspended at an event. */
  const OVERTAKEN := [Resume, Produce(Item(0)), Put, GetEvent, Wake, AnnounceFromOutside(1), GetProgress,
      AnnounceFromOutside(2), Resume]

  /** Suspended at an event, with a getter still waiting for progress. */
  const SUSPENDED := State(Joining, [], 1, [], Absent, Pending, false, AtItem, [Upstream(Item(0))], [Upstream(Item(0))])

  lemma OneMore(actions: seq<Action>, n: nat, s: State)
    requires n < |actions| && Run(actions, n) == Some(s) && Enabled(s, actions[n])
    ensures Run(actions, n + 1) == Some(Do(s, actions[n]))
  {
  }

  lemma ReachesSuspended()
    ensures Run(OVERTAKEN, 5) == Some(SUSPENDED)
  {
    OneMore(OVERTAKEN, 0, INITIAL);
    var s1 := Do(INITIAL, Resume);
    OneMore(OVERTAKEN, 1, s1);
    var s2 := Do(s1, Produce(Item(0)));
    OneMore(OVERTAKEN, 2, s2);
    var s3 := Do(s2, Put);
    OneMore(OVERTAKEN, 3, s3);
    var s4 := Do(s3, GetEvent);
    OneMore(OVERTAKEN, 4, s4);
    var s5 := Do(s4, Wake);
    assert s5.trace == SUSPENDED.trace && s5.told == SUSPENDED.told && s5.events == SUSPENDED.events;
  }

  /**
   An announcement from any other task, while the stage is suspended at an event, is not safe: the
   getter left waiting takes the first of two, and the drain passes the second on before it.
   */
  lemma OutsideAnnouncementsOvertake()
    ensures Run(OVERTAKEN, 9).Some?
    ensures var s := Run(OVERTAKEN, 9).value;
            s.trace == [Upstream(Item(0)), Announced(1), Announced(2)] && s.told == [Upstream(Item(0)), Announced(2)]
  {
    ReachesSuspended();
    OneMore(OVERTAKEN, 5, SUSPENDED);
    var s6 := Do(SUSPENDED, AnnounceFromOutside(1));
    OneMore(OVERTAKEN, 6, s6);
    var s7 := Do(s6, GetProgress);
    OneMore(OVERTAKEN, 7, s7);
    var s8 := Do(s7, AnnounceFromOutside(2));
    OneMore(OVERTAKEN, 8, s8);
    assert s8.progress == [2];
  }
}
