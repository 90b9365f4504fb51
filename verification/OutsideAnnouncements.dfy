/**
 Announcements by tasks that are not the run's own, any number of them: when they are safe. One is, whatever happens
 afterwards, exactly as long as nothing from upstream is on its way or being held by the consumer; and a run on which
 all of them are made then tells everything in order.
 */
module OutsideAnnouncements {
  import opened Messages
  import opened SubagentRace

  /** The state more labels lead to from `s`, when each is enabled in turn. */
  function After(s: State, more: seq<Action>): Option<State>
    decreases |more|
  {
    if more == [] then Some(s)
    else if Enabled(s, more[0]) then After(Do(s, more[0]), more[1..])
    else None
  }

  lemma {:induction false} SamePrefix(actions: seq<Action>, more: seq<Action>, n: nat)
    requires n <= |actions|
    ensures Run(actions + more, n) == Run(actions, n)
  {
    if n > 0 {
      SamePrefix(actions, more, n - 1);
    }
  }

  lemma {:induction false} StaysRefused(actions: seq<Action>, n: nat, m: nat)
    requires n <= m <= |actions| && Run(actions, n).None?
    ensures Run(actions, m).None?
  {
    if n < m {
      StaysRefused(actions, n, m - 1);
    }
  }

  lemma OneMoreOf(actions: seq<Action>, n: nat, s: State)
    requires n < |actions| && Run(actions, n) == Some(s)
    ensures Run(actions, n + 1) == if Enabled(s, actions[n]) then Some(Do(s, actions[n])) else None
  {
  }

  lemma OneMoreRun(actions: seq<Action>, a: Action, s: State)
    requires Run(actions, |actions|) == Some(s)
    ensures Run(actions + [a], |actions + [a]|) == if Enabled(s, a) then Some(Do(s, a)) else None
  {
    var longer := actions + [a];
    assert |longer| == |actions| + 1 && longer[|actions|] == a;
    SamePrefix(actions, [a], |actions|);
    OneMoreOf(longer, |actions|, s);
  }

  /** Running on from where a run has come is running the two one after another. */
  lemma {:induction false} RunsOn(actions: seq<Action>, more: seq<Action>, s: State)
    requires Run(actions, |actions|) == Some(s)
    ensures Run(actions + more, |actions + more|) == After(s, more)
    decreases |more|
  {
    if more == [] {
      assert actions + more == actions;
    } else {
      OneMoreRun(actions, more[0], s);
      assert actions + more == actions + [more[0]] + more[1..];
      if Enabled(s, more[0]) {
        RunsOn(actions + [more[0]], more[1..], Do(s, more[0]));
      } else {
        SamePrefix(actions + [more[0]], more[1..], |actions| + 1);
        StaysRefused(actions + more, |actions| + 1, |actions + more|);
      }
    }
  }

  /** What the consumer was told is a prefix of what happened. */
  ghost predicate Ordered(s: State) {
    s.told <= s.trace
  }

  /**
   Every announcement from outside is made while upstream has produced nothing the consumer has not come back from.
   */
  ghost predicate Careful(s: State, more: seq<Action>)
    decreases |more|
  {
    more != [] && Enabled(s, more[0]) ==>
      (more[0].AnnounceFromOutside? ==> Outstanding(s) == 0) && Careful(Do(s, more[0]), more[1..])
  }

  lemma {:induction false} InsideIsCareful(s: State, more: seq<Action>)
    requires FromInside(more)
    ensures Careful(s, more)
    decreases |more|
  {
    if more != [] && Enabled(s, more[0]) {
      InsideIsCareful(Do(s, more[0]), more[1..]);
    }
  }

  /** It stays so whatever the run goes on to do, and whoever else announces carefully. */
  ghost predicate StaysOrdered(s: State) {
    forall more: seq<Action> :: Careful(s, more) ==> OrderedAfter(s, more)
  }

  ghost predicate OrderedAfter(s: State, more: seq<Action>) {
    After(s, more).Some? ==> Ordered(After(s, more).value)
  }

  // ---- Between two items it is safe -----------------------------------------------------------------------

  predicate Over(s: State) {
    s.consumer.Returned? || s.consumer.Raised?
  }

  /** The stage is over: nothing more is told, and nothing more comes from upstream. */
  ghost predicate Closed(s: State) {
    Over(s) && s.pump.Finished? && Carried(s) == [] && Ordered(s)
  }

  /** What a careful run keeps: what every run from inside keeps, until the stage is over. */
  ghost predicate Kept(s: State) {
    Inv(s) || Closed(s)
  }

  lemma KeptIsOrdered(s: State)
    requires Kept(s)
    ensures Ordered(s)
    ensures Over(s) ==> Closed(s)
  {
  }

  lemma AnnouncedBetweenKeeps(s: State, e: Event)
    requires Inv(s) && Enabled(s, AnnounceFromOutside(e)) && Outstanding(s) == 0 && !Over(s)
    ensures Inv(Do(s, AnnounceFromOutside(e)))
  {
    assert Carried(s) == [];
    assert InFlight(Do(s, AnnounceFromOutside(e))) == InFlight(s) + [Announced(e)];
  }

  lemma ClosedStaysClosed(s: State, a: Action)
    requires Closed(s) && Enabled(s, a)
    ensures Closed(Do(s, a))
  {
  }

  lemma CarefulStepKeeps(s: State, a: Action)
    requires Kept(s) && Enabled(s, a) && (a.AnnounceFromOutside? ==> Outstanding(s) == 0)
    ensures Kept(Do(s, a))
  {
    if Over(s) {
      KeptIsOrdered(s);
      ClosedStaysClosed(s, a);
    } else if a.AnnounceFromOutside? {
      AnnouncedBetweenKeeps(s, a.event);
    } else {
      StepKeeps(s, a);
    }
  }

  lemma {:induction false} CarefulKeeps(s: State, more: seq<Action>)
    requires Kept(s) && Careful(s, more) && After(s, more).Some?
    ensures Kept(After(s, more).value)
    decreases |more|
  {
    if more != [] {
      CarefulStepKeeps(s, more[0]);
      CarefulKeeps(Do(s, more[0]), more[1..]);
    }
  }

  lemma SafeBetweenItems(s: State, e: Event)
    requires Kept(s) && Enabled(s, AnnounceFromOutside(e)) && Outstanding(s) == 0
    ensures StaysOrdered(Do(s, AnnounceFromOutside(e)))
  {
    var s' := Do(s, AnnounceFromOutside(e));
    CarefulStepKeeps(s, AnnounceFromOutside(e));
    forall more: seq<Action> | Careful(s', more) && After(s', more).Some? ensures OrderedAfter(s', more) {
      CarefulKeeps(s', more);
      KeptIsOrdered(After(s', more).value);
    }
  }

  // ---- While an item is held ------------------------------------------------------------------------------

  /** A step, and then the rest of the way. */
  lemma FirstThen(s: State, a: Action, more: seq<Action>)
    requires Enabled(s, a)
    ensures After(s, [a] + more) == After(Do(s, a), more)
    ensures FromInside(more) && !a.AnnounceFromOutside? ==> FromInside([a] + more)
  {
    assert ([a] + more)[1..] == more;
  }

  /** What the run may do next to undo the order: the getter that was left waiting takes the first of two. */
  const RACING := [Announce(0)] + ([GetProgress] + ([Announce(1)] + ([Resume] + [])))

  const UNDOING := [Resume] + ([Rejoin] + RACING)

  /** The drain passes the outside announcement on and leaves the getter waiting while upstream is asked again. */
  lemma LeftWaiting(s: State, e: Event) returns (t: State)
    requires Inv(s) && s.consumer.AtItem?
    ensures After(Do(s, AnnounceFromOutside(e)), UNDOING) == After(t, RACING)
    ensures t.pump.Asking? && t.nextProgress.Pending? && t.progress == [] && t.consumer.AtDrained? && t.told == t.trace
  {
    assert Carried(s) == [] && Held(s) + s.progress == [] && InFlight(s) == [];
    var s0 := Do(s, AnnounceFromOutside(e));
    FirstThen(s0, Resume, [Rejoin] + RACING);
    FirstThen(Do(s0, Resume), Rejoin, RACING);
    t := Do(Do(s0, Resume), Rejoin);
  }

  lemma TheSecondOvertakes(t: State)
    requires t.pump.Asking? && t.nextProgress.Pending? && t.progress == [] && t.consumer.AtDrained? && t.told == t.trace
    ensures After(t, RACING).Some? && !Ordered(After(t, RACING).value)
  {
    var t1 := Do(t, Announce(0));
    FirstThen(t, Announce(0), [GetProgress] + ([Announce(1)] + ([Resume] + [])));
    var t2 := Do(t1, GetProgress);
    FirstThen(t1, GetProgress, [Announce(1)] + ([Resume] + []));
    var t3 := Do(t2, Announce(1));
    FirstThen(t2, Announce(1), [Resume] + []);
    FirstThen(t3, Resume, []);
    var t4 := Do(t3, Resume);
    assert t4.told[|t.told|] == Announced(1) && t4.trace[|t.told|] == Announced(0);
  }

  lemma UndoneAtAnItem(s: State, e: Event)
    requires Inv(s) && s.consumer.AtItem?
    ensures FromInside(UNDOING) && !OrderedAfter(Do(s, AnnounceFromOutside(e)), UNDOING)
  {
    var t := LeftWaiting(s, e);
    TheSecondOvertakes(t);
  }

  // ---- While one is on its way ----------------------------------------------------------------------------

  /** A yield from which the generator drains the progress queue before it looks at anything else. */
  predicate Draining(s: State) {
    (s.consumer.AtDrained? && s.nextProgress.Absent?) || s.consumer.AtProgress?
  }

  lemma AnnouncementsOf(first: Event, rest: seq<Event>)
    ensures Announcements([first] + rest) == [Announced(first)] + Announcements(rest)
  {
  }

  lemma DrainsOne(s: State) returns (s': State)
    requires Draining(s) && s.progress != []
    ensures Enabled(s, Resume) && s' == Do(s, Resume) && Draining(s') && s'.trace == s.trace
            && |s'.progress| < |s.progress|
    ensures s.told + Announcements(s.progress) == s'.told + Announcements(s'.progress)
  {
    s' := Do(s, Resume);
    AnnouncementsOf(s.progress[0], s.progress[1..]);
    assert s.progress == [s.progress[0]] + s.progress[1..];
  }

  /** A way on that tells all the progress queued and nothing else. */
  lemma {:induction false} DrainsAll(s: State) returns (more: seq<Action>, t: State)
    requires Draining(s)
    ensures FromInside(more) && After(s, more) == Some(t)
    ensures t.told == s.told + Announcements(s.progress) && t.trace == s.trace
    decreases |s.progress|
  {
    if s.progress == [] {
      more, t := [], s;
    } else {
      var s' := DrainsOne(s);
      more, t := DrainsAll(s');
      FirstThen(s, Resume, more);
      more := [Resume] + more;
    }
  }

  lemma WakeTellsOne(s: State) returns (s': State)
    requires Enabled(s, Wake) && s.nextProgress.Settled?
    ensures s' == Do(s, Wake) && s'.consumer.AtProgress? && s'.trace == s.trace
    ensures s.told + Announcements(Held(s) + s.progress) == s'.told + Announcements(s'.progress)
  {
    s' := Do(s, Wake);
    AnnouncementsOf(s.nextProgress.value, s.progress);
  }

  /** A waiting stage whose progress getter has settled tells that first, and drains the rest. */
  lemma TellsWhatSettled(s: State) returns (more: seq<Action>, t: State)
    requires Enabled(s, Wake) && s.nextProgress.Settled?
    ensures FromInside(more) && After(s, more) == Some(t)
    ensures t.told == s.told + Announcements(Held(s) + s.progress) && t.trace == s.trace
  {
    var s' := WakeTellsOne(s);
    more, t := DrainsAll(s');
    FirstThen(s, Wake, more);
    more := [Wake] + more;
  }

  /** Once its getters have had their turn. */
  lemma TellsProgressFirst(s: State) returns (more: seq<Action>, t: State)
    requires s.consumer.Waiting? && (s.nextProgress.Settled? || (s.nextProgress.Pending? && s.progress != []))
    ensures FromInside(more) && After(s, more) == Some(t)
    ensures t.told == s.told + Announcements(Held(s) + s.progress) && t.trace == s.trace
    decreases s.nextEvent.Pending?, s.nextProgress.Pending?
  {
    if s.nextProgress.Pending? {
      assert Held(Do(s, GetProgress)) + Do(s, GetProgress).progress == Held(s) + s.progress;
      more, t := TellsProgressFirst(Do(s, GetProgress));
      FirstThen(s, GetProgress, more);
      more := [GetProgress] + more;
    } else if s.nextEvent.Pending? && s.events != [] {
      more, t := TellsProgressFirst(Do(s, GetEvent));
      FirstThen(s, GetEvent, more);
      more := [GetEvent] + more;
    } else {
      more, t := TellsWhatSettled(s);
    }
  }

  lemma OnTheWay(s: State)
    requires Inv(s) && Carried(s) != []
    ensures s.consumer.AtDrained? || s.consumer.AtProgress? || s.consumer.Waiting?
    ensures !s.consumer.Waiting? ==> Draining(s) && Held(s) == []
    ensures s.consumer.Waiting? ==> !s.nextProgress.Absent?
  {
  }

  lemma Overtaken(before: seq<Said>, queued: seq<Event>, carried: seq<Payload>, e: Event)
    requires carried != []
    ensures !(before + Announcements(queued + [e]) <= before + (Announcements(queued) + Carrying(carried))
            + [Announced(e)])
  {
    var told, trace := before + Announcements(queued + [e]), before + (Announcements(queued) + Carrying(carried))
        + [Announced(e)];
    var k := |before| + |queued|;
    assert told[k] == Announced(e) && trace[k] == Upstream(carried[0]);
  }

  lemma UndoneOnTheWay(s: State, e: Event) returns (more: seq<Action>)
    requires Inv(s) && Enabled(s, AnnounceFromOutside(e)) && Carried(s) != []
    ensures FromInside(more) && !OrderedAfter(Do(s, AnnounceFromOutside(e)), more)
  {
    var s' := Do(s, AnnounceFromOutside(e));
    var t: State;
    OnTheWay(s);
    if s.consumer.Waiting? {
      more, t := TellsProgressFirst(s');
    } else {
      more, t := DrainsAll(s');
    }
    assert Held(s') + s'.progress == (Held(s) + s.progress) + [e];
    Overtaken(s.told, Held(s) + s.progress, Carried(s), e);
  }

  // ---- Exactly ----------------------------------------------------------------------------------------------

  lemma Somewhere(s: State)
    requires Kept(s) && Outstanding(s) != 0
    ensures Inv(s) && (s.consumer.AtItem? || Carried(s) != [])
  {
  }

  lemma UnsafeWhileOutstanding(s: State, e: Event)
    requires Kept(s) && Enabled(s, AnnounceFromOutside(e)) && Outstanding(s) != 0
    ensures !StaysOrdered(Do(s, AnnounceFromOutside(e)))
  {
    var s' := Do(s, AnnounceFromOutside(e));
    Somewhere(s);
    if s.consumer.AtItem? {
      UndoneAtAnItem(s, e);
      InsideIsCareful(s', UNDOING);
    } else {
      var more := UndoneOnTheWay(s, e);
      InsideIsCareful(s', more);
    }
  }

  lemma SafeExactlyThere(s: State, e: Event)
    requires Kept(s) && Enabled(s, AnnounceFromOutside(e))
    ensures StaysOrdered(Do(s, AnnounceFromOutside(e))) <==> Outstanding(s) == 0
  {
    if Outstanding(s) == 0 {
      SafeBetweenItems(s, e);
    } else {
      UnsafeWhileOutstanding(s, e);
    }
  }

  /** Whatever its schedule, a run whose outside announcements were all careful keeps what such runs keep. */
  lemma CarefulRunKeeps(actions: seq<Action>)
    requires Run(actions, |actions|).Some? && Careful(INITIAL, actions)
    ensures Kept(Run(actions, |actions|).value)
  {
    RunsOn([], actions, INITIAL);
    assert [] + actions == actions;
    InitiallySo();
    CarefulKeeps(INITIAL, actions);
  }

  /** However many tasks announce from outside, as long as each is careful everything is told in order. */
  lemma CarefulRunsAreOrdered(actions: seq<Action>)
    requires Run(actions, |actions|).Some? && Careful(INITIAL, actions)
    ensures Ordered(Run(actions, |actions|).value)
  {
    CarefulRunKeeps(actions);
    KeptIsOrdered(Run(actions, |actions|).value);
  }

  /**
   After any run whose announcements from outside, if any, were careful, one more leaves the order intact, whatever
   the run goes on to do, if and only if upstream has produced nothing that the consumer has not come back from.
   */
  lemma SafeExactlyBetweenItems(actions: seq<Action>, e: Event)
    requires Run(actions, |actions|).Some? && Careful(INITIAL, actions)
    requires Enabled(Run(actions, |actions|).value, AnnounceFromOutside(e))
    ensures var s := Run(actions, |actions|).value;
            StaysOrdered(Do(s, AnnounceFromOutside(e))) <==> Outstanding(s) == 0
  {
    CarefulRunKeeps(actions);
    SafeExactlyThere(Run(actions, |actions|).value, e);
  }
}
