/**
 The reasoning and the activities a transcript holds beside its messages, against the event log: each in the
 order the log first named it, with what the log as a whole says was streamed for it.
 */
module TranscriptSideLog {
  import opened Messages
  import opened RunTranscript
  import opened TranscriptLog

  // ---- The log read as a whole --------------------------------------------------------------

  /** The reasoning, and the activity, an event is about. */
  function Reasons(e: Event): Option<Id> {
    match e
    case ReasoningStart(id) => Some(id)
    case ReasoningContent(id, _) => Some(id)
    case _ => None
  }

  function Shows(e: Event): Option<Id> {
    match e
    case ActivitySnapshot(id, _, _, _) => Some(id)
    case ActivityDelta(id, _) => Some(id)
    case _ => None
  }

  /** The ids the first `n` events are about, each where it was first named. */
  function Firsts(about: Event -> Option<Id>, events: seq<Event>, n: nat): seq<Id>
    requires n <= |events|
  {
    if n == 0 then []
    else
      var before := Firsts(about, events, n - 1);
      match about(events[n - 1])
      case None => before
      case Some(id) => if id in before then before else before + [id]
  }

  /** Everything reasoned under an id so far, run together. */
  function ThoughtSaid(events: seq<Event>, n: nat, id: Id): string
    requires n <= |events|
  {
    if n == 0 then ""
    else if events[n - 1].ReasoningContent? && events[n - 1].messageId == id
        then ThoughtSaid(events, n - 1, id) + events[n - 1].delta
    else ThoughtSaid(events, n - 1, id)
  }

  /** Whether event `i` settles what the activity it is about shows: all do but a snapshot that keeps what is there. */
  predicate Settles(events: seq<Event>, i: nat)
    requires i < |events|
  {
    match events[i]
    case ActivityDelta(_, _) => true
    case ActivitySnapshot(id, _, _, keep) => !keep || id !in Firsts(Shows, events, i)
    case _ => false
  }

  /** The last of the first `n` events that settled what an activity shows. */
  function SettledBy(events: seq<Event>, n: nat, id: Id): (i: Option<nat>)
    requires n <= |events|
    ensures i.Some? ==> i.value < n && Settles(events, i.value) && Shows(events[i.value]) == Some(id)
    ensures forall j :: (if i.Some? then i.value + 1 else 0) <= j < n && Shows(events[j]) == Some(id) ==>
            !Settles(events, j)
  {
    if n == 0 then None
    else if Shows(events[n - 1]) == Some(id) && Settles(events, n - 1) then Some(n - 1)
    else SettledBy(events, n - 1, id)
  }

  /** What an activity shows: nothing comparable after a delta. */
  function ContentShown(events: seq<Event>, n: nat, id: Id): Option<Fields>
    requires n <= |events|
  {
    match SettledBy(events, n, id)
    case Some(i) => if events[i].ActivitySnapshot? then Some(events[i].fields) else None
    case None => None
  }

  /** The type an activity was first shown with. */
  function TypeShown(events: seq<Event>, n: nat, id: Id): string
    requires n <= |events|
  {
    if n == 0 then ""
    else if id in Firsts(Shows, events, n - 1) then TypeShown(events, n - 1, id)
    else if Shows(events[n - 1]) == Some(id) then events[n - 1].activityType
    else ""
  }

  /** Each id has one place, and takes it with the first event about it. */
  lemma {:induction false} NamedInFirstOrder(about: Event -> Option<Id>, events: seq<Event>, n: nat, k: nat)
    returns (i: nat)
    requires n <= |events| && k < |Firsts(about, events, n)|
    ensures i < n && about(events[i]) == Some(Firsts(about, events, n)[k]) && |Firsts(about, events, i)| == k
    ensures Firsts(about, events, n)[k] !in Firsts(about, events, i)
    ensures forall k' :: 0 <= k' < |Firsts(about, events, n)| && k' != k ==>
            Firsts(about, events, n)[k'] != Firsts(about, events, n)[k]
  {
    var before := Firsts(about, events, n - 1);
    if k < |before| {
      i := NamedInFirstOrder(about, events, n - 1, k);
    } else {
      i := n - 1;
    }
  }

  // ---- The transcript refines it --------------------------------------------------------------

  ghost predicate ThoughtIs(thought: Thought, id: Id, events: seq<Event>, n: nat)
    requires n <= |events|
  {
    thought.messageId == id && Join(thought.deltas) == ThoughtSaid(events, n, id)
  }

  ghost predicate ThoughtsRefine(reasoning: seq<Thought>, events: seq<Event>, n: nat)
    requires n <= |events|
  {
    && |reasoning| == |Firsts(Reasons, events, n)|
    && forall k :: 0 <= k < |reasoning| ==> ThoughtIs(reasoning[k], Firsts(Reasons, events, n)[k], events, n)
  }

  ghost predicate ShownIs(shown: Shown, id: Id, events: seq<Event>, n: nat)
    requires n <= |events|
  {
    shown == Shown(id, TypeShown(events, n, id), ContentShown(events, n, id))
  }

  ghost predicate ActivitiesRefine(activities: seq<Shown>, events: seq<Event>, n: nat)
    requires n <= |events|
  {
    && |activities| == |Firsts(Shows, events, n)|
    && forall k :: 0 <= k < |activities| ==> ShownIs(activities[k], Firsts(Shows, events, n)[k], events, n)
  }

  lemma {:induction false} ThoughtNotThere(reasoning: seq<Thought>, n: nat, id: Id)
    requires n <= |reasoning| && ThoughtAt(reasoning, n, id).None?
    ensures forall i :: 0 <= i < n ==> reasoning[i].messageId != id
  {
    if n > 0 {
      ThoughtNotThere(reasoning, n - 1, id);
    }
  }

  lemma {:induction false} ShownNotThere(activities: seq<Shown>, n: nat, id: Id)
    requires n <= |activities| && ShownAt(activities, n, id).None?
    ensures forall i :: 0 <= i < n ==> activities[i].messageId != id
  {
    if n > 0 {
      ShownNotThere(activities, n - 1, id);
    }
  }

  /** A thought is found exactly when the log gave it a place, and there. */
  lemma ThoughtAtItsPlace(reasoning: seq<Thought>, events: seq<Event>, n: nat, id: Id)
    requires n <= |events| && ThoughtsRefine(reasoning, events, n)
    ensures match ThoughtAt(reasoning, |reasoning|, id)
            case None => id !in Firsts(Reasons, events, n)
            case Some(i) => Firsts(Reasons, events, n)[i] == id
  {
    if id in Firsts(Reasons, events, n) {
      var k :| 0 <= k < |reasoning| && Firsts(Reasons, events, n)[k] == id;
      assert ThoughtIs(reasoning[k], id, events, n);
    }
    match ThoughtAt(reasoning, |reasoning|, id) {
      case None =>
        ThoughtNotThere(reasoning, |reasoning|, id);
      case Some(i) =>
        assert ThoughtIs(reasoning[i], Firsts(Reasons, events, n)[i], events, n);
    }
  }

  lemma ShownAtItsPlace(activities: seq<Shown>, events: seq<Event>, n: nat, id: Id)
    requires n <= |events| && ActivitiesRefine(activities, events, n)
    ensures match ShownAt(activities, |activities|, id)
            case None => id !in Firsts(Shows, events, n)
            case Some(i) => Firsts(Shows, events, n)[i] == id
  {
    if id in Firsts(Shows, events, n) {
      var k :| 0 <= k < |activities| && Firsts(Shows, events, n)[k] == id;
      assert ShownIs(activities[k], id, events, n);
    }
    match ShownAt(activities, |activities|, id) {
      case None =>
        ShownNotThere(activities, |activities|, id);
      case Some(i) =>
        assert ShownIs(activities[i], Firsts(Shows, events, n)[i], events, n);
    }
  }

  lemma FirstsGrow(about: Event -> Option<Id>, events: seq<Event>, n: nat)
    requires n < |events|
    ensures Firsts(about, events, n) <= Firsts(about, events, n + 1)
    ensures about(events[n]).Some? ==> about(events[n]).value in Firsts(about, events, n + 1)
  {
    var before, now := Firsts(about, events, n), Firsts(about, events, n + 1);
    if about(events[n]).Some? && about(events[n]).value !in before {
      assert now[|before|] == about(events[n]).value;
    }
  }

  /** Before it is first named nothing was reasoned under an id. */
  lemma {:induction false} NothingReasonedBefore(events: seq<Event>, n: nat, id: Id)
    requires n <= |events| && id !in Firsts(Reasons, events, n)
    ensures ThoughtSaid(events, n, id) == ""
  {
    if n > 0 {
      FirstsGrow(Reasons, events, n - 1);
      NothingReasonedBefore(events, n - 1, id);
    }
  }

  /** What an event adds to the thought it is about. */
  function DeltasOf(e: Event): seq<string> {
    if e.ReasoningContent? then [e.delta] else []
  }

  lemma MoreReasoned(thought: Thought, events: seq<Event>, n: nat, id: Id)
    requires n < |events| && ThoughtIs(thought, id, events, n) && Reasons(events[n]) == Some(id)
    ensures ThoughtIs(Thought(id, thought.deltas + DeltasOf(events[n])), id, events, n + 1)
  {
    if events[n].ReasoningContent? {
      JoinOneMore(thought.deltas, events[n].delta);
    } else {
      assert thought.deltas + [] == thought.deltas;
    }
  }

  lemma ReasonedElsewhere(thought: Thought, events: seq<Event>, n: nat, id: Id)
    requires n < |events| && ThoughtIs(thought, id, events, n) && Reasons(events[n]) != Some(id)
    ensures ThoughtIs(thought, id, events, n + 1)
  {
  }

  lemma ThoughtAtThere(reasoning: seq<Thought>, events: seq<Event>, n: nat, id: Id, k: nat)
    requires n <= |events| && ThoughtsRefine(reasoning, events, n) && k < |reasoning|
    ensures ThoughtAt(reasoning, |reasoning|, id) == Some(k) <==> Firsts(Reasons, events, n)[k] == id
  {
    ThoughtAtItsPlace(reasoning, events, n, id);
    var i := NamedInFirstOrder(Reasons, events, n, k);
  }

  lemma ReasonedAt(reasoning: seq<Thought>, id: Id, deltas: seq<string>, k: nat)
    requires k < |reasoning|
    ensures k < |Reasoned(reasoning, id, deltas)|
    ensures Reasoned(reasoning, id, deltas)[k]
            == if ThoughtAt(reasoning, |reasoning|, id) == Some(k) then Thought(id, reasoning[k].deltas + deltas)
                else reasoning[k]
  {
  }

  lemma ReasonedThought(reasoning: seq<Thought>, events: seq<Event>, n: nat, id: Id, k: nat)
    requires n < |events| && ThoughtsRefine(reasoning, events, n) && k < |reasoning| && Reasons(events[n]) == Some(id)
    ensures k < |Reasoned(reasoning, id, DeltasOf(events[n]))|
    ensures ThoughtIs(Reasoned(reasoning, id, DeltasOf(events[n]))[k], Firsts(Reasons, events, n)[k], events, n + 1)
  {
    var place := Firsts(Reasons, events, n)[k];
    ThoughtAtThere(reasoning, events, n, id, k);
    ReasonedAt(reasoning, id, DeltasOf(events[n]), k);
    if place == id {
      MoreReasoned(reasoning[k], events, n, id);
    } else {
      ReasonedElsewhere(reasoning[k], events, n, place);
    }
  }

  lemma ThoughtsStep(reasoning: seq<Thought>, events: seq<Event>, n: nat, id: Id)
    requires n < |events| && ThoughtsRefine(reasoning, events, n) && Reasons(events[n]) == Some(id)
    ensures ThoughtsRefine(Reasoned(reasoning, id, DeltasOf(events[n])), events, n + 1)
  {
    ThoughtAtItsPlace(reasoning, events, n, id);
    forall k: nat | k < |reasoning|
      ensures k < |Reasoned(reasoning, id, DeltasOf(events[n]))|
      ensures ThoughtIs(Reasoned(reasoning, id, DeltasOf(events[n]))[k], Firsts(Reasons, events, n)[k], events, n + 1)
    {
      ReasonedThought(reasoning, events, n, id, k);
    }
    if id !in Firsts(Reasons, events, n) {
      NothingReasonedBefore(events, n, id);
      MoreReasoned(Thought(id, []), events, n, id);
      assert [] + DeltasOf(events[n]) == DeltasOf(events[n]);
    }
  }

  lemma ThoughtsStay(reasoning: seq<Thought>, events: seq<Event>, n: nat)
    requires n < |events| && ThoughtsRefine(reasoning, events, n) && Reasons(events[n]).None?
    ensures ThoughtsRefine(reasoning, events, n + 1)
  {
    forall k | 0 <= k < |reasoning| ensures ThoughtIs(reasoning[k], Firsts(Reasons, events, n)[k], events, n + 1) {
      ReasonedElsewhere(reasoning[k], events, n, Firsts(Reasons, events, n)[k]);
    }
  }

  /** What the activities become by an event about one of them. */
  function ActivitiesAfter(activities: seq<Shown>, e: Event): seq<Shown> {
    match e
    case ActivitySnapshot(id, activityType, fields, keep) => Snapshotted(activities, id, activityType, fields, keep)
    case ActivityDelta(id, activityType) => Patched(activities, id, activityType)
    case _ => activities
  }

  lemma ShownElsewhere(shown: Shown, events: seq<Event>, n: nat, id: Id)
    requires n < |events| && ShownIs(shown, id, events, n) && id in Firsts(Shows, events, n)
             && Shows(events[n]) != Some(id)
    ensures ShownIs(shown, id, events, n + 1)
  {
  }

  /** What an event makes of the activity it is about. */
  function ShownAfter(shown: Shown, e: Event): Shown {
    match e
    case ActivitySnapshot(_, _, fields, keep) => if keep then shown else shown.(content := Some(fields))
    case _ => shown.(content := None)
  }

  lemma SettlesOrNot(events: seq<Event>, n: nat, id: Id)
    requires n < |events| && Shows(events[n]) == Some(id)
    ensures SettledBy(events, n + 1, id) == if Settles(events, n) then Some(n) else SettledBy(events, n, id)
  {
  }

  lemma ShownMore(shown: Shown, events: seq<Event>, n: nat, id: Id)
    requires n < |events| && ShownIs(shown, id, events, n) && id in Firsts(Shows, events, n)
             && Shows(events[n]) == Some(id)
    ensures ShownIs(ShownAfter(shown, events[n]), id, events, n + 1)
  {
    SettlesOrNot(events, n, id);
    FirstsGrow(Shows, events, n);
    assert TypeShown(events, n + 1, id) == TypeShown(events, n, id);
    assert Settles(events, n) <==> events[n].ActivityDelta? || !events[n].keep;
    assert ContentShown(events, n + 1, id) == ShownAfter(shown, events[n]).content;
  }

  lemma ShownFirst(events: seq<Event>, n: nat, id: Id)
    requires n < |events| && id !in Firsts(Shows, events, n) && Shows(events[n]) == Some(id)
    ensures ShownIs(ActivitiesAfter([], events[n])[0], id, events, n + 1)
  {
    SettlesOrNot(events, n, id);
  }

  lemma ShownAtThere(activities: seq<Shown>, events: seq<Event>, n: nat, id: Id, k: nat)
    requires n <= |events| && ActivitiesRefine(activities, events, n) && k < |activities|
    ensures ShownAt(activities, |activities|, id) == Some(k) <==> Firsts(Shows, events, n)[k] == id
  {
    ShownAtItsPlace(activities, events, n, id);
    var i := NamedInFirstOrder(Shows, events, n, k);
  }

  lemma ActivityAfterAt(activities: seq<Shown>, e: Event, id: Id, k: nat)
    requires k < |activities| && Shows(e) == Some(id)
    ensures k < |ActivitiesAfter(activities, e)|
    ensures ActivitiesAfter(activities, e)[k]
            == if ShownAt(activities, |activities|, id) == Some(k) then ShownAfter(activities[k], e) else activities[k]
  {
  }

  lemma ShownItem(activities: seq<Shown>, events: seq<Event>, n: nat, id: Id, k: nat)
    requires n < |events| && ActivitiesRefine(activities, events, n) && k < |activities| && Shows(events[n]) == Some(id)
    ensures k < |ActivitiesAfter(activities, events[n])|
    ensures ShownIs(ActivitiesAfter(activities, events[n])[k], Firsts(Shows, events, n)[k], events, n + 1)
  {
    var place := Firsts(Shows, events, n)[k];
    ShownAtThere(activities, events, n, id, k);
    ActivityAfterAt(activities, events[n], id, k);
    if place == id {
      ShownMore(activities[k], events, n, id);
    } else {
      ShownElsewhere(activities[k], events, n, place);
    }
  }

  lemma AllShown(activities: seq<Shown>, events: seq<Event>, n: nat, id: Id)
    requires n < |events| && ActivitiesRefine(activities, events, n) && Shows(events[n]) == Some(id)
    ensures var after := ActivitiesAfter(activities, events[n]);
            |activities| <= |after| && forall k :: 0 <= k < |activities| ==>
                ShownIs(after[k], Firsts(Shows, events, n)[k], events, n + 1)
  {
    var after := ActivitiesAfter(activities, events[n]);
    forall k: nat | k < |activities|
      ensures k < |after| && ShownIs(after[k], Firsts(Shows, events, n)[k], events, n + 1)
    {
      ShownItem(activities, events, n, id, k);
    }
  }

  lemma OneMoreActivity(activities: seq<Shown>, e: Event, id: Id)
    requires Shows(e) == Some(id)
    ensures ShownAt(activities, |activities|, id).Some? ==> |ActivitiesAfter(activities, e)| == |activities|
    ensures ShownAt(activities, |activities|, id).None? ==>
            ActivitiesAfter(activities, e) == activities + [ActivitiesAfter([], e)[0]]
  {
  }

  lemma ActivitiesStep(activities: seq<Shown>, events: seq<Event>, n: nat, id: Id)
    requires n < |events| && ActivitiesRefine(activities, events, n) && Shows(events[n]) == Some(id)
    ensures ActivitiesRefine(ActivitiesAfter(activities, events[n]), events, n + 1)
  {
    ShownAtItsPlace(activities, events, n, id);
    AllShown(activities, events, n, id);
    OneMoreActivity(activities, events[n], id);
    if id !in Firsts(Shows, events, n) {
      ShownFirst(events, n, id);
      assert Firsts(Shows, events, n + 1) == Firsts(Shows, events, n) + [id];
    }
  }

  lemma ActivitiesStay(activities: seq<Shown>, events: seq<Event>, n: nat)
    requires n < |events| && ActivitiesRefine(activities, events, n) && Shows(events[n]).None?
    ensures ActivitiesRefine(activities, events, n + 1)
  {
    forall k | 0 <= k < |activities| ensures ShownIs(activities[k], Firsts(Shows, events, n)[k], events, n + 1) {
      ShownElsewhere(activities[k], events, n, Firsts(Shows, events, n)[k]);
    }
  }

  lemma OneEvent(t: Transcript, events: seq<Event>, n: nat)
    requires n < |events| && Accepts(t, events[n])
    requires ThoughtsRefine(t.reasoning, events, n) && ActivitiesRefine(t.activities, events, n)
    ensures ThoughtsRefine(Next(t, events[n]).reasoning, events, n + 1)
            && ActivitiesRefine(Next(t, events[n]).activities, events, n + 1)
  {
    match Reasons(events[n]) {
      case Some(id) => ThoughtsStep(t.reasoning, events, n, id);
      case None => ThoughtsStay(t.reasoning, events, n);
    }
    match Shows(events[n]) {
      case Some(id) => ActivitiesStep(t.activities, events, n, id);
      case None => ActivitiesStay(t.activities, events, n);
    }
  }

  /**
   Whatever is recorded, the transcript's reasoning and activities are what the log says: each id once, in the
   order it was first named; a thought is the run of its deltas; an activity keeps its first type, and shows the
   last snapshot that was not told to keep what was there, or nothing once a delta came after it.
   */
  lemma {:induction false} SideRecordsRefineTheLog(events: seq<Event>, n: nat)
    requires n <= |events| && Run(events, n).Some?
    ensures ThoughtsRefine(Run(events, n).value.reasoning, events, n)
    ensures ActivitiesRefine(Run(events, n).value.activities, events, n)
  {
    if n > 0 {
      SideRecordsRefineTheLog(events, n - 1);
      OneEvent(Run(events, n - 1).value, events, n - 1);
    }
  }
}
