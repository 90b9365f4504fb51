/**
 The round trip over a whole dump: one that holds, between the answers and results, whatever else a completed run
 dumps -- reasoning, activities, prompts, in any order. The rest of the dump does not disturb the answers and
 results, and the reasoning and the activities come back under their own streamed ids.
 */
module TranscriptWholeDump {
  import opened Messages
  import opened LendStoredIds
  import opened LendingLaws
  import opened RunTranscript
  import opened TranscriptLog
  import opened TranscriptIds
  import opened TranscriptRoundTrip

  // ---- The answers and results of a dump ------------------------------------------------------------------

  predicate IsCore(m: Message) {
    m.Tool? || m.Assistant?
  }

  /** The answers and tool results among the first `n` messages. */
  function CoreTo(all: seq<Message>, n: nat): seq<Message>
    requires n <= |all|
  {
    if n == 0 then []
    else if IsCore(all[n - 1]) then CoreTo(all, n - 1) + [all[n - 1]]
    else CoreTo(all, n - 1)
  }

  function Core(all: seq<Message>): seq<Message> {
    CoreTo(all, |all|)
  }

  lemma {:induction false} CorePrefix(all: seq<Message>, n: nat, m: nat)
    requires n <= m <= |all|
    ensures CoreTo(all, n) <= CoreTo(all, m)
  {
    if n < m {
      CorePrefix(all, n, m - 1);
    }
  }

  lemma CoreAt(all: seq<Message>, p: nat)
    requires p < |all| && IsCore(all[p])
    ensures |CoreTo(all, p)| < |Core(all)| && Core(all)[|CoreTo(all, p)|] == all[p]
  {
    CorePrefix(all, p + 1, |all|);
  }

  lemma CoreIsNoLonger(all: seq<Message>, n: nat)
    requires n <= |all|
    ensures |CoreTo(all, n)| <= |Core(all)|
  {
    CorePrefix(all, n, |all|);
  }

  lemma {:induction false} CoreAnswers(all: seq<Message>, n: nat, c: Id)
    requires n <= |all| && |CoreTo(all, n)| <= |Core(all)|
    ensures AnswersTo(all, n, c) == AnswersTo(Core(all), |CoreTo(all, n)|, c)
  {
    if n > 0 {
      CoreIsNoLonger(all, n - 1);
      CoreAnswers(all, n - 1, c);
      if IsCore(all[n - 1]) {
        CoreAt(all, n - 1);
      }
    }
  }

  lemma {:induction false} CoreUses(all: seq<Message>, n: nat, c: Id)
    requires n <= |all| && |CoreTo(all, n)| <= |Core(all)|
    ensures UsesTo(all, n, c) == UsesTo(Core(all), |CoreTo(all, n)|, c)
  {
    if n > 0 {
      CoreIsNoLonger(all, n - 1);
      CoreUses(all, n - 1, c);
      if IsCore(all[n - 1]) {
        CoreAt(all, n - 1);
      }
    }
  }

  lemma {:induction false} CoreTexts(all: seq<Message>, n: nat)
    requires n <= |all| && |CoreTo(all, n)| <= |Core(all)|
    ensures RowTo(all, n, TextAnswers) == RowTo(Core(all), |CoreTo(all, n)|, TextAnswers)
  {
    if n > 0 {
      CoreIsNoLonger(all, n - 1);
      CoreTexts(all, n - 1);
      if IsCore(all[n - 1]) {
        CoreAt(all, n - 1);
      }
    }
  }

  lemma {:induction false} CoreParents(t: Transcript, all: seq<Message>, p: nat, i: nat)
    requires p < |all| && IsCore(all[p]) && i <= |CallsIn(all[p])|
    requires |CoreTo(all, p)| < |Core(all)| && Core(all)[|CoreTo(all, p)|] == all[p]
    ensures ParentsFound(t, all, p, i) == ParentsFound(t, Core(all), |CoreTo(all, p)|, i)
  {
    if i > 0 {
      CoreParents(t, all, p, i - 1);
      CoreUses(all, p, CallsIn(all[p])[i - 1].id);
    }
  }

  /** What the stream announced for an answer or a result does not turn on what else is dumped. */
  lemma CoreIsUndisturbed(t: Transcript, all: seq<Message>, p: nat)
    requires p < |all| && IsCore(all[p])
    ensures |CoreTo(all, p)| < |Core(all)| && Core(all)[|CoreTo(all, p)|] == all[p]
    ensures Streamed(t, all, p) == Streamed(t, Core(all), |CoreTo(all, p)|)
  {
    CoreAt(all, p);
    match GroupOf(all[p]) {
      case Some(Tools) => CoreAnswers(all, p, all[p].callId);
      case Some(CallAnswers) => CoreParents(t, all, p, |all[p].calls|);
      case Some(TextAnswers) =>
        CoreTexts(all, p);
        CoreTexts(all, |all|);
      case _ =>
    }
  }

  // ---- Whose ids are offered ------------------------------------------------------------------------------

  /** The ids of the stream's messages, and the parents its calls name. */
  function MessageIds(t: Transcript): set<Id> {
    (set i | 0 <= i < |t.items| :: t.items[i].messageId)
    + (set i | 0 <= i < |t.callParents| && t.callParents[i].parent.Some? :: t.callParents[i].parent.value)
  }

  function ThoughtIds(t: Transcript): set<Id> {
    set i | 0 <= i < |t.reasoning| :: t.reasoning[i].messageId
  }

  function ActivityIds(t: Transcript): set<Id> {
    set i | 0 <= i < |t.activities| :: t.activities[i].messageId
  }

  /** Messages, reasoning and activities are announced under different ids. */
  ghost predicate Apart(t: Transcript) {
    && MessageIds(t) !! ThoughtIds(t) && MessageIds(t) !! ActivityIds(t) && ThoughtIds(t) !! ActivityIds(t)
  }

  lemma {:induction false} ResultIdsAreItems(items: seq<Item>, n: nat, c: Id, k: nat) returns (i: nat)
    requires n <= |items| && k < |ResultsTo(items, n, c)|
    ensures i < n && items[i].messageId == ResultsTo(items, n, c)[k]
  {
    if k < |ResultsTo(items, n - 1, c)| {
      i := ResultIdsAreItems(items, n - 1, c, k);
    } else {
      i := n - 1;
    }
  }

  lemma {:induction false} ParentsAreNamed(parents: seq<CallParent>, n: nat, c: Id, k: nat) returns (i: nat)
    requires n <= |parents| && k < |ParentsTo(parents, n, c)|
    ensures i < n && parents[i].parent == ParentsTo(parents, n, c)[k]
  {
    if k < |ParentsTo(parents, n - 1, c)| {
      i := ParentsAreNamed(parents, n - 1, c, k);
    } else {
      i := n - 1;
    }
  }

  lemma ParentTakenIsNamed(t: Transcript, all: seq<Message>, p: nat, i: nat)
    requires p < |all| && i < |CallsIn(all[p])| && ParentTaken(t, all, p, i).Some?
    ensures ParentTaken(t, all, p, i).value in MessageIds(t)
  {
    var c := CallsIn(all[p])[i].id;
    var k := UsesTo(all, p, c) + UsesIn(CallsIn(all[p]), i, c);
    var j := ParentsAreNamed(t.callParents, |t.callParents|, c, k);
  }

  /** An answer or a result is offered a message's id, reasoning a thought's, an activity an activity's. */
  ghost predicate OfKind(t: Transcript, m: Message, id: Id) {
    match m
    case Tool(_, _, _, _) => id in MessageIds(t)
    case Assistant(_, _, _) => id in MessageIds(t)
    case Reasoning(_, _) => id in ThoughtIds(t)
    case Activity(_, _, _) => id in ActivityIds(t)
    case _ => false
  }

  lemma OffersAreOfKind(t: Transcript, all: seq<Message>, p: nat)
    requires OneEach(t) && p < |all| && Streamed(t, all, p).Some?
    ensures OfKind(t, all[p], Streamed(t, all, p).value)
  {
    StreamedMayName(t, all, p);
    match GroupOf(all[p]).value {
      case Tools =>
        var i := ResultIdsAreItems(t.items, |t.items|, all[p].callId, AnswersTo(all, p, all[p].callId));
      case CallAnswers => ParentTakenIsNamed(t, all, p, 0);
      case _ =>
    }
  }

  // ---- The answers and results come back ------------------------------------------------------------------

  /** What the stream has for each answer and result of the dump. */
  ghost predicate CoreNamed(t: Transcript, all: seq<Message>)
    requires |Core(all)| == |t.items|
  {
    forall p: nat :: p < |all| && IsCore(all[p]) ==> NamedAt(t, all, p)
  }

  ghost predicate NamedAt(t: Transcript, all: seq<Message>, p: nat)
    requires p < |all| && IsCore(all[p]) && |Core(all)| == |t.items|
  {
    CoreAt(all, p);
    Streamed(t, all, p) == Some(t.items[|CoreTo(all, p)|].messageId)
  }

  lemma CoreRanksIncrease(all: seq<Message>, p: nat, q: nat)
    requires p < q < |all| && IsCore(all[p])
    ensures |CoreTo(all, p)| < |CoreTo(all, q)|
  {
    CorePrefix(all, p + 1, q);
  }

  lemma CoreOffersDiffer(t: Transcript, all: seq<Message>, i: nat, p: nat)
    requires Settled(t) && OneEach(t) && Apart(t) && |Core(all)| == |t.items| && CoreNamed(t, all)
    requires i < p < |all| && IsCore(all[p]) && Streamed(t, all, i).Some?
    ensures Streamed(t, all, i) != Streamed(t, all, p)
  {
    OffersAreOfKind(t, all, i);
    assert NamedAt(t, all, p);
    OffersAreOfKind(t, all, p);
    if IsCore(all[i]) {
      assert NamedAt(t, all, i);
      CoreAt(all, p);
      CoreRanksIncrease(all, i, p);
    }
  }

  lemma Unclaimed(t: Transcript, all: seq<Message>, p: nat)
    requires p < |all| && Streamed(t, all, p).Some?
    requires forall i: nat :: i < p && Streamed(t, all, i).Some? ==> Streamed(t, all, i) != Streamed(t, all, p)
    ensures WithStreamedIds(t, all)[p] == WithId(all[p], Streamed(t, all, p).value)
  {
    var offers := StreamedIds(t, all);
    TakenIsReservedOrLent(all, offers, {}, {}, p, offers[p].value);
    forall i: nat | i < p ensures Accepted(all, offers, {}, {}, i) != offers[p] {
      assert offers[i] == Streamed(t, all, i);
    }
    ClaimedPointwise(t, all, p);
  }

  /** The dumped answer or result comes back as the stored message. */
  ghost predicate BackAt(t: Transcript, all: seq<Message>, p: nat)
    requires p < |all| && IsCore(all[p]) && |Core(all)| == |t.items|
  {
    CoreAt(all, p);
    WithStreamedIds(t, all)[p] == MessageOf(t.items[|CoreTo(all, p)|])
  }

  ghost predicate CoreComesBack(t: Transcript, all: seq<Message>)
    requires |Core(all)| == |t.items|
  {
    forall p: nat :: p < |all| && IsCore(all[p]) ==> BackAt(t, all, p)
  }

  lemma DumpedCore(t: Transcript, all: seq<Message>, p: nat)
    requires DumpOf(t, Core(all)) && p < |all| && IsCore(all[p])
    ensures |CoreTo(all, p)| < |t.items| && SameButId(all[p], MessageOf(t.items[|CoreTo(all, p)|]))
  {
    CoreAt(all, p);
  }

  lemma NamedComesBack(t: Transcript, all: seq<Message>, p: nat)
    requires Settled(t) && OneEach(t) && Apart(t) && DumpOf(t, Core(all)) && CoreNamed(t, all)
    requires p < |all| && IsCore(all[p])
    ensures BackAt(t, all, p)
  {
    assert NamedAt(t, all, p);
    forall i: nat | i < p && Streamed(t, all, i).Some? ensures Streamed(t, all, i) != Streamed(t, all, p) {
      CoreOffersDiffer(t, all, i, p);
    }
    Unclaimed(t, all, p);
    DumpedCore(t, all, p);
  }

  /** A dump under ids other than the streamed ones. */
  ghost predicate FreshCore(t: Transcript, all: seq<Message>)
    requires |Core(all)| == |t.items|
  {
    forall k :: 0 <= k < |t.items| ==> Core(all)[k].id != t.items[k].messageId
  }

  lemma UnnamedDoesNot(t: Transcript, all: seq<Message>, p: nat)
    requires DumpOf(t, Core(all)) && FreshCore(t, all) && p < |all| && IsCore(all[p]) && !NamedAt(t, all, p)
    ensures !BackAt(t, all, p)
  {
    CoreAt(all, p);
    ClaimedPointwise(t, all, p);
  }

  /** The dumped message at a place among the answers and results. */
  lemma {:induction false} CorePosition(all: seq<Message>, n: nat, k: nat) returns (p: nat)
    requires n <= |all| && k < |CoreTo(all, n)|
    ensures p < n && IsCore(all[p]) && |CoreTo(all, p)| == k
  {
    if k < |CoreTo(all, n - 1)| {
      p := CorePosition(all, n - 1, k);
    } else {
      p := n - 1;
    }
  }

  lemma NamesTheirDrafts(t: Transcript, all: seq<Message>)
    requires Settled(t) && OneEach(t) && DumpOf(t, Core(all))
    ensures CoreNamed(t, all) <==> CallsNameTheirDraft(t)
  {
    if CallsNameTheirDraft(t) {
      forall p: nat | p < |all| && IsCore(all[p]) ensures NamedAt(t, all, p) {
        CoreIsUndisturbed(t, all, p);
        ItemRoundTrips(t, Core(all), |CoreTo(all, p)|);
      }
    } else {
      var k, a :| 0 <= k < |t.items| && t.items[k].Draft? && 0 <= a < |t.items[k].calls|
                  && !StartedUnder(t, t.items[k].calls[a].id, Some(t.items[k].messageId));
      var p := CorePosition(all, |all|, k);
      CoreIsUndisturbed(t, all, p);
      CallsRoundTrip(t, Core(all), k);
      assert !NamedAt(t, all, p);
    }
  }

  /**
   For every complete stream and every dump whose answers and results are what it stored, under fresh ids: they come
   back as the stored messages, whatever reasoning, activities and prompts are dumped between them, if and only if
   every call that ended was started under a message.
   */
  lemma WholeDumpsRoundTrip(events: seq<Event>, all: seq<Message>)
    requires Complete(events, |events|)
    ensures Run(events, |events|).Some?
    ensures var t := Run(events, |events|).value;
            Apart(t) && DumpOf(t, Core(all)) && FreshCore(t, all) ==>
              (CoreComesBack(t, all) <==> EveryCallNamesAParent(events, |events|))
  {
    var n := |events|;
    RecordingRefinesTheLog(events, n);
    var t := Run(events, n).value;
    CompleteIsSettled(t, events, n);
    ParentsAgreeWithLog(t, events, n);
    OneEachAlways(events, n);
    if Apart(t) && DumpOf(t, Core(all)) && FreshCore(t, all) {
      CoreRoundTrips(t, all);
    }
  }

  lemma CoreRoundTrips(t: Transcript, all: seq<Message>)
    requires Settled(t) && OneEach(t) && Apart(t) && DumpOf(t, Core(all)) && FreshCore(t, all)
    ensures CoreComesBack(t, all) <==> CallsNameTheirDraft(t)
  {
    NamesTheirDrafts(t, all);
    if CoreNamed(t, all) {
      forall p: nat | p < |all| && IsCore(all[p]) ensures BackAt(t, all, p) {
        NamedComesBack(t, all, p);
      }
    } else {
      var p: nat :| p < |all| && IsCore(all[p]) && !NamedAt(t, all, p);
      UnnamedDoesNot(t, all, p);
    }
  }

  // ---- Reasoning and activities come back -----------------------------------------------------------------

  /** A group that pairs by position is dumped as it was streamed: as many, each holding what was announced. */
  ghost predicate DumpedAsStreamed(t: Transcript, all: seq<Message>, group: Group) {
    SameBodies(AnnouncedIn(t, group), Row(all, group))
  }

  predicate IsSide(group: Group) {
    group == Reasonings || group.ActivitiesOf?
  }

  lemma {:induction false} ThoughtAnnounced(reasoning: seq<Thought>, n: nat)
    requires n <= |reasoning|
    ensures |ThoughtsTo(reasoning, n)| == n && forall k :: 0 <= k < n ==>
            ThoughtsTo(reasoning, n)[k].id == reasoning[k].messageId
  {
    if n > 0 {
      ThoughtAnnounced(reasoning, n - 1);
    }
  }

  lemma {:induction false} ShownAnnounced(activities: seq<Shown>, n: nat, activityType: string, k: nat) returns (i: nat)
    requires n <= |activities| && k < |ShownTo(activities, n, activityType)|
    ensures i < n && activities[i].activityType == activityType && |ShownTo(activities, i, activityType)| == k
    ensures ShownTo(activities, n, activityType)[k].id == activities[i].messageId
  {
    if k < |ShownTo(activities, n - 1, activityType)| {
      i := ShownAnnounced(activities, n - 1, activityType, k);
    } else {
      i := n - 1;
    }
  }

  /** Announced ids of reasoning and activities are one to a place. */
  lemma AnnouncedDiffer(t: Transcript, group: Group, j: nat, other: Group, k: nat)
    requires OneEach(t) && Apart(t) && IsSide(group) && IsSide(other) && (group != other || j != k)
    requires j < |AnnouncedIn(t, group)| && k < |AnnouncedIn(t, other)|
    ensures AnnouncedIn(t, group)[j].id != AnnouncedIn(t, other)[k].id
  {
    var i, i' := -1, -1;
    if group.ActivitiesOf? {
      i := ShownAnnounced(t.activities, |t.activities|, group.activityType, j);
      assert FoundAt(t.activities, i) && t.activities[i].messageId in ActivityIds(t);
    } else {
      ThoughtAnnounced(t.reasoning, |t.reasoning|);
      assert t.reasoning[j].messageId in ThoughtIds(t);
    }
    if other.ActivitiesOf? {
      i' := ShownAnnounced(t.activities, |t.activities|, other.activityType, k);
      assert FoundAt(t.activities, i') && t.activities[i'].messageId in ActivityIds(t);
    } else {
      ThoughtAnnounced(t.reasoning, |t.reasoning|);
      assert t.reasoning[k].messageId in ThoughtIds(t);
    }
  }

  lemma SideOffer(t: Transcript, all: seq<Message>, p: nat, group: Group)
    requires p < |all| && GroupOf(all[p]) == Some(group) && IsSide(group) && Streamed(t, all, p).Some?
    ensures Rank(all, p, group) < |AnnouncedIn(t, group)|
    ensures Streamed(t, all, p) == Some(AnnouncedIn(t, group)[Rank(all, p, group)].id)
  {
  }

  lemma SideOffersDiffer(t: Transcript, all: seq<Message>, i: nat, p: nat, group: Group)
    requires OneEach(t) && Apart(t) && i < p < |all| && GroupOf(all[p]) == Some(group) && IsSide(group)
    requires Streamed(t, all, i).Some? && Streamed(t, all, p).Some?
    ensures Streamed(t, all, i) != Streamed(t, all, p)
  {
    OffersAreOfKind(t, all, i);
    OffersAreOfKind(t, all, p);
    if !IsCore(all[i]) {
      var other := GroupOf(all[i]).value;
      SideOffer(t, all, i, other);
      SideOffer(t, all, p, group);
      if other == group {
        RowPrefix(all, i + 1, p, group);
      }
      AnnouncedDiffer(t, other, Rank(all, i, other), group, Rank(all, p, group));
    }
  }

  /**
   And every reasoning, and every activity of a type, comes back under the id announced for it, as long as the dump
   holds as many of them as were announced, each as it was streamed -- newlines and `canonical_system` aside.
   */
  lemma SidesComeBack(events: seq<Event>, all: seq<Message>, p: nat, group: Group)
    requires Run(events, |events|).Some? && Apart(Run(events, |events|).value)
    requires p < |all| && GroupOf(all[p]) == Some(group) && IsSide(group)
    requires DumpedAsStreamed(Run(events, |events|).value, all, group)
    ensures var t := Run(events, |events|).value;
            && Rank(all, p, group) < |AnnouncedIn(t, group)|
            && WithStreamedIds(t, all)[p] == WithId(all[p], AnnouncedIn(t, group)[Rank(all, p, group)].id)
  {
    var t := Run(events, |events|).value;
    OneEachAlways(events, |events|);
    RowAtRank(all, p, group);
    assert Streamed(t, all, p) == Some(AnnouncedIn(t, group)[Rank(all, p, group)].id);
    forall i: nat | i < p && Streamed(t, all, i).Some? ensures Streamed(t, all, i) != Streamed(t, all, p) {
      SideOffersDiffer(t, all, i, p, group);
    }
    Unclaimed(t, all, p);
  }
}
