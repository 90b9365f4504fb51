/**
 The ids a completed run's dump is stored under, said of the event log and the dump alone: which event announced an id
 for which dumped message. No transcript, queue, group or key is spoken of; that the observer lends just these is what
 is proved.
 */
module StreamedFromTheLog {
  import opened Messages
  import opened LendStoredIds
  import opened LendingLaws
  import opened LendingByPartners
  import opened RunTranscript
  import opened TranscriptLog
  import opened TranscriptSideLog
  import opened TranscriptIds
  import opened TranscriptRoundTrip

  // ---- What the log announces -----------------------------------------------------------------

  function ResultsBefore(events: seq<Event>, n: nat, c: Id): nat
    requires n <= |events|
  {
    if n == 0 then 0
    else ResultsBefore(events, n - 1, c) + if events[n - 1].CallResult? && events[n - 1].callId == c then 1 else 0
  }

  function StartsBefore(events: seq<Event>, n: nat, c: Id): nat
    requires n <= |events|
  {
    if n == 0 then 0
    else StartsBefore(events, n - 1, c) + if events[n - 1].CallStart? && events[n - 1].callId == c then 1 else 0
  }

  /** How many of the first `n` dumped messages are results of a call. */
  function DumpedResults(messages: seq<Message>, n: nat, c: Id): nat
    requires n <= |messages|
  {
    if n == 0 then 0
    else DumpedResults(messages, n - 1, c) + if messages[n - 1].Tool? && messages[n - 1].callId == c then 1 else 0
  }

  /** How often a call is made in the dump before the `a`-th call of `messages[p]`. */
  function DumpedUses(messages: seq<Message>, p: nat, a: nat, c: Id): nat
    requires p < |messages| && (a == 0 || (messages[p].Assistant? && a <= |messages[p].calls|))
    decreases p, a
  {
    if a > 0 then DumpedUses(messages, p, a - 1, c) + if messages[p].calls[a - 1].id == c then 1 else 0
    else if p == 0 then 0
    else DumpedUses(messages, p - 1, if messages[p - 1].Assistant? then |messages[p - 1].calls| else 0, c)
  }

  /** How many of the first `n` dumped messages are of `m`'s kind. */
  function KindBefore(messages: seq<Message>, n: nat, m: Message): nat
    requires n <= |messages|
  {
    if n == 0 then 0 else KindBefore(messages, n - 1, m) + if SameKind(messages[n - 1], m) then 1 else 0
  }

  /** Whether event `i` carried the result dumped as `messages[p]`: as many of its call's came before each. */
  ghost predicate CarriesResult(events: seq<Event>, messages: seq<Message>, p: nat, i: nat)
    requires p < |messages| && messages[p].Tool?
  {
    && i < |events| && events[i].CallResult? && events[i].callId == messages[p].callId
    && ResultsBefore(events, i, messages[p].callId) == DumpedResults(messages, p, messages[p].callId)
  }

  /** Whether event `i` started the `a`-th call of `messages[p]`, in the same sense. */
  ghost predicate StartsCall(events: seq<Event>, messages: seq<Message>, p: nat, a: nat, i: nat)
    requires p < |messages| && messages[p].Assistant? && a < |messages[p].calls|
  {
    && i < |events| && events[i].CallStart? && events[i].callId == messages[p].calls[a].id
    && StartsBefore(events, i, messages[p].calls[a].id) == DumpedUses(messages, p, a, messages[p].calls[a].id)
  }

  /** Whether the `a`-th call of `messages[p]` started under `id`. */
  ghost predicate CallNames(events: seq<Event>, messages: seq<Message>, p: nat, a: nat, id: Id)
    requires p < |messages| && messages[p].Assistant? && a < |messages[p].calls|
  {
    exists i: nat :: StartsCall(events, messages, p, a, i) && events[i].parent == Some(id)
  }

  /** Whether a place is a draft's without a call. */
  predicate IsText(events: seq<Event>, slot: Slot) {
    slot.DraftSlot? && Calls(events, |events|, slot.id) == []
  }

  /** Of the first `k` places, the ids of those that are. */
  function TextIds(events: seq<Event>, slots: seq<Slot>, k: nat): seq<Id>
    requires k <= |slots|
  {
    if k == 0 then []
    else if IsText(events, slots[k - 1]) then TextIds(events, slots, k - 1) + [slots[k - 1].id]
    else TextIds(events, slots, k - 1)
  }

  /** Of the first `k` activities shown, the ids of those first shown with a type. */
  function ShownIds(events: seq<Event>, shown: seq<Id>, k: nat, activityType: string): seq<Id>
    requires k <= |shown|
  {
    if k == 0 then []
    else if TypeShown(events, |events|, shown[k - 1]) == activityType
    then ShownIds(events, shown, k - 1, activityType) + [shown[k - 1]]
    else ShownIds(events, shown, k - 1, activityType)
  }

  /** The ids announced for messages of `m`'s kind, in the order announced. */
  function AnnouncedIds(events: seq<Event>, m: Message): seq<Id> {
    match m
    case Assistant(_, _, _) => TextIds(events, Slots(events, |events|), |Slots(events, |events|)|)
    case Reasoning(_, _) => Firsts(Reasons, events, |events|)
    case Activity(_, activityType, _) =>
      ShownIds(events, Firsts(Shows, events, |events|), |Firsts(Shows, events, |events|)|, activityType)
    case _ => []
  }

  /** Whether `m` holds what was streamed under `id`: a text but for newlines, a content but for `canonical_system`. */
  predicate Holds(events: seq<Event>, id: Id, m: Message) {
    match m
    case Assistant(_, answer, _) =>
      Flat(TextSaid(events, |events|, id)) == Flat(if answer == None then "" else answer.value)
    case Reasoning(_, thought) => Flat(ThoughtSaid(events, |events|, id)) == Flat(thought)
    case Activity(_, _, content) => ContentShown(events, |events|, id) == Some(content - {"canonical_system"})
    case _ => false
  }

  /** Whether the dump holds as many of `m`'s kind as were announced, each at its place what was streamed. */
  ghost predicate KindPairs(events: seq<Event>, messages: seq<Message>, m: Message) {
    && KindBefore(messages, |messages|, m) == |AnnouncedIds(events, m)|
    && forall q: nat :: q < |messages| && SameKind(messages[q], m) ==>
         && KindBefore(messages, q, m) < |AnnouncedIds(events, m)|
         && Holds(events, AnnouncedIds(events, m)[KindBefore(messages, q, m)], messages[q])
  }

  /**
   Whether the log announced `id` for `messages[p]`: its result was carried under it; or all its calls started under
   it, and it streamed the message's text; or it stands at the message's place, in a kind that pairs.
   */
  ghost predicate Announces(events: seq<Event>, messages: seq<Message>, p: nat, id: Id)
    requires p < |messages|
  {
    var m := messages[p];
    match m
    case Tool(_, _, _, _) => exists i: nat :: CarriesResult(events, messages, p, i) && events[i].messageId == id
    case Assistant(_, _, calls) =>
      if calls != [] then CallsName(events, messages, p, id) else InPlace(events, messages, p, id)
    case Reasoning(_, _) => InPlace(events, messages, p, id)
    case Activity(_, _, _) => InPlace(events, messages, p, id)
    case _ => false
  }

  ghost predicate CallsName(events: seq<Event>, messages: seq<Message>, p: nat, id: Id)
    requires p < |messages| && messages[p].Assistant?
  {
    && Holds(events, id, messages[p])
    && forall a: nat :: a < |messages[p].calls| ==> CallNames(events, messages, p, a, id)
  }

  ghost predicate InPlace(events: seq<Event>, messages: seq<Message>, p: nat, id: Id)
    requires p < |messages|
  {
    && KindPairs(events, messages, messages[p])
    && KindBefore(messages, p, messages[p]) < |AnnouncedIds(events, messages[p])|
    && AnnouncedIds(events, messages[p])[KindBefore(messages, p, messages[p])] == id
  }

  // ---- Results --------------------------------------------------------------------------------

  function ResultIds(events: seq<Event>, n: nat, c: Id): seq<Id>
    requires n <= |events|
  {
    if n == 0 then []
    else if events[n - 1].CallResult? && events[n - 1].callId == c
    then ResultIds(events, n - 1, c) + [events[n - 1].messageId]
    else ResultIds(events, n - 1, c)
  }

  lemma {:induction false} ResultsAgree(items: seq<Item>, items': seq<Item>, n: nat, c: Id)
    requires n <= |items| && n <= |items'|
    requires forall i :: 0 <= i < n ==> items'[i] == items[i] || (items'[i].Draft? && items[i].Draft?)
    ensures ResultsTo(items', n, c) == ResultsTo(items, n, c)
  {
    if n > 0 {
      ResultsAgree(items, items', n - 1, c);
    }
  }

  lemma MentionKeepsResults(items: seq<Item>, id: Id, mention: Mention, c: Id)
    ensures var items' := Mentioned(items, id, mention); ResultsTo(items', |items'|, c) == ResultsTo(items, |items|, c)
  {
    var items' := Mentioned(items, id, mention);
    ResultsAgree(items, items', |items|, c);
  }

  lemma ResultsStep(t: Transcript, e: Event, c: Id)
    requires Accepts(t, e)
    ensures var items := Next(t, e).items;
            ResultsTo(items, |items|, c) == ResultsTo(t.items, |t.items|, c)
            + if e.CallResult? && e.callId == c then [e.messageId] else []
  {
    match e {
      case TextStart(id) => MentionKeepsResults(t.items, id, Opened, c);
      case TextContent(id, delta) => MentionKeepsResults(t.items, id, Said(delta), c);
      case CallEnd(callId) =>
        var call := t.pending[callId];
        MentionKeepsResults(t.items, DraftOf(call.parent, callId),
                            Called(ToolCall(callId, call.name, Join(call.args))), c);
      case CallResult(_, _, _, _) => ResultsAgree(t.items, Next(t, e).items, |t.items|, c);
      case _ =>
    }
  }

  lemma {:induction false} ResultsAreLogged(events: seq<Event>, n: nat, c: Id)
    requires n <= |events| && Run(events, n).Some?
    ensures var items := Run(events, n).value.items; ResultsTo(items, |items|, c) == ResultIds(events, n, c)
  {
    if n > 0 {
      ResultsAreLogged(events, n - 1, c);
      ResultsStep(Run(events, n - 1).value, events[n - 1], c);
    }
  }

  /** The result event at a place among its call's, and the place of each. */
  lemma {:induction false} ResultAtPlace(events: seq<Event>, n: nat, c: Id, k: nat) returns (i: nat)
    requires n <= |events| && k < |ResultIds(events, n, c)|
    ensures i < n && events[i].CallResult? && events[i].callId == c && ResultsBefore(events, i, c) == k
    ensures events[i].messageId == ResultIds(events, n, c)[k]
  {
    ResultsCounted(events, n - 1, c);
    if k < |ResultIds(events, n - 1, c)| {
      i := ResultAtPlace(events, n - 1, c, k);
    } else {
      i := n - 1;
    }
  }

  lemma {:induction false} ResultsCounted(events: seq<Event>, n: nat, c: Id)
    requires n <= |events|
    ensures |ResultIds(events, n, c)| == ResultsBefore(events, n, c)
  {
    if n > 0 {
      ResultsCounted(events, n - 1, c);
    }
  }

  lemma {:induction false} PlaceOfResult(events: seq<Event>, n: nat, c: Id, i: nat)
    requires i < n <= |events| && events[i].CallResult? && events[i].callId == c
    ensures ResultsBefore(events, i, c) < |ResultIds(events, n, c)|
    ensures ResultIds(events, n, c)[ResultsBefore(events, i, c)] == events[i].messageId
  {
    ResultsCounted(events, i, c);
    if i < n - 1 {
      PlaceOfResult(events, n - 1, c, i);
    }
  }

  lemma {:induction false} AnswersCounted(messages: seq<Message>, n: nat, c: Id)
    requires n <= |messages|
    ensures AnswersTo(messages, n, c) == DumpedResults(messages, n, c)
  {
    if n > 0 {
      AnswersCounted(messages, n - 1, c);
    }
  }

  // ---- What a transcript holds of the log -----------------------------------------------------

  ghost predicate ResultsRecorded(t: Transcript, events: seq<Event>) {
    forall c :: ResultsTo(t.items, |t.items|, c) == ResultIds(events, |events|, c)
  }

  ghost predicate ParentsRecorded(t: Transcript, events: seq<Event>) {
    forall c :: ParentsTo(t.callParents, |t.callParents|, c) == Parents(events, |events|, c)
  }

  ghost predicate Recorded(t: Transcript, events: seq<Event>) {
    && ResultsRecorded(t, events) && ParentsRecorded(t, events)
    && ItemsRefine(t.items, events, |events|)
    && ThoughtsRefine(t.reasoning, events, |events|)
    && ActivitiesRefine(t.activities, events, |events|)
  }

  lemma RunIsRecorded(events: seq<Event>)
    requires Run(events, |events|).Some?
    ensures Recorded(Run(events, |events|).value, events)
  {
    var t := Run(events, |events|).value;
    RecordingNeedsBrackets(events, |events|);
    RecordingRefinesTheLog(events, |events|);
    SideRecordsRefineTheLog(events, |events|);
    forall c ensures ResultsTo(t.items, |t.items|, c) == ResultIds(events, |events|, c) {
      ResultsAreLogged(events, |events|, c);
    }
    forall c ensures ParentsTo(t.callParents, |t.callParents|, c) == Parents(events, |events|, c) {
      ParentsAreRecorded(events, |events|, c);
    }
  }

  lemma ResultAnnounced(events: seq<Event>, t: Transcript, messages: seq<Message>, p: nat, id: Id)
    requires ResultsRecorded(t, events) && p < |messages| && messages[p].Tool?
    ensures Streamed(t, messages, p) == Some(id) <==> Announces(events, messages, p, id)
  {
    var n, c := |events|, messages[p].callId;
    AnswersCounted(messages, p, c);
    if i: nat :| CarriesResult(events, messages, p, i) && events[i].messageId == id {
      PlaceOfResult(events, n, c, i);
    }
    var k := DumpedResults(messages, p, c);
    if k < |ResultIds(events, n, c)| {
      var i := ResultAtPlace(events, n, c, k);
      assert CarriesResult(events, messages, p, i);
    }
  }

  // ---- Calls ----------------------------------------------------------------------------------

  lemma {:induction false} StartAtPlace(events: seq<Event>, n: nat, c: Id, k: nat) returns (i: nat)
    requires n <= |events| && k < |Parents(events, n, c)|
    ensures i < n && events[i].CallStart? && events[i].callId == c && StartsBefore(events, i, c) == k
    ensures events[i].parent == Parents(events, n, c)[k]
  {
    StartsCounted(events, n - 1, c);
    if k < |Parents(events, n - 1, c)| {
      i := StartAtPlace(events, n - 1, c, k);
    } else {
      i := n - 1;
    }
  }

  lemma {:induction false} StartsCounted(events: seq<Event>, n: nat, c: Id)
    requires n <= |events|
    ensures |Parents(events, n, c)| == StartsBefore(events, n, c)
  {
    if n > 0 {
      StartsCounted(events, n - 1, c);
    }
  }

  lemma {:induction false} PlaceOfStart(events: seq<Event>, n: nat, c: Id, i: nat)
    requires i < n <= |events| && events[i].CallStart? && events[i].callId == c
    ensures StartsBefore(events, i, c) < |Parents(events, n, c)|
    ensures Parents(events, n, c)[StartsBefore(events, i, c)] == events[i].parent
  {
    StartsCounted(events, i, c);
    if i < n - 1 {
      PlaceOfStart(events, n - 1, c, i);
    }
  }

  lemma {:induction false} UsesCounted(messages: seq<Message>, p: nat, a: nat, c: Id)
    requires p < |messages| && a <= |CallsIn(messages[p])|
    ensures UsesTo(messages, p, c) + UsesIn(CallsIn(messages[p]), a, c) == DumpedUses(messages, p, a, c)
    decreases p, a
  {
    if a > 0 {
      UsesCounted(messages, p, a - 1, c);
    } else if p > 0 {
      UsesCounted(messages, p - 1, |CallsIn(messages[p - 1])|, c);
    }
  }

  lemma TakenOffItsQueue(t: Transcript, messages: seq<Message>, p: nat, a: nat, queue: seq<Option<Id>>)
    requires p < |messages| && messages[p].Assistant? && a < |messages[p].calls|
    requires ParentsTo(t.callParents, |t.callParents|, messages[p].calls[a].id) == queue
    ensures ParentTaken(t, messages, p, a) == Queued(queue, DumpedUses(messages, p, a, messages[p].calls[a].id))
  {
    UsesCounted(messages, p, a, messages[p].calls[a].id);
  }

  lemma StartIsQueued(events: seq<Event>, messages: seq<Message>, p: nat, a: nat, id: Id)
    requires p < |messages| && messages[p].Assistant? && a < |messages[p].calls|
    ensures var c := messages[p].calls[a].id;
            CallNames(events, messages, p, a, id)
            <==> Queued(Parents(events, |events|, c), DumpedUses(messages, p, a, c)) == Some(id)
  {
    var n, c := |events|, messages[p].calls[a].id;
    var k := DumpedUses(messages, p, a, c);
    if CallNames(events, messages, p, a, id) {
      var i: nat :| StartsCall(events, messages, p, a, i) && events[i].parent == Some(id);
      PlaceOfStart(events, n, c, i);
    }
    if k < |Parents(events, n, c)| {
      var i := StartAtPlace(events, n, c, k);
      assert StartsCall(events, messages, p, a, i);
    }
  }

  lemma DraftSaid(events: seq<Event>, items: seq<Item>, id: Id)
    requires ItemsRefine(items, events, |events|)
    ensures DraftText(items, id) == TextSaid(events, |events|, id)
  {
    DraftAtItsSlot(items, events, |events|, id);
    match DraftAt(items, |items|, id) {
      case Some(i) => assert ItemIs(items[i], Slots(events, |events|)[i], events, |events|);
      case None => NothingBeforeFirstMention(events, |events|, id);
    }
  }

  lemma CallsStreamed(t: Transcript, messages: seq<Message>, p: nat, id: Id)
    requires p < |messages| && messages[p].Assistant? && messages[p].calls != []
    ensures Streamed(t, messages, p) == Some(id)
            <==> (Flat(DraftText(t.items, id)) == Flat(OrEmpty(messages[p].answer))
                  && forall a: nat :: a < |messages[p].calls| ==> ParentTaken(t, messages, p, a) == Some(id))
  {
    OnlyParent(t, messages, p, Some(id));
    assert Streamed(t, messages, p) == ParentHolding(t, messages, p);
  }

  lemma CallsTaken(events: seq<Event>, t: Transcript, messages: seq<Message>, p: nat, id: Id)
    requires ParentsRecorded(t, events) && p < |messages| && messages[p].Assistant?
    ensures forall a: nat :: a < |messages[p].calls| ==>
              (CallNames(events, messages, p, a, id) <==> ParentTaken(t, messages, p, a) == Some(id))
  {
    forall a: nat | a < |messages[p].calls|
      ensures CallNames(events, messages, p, a, id) <==> ParentTaken(t, messages, p, a) == Some(id)
    {
      TakenOffItsQueue(t, messages, p, a, Parents(events, |events|, messages[p].calls[a].id));
      StartIsQueued(events, messages, p, a, id);
    }
  }

  lemma ParentAnnounced(events: seq<Event>, t: Transcript, messages: seq<Message>, p: nat, id: Id)
    requires ParentsRecorded(t, events) && ItemsRefine(t.items, events, |events|)
    requires p < |messages| && messages[p].Assistant? && messages[p].calls != []
    ensures Streamed(t, messages, p) == Some(id) <==> CallsName(events, messages, p, id)
  {
    CallsStreamed(t, messages, p, id);
    CallsTaken(events, t, messages, p, id);
    DraftSaid(events, t.items, id);
  }

  // ---- Messages that pair by position ---------------------------------------------------------

  /** Whether `announced` holds, under these ids, the texts the log says. */
  ghost predicate TextsOf(announced: seq<Announced>, ids: seq<Id>, events: seq<Event>) {
    && |announced| == |ids|
    && forall j :: 0 <= j < |ids| ==> TextOf(announced[j], ids[j], events)
  }

  ghost predicate TextOf(announced: Announced, id: Id, events: seq<Event>) {
    announced == Announced(id, Words(TextSaid(events, |events|, id)))
  }

  ghost predicate TextItem(item: Item, slot: Slot, events: seq<Event>) {
    && (item.Draft? && item.calls == [] <==> IsText(events, slot))
    && (item.Draft? ==>
          slot.DraftSlot? && TextOf(Announced(item.messageId, Words(Join(item.text))), slot.id, events))
  }

  lemma TextItemIsLogged(item: Item, slot: Slot, events: seq<Event>)
    requires ItemIs(item, slot, events, |events|)
    ensures TextItem(item, slot, events)
  {
  }

  lemma OneMoreText(announced: seq<Announced>, ids: seq<Id>, events: seq<Event>, one: Announced, id: Id)
    requires TextsOf(announced, ids, events) && TextOf(one, id, events)
    ensures TextsOf(announced + [one], ids + [id], events)
  {
  }

  lemma OneMorePlace(items: seq<Item>, slots: seq<Slot>, events: seq<Event>, k: nat)
    requires k < |items| == |slots| && TextItem(items[k], slots[k], events)
    requires TextsOf(TextDraftsTo(items, k), TextIds(events, slots, k), events)
    ensures TextsOf(TextDraftsTo(items, k + 1), TextIds(events, slots, k + 1), events)
  {
    if IsText(events, slots[k]) {
      OneMoreText(TextDraftsTo(items, k), TextIds(events, slots, k), events,
                  Announced(items[k].messageId, Words(Join(items[k].text))), slots[k].id);
    }
  }

  lemma {:induction false} TextsAreLogged(items: seq<Item>, slots: seq<Slot>, events: seq<Event>, k: nat)
    requires |items| == |slots| && k <= |items|
    requires forall i :: 0 <= i < |items| ==> TextItem(items[i], slots[i], events)
    ensures TextsOf(TextDraftsTo(items, k), TextIds(events, slots, k), events)
  {
    if k > 0 {
      TextsAreLogged(items, slots, events, k - 1);
      OneMorePlace(items, slots, events, k - 1);
    }
  }

  lemma {:induction false} ThoughtsAreLogged(reasoning: seq<Thought>, events: seq<Event>, k: nat)
    requires ThoughtsRefine(reasoning, events, |events|) && k <= |reasoning|
    ensures |ThoughtsTo(reasoning, k)| == k
    ensures forall j :: 0 <= j < k ==>
              var id := Firsts(Reasons, events, |events|)[j];
              ThoughtsTo(reasoning, k)[j] == Announced(id, Words(ThoughtSaid(events, |events|, id)))
  {
    if k > 0 {
      ThoughtsAreLogged(reasoning, events, k - 1);
      assert ThoughtIs(reasoning[k - 1], Firsts(Reasons, events, |events|)[k - 1], events, |events|);
    }
  }

  lemma {:induction false} ShownAreLogged(activities: seq<Shown>, events: seq<Event>, k: nat, activityType: string)
    requires ActivitiesRefine(activities, events, |events|) && k <= |activities|
    ensures var ids := ShownIds(events, Firsts(Shows, events, |events|), k, activityType);
            && |ShownTo(activities, k, activityType)| == |ids|
            && forall j :: 0 <= j < |ids| ==>
                 ShownTo(activities, k, activityType)[j]
                 == Announced(ids[j], Content(ContentShown(events, |events|, ids[j])))
  {
    if k > 0 {
      ShownAreLogged(activities, events, k - 1, activityType);
      assert ShownIs(activities[k - 1], Firsts(Shows, events, |events|)[k - 1], events, |events|);
    }
  }

  /** Whether `m` is of a kind that pairs by position. */
  predicate Pairs(m: Message) {
    m.Reasoning? || m.Activity? || (m.Assistant? && m.calls == [])
  }

  /** Whether `announced` is, place by place, what the log announced for messages of `m`'s kind. */
  ghost predicate AnnouncedAlike(events: seq<Event>, announced: seq<Announced>, m: Message)
    requires GroupOf(m).Some?
  {
    && |announced| == |AnnouncedIds(events, m)|
    && forall j :: 0 <= j < |announced| ==>
         && announced[j].id == AnnouncedIds(events, m)[j]
         && (SameBody(announced[j].body, KeyOf(m)) <==> Holds(events, announced[j].id, m))
  }

  lemma TextsAnnounced(events: seq<Event>, t: Transcript, m: Message)
    requires ItemsRefine(t.items, events, |events|) && m.Assistant? && m.calls == []
    ensures AnnouncedAlike(events, AnnouncedIn(t, TextAnswers), m)
  {
    var slots := Slots(events, |events|);
    forall i | 0 <= i < |slots| ensures TextItem(t.items[i], slots[i], events) {
      TextItemIsLogged(t.items[i], slots[i], events);
    }
    TextsAreLogged(t.items, slots, events, |t.items|);
    var announced := AnnouncedIn(t, TextAnswers);
    forall j | 0 <= j < |announced|
      ensures announced[j].id == AnnouncedIds(events, m)[j]
      ensures SameBody(announced[j].body, KeyOf(m)) <==> Holds(events, announced[j].id, m)
    {
      assert TextOf(announced[j], AnnouncedIds(events, m)[j], events);
    }
  }

  lemma ThoughtsAnnounced(events: seq<Event>, t: Transcript, m: Message)
    requires ThoughtsRefine(t.reasoning, events, |events|) && m.Reasoning?
    ensures AnnouncedAlike(events, AnnouncedIn(t, Reasonings), m)
  {
    ThoughtsAreLogged(t.reasoning, events, |t.reasoning|);
  }

  lemma ActivitiesAnnounced(events: seq<Event>, t: Transcript, m: Message)
    requires ActivitiesRefine(t.activities, events, |events|) && m.Activity?
    ensures AnnouncedAlike(events, AnnouncedIn(t, ActivitiesOf(m.activityType)), m)
  {
    ShownAreLogged(t.activities, events, |t.activities|, m.activityType);
  }

  lemma KindAnnounced(events: seq<Event>, t: Transcript, m: Message)
    requires Recorded(t, events) && Pairs(m)
    ensures AnnouncedAlike(events, AnnouncedIn(t, GroupOf(m).value), m)
  {
    match m {
      case Assistant(_, _, _) => TextsAnnounced(events, t, m);
      case Reasoning(_, _) => ThoughtsAnnounced(events, t, m);
      case Activity(_, _, _) => ActivitiesAnnounced(events, t, m);
    }
  }

  lemma {:induction false} KindIsGroup(messages: seq<Message>, n: nat, m: Message)
    requires n <= |messages| && GroupOf(m).Some?
    ensures KindBefore(messages, n, m) == |RowTo(messages, n, GroupOf(m).value)|
  {
    if n > 0 {
      KindIsGroup(messages, n - 1, m);
      AlikeIsSameKey(messages[n - 1], m);
    }
  }

  /** What the `k`-th announced of a kind is to be compared with, in the dump and in the row of its group. */
  lemma BodyAtPlace(events: seq<Event>, t: Transcript, messages: seq<Message>, m: Message, q: nat)
    requires Recorded(t, events) && Pairs(m) && q < |messages| && SameKind(messages[q], m)
    requires |AnnouncedIn(t, GroupOf(m).value)| == |Row(messages, GroupOf(m).value)|
    ensures GroupOf(messages[q]) == GroupOf(m)
    ensures KindBefore(messages, q, m) == Rank(messages, q, GroupOf(m).value) < |Row(messages, GroupOf(m).value)|
    ensures |AnnouncedIds(events, m)| == |Row(messages, GroupOf(m).value)|
    ensures var k := KindBefore(messages, q, m);
            SameBody(AnnouncedIn(t, GroupOf(m).value)[k].body, Row(messages, GroupOf(m).value)[k].key)
            <==> Holds(events, AnnouncedIds(events, m)[k], messages[q])
  {
    AlikeIsSameKey(messages[q], m);
    KindIsGroup(messages, q, m);
    RowAtRank(messages, q, GroupOf(m).value);
    KindAnnounced(events, t, messages[q]);
    assert AnnouncedIds(events, m) == AnnouncedIds(events, messages[q]);
  }

  /** The dumped message at a place of its kind. */
  lemma KindAtPlace(messages: seq<Message>, m: Message, k: nat) returns (q: nat)
    requires GroupOf(m).Some? && k < |Row(messages, GroupOf(m).value)|
    ensures q < |messages| && SameKind(messages[q], m) && KindBefore(messages, q, m) == k
  {
    q := PlaceIn(messages, GroupOf(m).value, k);
    AlikeIsSameKey(messages[q], m);
    KindIsGroup(messages, q, m);
  }

  lemma PairsByKind(events: seq<Event>, t: Transcript, messages: seq<Message>, m: Message)
    requires Recorded(t, events) && Pairs(m)
    requires SameBodies(AnnouncedIn(t, GroupOf(m).value), Row(messages, GroupOf(m).value))
    ensures KindPairs(events, messages, m)
  {
    KindAnnounced(events, t, m);
    KindIsGroup(messages, |messages|, m);
    forall q: nat | q < |messages| && SameKind(messages[q], m)
      ensures KindBefore(messages, q, m) < |AnnouncedIds(events, m)|
      ensures Holds(events, AnnouncedIds(events, m)[KindBefore(messages, q, m)], messages[q])
    {
      BodyAtPlace(events, t, messages, m, q);
    }
  }

  lemma PairsByGroup(events: seq<Event>, t: Transcript, messages: seq<Message>, m: Message)
    requires Recorded(t, events) && Pairs(m) && KindPairs(events, messages, m)
    ensures SameBodies(AnnouncedIn(t, GroupOf(m).value), Row(messages, GroupOf(m).value))
  {
    var announced := AnnouncedIn(t, GroupOf(m).value);
    var row := Row(messages, GroupOf(m).value);
    KindAnnounced(events, t, m);
    KindIsGroup(messages, |messages|, m);
    forall k: nat | k < |row| ensures SameBody(announced[k].body, row[k].key) {
      var q := KindAtPlace(messages, m, k);
      BodyAtPlace(events, t, messages, m, q);
    }
  }

  lemma PlaceStreamed(t: Transcript, messages: seq<Message>, p: nat)
    requires p < |messages| && Pairs(messages[p])
    ensures var group := GroupOf(messages[p]).value;
            var announced, k := AnnouncedIn(t, group), Rank(messages, p, group);
            Streamed(t, messages, p)
            == if SameBodies(announced, Row(messages, group)) && k < |announced| then Some(announced[k].id) else None
  {
  }

  lemma PlaceAnnounced(events: seq<Event>, t: Transcript, messages: seq<Message>, p: nat, id: Id)
    requires Recorded(t, events) && p < |messages| && Pairs(messages[p])
    ensures Streamed(t, messages, p) == Some(id) <==> InPlace(events, messages, p, id)
  {
    var m := messages[p];
    KindAnnounced(events, t, m);
    KindIsGroup(messages, p, m);
    PlaceStreamed(t, messages, p);
    if KindPairs(events, messages, m) {
      PairsByGroup(events, t, messages, m);
    } else if SameBodies(AnnouncedIn(t, GroupOf(m).value), Row(messages, GroupOf(m).value)) {
      PairsByKind(events, t, messages, m);
    }
  }

  // ---- All of them ----------------------------------------------------------------------------

  lemma StreamedIsAnnounced(events: seq<Event>, t: Transcript, messages: seq<Message>, p: nat, id: Id)
    requires Recorded(t, events) && p < |messages|
    ensures Streamed(t, messages, p) == Some(id) <==> Announces(events, messages, p, id)
  {
    if messages[p].Tool? {
      ResultAnnounced(events, t, messages, p, id);
    } else if messages[p].Assistant? && messages[p].calls != [] {
      ParentAnnounced(events, t, messages, p, id);
    } else if Pairs(messages[p]) {
      PlaceAnnounced(events, t, messages, p, id);
    }
  }

  /** Whether `messages[p]` is the first the log announced `id` for. */
  ghost predicate AnnouncedFirst(events: seq<Event>, messages: seq<Message>, p: nat, id: Id)
    requires p < |messages|
  {
    Announces(events, messages, p, id) && forall i: nat :: i < p ==> !Announces(events, messages, i, id)
  }

  /** An id goes to the first message it is offered to. */
  lemma TakenByTheFirst(messages: seq<Message>, offers: seq<Option<Id>>, p: nat, id: Id)
    requires p < |messages| == |offers|
    ensures Accepted(messages, offers, {}, {}, p) == Some(id)
            <==> offers[p] == Some(id) && forall i: nat :: i < p ==> offers[i] != Some(id)
  {
    TakenIsReservedOrLent(messages, offers, {}, {}, p, id);
    if i: nat :| i < p && offers[i] == Some(id) {
      SomeoneTakesIt(messages, offers, i, p);
    }
  }

  lemma SomeoneTakesIt(messages: seq<Message>, offers: seq<Option<Id>>, i: nat, n: nat)
    requires i < n <= |messages| == |offers| && offers[i].Some?
    ensures AcceptedBefore(messages, offers, {}, {}, n, offers[i].value)
  {
    TakenIsReservedOrLent(messages, offers, {}, {}, i, offers[i].value);
    if Accepted(messages, offers, {}, {}, i) != offers[i] {
      var j: nat :| j < i && Accepted(messages, offers, {}, {}, j) == offers[i];
    }
  }

  lemma ClaimedIsAnnouncedFirst(events: seq<Event>, t: Transcript, messages: seq<Message>, p: nat, id: Id)
    requires Recorded(t, events) && p < |messages|
    ensures Claimed(t, messages, p) == Some(id) <==> AnnouncedFirst(events, messages, p, id)
  {
    var offers := StreamedIds(t, messages);
    TakenByTheFirst(messages, offers, p, id);
    forall i: nat | i <= p ensures offers[i] == Some(id) <==> Announces(events, messages, i, id) {
      StreamedIsAnnounced(events, t, messages, i, id);
    }
  }

  /**
   A completed run's dump is stored under the ids the log announced and no others: each message keeps all but its id,
   takes the id it is the first the log announced it for, and keeps its own where there is none.
   */
  lemma NamedFromTheLog(events: seq<Event>, messages: seq<Message>, p: nat)
    requires Run(events, |events|).Some? && p < |messages|
    ensures var m := WithStreamedIds(Run(events, |events|).value, messages)[p];
            && SameButId(messages[p], m)
            && (forall id :: AnnouncedFirst(events, messages, p, id) ==> m.id == id)
            && (m != messages[p] ==> AnnouncedFirst(events, messages, p, m.id))
  {
    var t := Run(events, |events|).value;
    RunIsRecorded(events);
    ClaimedPointwise(t, messages, p);
    forall id ensures Claimed(t, messages, p) == Some(id) <==> AnnouncedFirst(events, messages, p, id) {
      ClaimedIsAnnouncedFirst(events, t, messages, p, id);
    }
  }
}
