/**
 Lending a dump the ids its stream announced: nothing is lent another message's id, and a dump of
 what the stream said comes back under exactly the streamed ids.
 */
module TranscriptIds {
  import opened Messages
  import opened LendStoredIds
  import opened LendingLaws
  import opened RunTranscript
  import opened TranscriptLog

  /** The announced id `messages[p]` takes, if any. */
  function Claimed(t: Transcript, messages: seq<Message>, p: nat): Option<Id>
    requires p < |messages|
  {
    Accepted(messages, StreamedIds(t, messages), {}, {}, p)
  }

  lemma ClaimedPointwise(t: Transcript, messages: seq<Message>, p: nat)
    requires p < |messages|
    ensures WithStreamedIds(t, messages)[p] == Under(messages[p], Claimed(t, messages, p))
    ensures Claimed(t, messages, p).Some? ==> Claimed(t, messages, p) == Streamed(t, messages, p)
  {
    TakenPointwise(messages, StreamedIds(t, messages), {}, {}, |messages|, p);
  }

  // ---- Each announced id names one thing --------------------------------------------------------

  ghost predicate OneDraftEach(items: seq<Item>) {
    forall i :: 0 <= i < |items| && items[i].Draft? ==> DraftAt(items, |items|, items[i].messageId) == Some(i)
  }

  ghost predicate OneThoughtEach(reasoning: seq<Thought>) {
    forall i :: 0 <= i < |reasoning| ==> ThoughtAt(reasoning, |reasoning|, reasoning[i].messageId) == Some(i)
  }

  ghost predicate FoundAt(activities: seq<Shown>, i: nat)
    requires i < |activities|
  {
    ShownAt(activities, |activities|, activities[i].messageId) == Some(i)
  }

  ghost predicate OneShownEach(activities: seq<Shown>) {
    forall i: nat :: i < |activities| ==> FoundAt(activities, i)
  }

  /** Whether no two drafts, no two thoughts and no two activities share an id. */
  ghost predicate OneEach(t: Transcript) {
    OneDraftEach(t.items) && OneThoughtEach(t.reasoning) && OneShownEach(t.activities)
  }

  lemma {:induction false} DraftAtAgrees(items: seq<Item>, items': seq<Item>, n: nat, id: Id)
    requires n <= |items| && n <= |items'|
    requires forall i :: 0 <= i < n ==> (IsDraft(items[i], id) <==> IsDraft(items'[i], id))
    ensures DraftAt(items', n, id) == DraftAt(items, n, id)
  {
    if n > 0 {
      DraftAtAgrees(items, items', n - 1, id);
    }
  }

  lemma {:induction false} ThoughtAtAgrees(reasoning: seq<Thought>, reasoning': seq<Thought>, n: nat, id: Id)
    requires n <= |reasoning| && n <= |reasoning'|
    requires forall i :: 0 <= i < n ==> reasoning[i].messageId == reasoning'[i].messageId
    ensures ThoughtAt(reasoning', n, id) == ThoughtAt(reasoning, n, id)
  {
    if n > 0 {
      ThoughtAtAgrees(reasoning, reasoning', n - 1, id);
    }
  }

  lemma {:induction false} ShownAtAgrees(activities: seq<Shown>, activities': seq<Shown>, n: nat, id: Id)
    requires n <= |activities| && n <= |activities'|
    requires forall i :: 0 <= i < n ==> activities[i].messageId == activities'[i].messageId
    ensures ShownAt(activities', n, id) == ShownAt(activities, n, id)
  {
    if n > 0 {
      ShownAtAgrees(activities, activities', n - 1, id);
    }
  }

  lemma MentionKeepsOneEach(items: seq<Item>, id: Id, mention: Mention)
    requires OneDraftEach(items)
    ensures OneDraftEach(Mentioned(items, id, mention))
  {
    var items' := Mentioned(items, id, mention);
    forall i | 0 <= i < |items'| && items'[i].Draft?
      ensures DraftAt(items', |items'|, items'[i].messageId) == Some(i)
    {
      DraftAtAgrees(items, items', |items|, items'[i].messageId);
    }
  }

  lemma ResultKeepsOneEach(items: seq<Item>, result: Item)
    requires OneDraftEach(items) && result.Result?
    ensures OneDraftEach(items + [result])
  {
    var items' := items + [result];
    forall i | 0 <= i < |items'| && items'[i].Draft?
      ensures DraftAt(items', |items'|, items'[i].messageId) == Some(i)
    {
      DraftAtAgrees(items, items', |items|, items'[i].messageId);
    }
  }

  lemma ReasonedKeepsOneEach(reasoning: seq<Thought>, id: Id, deltas: seq<string>)
    requires OneThoughtEach(reasoning)
    ensures OneThoughtEach(Reasoned(reasoning, id, deltas))
  {
    var reasoning' := Reasoned(reasoning, id, deltas);
    forall i | 0 <= i < |reasoning'|
      ensures ThoughtAt(reasoning', |reasoning'|, reasoning'[i].messageId) == Some(i)
    {
      ThoughtAtAgrees(reasoning, reasoning', |reasoning|, reasoning'[i].messageId);
    }
  }

  lemma ShownChangeKeepsOneEach(activities: seq<Shown>, k: nat, content: Option<Fields>)
    requires OneShownEach(activities) && k < |activities|
    ensures OneShownEach(activities[k := activities[k].(content := content)])
  {
    var activities' := activities[k := activities[k].(content := content)];
    forall i: nat | i < |activities| ensures FoundAt(activities', i) {
      assert FoundAt(activities, i);
      ShownAtAgrees(activities, activities', |activities|, activities[i].messageId);
    }
  }

  /** `b` is `a` with one more. */
  ghost predicate OneLonger(a: seq<Shown>, b: seq<Shown>) {
    |b| == |a| + 1 && forall i :: 0 <= i < |a| ==> b[i].messageId == a[i].messageId
  }

  lemma ShownLonger(a: seq<Shown>, b: seq<Shown>, id: Id)
    requires OneLonger(a, b)
    ensures ShownAt(b, |b|, id) == if b[|a|].messageId == id then Some(|a|) else ShownAt(a, |a|, id)
  {
    ShownAtAgrees(a, b, |a|, id);
  }

  lemma ShownMoreFound(a: seq<Shown>, b: seq<Shown>, i: nat)
    requires OneLonger(a, b) && i < |b| && ShownAt(a, |a|, b[|a|].messageId).None?
    requires i < |a| ==> FoundAt(a, i)
    ensures FoundAt(b, i)
  {
    ShownLonger(a, b, b[i].messageId);
  }

  lemma ShownMoreKeepsOneEach(a: seq<Shown>, b: seq<Shown>)
    requires OneShownEach(a) && OneLonger(a, b) && ShownAt(a, |a|, b[|a|].messageId).None?
    ensures OneShownEach(b)
  {
    forall i: nat | i < |b| ensures FoundAt(b, i) {
      ShownMoreFound(a, b, i);
    }
  }

  lemma SnapshotKeepsOneEach(activities: seq<Shown>, id: Id, activityType: string, content: Fields, keep: bool)
    requires OneShownEach(activities)
    ensures OneShownEach(Snapshotted(activities, id, activityType, content, keep))
    ensures OneShownEach(Patched(activities, id, activityType))
  {
    match ShownAt(activities, |activities|, id) {
      case Some(i) =>
        ShownChangeKeepsOneEach(activities, i, Some(content));
        ShownChangeKeepsOneEach(activities, i, None);
      case None =>
        ShownMoreKeepsOneEach(activities, activities + [Shown(id, activityType, Some(content))]);
        ShownMoreKeepsOneEach(activities, activities + [Shown(id, activityType, None)]);
    }
  }

  lemma OneEachNext(t: Transcript, e: Event)
    requires OneEach(t) && Accepts(t, e)
    ensures OneEach(Next(t, e))
  {
    match e {
      case TextStart(id) => MentionKeepsOneEach(t.items, id, Opened);
      case TextContent(id, delta) => MentionKeepsOneEach(t.items, id, Said(delta));
      case CallEnd(c) =>
        var call := t.pending[c];
        MentionKeepsOneEach(t.items, DraftOf(call.parent, c), Called(ToolCall(c, call.name, Join(call.args))));
      case CallResult(id, c, content, outcome) => ResultKeepsOneEach(t.items, Result(id, c, content, outcome));
      case ReasoningStart(id) => ReasonedKeepsOneEach(t.reasoning, id, []);
      case ReasoningContent(id, delta) => ReasonedKeepsOneEach(t.reasoning, id, [delta]);
      case ActivitySnapshot(id, activityType, fields, keep) =>
        SnapshotKeepsOneEach(t.activities, id, activityType, fields, keep);
      case ActivityDelta(id, activityType) => SnapshotKeepsOneEach(t.activities, id, activityType, map[], false);
      case _ =>
    }
  }

  lemma {:induction false} OneEachAlways(events: seq<Event>, n: nat)
    requires n <= |events| && Run(events, n).Some?
    ensures OneEach(Run(events, n).value)
  {
    if n > 0 {
      OneEachAlways(events, n - 1);
      OneEachNext(Run(events, n - 1).value, events[n - 1]);
    }
  }

  // ---- No message is lent another's id -----------------------------------------------------------

  /** What was streamed under an announced id of a group. */
  ghost predicate StreamedUnder(t: Transcript, group: Group, id: Id, body: Body) {
    match group
    case TextAnswers => DraftAt(t.items, |t.items|, id).Some? && body == Words(DraftText(t.items, id))
    case Reasonings =>
      var at := ThoughtAt(t.reasoning, |t.reasoning|, id);
      at.Some? && body == Words(Join(t.reasoning[at.value].deltas))
    case ActivitiesOf(activityType) =>
      var at := ShownAt(t.activities, |t.activities|, id);
      at.Some? && t.activities[at.value].activityType == activityType && body == Content(t.activities[at.value].content)
    case _ => false
  }

  lemma {:induction false} TextDraftsSay(t: Transcript, n: nat, k: nat)
    requires OneEach(t) && n <= |t.items| && k < |TextDraftsTo(t.items, n)|
    ensures StreamedUnder(t, TextAnswers, TextDraftsTo(t.items, n)[k].id, TextDraftsTo(t.items, n)[k].body)
  {
    if k < |TextDraftsTo(t.items, n - 1)| {
      TextDraftsSay(t, n - 1, k);
    }
  }

  lemma {:induction false} ThoughtsSay(t: Transcript, n: nat, k: nat)
    requires OneEach(t) && n <= |t.reasoning| && k < |ThoughtsTo(t.reasoning, n)|
    ensures StreamedUnder(t, Reasonings, ThoughtsTo(t.reasoning, n)[k].id, ThoughtsTo(t.reasoning, n)[k].body)
  {
    if k < |ThoughtsTo(t.reasoning, n - 1)| {
      ThoughtsSay(t, n - 1, k);
    }
  }

  lemma {:induction false} ShownSay(t: Transcript, n: nat, activityType: string, k: nat)
    requires OneEach(t) && n <= |t.activities| && k < |ShownTo(t.activities, n, activityType)|
    ensures StreamedUnder(t, ActivitiesOf(activityType), ShownTo(t.activities, n, activityType)[k].id,
            ShownTo(t.activities, n, activityType)[k].body)
  {
    if k < |ShownTo(t.activities, n - 1, activityType)| {
      ShownSay(t, n - 1, activityType, k);
    } else {
      assert FoundAt(t.activities, n - 1);
    }
  }

  lemma AnnouncedSay(t: Transcript, group: Group, k: nat)
    requires OneEach(t) && k < |AnnouncedIn(t, group)|
    ensures StreamedUnder(t, group, AnnouncedIn(t, group)[k].id, AnnouncedIn(t, group)[k].body)
  {
    match group {
      case TextAnswers => TextDraftsSay(t, |t.items|, k);
      case Reasonings => ThoughtsSay(t, |t.reasoning|, k);
      case ActivitiesOf(activityType) => ShownSay(t, |t.activities|, activityType, k);
      case _ =>
    }
  }

  /** Whether `id` may name `m`: what was streamed under it is what `m` holds. */
  ghost predicate MayName(t: Transcript, messages: seq<Message>, p: nat, id: Id)
    requires p < |messages| && GroupOf(messages[p]).Some?
  {
    match GroupOf(messages[p]).value
    case Tools =>
      var results := ResultsTo(t.items, |t.items|, messages[p].callId);
      var k := AnswersTo(messages, p, messages[p].callId);
      k < |results| && results[k] == id
    case CallAnswers =>
      && Flat(DraftText(t.items, id)) == Flat(OrEmpty(messages[p].answer))
      && forall i :: 0 <= i < |messages[p].calls| ==> ParentTaken(t, messages, p, i) == Some(id)
    case group =>
      exists body :: StreamedUnder(t, group, id, body) && SameBody(body, KeyOf(messages[p]))
  }

  /** The parent the i-th call of `messages[p]` started under, matched in order per call id. */
  function ParentTaken(t: Transcript, messages: seq<Message>, p: nat, i: nat): Option<Id>
    requires p < |messages| && i < |CallsIn(messages[p])|
  {
    var c := CallsIn(messages[p])[i].id;
    Queued(ParentsTo(t.callParents, |t.callParents|, c), UsesTo(messages, p, c) + UsesIn(CallsIn(messages[p]), i, c))
  }

  lemma {:induction false} TakenIsFound(t: Transcript, messages: seq<Message>, p: nat, n: nat, i: nat)
    requires p < |messages| && i < n <= |CallsIn(messages[p])|
    ensures ParentTaken(t, messages, p, i) in ParentsFound(t, messages, p, n)
  {
    if i < n - 1 {
      TakenIsFound(t, messages, p, n - 1, i);
    }
  }

  lemma {:induction false} FoundIsTaken(t: Transcript, messages: seq<Message>, p: nat, n: nat, x: Option<Id>)
    returns (i: nat)
    requires p < |messages| && n <= |CallsIn(messages[p])| && x in ParentsFound(t, messages, p, n)
    ensures i < n && ParentTaken(t, messages, p, i) == x
  {
    if x in ParentsFound(t, messages, p, n - 1) {
      i := FoundIsTaken(t, messages, p, n - 1, x);
    } else {
      i := n - 1;
    }
  }

  lemma StreamedMayName(t: Transcript, messages: seq<Message>, p: nat)
    requires OneEach(t) && p < |messages| && Streamed(t, messages, p).Some?
    ensures MayName(t, messages, p, Streamed(t, messages, p).value)
  {
    match GroupOf(messages[p]).value {
      case Tools =>
      case CallAnswers =>
        var calls := messages[p].calls;
        forall i: nat | i < |calls| ensures ParentTaken(t, messages, p, i) == Streamed(t, messages, p) {
          TakenIsFound(t, messages, p, |calls|, i);
        }
      case group =>
        var k := Rank(messages, p, group);
        AnnouncedSay(t, group, k);
        RowAtRank(messages, p, group);
        assert SameBody(AnnouncedIn(t, group)[k].body, Row(messages, group)[k].key);
    }
  }

  /**
   For every stream and every dump of it: only ids change; a message takes a streamed id only when
   what was streamed under that id is what the message holds, newlines and `canonical_system` aside;
   tool results pair in order per call; and no streamed id is taken twice.
   */
  lemma NoMessageIsLentAnothersId(events: seq<Event>, messages: seq<Message>, p: nat)
    requires Run(events, |events|).Some? && p < |messages|
    ensures var t := Run(events, |events|).value;
            var m := WithStreamedIds(t, messages)[p];
            && SameButId(messages[p], m)
            && (m != messages[p] ==>
                  && GroupOf(messages[p]).Some?
                  && MayName(t, messages, p, m.id)
                  && forall q :: 0 <= q < p && WithStreamedIds(t, messages)[q] != messages[q] ==>
                      WithStreamedIds(t, messages)[q].id != m.id)
  {
    var t := Run(events, |events|).value;
    var out := WithStreamedIds(t, messages);
    OneEachAlways(events, |events|);
    ClaimedPointwise(t, messages, p);
    if Claimed(t, messages, p).Some? {
      StreamedMayName(t, messages, p);
      forall q: nat | q < p && out[q] != messages[q] ensures out[q].id != out[p].id {
        ClaimedPointwise(t, messages, q);
        AcceptedOnce(messages, StreamedIds(t, messages), {}, {}, q, p);
      }
    }
  }

  // ---- The round trip --------------------------------------------------------------------------

  /** The call that started under just this parent, once. */
  ghost predicate StartedUnder(t: Transcript, callId: Id, parent: Option<Id>) {
    ParentsTo(t.callParents, |t.callParents|, callId) == [parent]
  }

  /** A finished stream: distinct ids, nothing blank, every call started once and ended once. */
  ghost predicate Settled(t: Transcript) {
    && (forall i, j :: 0 <= i < j < |t.items| ==> t.items[i].messageId != t.items[j].messageId)
    && (forall i :: 0 <= i < |t.items| ==> !Blank(t.items[i]))
    && (forall i :: 0 <= i < |t.items| && t.items[i].Draft? ==> CallsSettled(t, t.items[i].calls))
    && (forall i, j, c :: 0 <= i < j < |t.items| && c in ItemCalls(t.items[i]) ==> c !in ItemCalls(t.items[j]))
  }

  ghost predicate CallsSettled(t: Transcript, calls: seq<ToolCall>) {
    && (forall a, b :: 0 <= a < b < |calls| ==> calls[a].id != calls[b].id)
    && (forall a :: 0 <= a < |calls| ==> |ParentsTo(t.callParents, |t.callParents|, calls[a].id)| == 1)
  }

  function ItemCalls(item: Item): set<Id> {
    match item
    case Draft(_, _, calls) => set c | c in calls :: c.id
    case Result(_, _, _, _) => {}
  }

  /** Whether every call of every draft started under that draft's own id. */
  ghost predicate CallsNameTheirDraft(t: Transcript) {
    forall i, a :: 0 <= i < |t.items| && t.items[i].Draft? && 0 <= a < |t.items[i].calls| ==>
                     StartedUnder(t, t.items[i].calls[a].id, Some(t.items[i].messageId))
  }

  /** A dump of just what was streamed, under whatever ids. */
  ghost predicate DumpOf(t: Transcript, dump: seq<Message>) {
    |dump| == |t.items| && forall i :: 0 <= i < |dump| ==> SameButId(dump[i], MessageOf(t.items[i]))
  }

  lemma {:induction false} AllStored(items: seq<Item>, n: nat)
    requires n <= |items| && forall i :: 0 <= i < |items| ==> !Blank(items[i])
    ensures |MessagesTo(items, n)| == n
    ensures forall i :: 0 <= i < n ==> MessagesTo(items, n)[i] == MessageOf(items[i])
  {
    if n > 0 {
      AllStored(items, n - 1);
    }
  }

  lemma DumpedItem(t: Transcript, dump: seq<Message>, i: nat)
    requires DumpOf(t, dump) && i < |dump|
    ensures dump[i].Assistant? <==> t.items[i].Draft?
    ensures t.items[i].Draft? ==> dump[i].calls == t.items[i].calls && OrEmpty(dump[i].answer) == Join(t.items[i].text)
    ensures t.items[i].Result? ==> dump[i].Tool? && dump[i].callId == t.items[i].callId
  {
    assert SameButId(dump[i], MessageOf(t.items[i]));
  }

  lemma {:induction false} AnswersAreResults(t: Transcript, dump: seq<Message>, n: nat, c: Id)
    requires DumpOf(t, dump) && n <= |dump|
    ensures AnswersTo(dump, n, c) == |ResultsTo(t.items, n, c)|
  {
    if n > 0 {
      AnswersAreResults(t, dump, n - 1, c);
      DumpedItem(t, dump, n - 1);
    }
  }

  lemma {:induction false} ResultsPrefix(items: seq<Item>, n: nat, m: nat, c: Id)
    requires n <= m <= |items|
    ensures ResultsTo(items, n, c) <= ResultsTo(items, m, c)
  {
    if n < m {
      ResultsPrefix(items, n, m - 1, c);
    }
  }

  lemma ResultRoundTrips(t: Transcript, dump: seq<Message>, p: nat)
    requires DumpOf(t, dump) && p < |dump| && t.items[p].Result?
    ensures Streamed(t, dump, p) == Some(t.items[p].messageId)
  {
    var c := t.items[p].callId;
    DumpedItem(t, dump, p);
    AnswersAreResults(t, dump, p, c);
    ResultsPrefix(t.items, p + 1, |t.items|, c);
  }

  ghost predicate SameBodies(announced: seq<Announced>, row: seq<Entry>) {
    |announced| == |row| && forall k :: 0 <= k < |row| ==> SameBody(announced[k].body, row[k].key)
  }

  lemma {:induction false} TextsAreDrafts(t: Transcript, dump: seq<Message>, n: nat)
    requires DumpOf(t, dump) && n <= |dump|
    ensures SameBodies(TextDraftsTo(t.items, n), RowTo(dump, n, TextAnswers))
  {
    if n > 0 {
      TextsAreDrafts(t, dump, n - 1);
      DumpedItem(t, dump, n - 1);
    }
  }

  lemma {:induction false} TextDraftsPrefix(items: seq<Item>, n: nat, m: nat)
    requires n <= m <= |items|
    ensures TextDraftsTo(items, n) <= TextDraftsTo(items, m)
  {
    if n < m {
      TextDraftsPrefix(items, n, m - 1);
    }
  }

  lemma TextRoundTrips(t: Transcript, dump: seq<Message>, p: nat)
    requires DumpOf(t, dump) && p < |dump| && t.items[p].Draft? && t.items[p].calls == []
    ensures Streamed(t, dump, p) == Some(t.items[p].messageId)
  {
    DumpedItem(t, dump, p);
    TextsAreDrafts(t, dump, p);
    TextsAreDrafts(t, dump, |dump|);
    TextDraftsPrefix(t.items, p + 1, |t.items|);
    var k := |TextDraftsTo(t.items, p)|;
    assert TextDraftsTo(t.items, |t.items|)[k] == TextDraftsTo(t.items, p + 1)[k];
  }

  lemma {:induction false} NotUsed(t: Transcript, dump: seq<Message>, n: nat, c: Id)
    requires DumpOf(t, dump) && n <= |dump|
    requires forall i :: 0 <= i < n ==> c !in ItemCalls(t.items[i])
    ensures UsesTo(dump, n, c) == 0
  {
    if n > 0 {
      NotUsed(t, dump, n - 1, c);
      NotUsedBy(dump[n - 1], t.items[n - 1], c);
    }
  }

  lemma NotUsedBy(m: Message, item: Item, c: Id)
    requires SameButId(m, MessageOf(item)) && c !in ItemCalls(item)
    ensures UsesIn(CallsIn(m), |CallsIn(m)|, c) == 0
  {
    NotUsedIn(CallsIn(m), |CallsIn(m)|, c);
  }

  lemma {:induction false} NotUsedIn(calls: seq<ToolCall>, n: nat, c: Id)
    requires n <= |calls|
    requires forall a :: 0 <= a < n ==> calls[a].id != c
    ensures UsesIn(calls, n, c) == 0
  {
    if n > 0 {
      NotUsedIn(calls, n - 1, c);
    }
  }

  lemma NotInAnEarlierDraft(t: Transcript, p: nat, a: nat, i: nat)
    requires Settled(t) && i < p < |t.items| && t.items[p].Draft? && a < |t.items[p].calls|
    ensures t.items[p].calls[a].id !in ItemCalls(t.items[i])
  {
    assert t.items[p].calls[a].id in ItemCalls(t.items[p]);
  }

  lemma NotEarlierInItsDraft(t: Transcript, p: nat, a: nat)
    requires Settled(t) && p < |t.items| && t.items[p].Draft? && a < |t.items[p].calls|
    ensures UsesIn(t.items[p].calls, a, t.items[p].calls[a].id) == 0
    ensures |ParentsTo(t.callParents, |t.callParents|, t.items[p].calls[a].id)| == 1
  {
    assert CallsSettled(t, t.items[p].calls);
    NotUsedIn(t.items[p].calls, a, t.items[p].calls[a].id);
  }

  lemma NotUsedBefore(t: Transcript, dump: seq<Message>, p: nat, a: nat)
    requires Settled(t) && DumpOf(t, dump) && p < |dump| && t.items[p].Draft? && a < |t.items[p].calls|
    ensures UsesTo(dump, p, t.items[p].calls[a].id) == 0
  {
    forall i | 0 <= i < p ensures t.items[p].calls[a].id !in ItemCalls(t.items[i]) {
      NotInAnEarlierDraft(t, p, a, i);
    }
    NotUsed(t, dump, p, t.items[p].calls[a].id);
  }

  lemma OneQueued<T>(queue: seq<Option<T>>)
    requires |queue| == 1
    ensures queue == [Queued(queue, 0)]
  {
  }

  /** In a settled stream every call of a draft takes the one parent it started under. */
  lemma TakesItsParent(t: Transcript, dump: seq<Message>, p: nat, a: nat)
    requires Settled(t) && DumpOf(t, dump) && p < |dump| && t.items[p].Draft? && a < |t.items[p].calls|
    ensures a < |CallsIn(dump[p])|
    ensures StartedUnder(t, t.items[p].calls[a].id, ParentTaken(t, dump, p, a))
  {
    DumpedItem(t, dump, p);
    NotUsedBefore(t, dump, p, a);
    NotEarlierInItsDraft(t, p, a);
    OneQueued(ParentsTo(t.callParents, |t.callParents|, t.items[p].calls[a].id));
  }

  lemma OnlyParent(t: Transcript, messages: seq<Message>, p: nat, parent: Option<Id>)
    requires p < |messages| && CallsIn(messages[p]) != [] && parent.Some?
    ensures Only(ParentsFound(t, messages, p, |CallsIn(messages[p])|)) == parent
            <==> forall i :: 0 <= i < |CallsIn(messages[p])| ==> ParentTaken(t, messages, p, i) == parent
  {
    var n := |CallsIn(messages[p])|;
    var found := ParentsFound(t, messages, p, n);
    forall i: nat | i < n ensures ParentTaken(t, messages, p, i) in found {
      TakenIsFound(t, messages, p, n, i);
    }
    if forall i :: 0 <= i < n ==> ParentTaken(t, messages, p, i) == parent {
      forall x | x in found ensures x == parent {
        var i := FoundIsTaken(t, messages, p, n, x);
      }
      assert ParentTaken(t, messages, p, 0) in found;
      assert found == {parent};
    }
  }

  lemma HoldsItsText(t: Transcript, dump: seq<Message>, p: nat)
    requires OneEach(t) && DumpOf(t, dump) && p < |dump| && t.items[p].Draft?
    ensures dump[p].Assistant? && DraftText(t.items, t.items[p].messageId) == OrEmpty(dump[p].answer)
  {
    DumpedItem(t, dump, p);
    assert DraftAt(t.items, |t.items|, t.items[p].messageId) == Some(p);
  }

  lemma CallsRoundTrip(t: Transcript, dump: seq<Message>, p: nat)
    requires Settled(t) && OneEach(t) && DumpOf(t, dump)
    requires p < |dump| && t.items[p].Draft? && t.items[p].calls != []
    ensures Streamed(t, dump, p) == Some(t.items[p].messageId)
            <==> forall a :: 0 <= a < |t.items[p].calls| ==>
                StartedUnder(t, t.items[p].calls[a].id, Some(t.items[p].messageId))
  {
    var own := Some(t.items[p].messageId);
    var calls := t.items[p].calls;
    DumpedItem(t, dump, p);
    OnlyParent(t, dump, p, own);
    HoldsItsText(t, dump, p);
    forall a: nat | a < |calls|
      ensures StartedUnder(t, calls[a].id, own) <==> ParentTaken(t, dump, p, a) == own
    {
      TakesItsParent(t, dump, p, a);
    }
    assert Streamed(t, dump, p) == ParentHolding(t, dump, p);
  }

  lemma {:induction false} DistinctOffersAccepted(messages: seq<Message>, offers: seq<Option<Id>>, p: nat)
    requires p < |messages| == |offers|
    requires forall i, j :: 0 <= i < j < |offers| && offers[i].Some? ==> offers[i] != offers[j]
    ensures Accepted(messages, offers, {}, {}, p) == offers[p]
  {
    if offers[p].Some? {
      TakenIsReservedOrLent(messages, offers, {}, {}, p, offers[p].value);
      forall i: nat | i < p ensures Accepted(messages, offers, {}, {}, i) != offers[p] {
        assert offers[i].Some? ==> offers[i] != offers[p];
      }
    }
  }

  lemma OwnIdsRoundTrip(t: Transcript, dump: seq<Message>)
    requires Settled(t) && DumpOf(t, dump)
    requires forall p :: 0 <= p < |dump| ==> Streamed(t, dump, p) == Some(t.items[p].messageId)
    ensures WithStreamedIds(t, dump) == MessagesOf(t)
  {
    AllStored(t.items, |t.items|);
    forall p: nat | p < |dump| ensures WithStreamedIds(t, dump)[p] == MessageOf(t.items[p]) {
      DistinctOffersAccepted(dump, StreamedIds(t, dump), p);
      ClaimedPointwise(t, dump, p);
    }
  }

  /**
   The round trip, and exactly when it holds: rename every stored message to a fresh id, lend the
   result the streamed ids, and the stored messages come back -- if and only if every call names the
   message it was streamed in.
   */
  lemma StreamedIdsRoundTrip(t: Transcript, dump: seq<Message>)
    requires Settled(t) && OneEach(t) && DumpOf(t, dump)
    requires forall i :: 0 <= i < |dump| ==> dump[i].id != t.items[i].messageId
    ensures WithStreamedIds(t, dump) == MessagesOf(t) <==> CallsNameTheirDraft(t)
  {
    if CallsNameTheirDraft(t) {
      forall p: nat | p < |dump| ensures Streamed(t, dump, p) == Some(t.items[p].messageId) {
        ItemRoundTrips(t, dump, p);
      }
      OwnIdsRoundTrip(t, dump);
    } else {
      AllStored(t.items, |t.items|);
      var p, a :| 0 <= p < |t.items| && t.items[p].Draft? && 0 <= a < |t.items[p].calls|
                  && !StartedUnder(t, t.items[p].calls[a].id, Some(t.items[p].messageId));
      CallsRoundTrip(t, dump, p);
      ClaimedPointwise(t, dump, p);
      assert WithStreamedIds(t, dump)[p] != MessagesOf(t)[p];
    }
  }

  lemma ItemRoundTrips(t: Transcript, dump: seq<Message>, p: nat)
    requires Settled(t) && OneEach(t) && DumpOf(t, dump) && CallsNameTheirDraft(t) && p < |dump|
    ensures Streamed(t, dump, p) == Some(t.items[p].messageId)
  {
    if t.items[p].Result? {
      ResultRoundTrips(t, dump, p);
    } else if t.items[p].calls == [] {
      TextRoundTrips(t, dump, p);
    } else {
      CallsRoundTrip(t, dump, p);
    }
  }

  /**
   An empty parent is not a missing one: the draft is kept under the call's id, but the empty id is
   what the dump is lent.
   */
  lemma EmptyParentLendsTheEmptyId()
    ensures var events := [CallStart("c", "f", Some("")), CallEnd("c")];
            var t := Run(events, 2).value;
            && Run(events, 2).Some?
            && MessagesOf(t) == [Assistant("c", None, [ToolCall("c", "f", "")])]
            && WithStreamedIds(t, [Assistant("fresh", None, [ToolCall("c", "f", "")])])
               == [Assistant("", None, [ToolCall("c", "f", "")])]
  {
    EmptyParentIsRecorded();
    EmptyParentIsLent();
  }

  /** What the two events leave. */
  const ONE_CALL := Transcript([Draft("c", [], [ToolCall("c", "f", "")])], map[], [CallParent("c", Some(""))], [], [])

  lemma EmptyParentIsRecorded()
    ensures Run([CallStart("c", "f", Some("")), CallEnd("c")], 2) == Some(ONE_CALL)
    ensures MessagesOf(ONE_CALL) == [Assistant("c", None, [ToolCall("c", "f", "")])]
  {
    var events := [CallStart("c", "f", Some("")), CallEnd("c")];
    var call := ToolCall("c", "f", "");
    var none: seq<string> := [];
    var t1 := Next(EMPTY, events[0]);
    assert Run(events, 1) == Some(t1);
    assert t1.pending == map["c" := PendingCall("f", Some(""), none)] && t1.pending - {"c"} == map[];
    assert Join(none) == "" && DraftAt(t1.items, 0, "c") == None;
    assert Apply(Draft("c", none, []), Called(call)).calls == [call];
    assert Next(t1, events[1]).items == Mentioned(t1.items, "c", Called(call)) == [Draft("c", none, [call])];
    assert Next(t1, events[1]) == ONE_CALL;
    assert MessagesTo(ONE_CALL.items, 1) == [Assistant("c", None, [call])];
  }

  lemma EmptyParentIsLent()
    ensures WithStreamedIds(ONE_CALL, [Assistant("fresh", None, [ToolCall("c", "f", "")])])
            == [Assistant("", None, [ToolCall("c", "f", "")])]
  {
    var t, call := ONE_CALL, ToolCall("c", "f", "");
    var dump := [Assistant("fresh", None, [call])];
    assert ParentsTo(t.callParents, 1, "c") == [Some("")];
    assert UsesTo(dump, 0, "c") == 0 && UsesIn([call], 0, "c") == 0;
    assert ParentsFound(t, dump, 0, 0) == {};
    assert ParentsFound(t, dump, 0, 1) == {Some("")};
    assert DraftAt(t.items, 1, "") == None;
    assert Streamed(t, dump, 0) == Some("");
    assert Take(dump, StreamedIds(t, dump), {}, {}, 0) == Lending([], {});
  }
}
