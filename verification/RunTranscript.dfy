/**
 The messages a run has streamed so far, rebuilt from its events, and the ids those events announced.

 `Transcript` is the observer's state as a value and `Next` one event's effect on it; the class
 `Observer` holds the same state in fields and updates it in place.
 */
module RunTranscript {
  import opened Messages
  import opened LendStoredIds

  type Fields = map<string, Json>

  datatype Event =
    | TextStart(messageId: Id)
    | TextContent(messageId: Id, delta: string)
    | CallStart(callId: Id, name: string, parent: Option<Id>)
    | CallArgs(callId: Id, delta: string)
    | CallEnd(callId: Id)
    | CallResult(messageId: Id, callId: Id, content: string, outcome: Option<string>)
    | ReasoningStart(messageId: Id)
    | ReasoningContent(messageId: Id, delta: string)
    | ActivitySnapshot(messageId: Id, activityType: string, fields: Fields, keep: bool)
    | ActivityDelta(messageId: Id, activityType: string)
    | OtherEvent

  /** An assistant message under construction, or a finished tool result. */
  datatype Item =
    | Draft(messageId: Id, text: seq<string>, calls: seq<ToolCall>)
    | Result(messageId: Id, callId: Id, content: string, outcome: Option<string>)

  /** A tool call whose arguments are still streaming. */
  datatype PendingCall = PendingCall(name: string, parent: Option<Id>, args: seq<string>)

  datatype CallParent = CallParent(callId: Id, parent: Option<Id>)

  datatype Thought = Thought(messageId: Id, deltas: seq<string>)

  /** A streamed activity; its content is lost once a delta changed it. */
  datatype Shown = Shown(messageId: Id, activityType: string, content: Option<Fields>)

  datatype Transcript = Transcript(
    items: seq<Item>,
    pending: map<Id, PendingCall>,
    callParents: seq<CallParent>,
    reasoning: seq<Thought>,
    activities: seq<Shown>)

  const EMPTY := Transcript([], map[], [], [], [])

  function Join(parts: seq<string>): string {
    if parts == [] then "" else Join(parts[..|parts| - 1]) + parts[|parts| - 1]
  }

  // ---- One event ----------------------------------------------------------------------------

  /** What an event does to the draft it names. */
  datatype Mention = Opened | Said(delta: string) | Called(call: ToolCall)

  function Apply(draft: Item, mention: Mention): (draft': Item)
    requires draft.Draft?
    ensures draft'.Draft? && draft'.messageId == draft.messageId
  {
    match mention
    case Opened => draft
    case Said(delta) => draft.(text := draft.text + [delta])
    case Called(call) => draft.(calls := draft.calls + [call])
  }

  predicate IsDraft(item: Item, id: Id) {
    item.Draft? && item.messageId == id
  }

  /** The last of the first `n` items that is the draft of `id`. */
  function DraftAt(items: seq<Item>, n: nat, id: Id): (at: Option<nat>)
    requires n <= |items|
    ensures at.Some? ==> at.value < n && IsDraft(items[at.value], id)
    ensures at.None? ==> forall i :: 0 <= i < n ==> !IsDraft(items[i], id)
  {
    if n == 0 then None
    else if IsDraft(items[n - 1], id) then Some(n - 1)
    else DraftAt(items, n - 1, id)
  }

  /** The items once the draft of `id` was mentioned, the draft made at the end when there was none. */
  function Mentioned(items: seq<Item>, id: Id, mention: Mention): seq<Item> {
    match DraftAt(items, |items|, id)
    case Some(i) => items[i := Apply(items[i], mention)]
    case None => items + [Apply(Draft(id, [], []), mention)]
  }

  function ThoughtAt(reasoning: seq<Thought>, n: nat, id: Id): (at: Option<nat>)
    requires n <= |reasoning|
    ensures at.Some? ==> at.value < n && reasoning[at.value].messageId == id
  {
    if n == 0 then None
    else if reasoning[n - 1].messageId == id then Some(n - 1)
    else ThoughtAt(reasoning, n - 1, id)
  }

  /** The reasoning under `id` with more said, announced at the end when it was not yet. */
  function Reasoned(reasoning: seq<Thought>, id: Id, deltas: seq<string>): seq<Thought> {
    match ThoughtAt(reasoning, |reasoning|, id)
    case Some(i) => reasoning[i := Thought(id, reasoning[i].deltas + deltas)]
    case None => reasoning + [Thought(id, deltas)]
  }

  function ShownAt(activities: seq<Shown>, n: nat, id: Id): (at: Option<nat>)
    requires n <= |activities|
    ensures at.Some? ==> at.value < n && activities[at.value].messageId == id
  {
    if n == 0 then None
    else if activities[n - 1].messageId == id then Some(n - 1)
    else ShownAt(activities, n - 1, id)
  }

  /** A second snapshot keeps the first one's place and type, and its content only when asked to. */
  function Snapshotted(activities: seq<Shown>, id: Id, activityType: string, content: Fields, keep: bool): seq<Shown> {
    match ShownAt(activities, |activities|, id)
    case Some(i) => if keep then activities else activities[i := activities[i].(content := Some(content))]
    case None => activities + [Shown(id, activityType, Some(content))]
  }

  /** A delta leaves nothing to compare. */
  function Patched(activities: seq<Shown>, id: Id, activityType: string): seq<Shown> {
    match ShownAt(activities, |activities|, id)
    case Some(i) => activities[i := activities[i].(content := None)]
    case None => activities + [Shown(id, activityType, None)]
  }

  /** The draft a finished call belongs to: its parent's, or its own when it names none. */
  function DraftOf(parent: Option<Id>, callId: Id): Id {
    if parent.Some? && parent.value != "" then parent.value else callId
  }

  /** Arguments and ends are refused for a call that is not open: the look-up fails. */
  predicate Accepts(t: Transcript, e: Event) {
    (e.CallArgs? || e.CallEnd?) ==> e.callId in t.pending
  }

  function Next(t: Transcript, e: Event): Transcript
    requires Accepts(t, e)
  {
    match e
    case TextStart(id) => t.(items := Mentioned(t.items, id, Opened))
    case TextContent(id, delta) => t.(items := Mentioned(t.items, id, Said(delta)))
    case CallStart(callId, name, parent) =>
      t.(pending := t.pending[callId := PendingCall(name, parent, [])],
         callParents := t.callParents + [CallParent(callId, parent)])
    case CallArgs(callId, delta) =>
      t.(pending := t.pending[callId := t.pending[callId].(args := t.pending[callId].args + [delta])])
    case CallEnd(callId) =>
      var call := t.pending[callId];
      t.(pending := t.pending - {callId},
         items := Mentioned(t.items, DraftOf(call.parent, callId),
             Called(ToolCall(callId, call.name, Join(call.args)))))
    case CallResult(id, callId, content, outcome) => t.(items := t.items + [Result(id, callId, content, outcome)])
    case ReasoningStart(id) => t.(reasoning := Reasoned(t.reasoning, id, []))
    case ReasoningContent(id, delta) => t.(reasoning := Reasoned(t.reasoning, id, [delta]))
    case ActivitySnapshot(id, activityType, fields, keep) =>
      t.(activities := Snapshotted(t.activities, id, activityType, fields, keep))
    case ActivityDelta(id, activityType) => t.(activities := Patched(t.activities, id, activityType))
    case OtherEvent => t
  }

  /** The transcript after the first `n` events, or nothing once an event was refused. */
  function Run(events: seq<Event>, n: nat): Option<Transcript>
    requires n <= |events|
  {
    if n == 0 then Some(EMPTY)
    else
      match Run(events, n - 1)
      case None => None
      case Some(t) => if Accepts(t, events[n - 1]) then Some(Next(t, events[n - 1])) else None
  }

  // ---- What is stored -----------------------------------------------------------------------

  predicate Blank(item: Item) {
    item.Draft? && Join(item.text) == "" && item.calls == []
  }

  function MessageOf(item: Item): (m: Message)
    ensures m.id == item.messageId
  {
    match item
    case Draft(id, text, calls) => Assistant(id, if Join(text) == "" then None else Some(Join(text)), calls)
    case Result(id, callId, content, outcome) => Tool(id, callId, content, outcome)
  }

  /** The messages of the first `n` items, in stream order, without the drafts nothing was said in. */
  function MessagesTo(items: seq<Item>, n: nat): seq<Message>
    requires n <= |items|
  {
    if n == 0 then []
    else MessagesTo(items, n - 1) + if Blank(items[n - 1]) then [] else [MessageOf(items[n - 1])]
  }

  function MessagesOf(t: Transcript): seq<Message> {
    MessagesTo(t.items, |t.items|)
  }

  // ---- The ids the stream announced, lent to a dump -------------------------------------------

  /** What was streamed under an announced id. */
  datatype Body = Words(text: string) | Content(content: Option<Fields>)

  datatype Announced = Announced(id: Id, body: Body)

  /** The first `n` items' drafts without a tool call, empty ones included. */
  function TextDraftsTo(items: seq<Item>, n: nat): seq<Announced>
    requires n <= |items|
  {
    if n == 0 then []
    else if items[n - 1].Draft? && items[n - 1].calls == []
    then TextDraftsTo(items, n - 1) + [Announced(items[n - 1].messageId, Words(Join(items[n - 1].text)))]
    else TextDraftsTo(items, n - 1)
  }

  function ThoughtsTo(reasoning: seq<Thought>, n: nat): seq<Announced>
    requires n <= |reasoning|
  {
    if n == 0 then []
    else ThoughtsTo(reasoning, n - 1) + [Announced(reasoning[n - 1].messageId, Words(Join(reasoning[n - 1].deltas)))]
  }

  function ShownTo(activities: seq<Shown>, n: nat, activityType: string): seq<Announced>
    requires n <= |activities|
  {
    if n == 0 then []
    else
      ShownTo(activities, n - 1, activityType)
      + if activities[n - 1].activityType == activityType
        then [Announced(activities[n - 1].messageId, Content(activities[n - 1].content))] else []
  }

  /** The announced messages of a group that pairs by position, in order. */
  function AnnouncedIn(t: Transcript, group: Group): seq<Announced> {
    match group
    case TextAnswers => TextDraftsTo(t.items, |t.items|)
    case Reasonings => ThoughtsTo(t.reasoning, |t.reasoning|)
    case ActivitiesOf(activityType) => ShownTo(t.activities, |t.activities|, activityType)
    case _ => []
  }

  /** Whether a dumped message holds what was streamed: texts but for newlines, contents but for `canonical_system`. */
  predicate SameBody(body: Body, key: Key) {
    match (body, key)
    case (Words(text), TextKey(flat)) => Flat(text) == flat
    case (Content(content), ContentKey(dumped)) => content == Some(dumped - {"canonical_system"})
    case _ => false
  }

  /** The ids of a group to lend by position: all of them, or none when any pair or the counts disagree. */
  function ByPosition(announced: seq<Announced>, dumped: seq<Entry>): (ids: seq<Id>)
    ensures ids == [] || |ids| == |announced| == |dumped|
  {
    if |announced| == |dumped| && forall k :: 0 <= k < |dumped| ==> SameBody(announced[k].body, dumped[k].key)
    then seq(|announced|, k requires 0 <= k < |announced| => announced[k].id)
    else []
  }

  /** The result messages streamed for a call among the first `n` items. */
  function ResultsTo(items: seq<Item>, n: nat, callId: Id): seq<Id>
    requires n <= |items|
  {
    if n == 0 then []
    else
      ResultsTo(items, n - 1, callId)
      + if items[n - 1].Result? && items[n - 1].callId == callId then [items[n - 1].messageId] else []
  }

  /** How many of the first `n` dumped messages answer a call. */
  function AnswersTo(messages: seq<Message>, n: nat, callId: Id): nat
    requires n <= |messages|
  {
    if n == 0 then 0
    else
      AnswersTo(messages, n - 1, callId)
      + if messages[n - 1].Tool? && messages[n - 1].callId == callId then 1 else 0
  }

  /** The parents a call started under, in order. */
  function ParentsTo(callParents: seq<CallParent>, n: nat, callId: Id): seq<Option<Id>>
    requires n <= |callParents|
  {
    if n == 0 then []
    else
      ParentsTo(callParents, n - 1, callId)
      + if callParents[n - 1].callId == callId then [callParents[n - 1].parent] else []
  }

  function CallsIn(m: Message): seq<ToolCall> {
    if m.Assistant? then m.calls else []
  }

  /** How often a call stands among the first `n` of `calls`. */
  function UsesIn(calls: seq<ToolCall>, n: nat, callId: Id): nat
    requires n <= |calls|
  {
    if n == 0 then 0 else UsesIn(calls, n - 1, callId) + if calls[n - 1].id == callId then 1 else 0
  }

  /** How often a call stands in the first `n` dumped messages. */
  function UsesTo(messages: seq<Message>, n: nat, callId: Id): nat
    requires n <= |messages|
  {
    if n == 0 then 0
    else UsesTo(messages, n - 1, callId) + UsesIn(CallsIn(messages[n - 1]), |CallsIn(messages[n - 1])|, callId)
  }

  /** The k-th value queued, or nothing once there is none. */
  function Queued<T>(queue: seq<Option<T>>, k: nat): Option<T> {
    if k < |queue| then queue[k] else None
  }

  /** The parents the first `i` calls of `messages[p]` streamed under, matched in order per call id. */
  function ParentsFound(t: Transcript, messages: seq<Message>, p: nat, i: nat): set<Option<Id>>
    requires p < |messages| && i <= |CallsIn(messages[p])|
  {
    if i == 0 then {}
    else
      var callId := CallsIn(messages[p])[i - 1].id;
      var k := UsesTo(messages, p, callId) + UsesIn(CallsIn(messages[p]), i - 1, callId);
      ParentsFound(t, messages, p, i - 1) + {Queued(ParentsTo(t.callParents, |t.callParents|, callId), k)}
  }

  /** The one element of `found`, when there is just one and it is an id. */
  function Only(found: set<Option<Id>>): (parent: Option<Id>)
    ensures parent.Some? ==> found == {parent}
    ensures forall x :: found == {x} ==> parent == x
  {
    if exists x :: x in found && found == {x} then
      var x :| x in found && found == {x};
      x
    else None
  }

  /** The text streamed under a draft's id, the empty one when there is no such draft. */
  function DraftText(items: seq<Item>, id: Id): string {
    match DraftAt(items, |items|, id)
    case Some(i) => Join(items[i].text)
    case None => ""
  }

  /** The one message id every call of `messages[p]` streamed under, when its text is the message's. */
  function ParentHolding(t: Transcript, messages: seq<Message>, p: nat): Option<Id>
    requires p < |messages| && messages[p].Assistant?
  {
    var parent := Only(ParentsFound(t, messages, p, |messages[p].calls|));
    if parent.Some? && Flat(DraftText(t.items, parent.value)) == Flat(OrEmpty(messages[p].answer)) then parent else None
  }

  /** The id the stream announced for `messages[p]`, before any question of who else claims it. */
  function Streamed(t: Transcript, messages: seq<Message>, p: nat): Option<Id>
    requires p < |messages|
  {
    match GroupOf(messages[p])
    case None => None
    case Some(Tools) =>
      var results := ResultsTo(t.items, |t.items|, messages[p].callId);
      var k := AnswersTo(messages, p, messages[p].callId);
      if k < |results| then Some(results[k]) else None
    case Some(CallAnswers) => ParentHolding(t, messages, p)
    case Some(group) =>
      var ids := ByPosition(AnnouncedIn(t, group), Row(messages, group));
      var k := Rank(messages, p, group);
      if k < |ids| then Some(ids[k]) else None
  }

  function StreamedIds(t: Transcript, messages: seq<Message>): (offers: seq<Option<Id>>)
    ensures |offers| == |messages|
  {
    seq(|messages|, p requires 0 <= p < |messages| => Streamed(t, messages, p))
  }

  /** `messages`, each under the id the stream announced for it. An id is claimed by the first that takes it. */
  function WithStreamedIds(t: Transcript, messages: seq<Message>): (out: seq<Message>)
    ensures |out| == |messages|
  {
    Take(messages, StreamedIds(t, messages), {}, {}, |messages|).out
  }
}
