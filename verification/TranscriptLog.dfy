/**
 The transcript against the event log: what `Next` keeps incrementally is what a reader of the whole
 log would say -- which calls are open, which drafts exist in which order, what each one said.
 */
module TranscriptLog {
  import opened Messages
  import opened RunTranscript

  // ---- The log read as a whole --------------------------------------------------------------

  /** The start of the call that is open after the first `n` events. */
  function OpenSince(events: seq<Event>, n: nat, callId: Id): (start: Option<nat>)
    requires n <= |events|
    ensures start.Some? ==> start.value < n && events[start.value].CallStart? && events[start.value].callId == callId
  {
    if n == 0 then None
    else if events[n - 1].CallStart? && events[n - 1].callId == callId then Some(n - 1)
    else if events[n - 1].CallEnd? && events[n - 1].callId == callId then None
    else OpenSince(events, n - 1, callId)
  }

  /** Whether arguments and ends come only for calls that are open. */
  predicate WellBracketed(events: seq<Event>, n: nat)
    requires n <= |events|
  {
    forall i :: 0 <= i < n && (events[i].CallArgs? || events[i].CallEnd?) ==>
        OpenSince(events, i, events[i].callId).Some?
  }

  /** What was streamed for a call from event `from` up to event `n`, run together. */
  function Args(events: seq<Event>, from: nat, n: nat, callId: Id): string
    requires from <= n <= |events|
  {
    if n == from then ""
    else
      Args(events, from, n - 1, callId)
      + if events[n - 1].CallArgs? && events[n - 1].callId == callId then events[n - 1].delta else ""
  }

  /** The call that event `i` completes. */
  function Completed(events: seq<Event>, i: nat): Option<ToolCall>
    requires i < |events|
  {
    if !events[i].CallEnd? then None
    else
      match OpenSince(events, i, events[i].callId)
      case None => None
      case Some(start) =>
        Some(ToolCall(events[i].callId, events[start].name, Args(events, start, i, events[i].callId)))
  }

  /** The draft that event `i` adds to or opens: a call's is its parent's, or its own when it names none, or "". */
  function Names(events: seq<Event>, i: nat): Option<Id>
    requires i < |events|
  {
    match events[i]
    case TextStart(id) => Some(id)
    case TextContent(id, _) => Some(id)
    case CallEnd(callId) =>
      (match OpenSince(events, i, callId)
       case None => None
       case Some(start) =>
         var parent := events[start].parent;
         Some(if parent.Some? && parent.value != "" then parent.value else callId))
    case _ => None
  }

  /** Every delta of a message so far, run together. */
  function TextSaid(events: seq<Event>, n: nat, id: Id): string
    requires n <= |events|
  {
    if n == 0 then ""
    else
      TextSaid(events, n - 1, id)
      + if events[n - 1].TextContent? && events[n - 1].messageId == id then events[n - 1].delta else ""
  }

  /** The calls completed for a draft so far, in the order they ended. */
  function Calls(events: seq<Event>, n: nat, id: Id): seq<ToolCall>
    requires n <= |events|
  {
    if n == 0 then []
    else
      Calls(events, n - 1, id)
      + if Completed(events, n - 1).Some? && Names(events, n - 1) == Some(id) then [Completed(events, n - 1).value]
          else []
  }

  /** A place in the transcript: a draft's, from its first mention on, or a tool result's. */
  datatype Slot = DraftSlot(id: Id) | ResultSlot(event: Event)

  function Slots(events: seq<Event>, n: nat): seq<Slot>
    requires n <= |events|
  {
    if n == 0 then []
    else
      var before := Slots(events, n - 1);
      if events[n - 1].CallResult? then before + [ResultSlot(events[n - 1])]
      else
        match Names(events, n - 1)
        case None => before
        case Some(id) => if DraftSlot(id) in before then before else before + [DraftSlot(id)]
  }

  /** Each draft has one place, and takes it with the first event that names it. */
  lemma {:induction false} DraftsInFirstMentionOrder(events: seq<Event>, n: nat, k: nat) returns (i: nat)
    requires n <= |events| && k < |Slots(events, n)| && Slots(events, n)[k].DraftSlot?
    ensures i < n && Names(events, i) == Some(Slots(events, n)[k].id) && |Slots(events, i)| == k
    ensures forall j :: 0 <= j < i ==> Names(events, j) != Some(Slots(events, n)[k].id)
    ensures forall k' :: 0 <= k' < |Slots(events, n)| && k' != k ==> Slots(events, n)[k'] != Slots(events, n)[k]
  {
    var before := Slots(events, n - 1);
    if k < |before| {
      i := DraftsInFirstMentionOrder(events, n - 1, k);
    } else {
      i := n - 1;
      forall j | 0 <= j < i ensures Names(events, j) != Some(Slots(events, n)[k].id) {
        NamedHasSlot(events, j, n - 1);
      }
    }
  }

  lemma {:induction false} NamedHasSlot(events: seq<Event>, j: nat, n: nat)
    requires j < n <= |events|
    ensures Names(events, j).Some? ==> DraftSlot(Names(events, j).value) in Slots(events, n)
  {
    if j < n - 1 {
      NamedHasSlot(events, j, n - 1);
      SlotsGrow(events, n - 1);
    } else if Names(events, j).Some? {
      var before, now := Slots(events, j), Slots(events, n);
      assert DraftSlot(Names(events, j).value) !in before ==> now[|before|] == DraftSlot(Names(events, j).value);
    }
  }

  lemma SlotsGrow(events: seq<Event>, n: nat)
    requires n < |events|
    ensures Slots(events, n) <= Slots(events, n + 1)
  {
  }

  // ---- The transcript refines it --------------------------------------------------------------

  ghost predicate ItemIs(item: Item, slot: Slot, events: seq<Event>, n: nat)
    requires n <= |events|
  {
    match slot
    case DraftSlot(id) =>
      IsDraft(item, id) && Join(item.text) == TextSaid(events, n, id) && item.calls == Calls(events, n, id)
    case ResultSlot(e) =>
      e.CallResult? && item == Result(e.messageId, e.callId, e.content, e.outcome)
  }

  ghost predicate ItemsRefine(items: seq<Item>, events: seq<Event>, n: nat)
    requires n <= |events|
  {
    && |items| == |Slots(events, n)|
    && forall k :: 0 <= k < |items| ==> ItemIs(items[k], Slots(events, n)[k], events, n)
  }

  ghost predicate PendingRefines(t: Transcript, events: seq<Event>, n: nat, c: Id)
    requires n <= |events|
  {
    match OpenSince(events, n, c)
    case None => c !in t.pending
    case Some(start) =>
      && c in t.pending
      && t.pending[c].name == events[start].name
      && t.pending[c].parent == events[start].parent
      && Join(t.pending[c].args) == Args(events, start, n, c)
  }

  /** Whether a transcript says about the first `n` events what the log does. */
  ghost predicate Refines(t: Transcript, events: seq<Event>, n: nat)
    requires n <= |events|
  {
    && ItemsRefine(t.items, events, n)
    && forall c :: PendingRefines(t, events, n, c)
  }

  lemma JoinOneMore(parts: seq<string>, part: string)
    ensures Join(parts + [part]) == Join(parts) + part
  {
    assert (parts + [part])[..|parts|] == parts;
  }

  /** Joining runs the parts together, in order: so for every list of parts. */
  lemma {:induction false} JoinRunsTogether(a: seq<string>, b: seq<string>, part: string)
    ensures Join([]) == "" && Join([part]) == part
    ensures Join(a + b) == Join(a) + Join(b)
  {
    assert Join([part]) == Join([part][..0]) + part;
    if b == [] {
      assert a + b == a;
    } else {
      var most, last := b[..|b| - 1], b[|b| - 1];
      assert a + b == (a + most) + [last];
      JoinOneMore(a + most, last);
      JoinRunsTogether(a, most, part);
    }
  }

  /** A draft is found exactly when the log gave it a place, and there. */
  lemma DraftAtItsSlot(items: seq<Item>, events: seq<Event>, n: nat, id: Id)
    requires n <= |events| && ItemsRefine(items, events, n)
    ensures match DraftAt(items, |items|, id)
            case None => DraftSlot(id) !in Slots(events, n)
            case Some(i) => Slots(events, n)[i] == DraftSlot(id)
  {
    if DraftSlot(id) in Slots(events, n) {
      var k :| 0 <= k < |items| && Slots(events, n)[k] == DraftSlot(id);
      assert ItemIs(items[k], Slots(events, n)[k], events, n);
    }
    match DraftAt(items, |items|, id) {
      case None =>
      case Some(i) =>
        assert ItemIs(items[i], Slots(events, n)[i], events, n);
    }
  }

  /** What an event adds to the draft it names, and to no other. */
  function MentionOf(events: seq<Event>, n: nat): Option<Mention>
    requires n < |events|
  {
    match events[n]
    case TextStart(_) => Some(Opened)
    case TextContent(_, delta) => Some(Said(delta))
    case CallEnd(_) => if Completed(events, n).Some? then Some(Called(Completed(events, n).value)) else None
    case _ => None
  }

  lemma NothingSaid(item: Item, slot: Slot, events: seq<Event>, n: nat)
    requires n < |events| && ItemIs(item, slot, events, n)
    requires slot.ResultSlot? || Names(events, n) != Some(slot.id)
    ensures ItemIs(item, slot, events, n + 1)
  {
  }

  lemma OneMoreSaid(item: Item, events: seq<Event>, n: nat, id: Id)
    requires n < |events| && ItemIs(item, DraftSlot(id), events, n)
    requires Names(events, n) == Some(id) && MentionOf(events, n).Some?
    ensures ItemIs(Apply(item, MentionOf(events, n).value), DraftSlot(id), events, n + 1)
  {
    if events[n].TextContent? {
      JoinOneMore(item.text, events[n].delta);
    }
  }

  /** Before its first mention nothing was said in a draft. */
  lemma {:induction false} NothingBeforeFirstMention(events: seq<Event>, n: nat, id: Id)
    requires n <= |events| && DraftSlot(id) !in Slots(events, n)
    ensures TextSaid(events, n, id) == "" && Calls(events, n, id) == []
  {
    if n > 0 {
      SlotsGrow(events, n - 1);
      NamedHasSlot(events, n - 1, n);
      NothingBeforeFirstMention(events, n - 1, id);
    }
  }

  lemma MentionedItem(items: seq<Item>, events: seq<Event>, n: nat, id: Id, k: nat)
    requires n < |events| && ItemsRefine(items, events, n) && k < |items|
    requires Names(events, n) == Some(id) && MentionOf(events, n).Some?
    ensures ItemIs(Mentioned(items, id, MentionOf(events, n).value)[k], Slots(events, n)[k], events, n + 1)
  {
    DraftAtItsSlot(items, events, n, id);
    assert ItemIs(items[k], Slots(events, n)[k], events, n);
    if Slots(events, n)[k] == DraftSlot(id) {
      var i := DraftsInFirstMentionOrder(events, n, k);
      OneMoreSaid(items[k], events, n, id);
    } else {
      NothingSaid(items[k], Slots(events, n)[k], events, n);
    }
  }

  lemma MentionedItems(items: seq<Item>, events: seq<Event>, n: nat, id: Id)
    requires n < |events| && ItemsRefine(items, events, n)
    requires Names(events, n) == Some(id) && MentionOf(events, n).Some?
    ensures var items' := Mentioned(items, id, MentionOf(events, n).value);
            |items| <= |items'| && forall k :: 0 <= k < |items| ==>
                ItemIs(items'[k], Slots(events, n)[k], events, n + 1)
  {
    var items' := Mentioned(items, id, MentionOf(events, n).value);
    forall k: nat | k < |items| ensures ItemIs(items'[k], Slots(events, n)[k], events, n + 1) {
      MentionedItem(items, events, n, id, k);
    }
  }

  /** The draft a first mention makes. */
  lemma FirstMention(events: seq<Event>, n: nat, id: Id)
    requires n < |events| && Names(events, n) == Some(id) && MentionOf(events, n).Some?
             && DraftSlot(id) !in Slots(events, n)
    ensures ItemIs(Apply(Draft(id, [], []), MentionOf(events, n).value), DraftSlot(id), events, n + 1)
    ensures Slots(events, n + 1) == Slots(events, n) + [DraftSlot(id)]
  {
    NothingBeforeFirstMention(events, n, id);
    OneMoreSaid(Draft(id, [], []), events, n, id);
  }

  lemma FirstMentionRefines(items: seq<Item>, events: seq<Event>, n: nat, id: Id)
    requires n < |events| && ItemsRefine(items, events, n) && DraftSlot(id) !in Slots(events, n)
    requires Names(events, n) == Some(id) && MentionOf(events, n).Some?
    ensures ItemsRefine(Mentioned(items, id, MentionOf(events, n).value), events, n + 1)
  {
    DraftAtItsSlot(items, events, n, id);
    MentionedItems(items, events, n, id);
    FirstMention(events, n, id);
  }

  lemma LaterMentionRefines(items: seq<Item>, events: seq<Event>, n: nat, id: Id)
    requires n < |events| && ItemsRefine(items, events, n) && DraftSlot(id) in Slots(events, n)
    requires Names(events, n) == Some(id) && MentionOf(events, n).Some?
    ensures ItemsRefine(Mentioned(items, id, MentionOf(events, n).value), events, n + 1)
  {
    DraftAtItsSlot(items, events, n, id);
    MentionedItems(items, events, n, id);
    assert Slots(events, n + 1) == Slots(events, n);
  }

  lemma MentionRefines(items: seq<Item>, events: seq<Event>, n: nat, id: Id)
    requires n < |events| && ItemsRefine(items, events, n)
    requires Names(events, n) == Some(id) && MentionOf(events, n).Some?
    ensures ItemsRefine(Mentioned(items, id, MentionOf(events, n).value), events, n + 1)
  {
    if DraftSlot(id) in Slots(events, n) {
      LaterMentionRefines(items, events, n, id);
    } else {
      FirstMentionRefines(items, events, n, id);
    }
  }

  lemma ItemsStep(t: Transcript, events: seq<Event>, n: nat)
    requires n < |events| && Refines(t, events, n) && Accepts(t, events[n])
    ensures ItemsRefine(Next(t, events[n]).items, events, n + 1)
  {
    var e := events[n];
    if e.CallEnd? {
      assert PendingRefines(t, events, n, e.callId);
    }
    if MentionOf(events, n).Some? {
      MentionRefines(t.items, events, n, Names(events, n).value);
    } else {
      forall k | 0 <= k < |t.items| ensures ItemIs(t.items[k], Slots(events, n)[k], events, n + 1) {
        NothingSaid(t.items[k], Slots(events, n)[k], events, n);
      }
    }
  }

  lemma PendingStep(t: Transcript, events: seq<Event>, n: nat, c: Id)
    requires n < |events| && PendingRefines(t, events, n, c) && Accepts(t, events[n])
    ensures PendingRefines(Next(t, events[n]), events, n + 1, c)
  {
    var e := events[n];
    if e.CallArgs? && e.callId == c {
      JoinOneMore(t.pending[c].args, e.delta);
    }
  }

  lemma EventRefines(t: Transcript, events: seq<Event>, n: nat)
    requires 0 < n <= |events| && Refines(t, events, n - 1) && Accepts(t, events[n - 1])
    ensures Refines(Next(t, events[n - 1]), events, n)
  {
    var next := Next(t, events[n - 1]);
    ItemsStep(t, events, n - 1);
    forall c ensures PendingRefines(next, events, n, c) {
      PendingStep(t, events, n - 1, c);
    }
  }

  lemma BracketedIsAccepted(t: Transcript, events: seq<Event>, n: nat)
    requires 0 < n <= |events| && Refines(t, events, n - 1) && WellBracketed(events, n)
    ensures Accepts(t, events[n - 1])
  {
    var e := events[n - 1];
    if e.CallArgs? || e.CallEnd? {
      assert PendingRefines(t, events, n - 1, e.callId);
    }
  }

  lemma EventIsRecorded(events: seq<Event>, n: nat)
    requires 0 < n <= |events| && Run(events, n - 1).Some?
    requires Accepts(Run(events, n - 1).value, events[n - 1])
    ensures Run(events, n) == Some(Next(Run(events, n - 1).value, events[n - 1]))
  {
  }

  /**
   Recording never fails on a log that is well bracketed, and then the transcript holds, place by
   place, what the log says: each draft's text is the run of its deltas, its calls are the calls
   that ended for it, with the arguments streamed between their start and their end.
   */
  lemma {:induction false} RecordingRefinesTheLog(events: seq<Event>, n: nat)
    requires n <= |events| && WellBracketed(events, n)
    ensures Run(events, n).Some? && Refines(Run(events, n).value, events, n)
  {
    if n > 0 {
      RecordingRefinesTheLog(events, n - 1);
      var t := Run(events, n - 1).value;
      BracketedIsAccepted(t, events, n);
      EventRefines(t, events, n);
      EventIsRecorded(events, n);
    }
  }

  /** And it fails on every other. */
  lemma {:induction false} RecordingNeedsBrackets(events: seq<Event>, n: nat)
    requires n <= |events|
    ensures Run(events, n).Some? <==> WellBracketed(events, n)
  {
    if n > 0 {
      RecordingNeedsBrackets(events, n - 1);
      if WellBracketed(events, n) {
        RecordingRefinesTheLog(events, n);
      } else if WellBracketed(events, n - 1) {
        RecordingRefinesTheLog(events, n - 1);
        assert PendingRefines(Run(events, n - 1).value, events, n - 1, events[n - 1].callId);
      }
    }
  }

  // ---- What is stored --------------------------------------------------------------------------

  /** What the first `n` events leave stored for one place: a result whole, a draft unless nothing was said in it. */
  function StoredFor(events: seq<Event>, n: nat, slot: Slot): seq<Message>
    requires n <= |events|
  {
    match slot
    case ResultSlot(e) => if e.CallResult? then [Tool(e.messageId, e.callId, e.content, e.outcome)] else []
    case DraftSlot(id) =>
      var said, calls := TextSaid(events, n, id), Calls(events, n, id);
      if said == "" && calls == [] then [] else [Assistant(id, if said == "" then None else Some(said), calls)]
  }

  /** The same for the first `k` places, in order. */
  function StoredForFirst(events: seq<Event>, n: nat, k: nat): seq<Message>
    requires n <= |events| && k <= |Slots(events, n)|
  {
    if k == 0 then [] else StoredForFirst(events, n, k - 1) + StoredFor(events, n, Slots(events, n)[k - 1])
  }

  lemma {:induction false} FirstAreStored(items: seq<Item>, events: seq<Event>, n: nat, k: nat)
    requires n <= |events| && ItemsRefine(items, events, n) && k <= |items|
    ensures MessagesTo(items, k) == StoredForFirst(events, n, k)
  {
    if k > 0 {
      FirstAreStored(items, events, n, k - 1);
      assert ItemIs(items[k - 1], Slots(events, n)[k - 1], events, n);
    }
  }

  /**
   What a stream that did not complete is stored as, read off the log: every tool result as it was streamed, and
   every draft something was said in, with its whole text and the calls that ended for it, in order of place.
   */
  lemma StoredIsReadOffTheLog(events: seq<Event>, n: nat)
    requires n <= |events| && WellBracketed(events, n)
    ensures Run(events, n).Some?
    ensures MessagesOf(Run(events, n).value) == StoredForFirst(events, n, |Slots(events, n)|)
  {
    RecordingRefinesTheLog(events, n);
    FirstAreStored(Run(events, n).value.items, events, n, |Slots(events, n)|);
  }

  /** Nothing unfinished and nothing blank is ever stored. */
  lemma {:induction false} StoredIsFinished(items: seq<Item>, n: nat, k: nat) returns (i: nat)
    requires n <= |items| && k < |MessagesTo(items, n)|
    ensures i < n && MessagesTo(items, n)[k] == MessageOf(items[i]) && !Blank(items[i])
  {
    if k < |MessagesTo(items, n - 1)| {
      i := StoredIsFinished(items, n - 1, k);
    } else {
      i := n - 1;
    }
  }

  /** Every stored call was started and ended in the log. */
  lemma {:induction false} StoredCallsEnded(events: seq<Event>, n: nat, id: Id, k: nat) returns (i: nat)
    requires n <= |events| && k < |Calls(events, n, id)|
    ensures i < n && events[i].CallEnd? && Completed(events, i) == Some(Calls(events, n, id)[k])
            && Names(events, i) == Some(id)
  {
    if k < |Calls(events, n - 1, id)| {
      i := StoredCallsEnded(events, n - 1, id, k);
    } else {
      i := n - 1;
    }
  }

  // ---- What is stored only grows ---------------------------------------------------------------

  /** Whether `m'` is `m` with more said: the same id, and everything it held still in its place. */
  ghost predicate Grown(m: Message, m': Message) {
    && m'.id == m.id
    && (m.Tool? ==> m' == m)
    && (m.Assistant? ==> m'.Assistant? && OrEmpty(m.answer) <= OrEmpty(m'.answer) && m.calls <= m'.calls)
  }

  ghost predicate GrownItem(item: Item, item': Item) {
    && item'.messageId == item.messageId
    && (item.Result? ==> item' == item)
    && (item.Draft? ==> item'.Draft? && Join(item.text) <= Join(item'.text) && item.calls <= item'.calls)
  }

  ghost predicate GrownItems(items: seq<Item>, items': seq<Item>) {
    |items| <= |items'| && forall k :: 0 <= k < |items| ==> GrownItem(items[k], items'[k])
  }

  lemma MentionGrowsADraft(draft: Item, mention: Mention)
    requires draft.Draft?
    ensures GrownItem(draft, Apply(draft, mention))
  {
    if mention.Said? {
      JoinOneMore(draft.text, mention.delta);
    }
  }

  lemma MentionGrows(items: seq<Item>, id: Id, mention: Mention)
    ensures GrownItems(items, Mentioned(items, id, mention))
  {
    var at := DraftAt(items, |items|, id);
    if at.Some? {
      MentionGrowsADraft(items[at.value], mention);
    }
  }

  lemma OneEventGrows(t: Transcript, e: Event)
    requires Accepts(t, e)
    ensures GrownItems(t.items, Next(t, e).items)
  {
    match e {
      case TextStart(id) => MentionGrows(t.items, id, Opened);
      case TextContent(id, delta) => MentionGrows(t.items, id, Said(delta));
      case CallEnd(c) =>
        var call := t.pending[c];
        MentionGrows(t.items, DraftOf(call.parent, c), Called(ToolCall(c, call.name, Join(call.args))));
      case _ =>
    }
  }

  lemma {:induction false} EventsGrow(events: seq<Event>, n: nat, m: nat)
    requires n <= m <= |events| && Run(events, m).Some?
    ensures Run(events, n).Some? && GrownItems(Run(events, n).value.items, Run(events, m).value.items)
  {
    if n < m {
      EventsGrow(events, n, m - 1);
      OneEventGrows(Run(events, m - 1).value, events[m - 1]);
      var a, b, c := Run(events, n).value.items, Run(events, m - 1).value.items, Run(events, m).value.items;
      forall k | 0 <= k < |a| ensures GrownItem(a[k], c[k]) {
        assert GrownItem(a[k], b[k]) && GrownItem(b[k], c[k]);
      }
    }
  }

  lemma GrownIsStored(item: Item, item': Item)
    requires GrownItem(item, item') && !Blank(item)
    ensures !Blank(item') && Grown(MessageOf(item), MessageOf(item'))
  {
  }

  /** Whether the messages of the first `n` items stand at `f`, in order and grown, among those of the others. */
  ghost predicate EmbedsAt(items: seq<Item>, items': seq<Item>, n: nat, f: seq<nat>)
    requires n <= |items| && n <= |items'|
  {
    && |f| == |MessagesTo(items, n)|
    && (forall k :: 0 <= k < |f| ==>
          f[k] < |MessagesTo(items', n)| && Grown(MessagesTo(items, n)[k], MessagesTo(items', n)[f[k]]))
    && (forall k :: 0 <= k < |f| - 1 ==> f[k] < f[k + 1])
  }

  lemma OneMoreEmbeds(items: seq<Item>, items': seq<Item>, n: nat, f: seq<nat>) returns (g: seq<nat>)
    requires 0 < n <= |items| && n <= |items'| && EmbedsAt(items, items', n - 1, f)
    requires GrownItem(items[n - 1], items'[n - 1])
    ensures EmbedsAt(items, items', n, g)
  {
    g := f;
    if !Blank(items[n - 1]) {
      GrownIsStored(items[n - 1], items'[n - 1]);
      g := f + [|MessagesTo(items', n - 1)|];
    }
  }

  /** Where each message stored of the shorter transcript stands in the longer one. */
  lemma {:induction false} MessagesEmbed(items: seq<Item>, items': seq<Item>, n: nat) returns (f: seq<nat>)
    requires GrownItems(items, items') && n <= |items|
    ensures EmbedsAt(items, items', n, f)
  {
    if n == 0 {
      f := [];
    } else {
      f := MessagesEmbed(items, items', n - 1);
      f := OneMoreEmbeds(items, items', n, f);
    }
  }

  lemma {:induction false} MessagesPrefix(items: seq<Item>, n: nat, m: nat)
    requires n <= m <= |items|
    ensures MessagesTo(items, n) <= MessagesTo(items, m)
  {
    if n < m {
      MessagesPrefix(items, n, m - 1);
    }
  }

  /**
   What is stored after some events embeds, in order, into what is stored after more of them: the
   same ids, the same results, texts and call lists that only got longer.
   */
  lemma StoredOnlyGrows(events: seq<Event>, n: nat, m: nat) returns (f: seq<nat>)
    requires n <= m <= |events| && WellBracketed(events, m)
    ensures Run(events, n).Some? && Run(events, m).Some?
    ensures var a, b := MessagesOf(Run(events, n).value), MessagesOf(Run(events, m).value);
            && |f| == |a|
            && (forall k :: 0 <= k < |f| ==> f[k] < |b| && Grown(a[k], b[f[k]]))
            && (forall k :: 0 <= k < |f| - 1 ==> f[k] < f[k + 1])
  {
    RecordingRefinesTheLog(events, m);
    EventsGrow(events, n, m);
    var items, items' := Run(events, n).value.items, Run(events, m).value.items;
    f := MessagesEmbed(items, items', |items|);
    MessagesPrefix(items', |items|, |items'|);
  }
}
