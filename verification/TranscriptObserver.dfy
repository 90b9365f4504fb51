/** The observer that keeps a run's transcript, updated in place event by event. */
module TranscriptObserver {
  import opened Messages
  import opened LendStoredIds
  import opened RunTranscript

  class Observer {
    var items: seq<Item>
    var pending: map<Id, PendingCall>
    var callParents: seq<CallParent>
    var reasoning: seq<Thought>
    var activities: seq<Shown>

    /** The fields as one value. */
    function Value(): Transcript
      reads this
    {
      Transcript(items, pending, callParents, reasoning, activities)
    }

    constructor ()
      ensures Value() == EMPTY
    {
      items, pending, callParents, reasoning, activities := [], map[], [], [], [];
    }

    /** Where the draft of `id` is, made at the end when there is none. */
    method DraftFor(id: Id) returns (at: nat)
      modifies this`items
      ensures at < |items| && items[at].Draft?
      ensures items == Mentioned(old(items), id, Opened)
      ensures forall mention :: items[at := Apply(items[at], mention)] == Mentioned(old(items), id, mention)
    {
      var n: nat := |items|;
      while n > 0
        invariant n <= |items|
        invariant DraftAt(items, |items|, id) == DraftAt(items, n, id)
      {
        n := n - 1;
        if IsDraft(items[n], id) {
          assert items[n := Apply(items[n], Opened)] == items;
          return n;
        }
      }
      items := items + [Draft(id, [], [])];
      at := |items| - 1;
      assert forall mention ::
          items[at := Apply(items[at], mention)] == old(items) + [Apply(Draft(id, [], []), mention)];
    }

    method Mention(id: Id, mention: Mention)
      modifies this`items
      ensures items == Mentioned(old(items), id, mention)
    {
      var at := DraftFor(id);
      items := items[at := Apply(items[at], mention)];
    }

    method Reason(id: Id, deltas: seq<string>)
      modifies this`reasoning
      ensures reasoning == Reasoned(old(reasoning), id, deltas)
    {
      for n := |reasoning| downto 0
        invariant reasoning == old(reasoning)
        invariant ThoughtAt(reasoning, |reasoning|, id) == ThoughtAt(reasoning, n, id)
      {
        if reasoning[n].messageId == id {
          reasoning := reasoning[n := Thought(id, reasoning[n].deltas + deltas)];
          return;
        }
      }
      reasoning := reasoning + [Thought(id, deltas)];
    }

    /** Where the activity `id` is kept, or the end. */
    method FindActivity(id: Id) returns (at: nat)
      ensures at <= |activities|
      ensures ShownAt(activities, |activities|, id) == if at < |activities| then Some(at) else None
    {
      for n := |activities| downto 0
        invariant ShownAt(activities, |activities|, id) == ShownAt(activities, n, id)
      {
        if activities[n].messageId == id {
          return n;
        }
      }
      return |activities|;
    }

    method Snapshot(id: Id, activityType: string, content: Fields, keep: bool)
      modifies this`activities
      ensures activities == Snapshotted(old(activities), id, activityType, content, keep)
    {
      var at := FindActivity(id);
      if at == |activities| {
        activities := activities + [Shown(id, activityType, Some(content))];
      } else if !keep {
        activities := activities[at := activities[at].(content := Some(content))];
      }
    }

    method Patch(id: Id, activityType: string)
      modifies this`activities
      ensures activities == Patched(old(activities), id, activityType)
    {
      var at := FindActivity(id);
      if at == |activities| {
        activities := activities + [Shown(id, activityType, None)];
      } else {
        activities := activities[at := activities[at].(content := None)];
      }
    }

    /** Record one event; a call that is not open fails the look-up and changes nothing. */
    method Add(e: Event) returns (recorded: bool)
      modifies this
      ensures recorded == Accepts(old(Value()), e)
      ensures Value() == if recorded then Next(old(Value()), e) else old(Value())
    {
      recorded := true;
      match e {
        case TextStart(id) =>
          Mention(id, Opened);
        case TextContent(id, delta) =>
          Mention(id, Said(delta));
        case CallStart(callId, name, parent) =>
          pending := pending[callId := PendingCall(name, parent, [])];
          callParents := callParents + [CallParent(callId, parent)];
        case CallArgs(callId, delta) =>
          if callId !in pending {
            return false;
          }
          pending := pending[callId := pending[callId].(args := pending[callId].args + [delta])];
        case CallEnd(callId) =>
          if callId !in pending {
            return false;
          }
          var call := pending[callId];
          pending := pending - {callId};
          Mention(DraftOf(call.parent, callId), Called(ToolCall(callId, call.name, Join(call.args))));
        case CallResult(id, callId, content, outcome) =>
          items := items + [Result(id, callId, content, outcome)];
        case ReasoningStart(id) =>
          Reason(id, []);
        case ReasoningContent(id, delta) =>
          Reason(id, [delta]);
        case ActivitySnapshot(id, activityType, fields, keep) =>
          Snapshot(id, activityType, fields, keep);
        case ActivityDelta(id, activityType) =>
          Patch(id, activityType);
        case OtherEvent =>
      }
    }

    /** Record a whole stream; the first refused event ends it. */
    method Observe(events: seq<Event>) returns (recorded: bool)
      requires Value() == EMPTY
      modifies this
      ensures recorded <==> Run(events, |events|).Some?
      ensures recorded ==> Value() == Run(events, |events|).value
    {
      for n := 0 to |events|
        invariant Run(events, n) == Some(Value())
      {
        recorded := Add(events[n]);
        if !recorded {
          StaysRefused(events, n + 1, |events|);
          return false;
        }
      }
      recorded := true;
    }

    /** The reconstructed messages, in stream order. */
    method Rebuilt() returns (out: seq<Message>)
      ensures out == MessagesOf(Value())
    {
      out := [];
      for n := 0 to |items|
        invariant out == MessagesTo(items, n)
      {
        match items[n] {
          case Result(id, callId, content, outcome) =>
            out := out + [Tool(id, callId, content, outcome)];
          case Draft(id, text, calls) =>
            var answer := if Join(text) == "" then None else Some(Join(text));
            if answer.Some? || calls != [] {
              out := out + [Assistant(id, answer, calls)];
            }
        }
      }
    }

    /** `messages` under the ids this stream announced: queues consumed in order, each id claimed once. */
    method Lend(messages: seq<Message>) returns (out: seq<Message>)
      ensures out == WithStreamedIds(Value(), messages)
    {
      var results := QueueResults(items);
      var parents := QueueParents(callParents);
      var rows := GroupRows(messages);
      var positional := PositionalIds(messages, rows);
      var claimed: set<Id> := {};
      out := [];
      ghost var t := Value();
      ghost var offers := StreamedIds(t, messages);
      for n := 0 to |messages|
        invariant ResultsLeft(results, t, messages, n)
        invariant ParentsLeft(parents, t, messages, n)
        invariant PositionsLeft(positional, t, messages, n)
        invariant Take(messages, offers, {}, {}, n) == Lending(out, claimed)
      {
        var streamed;
        streamed, results, parents, positional := Offered(messages, n, results, parents, positional);
        assert streamed == offers[n];
        if streamed.None? || streamed.value in claimed {
          out := out + [messages[n]];
        } else {
          claimed := claimed + {streamed.value};
          out := out + [WithId(messages[n], streamed.value)];
        }
      }
    }

    /** The ids to lend by position, for every group `messages` dumps. */
    method PositionalIds(messages: seq<Message>, rows: map<Group, seq<Entry>>) returns (ids: map<Group, seq<Id>>)
      requires forall g :: RowIn(rows, g) == Row(messages, g)
      ensures forall g :: g !in rows ==> Row(messages, g) == []
      ensures PositionsLeft(ids, Value(), messages, 0)
    {
      ids := map[];
      var todo := rows.Keys;
      while todo != {}
        invariant todo <= rows.Keys
        invariant forall g :: RowIn(ids, g) == if g in rows && g !in todo
                  then ByPosition(AnnouncedIn(Value(), g), RowIn(rows, g)) else []
        decreases todo
      {
        var g :| g in todo;
        todo := todo - {g};
        var announced := Announce(g);
        ids := ids[g := ByPosition(announced, rows[g])];
      }
    }

    method Announce(group: Group) returns (announced: seq<Announced>)
      ensures announced == AnnouncedIn(Value(), group)
    {
      announced := [];
      match group {
        case TextAnswers =>
          for n := 0 to |items|
            invariant announced == TextDraftsTo(items, n)
          {
            if items[n].Draft? && items[n].calls == [] {
              announced := announced + [Announced(items[n].messageId, Words(Join(items[n].text)))];
            }
          }
        case Reasonings =>
          for n := 0 to |reasoning|
            invariant announced == ThoughtsTo(reasoning, n)
          {
            announced := announced + [Announced(reasoning[n].messageId, Words(Join(reasoning[n].deltas)))];
          }
        case ActivitiesOf(activityType) =>
          for n := 0 to |activities|
            invariant announced == ShownTo(activities, n, activityType)
          {
            if activities[n].activityType == activityType {
              announced := announced + [Announced(activities[n].messageId, Content(activities[n].content))];
            }
          }
        case _ =>
      }
    }

    /** The id announced for the next message, taken off the queue that holds it. */
    method Offered(messages: seq<Message>, n: nat, results: map<Id, seq<Id>>, parents: map<Id, seq<Option<Id>>>,
                   positional: map<Group, seq<Id>>)
      returns (streamed: Option<Id>, results': map<Id, seq<Id>>, parents': map<Id, seq<Option<Id>>>,
               positional': map<Group, seq<Id>>)
      requires n < |messages|
      requires ResultsLeft(results, Value(), messages, n)
      requires ParentsLeft(parents, Value(), messages, n)
      requires PositionsLeft(positional, Value(), messages, n)
      ensures streamed == Streamed(Value(), messages, n)
      ensures ResultsLeft(results', Value(), messages, n + 1)
      ensures ParentsLeft(parents', Value(), messages, n + 1)
      ensures PositionsLeft(positional', Value(), messages, n + 1)
    {
      ghost var t := Value();
      var m := messages[n];
      streamed := None;
      results', parents', positional' := results, parents, positional;
      if m.Tool? {
        streamed, results' := TakeResult(messages, n, results);
      } else if m.Assistant? && m.calls != [] {
        var parent;
        parent, parents' := SharedParent(messages, n, parents);
        if parent.Some? && Flat(DraftText(items, parent.value)) == Flat(OrEmpty(m.answer)) {
          streamed := parent;
        }
      } else if GroupOf(m).Some? {
        streamed, positional' := TakePlace(messages, n, positional);
      }
      OthersStay(t, messages, n, results, parents, positional);
    }

    method TakeResult(messages: seq<Message>, n: nat, results: map<Id, seq<Id>>)
      returns (streamed: Option<Id>, results': map<Id, seq<Id>>)
      requires n < |messages| && messages[n].Tool?
      requires ResultsLeft(results, Value(), messages, n)
      ensures streamed == Streamed(Value(), messages, n)
      ensures ResultsLeft(results', Value(), messages, n + 1)
    {
      var c := messages[n].callId;
      LeftNext(ResultsTo(items, |items|, c), AnswersTo(messages, n, c));
      streamed, results' := TakeFrom(results, c);
    }

    method TakePlace(messages: seq<Message>, n: nat, positional: map<Group, seq<Id>>)
      returns (streamed: Option<Id>, positional': map<Group, seq<Id>>)
      requires n < |messages| && GroupOf(messages[n]).Some? && ByPlace(GroupOf(messages[n]).value)
      requires PositionsLeft(positional, Value(), messages, n)
      ensures streamed == Streamed(Value(), messages, n)
      ensures PositionsLeft(positional', Value(), messages, n + 1)
    {
      var g := GroupOf(messages[n]).value;
      LeftNext(ByPosition(AnnouncedIn(Value(), g), Row(messages, g)), Rank(messages, n, g));
      streamed, positional' := TakeFrom(positional, g);
    }

    method TakeParent(messages: seq<Message>, n: nat, i: nat, parents: map<Id, seq<Option<Id>>>)
      returns (parent: Option<Id>, parents': map<Id, seq<Option<Id>>>)
      requires n < |messages| && i < |CallsIn(messages[n])|
      requires ParentsLeftWithin(parents, Value(), messages, n, i)
      ensures ParentsFound(Value(), messages, n, i + 1) == ParentsFound(Value(), messages, n, i) + {parent}
      ensures ParentsLeftWithin(parents', Value(), messages, n, i + 1)
    {
      var c := CallsIn(messages[n])[i].id;
      LeftNext(ParentsTo(callParents, |callParents|, c), UsesTo(messages, n, c) + UsesIn(CallsIn(messages[n]), i, c));
      var taken;
      taken, parents' := TakeFrom(parents, c);
      NextParents(Value(), messages, n, i, parents, parents');
      parent := if taken.Some? then taken.value else None;
    }

    /** The one parent every call of `messages[n]` streamed under, each taken off its call's queue. */
    method SharedParent(messages: seq<Message>, n: nat, parents: map<Id, seq<Option<Id>>>)
      returns (parent: Option<Id>, parents': map<Id, seq<Option<Id>>>)
      requires n < |messages| && messages[n].Assistant?
      requires ParentsLeft(parents, Value(), messages, n)
      ensures parent == Only(ParentsFound(Value(), messages, n, |messages[n].calls|))
      ensures ParentsLeft(parents', Value(), messages, n + 1)
    {
      var calls := messages[n].calls;
      var found: set<Option<Id>> := {};
      parents' := parents;
      for i := 0 to |calls|
        invariant found == ParentsFound(Value(), messages, n, i)
        invariant ParentsLeftWithin(parents', Value(), messages, n, i)
      {
        var taken;
        taken, parents' := TakeParent(messages, n, i, parents');
        found := found + {taken};
      }
      parent := Only(found);
    }
  }

  /** A queue another kind of message takes from is left as it is. */
  lemma OthersStay(t: Transcript, messages: seq<Message>, n: nat, results: map<Id, seq<Id>>,
                   parents: map<Id, seq<Option<Id>>>, positional: map<Group, seq<Id>>)
    requires n < |messages|
    requires ResultsLeft(results, t, messages, n)
    requires ParentsLeft(parents, t, messages, n)
    requires PositionsLeft(positional, t, messages, n)
    ensures !messages[n].Tool? ==> ResultsLeft(results, t, messages, n + 1)
    ensures CallsIn(messages[n]) == [] ==> ParentsLeft(parents, t, messages, n + 1)
    ensures GroupOf(messages[n]).None? || !ByPlace(GroupOf(messages[n]).value) ==>
            PositionsLeft(positional, t, messages, n + 1)
  {
  }

  lemma NextParents(t: Transcript, messages: seq<Message>, n: nat, i: nat, parents: map<Id, seq<Option<Id>>>,
                    parents': map<Id, seq<Option<Id>>>)
    requires n < |messages| && i < |CallsIn(messages[n])| && ParentsLeftWithin(parents, t, messages, n, i)
    requires var c := CallsIn(messages[n])[i].id;
             forall k :: QueueIn(parents', k) == if k == c then Left(QueueIn(parents, k), 1) else QueueIn(parents, k)
    ensures ParentsLeftWithin(parents', t, messages, n, i + 1)
  {
    forall c
      ensures QueueIn(parents', c)
              == Left(ParentsTo(t.callParents, |t.callParents|, c), UsesTo(messages, n, c)
              + UsesIn(CallsIn(messages[n]), i + 1, c))
    {
      NextParent(t, messages, n, i, parents, parents', c);
    }
  }

  lemma NextParent(t: Transcript, messages: seq<Message>, n: nat, i: nat, parents: map<Id, seq<Option<Id>>>,
                   parents': map<Id, seq<Option<Id>>>, c: Id)
    requires n < |messages| && i < |CallsIn(messages[n])|
    requires QueueIn(parents, c)
             == Left(ParentsTo(t.callParents, |t.callParents|, c), UsesTo(messages, n, c)
             + UsesIn(CallsIn(messages[n]), i, c))
    requires QueueIn(parents', c) == if c == CallsIn(messages[n])[i].id then Left(QueueIn(parents, c), 1)
             else QueueIn(parents, c)
    ensures QueueIn(parents', c)
            == Left(ParentsTo(t.callParents, |t.callParents|, c), UsesTo(messages, n, c)
            + UsesIn(CallsIn(messages[n]), i + 1, c))
  {
    LeftNext(ParentsTo(t.callParents, |t.callParents|, c), UsesTo(messages, n, c) + UsesIn(CallsIn(messages[n]), i, c));
  }

  lemma LeftNext<T>(queue: seq<T>, k: nat)
    ensures Left(Left(queue, k), 1) == Left(queue, k + 1)
    ensures if k < |queue| then Left(queue, k) != [] && Left(queue, k)[0] == queue[k] else Left(queue, k) == []
  {
  }

  lemma {:induction false} StaysRefused(events: seq<Event>, n: nat, m: nat)
    requires n <= m <= |events| && Run(events, n).None?
    ensures Run(events, m).None?
  {
    if n < m {
      StaysRefused(events, n, m - 1);
    }
  }

  // ---- Queues -------------------------------------------------------------------------------

  function QueueIn<K, T>(queues: map<K, seq<T>>, key: K): seq<T> {
    if key in queues then queues[key] else []
  }

  /** What is left of a queue after `k` were taken. */
  function Left<T>(queue: seq<T>, k: nat): seq<T> {
    if k <= |queue| then queue[k..] else []
  }

  /** The next value queued under `key`, or nothing once there is none. */
  method TakeFrom<K, T>(queues: map<K, seq<T>>, key: K) returns (taken: Option<T>, queues': map<K, seq<T>>)
    ensures taken == if QueueIn(queues, key) == [] then None else Some(QueueIn(queues, key)[0])
    ensures forall k :: QueueIn(queues', k) == if k == key then Left(QueueIn(queues, k), 1) else QueueIn(queues, k)
  {
    if QueueIn(queues, key) == [] {
      return None, queues;
    }
    return Some(queues[key][0]), queues[key := queues[key][1..]];
  }

  method QueueResults(items: seq<Item>) returns (queues: map<Id, seq<Id>>)
    ensures forall c :: QueueIn(queues, c) == ResultsTo(items, |items|, c)
  {
    queues := map[];
    for n := 0 to |items|
      invariant forall c :: QueueIn(queues, c) == ResultsTo(items, n, c)
    {
      if items[n].Result? {
        queues := queues[items[n].callId := QueueIn(queues, items[n].callId) + [items[n].messageId]];
      }
    }
  }

  method QueueParents(callParents: seq<CallParent>) returns (queues: map<Id, seq<Option<Id>>>)
    ensures forall c :: QueueIn(queues, c) == ParentsTo(callParents, |callParents|, c)
  {
    queues := map[];
    for n := 0 to |callParents|
      invariant forall c :: QueueIn(queues, c) == ParentsTo(callParents, n, c)
    {
      var c := callParents[n].callId;
      queues := queues[c := QueueIn(queues, c) + [callParents[n].parent]];
    }
  }

  ghost predicate ResultsLeft(results: map<Id, seq<Id>>, t: Transcript, messages: seq<Message>, n: nat)
    requires n <= |messages|
  {
    forall c :: QueueIn(results, c) == Left(ResultsTo(t.items, |t.items|, c), AnswersTo(messages, n, c))
  }

  ghost predicate ParentsLeft(parents: map<Id, seq<Option<Id>>>, t: Transcript, messages: seq<Message>, n: nat)
    requires n <= |messages|
  {
    forall c :: QueueIn(parents, c) == Left(ParentsTo(t.callParents, |t.callParents|, c), UsesTo(messages, n, c))
  }

  /** The same with the first `i` calls of `messages[n]` taken too. */
  ghost predicate ParentsLeftWithin(parents: map<Id, seq<Option<Id>>>, t: Transcript, messages: seq<Message>, n: nat,
                                    i: nat)
    requires n < |messages| && i <= |CallsIn(messages[n])|
  {
    forall c :: QueueIn(parents, c)
                == Left(ParentsTo(t.callParents, |t.callParents|, c), UsesTo(messages, n, c)
                    + UsesIn(CallsIn(messages[n]), i, c))
  }

  /** The groups that pair by position: not tool results, not answers with calls. */
  predicate ByPlace(group: Group) {
    !group.Tools? && !group.CallAnswers?
  }

  ghost predicate PositionsLeft(positional: map<Group, seq<Id>>, t: Transcript, messages: seq<Message>, n: nat)
    requires n <= |messages|
  {
    forall g: Group :: ByPlace(g) ==>
                         QueueIn(positional, g)
                             == Left(ByPosition(AnnouncedIn(t, g), Row(messages, g)), |RowTo(messages, n, g)|)
  }
}
