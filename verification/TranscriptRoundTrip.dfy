/** The round trip of streamed ids, said of the event log alone. */
module TranscriptRoundTrip {
  import opened Messages
  import opened RunTranscript
  import opened TranscriptLog
  import opened TranscriptIds

  /** No call is started twice. */
  ghost predicate StartsApart(events: seq<Event>, n: nat)
    requires n <= |events|
  {
    forall i, j :: 0 <= i < j < n && events[i].CallStart? && events[j].CallStart? ==>
      events[i].callId != events[j].callId
  }

  /** No result is streamed under another's id, or a draft's. */
  ghost predicate ResultsApart(events: seq<Event>, n: nat)
    requires n <= |events|
  {
    && (forall i, j :: 0 <= i < j < n && events[i].CallResult? && events[j].CallResult? ==>
        events[i].messageId != events[j].messageId)
    && (forall i, j :: 0 <= i < n && 0 <= j < n && events[i].CallResult? ==>
        Names(events, j) != Some(events[i].messageId))
  }

  /** A complete stream: brackets, distinct call ids, distinct message ids, and no draft nothing was said in. */
  ghost predicate Complete(events: seq<Event>, n: nat)
    requires n <= |events|
  {
    && WellBracketed(events, n)
    && StartsApart(events, n)
    && ResultsApart(events, n)
    && (forall k :: 0 <= k < |Slots(events, n)| && Slots(events, n)[k].DraftSlot? ==>
          TextSaid(events, n, Slots(events, n)[k].id) != "" || Calls(events, n, Slots(events, n)[k].id) != [])
  }

  /** Whether a call's start names the message it streams in. */
  predicate NamesAParent(start: Event)
    requires start.CallStart?
  {
    start.parent.Some? && (start.parent.value != "" || start.callId == "")
  }

  /** Whether every call that ended had been started under a message. */
  ghost predicate EveryCallNamesAParent(events: seq<Event>, n: nat)
    requires n <= |events|
  {
    forall i :: 0 <= i < n && Completed(events, i).Some? ==>
        NamesAParent(events[OpenSince(events, i, events[i].callId).value])
  }

  // ---- Distinct ids ------------------------------------------------------------------------------

  lemma {:induction false} ResultHasItsEvent(events: seq<Event>, n: nat, k: nat) returns (i: nat)
    requires n <= |events| && k < |Slots(events, n)| && Slots(events, n)[k].ResultSlot?
    ensures i < n && events[i].CallResult? && Slots(events, n)[k] == ResultSlot(events[i]) && |Slots(events, i)| == k
  {
    if k < |Slots(events, n - 1)| {
      i := ResultHasItsEvent(events, n - 1, k);
    } else {
      i := n - 1;
    }
  }

  /** Two places with one id are one: distinct drafts are named apart, and a result is apart from all else. */
  lemma SlotIdsDiffer(events: seq<Event>, n: nat, j: nat, k: nat)
    requires n <= |events| && ResultsApart(events, n) && j < k < |Slots(events, n)|
    ensures SlotId(Slots(events, n)[j]) != SlotId(Slots(events, n)[k])
  {
    if Slots(events, n)[j].DraftSlot? {
      var i := DraftsInFirstMentionOrder(events, n, j);
      if Slots(events, n)[k].ResultSlot? {
        var i' := ResultHasItsEvent(events, n, k);
      }
    } else {
      var i := ResultHasItsEvent(events, n, j);
      if Slots(events, n)[k].DraftSlot? {
        var i' := DraftsInFirstMentionOrder(events, n, k);
      } else {
        var i' := ResultHasItsEvent(events, n, k);
        assert i != i';
      }
    }
  }

  function SlotId(slot: Slot): Id {
    match slot
    case DraftSlot(id) => id
    case ResultSlot(e) => if e.CallResult? then e.messageId else ""
  }

  lemma ItemHasSlotId(t: Transcript, events: seq<Event>, n: nat, k: nat)
    requires n <= |events| && Refines(t, events, n) && k < |t.items|
    ensures t.items[k].messageId == SlotId(Slots(events, n)[k])
    ensures t.items[k].Draft? ==> Slots(events, n)[k] == DraftSlot(t.items[k].messageId)
  {
    assert ItemIs(t.items[k], Slots(events, n)[k], events, n);
  }

  // ---- Calls ---------------------------------------------------------------------------------

  /** The parents named by a call's starts among the first `n` events. */
  function Parents(events: seq<Event>, n: nat, c: Id): seq<Option<Id>>
    requires n <= |events|
  {
    if n == 0 then []
    else
      Parents(events, n - 1, c)
      + if events[n - 1].CallStart? && events[n - 1].callId == c then [events[n - 1].parent] else []
  }

  lemma {:induction false} ParentsAreRecorded(events: seq<Event>, n: nat, c: Id)
    requires n <= |events| && Run(events, n).Some?
    ensures var t := Run(events, n).value;
            ParentsTo(t.callParents, |t.callParents|, c) == Parents(events, n, c)
  {
    if n > 0 {
      ParentsAreRecorded(events, n - 1, c);
      var before, now := Run(events, n - 1).value.callParents, Run(events, n).value.callParents;
      assert now == before
          || (events[n - 1].CallStart? && now == before + [CallParent(events[n - 1].callId, events[n - 1].parent)]);
      ParentsAgree(before, now, |before|, c);
    }
  }

  lemma {:induction false} ParentsAgree(p: seq<CallParent>, p': seq<CallParent>, n: nat, c: Id)
    requires n <= |p| <= |p'| && p == p'[..|p|]
    ensures ParentsTo(p, n, c) == ParentsTo(p', n, c)
  {
    if n > 0 {
      ParentsAgree(p, p', n - 1, c);
    }
  }

  lemma {:induction false} NoStartNoParent(events: seq<Event>, n: nat, m: nat, c: Id)
    requires n <= m <= |events|
    requires forall i :: n <= i < m && events[i].CallStart? ==> events[i].callId != c
    ensures Parents(events, m, c) == Parents(events, n, c)
  {
    if n < m {
      NoStartNoParent(events, n, m - 1, c);
    }
  }

  /** A call started once was started under one parent. */
  lemma OneStartOneParent(events: seq<Event>, n: nat, start: nat)
    requires start < n <= |events| && StartsApart(events, n) && events[start].CallStart?
    ensures Parents(events, n, events[start].callId) == [events[start].parent]
  {
    var c := events[start].callId;
    forall i | 0 <= i < n && i != start && events[i].CallStart? ensures events[i].callId != c {
    }
    NoStartNoParent(events, 0, start, c);
    NoStartNoParent(events, start + 1, n, c);
  }

  /** The end that put a call in a draft, at its place among the draft's calls. */
  lemma {:induction false} CallHasItsEnd(events: seq<Event>, n: nat, id: Id, k: nat) returns (i: nat)
    requires n <= |events| && k < |Calls(events, n, id)|
    ensures i < n && events[i].CallEnd? && Completed(events, i) == Some(Calls(events, n, id)[k])
    ensures Names(events, i) == Some(id) && |Calls(events, i, id)| == k
  {
    if k < |Calls(events, n - 1, id)| {
      i := CallHasItsEnd(events, n - 1, id, k);
    } else {
      i := n - 1;
    }
  }

  /** After a call's end it is open again only by a later start. */
  lemma {:induction false} OpenAfterEnd(events: seq<Event>, i: nat, n: nat, c: Id)
    requires i < n <= |events| && events[i].CallEnd? && events[i].callId == c
    ensures OpenSince(events, n, c).Some? ==> OpenSince(events, n, c).value > i
  {
    if i < n - 1 {
      OpenAfterEnd(events, i, n - 1, c);
    }
  }

  /** A call started once ends once. */
  lemma EndsOnce(events: seq<Event>, n: nat, i: nat, j: nat)
    requires i < j < n <= |events| && StartsApart(events, n)
    requires Completed(events, i).Some? && Completed(events, j).Some?
    ensures events[i].callId != events[j].callId
  {
    OpenAfterEnd(events, i, j, events[i].callId);
  }

  /** No call stands twice, in one draft or in two. */
  lemma CallsDiffer(events: seq<Event>, n: nat, id: Id, a: nat, id': Id, b: nat)
    requires n <= |events| && StartsApart(events, n) && (id != id' || a != b)
    requires a < |Calls(events, n, id)| && b < |Calls(events, n, id')|
    ensures Calls(events, n, id)[a].id != Calls(events, n, id')[b].id
  {
    var i := CallHasItsEnd(events, n, id, a);
    var j := CallHasItsEnd(events, n, id', b);
    assert i != j;
    if i < j {
      EndsOnce(events, n, i, j);
    } else {
      EndsOnce(events, n, j, i);
    }
  }

  lemma CallStartedOnce(events: seq<Event>, n: nat, id: Id, a: nat) returns (i: nat, start: nat)
    requires n <= |events| && StartsApart(events, n) && Run(events, n).Some? && a < |Calls(events, n, id)|
    ensures start < i < n && events[i].CallEnd? && events[start].CallStart?
    ensures Completed(events, i).Some? && OpenSince(events, i, events[i].callId) == Some(start)
    ensures Calls(events, n, id)[a].id == events[start].callId
            && DraftOf(events[start].parent, events[start].callId) == id
    ensures var t := Run(events, n).value;
            ParentsTo(t.callParents, |t.callParents|, Calls(events, n, id)[a].id) == [events[start].parent]
  {
    i := CallHasItsEnd(events, n, id, a);
    start := OpenSince(events, i, events[i].callId).value;
    OneStartOneParent(events, n, start);
    ParentsAreRecorded(events, n, events[i].callId);
  }

  // ---- The transcript of a complete stream is settled -------------------------------------------

  lemma DraftSettles(t: Transcript, events: seq<Event>, n: nat, k: nat)
    requires n <= |events| && Complete(events, n) && Run(events, n) == Some(t) && Refines(t, events, n)
    requires k < |t.items| && t.items[k].Draft?
    ensures !Blank(t.items[k]) && CallsSettled(t, t.items[k].calls)
  {
    var id := t.items[k].messageId;
    var calls := t.items[k].calls;
    ItemHasSlotId(t, events, n, k);
    assert ItemIs(t.items[k], Slots(events, n)[k], events, n);
    forall a, b | 0 <= a < b < |calls| ensures calls[a].id != calls[b].id {
      CallsDiffer(events, n, id, a, id, b);
    }
    forall a | 0 <= a < |calls| ensures |ParentsTo(t.callParents, |t.callParents|, calls[a].id)| == 1 {
      var i, start := CallStartedOnce(events, n, id, a);
    }
  }

  lemma DraftsShareNoCall(t: Transcript, events: seq<Event>, n: nat, j: nat, k: nat, c: Id)
    requires n <= |events| && Complete(events, n) && Refines(t, events, n)
    requires j < k < |t.items| && c in ItemCalls(t.items[j])
    ensures c !in ItemCalls(t.items[k])
  {
    if c in ItemCalls(t.items[k]) {
      ItemHasSlotId(t, events, n, j);
      ItemHasSlotId(t, events, n, k);
      SlotIdsDiffer(events, n, j, k);
      assert ItemIs(t.items[j], Slots(events, n)[j], events, n);
      assert ItemIs(t.items[k], Slots(events, n)[k], events, n);
      var a :| 0 <= a < |t.items[j].calls| && t.items[j].calls[a].id == c;
      var b :| 0 <= b < |t.items[k].calls| && t.items[k].calls[b].id == c;
      CallsDiffer(events, n, t.items[j].messageId, a, t.items[k].messageId, b);
    }
  }

  lemma CompleteIsSettled(t: Transcript, events: seq<Event>, n: nat)
    requires n <= |events| && Complete(events, n) && Run(events, n) == Some(t) && Refines(t, events, n)
    ensures Settled(t)
  {
    forall j: nat, k: nat | j < k < |t.items| ensures t.items[j].messageId != t.items[k].messageId {
      ItemHasSlotId(t, events, n, j);
      ItemHasSlotId(t, events, n, k);
      SlotIdsDiffer(events, n, j, k);
    }
    forall k: nat | k < |t.items| && t.items[k].Draft? ensures !Blank(t.items[k]) && CallsSettled(t, t.items[k].calls) {
      DraftSettles(t, events, n, k);
    }
    forall j: nat, k: nat, c | j < k < |t.items| && c in ItemCalls(t.items[j]) ensures c !in ItemCalls(t.items[k]) {
      DraftsShareNoCall(t, events, n, j, k, c);
    }
  }

  lemma ParentsAgreeWithLog(t: Transcript, events: seq<Event>, n: nat)
    requires n <= |events| && Complete(events, n) && Run(events, n) == Some(t) && Refines(t, events, n)
    ensures CallsNameTheirDraft(t) <==> EveryCallNamesAParent(events, n)
  {
    if EveryCallNamesAParent(events, n) {
      forall k, a | 0 <= k < |t.items| && t.items[k].Draft? && 0 <= a < |t.items[k].calls|
        ensures StartedUnder(t, t.items[k].calls[a].id, Some(t.items[k].messageId))
      {
        ItemHasSlotId(t, events, n, k);
        assert ItemIs(t.items[k], Slots(events, n)[k], events, n);
        var i, start := CallStartedOnce(events, n, t.items[k].messageId, a);
        assert NamesAParent(events[start]);
      }
    }
    if CallsNameTheirDraft(t) {
      forall i: nat | i < n && Completed(events, i).Some?
        ensures NamesAParent(events[OpenSince(events, i, events[i].callId).value])
      {
        EndedCallNamesItsParent(t, events, n, i);
      }
    }
  }

  lemma NamedDraftIsThere(t: Transcript, events: seq<Event>, n: nat, i: nat) returns (k: nat)
    requires n <= |events| && Refines(t, events, n) && i < n && Names(events, i).Some?
    ensures k < |t.items| && ItemIs(t.items[k], DraftSlot(Names(events, i).value), events, n)
  {
    NamedHasSlot(events, i, n);
    k :| 0 <= k < |t.items| && Slots(events, n)[k] == DraftSlot(Names(events, i).value);
    assert ItemIs(t.items[k], Slots(events, n)[k], events, n);
  }

  lemma EndedCallIsCounted(events: seq<Event>, i: nat, n: nat, id: Id)
    requires i < n <= |events| && Completed(events, i).Some? && Names(events, i) == Some(id)
    ensures var a := |Calls(events, i, id)|;
            a < |Calls(events, n, id)| && Calls(events, n, id)[a] == Completed(events, i).value
  {
    CallsPrefix(events, i + 1, n, id);
    assert Calls(events, i + 1, id) == Calls(events, i, id) + [Completed(events, i).value];
  }

  /** An ended call stands in its draft, at the place its end gave it. */
  lemma EndedCallIsStored(t: Transcript, events: seq<Event>, n: nat, i: nat) returns (k: nat, a: nat)
    requires n <= |events| && Refines(t, events, n) && i < n && Completed(events, i).Some?
    ensures k < |t.items| && IsDraft(t.items[k], Names(events, i).value)
    ensures a < |t.items[k].calls| && t.items[k].calls[a] == Completed(events, i).value
  {
    k := NamedDraftIsThere(t, events, n, i);
    a := |Calls(events, i, Names(events, i).value)|;
    EndedCallIsCounted(events, i, n, Names(events, i).value);
  }

  lemma EndedCallNamesItsParent(t: Transcript, events: seq<Event>, n: nat, i: nat)
    requires n <= |events| && Complete(events, n) && Run(events, n) == Some(t) && Refines(t, events, n)
    requires CallsNameTheirDraft(t) && i < n && Completed(events, i).Some?
    ensures NamesAParent(events[OpenSince(events, i, events[i].callId).value])
  {
    var k, a := EndedCallIsStored(t, events, n, i);
    var c := events[i].callId;
    var start := OpenSince(events, i, c).value;
    OneStartOneParent(events, n, start);
    ParentsAreRecorded(events, n, c);
    assert StartedUnder(t, t.items[k].calls[a].id, Some(t.items[k].messageId));
    assert [events[start].parent][0] == Some(Names(events, i).value);
  }

  lemma {:induction false} CallsPrefix(events: seq<Event>, n: nat, m: nat, id: Id)
    requires n <= m <= |events|
    ensures Calls(events, n, id) <= Calls(events, m, id)
  {
    if n < m {
      CallsPrefix(events, n, m - 1, id);
    }
  }

  /**
   For every complete stream, and every dump of what it stored under fresh ids: lending the dump the
   streamed ids gives the stored messages back, if and only if every call that ended was started
   under a message.
   */
  lemma CompleteStreamsRoundTrip(events: seq<Event>, dump: seq<Message>)
    requires Complete(events, |events|)
    ensures Run(events, |events|).Some?
    ensures var t := Run(events, |events|).value;
            DumpOf(t, dump) && (forall i :: 0 <= i < |dump| ==> dump[i].id != t.items[i].messageId) ==>
              (WithStreamedIds(t, dump) == MessagesOf(t) <==> EveryCallNamesAParent(events, |events|))
  {
    var n := |events|;
    RecordingRefinesTheLog(events, n);
    var t := Run(events, n).value;
    CompleteIsSettled(t, events, n);
    ParentsAgreeWithLog(t, events, n);
    OneEachAlways(events, n);
    if DumpOf(t, dump) && forall i :: 0 <= i < |dump| ==> dump[i].id != t.items[i].messageId {
      StreamedIdsRoundTrip(t, dump);
    }
  }
}
