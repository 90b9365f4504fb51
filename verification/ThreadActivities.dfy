/**
 A restored thread's activities, materialised at their anchors in one batch, and the client's own way
 with the same activities: one upsert at a time.
 */
module ThreadActivities {
  import opened Messages

  datatype Snapshot = Snapshot(messageId: Id, activityType: string, content: map<string, Json>)

  /** A snapshot and the message it stood after. */
  datatype ThreadActivity = ThreadActivity(event: Snapshot, after: Option<Id>)

  function AsMessage(event: Snapshot): Message {
    Activity(event.messageId, event.activityType, event.content)
  }

  // ---- The batch ------------------------------------------------------------------------------

  /** First position and last content: the order ids were first seen in, each one's anchor then, its event now. */
  datatype Placement = Placement(order: seq<Id>, anchors: map<Id, Option<Id>>, events: map<Id, Snapshot>)

  /** An anchor the thread does not have is none. */
  function KnownAnchor(after: Option<Id>, known: set<Id>): Option<Id> {
    if after.Some? && after.value in known then after else None
  }

  function Place(p: Placement, a: ThreadActivity, known: set<Id>): Placement {
    var id := a.event.messageId;
    if id in p.events then p.(events := p.events[id := a.event])
    else Placement(p.order + [id], p.anchors[id := KnownAnchor(a.after, known)], p.events[id := a.event])
  }

  function PlaceAll(activities: seq<ThreadActivity>, n: nat, known: set<Id>): Placement
    requires n <= |activities|
  {
    if n == 0 then Placement([], map[], map[]) else Place(PlaceAll(activities, n - 1, known), activities[n - 1], known)
  }

  /** Every id has one place, an anchor and an event. */
  ghost predicate Valid(p: Placement) {
    && (forall k :: 0 <= k < |p.order| ==>
        p.order[k] in p.anchors && p.order[k] in p.events && p.events[p.order[k]].messageId == p.order[k])
    && (forall id :: id in p.events ==> id in p.order)
  }

  lemma PlaceValid(p: Placement, a: ThreadActivity, known: set<Id>)
    requires Valid(p)
    ensures Valid(Place(p, a, known))
  {
    var id := a.event.messageId;
    if id !in p.events {
      var order := p.order + [id];
      assert order[|p.order|] == id;
      forall x | x in p.order ensures x in order {
      }
    }
  }

  lemma {:induction false} PlaceAllValid(activities: seq<ThreadActivity>, n: nat, known: set<Id>)
    requires n <= |activities|
    ensures Valid(PlaceAll(activities, n, known))
  {
    if n > 0 {
      PlaceAllValid(activities, n - 1, known);
      PlaceValid(PlaceAll(activities, n - 1, known), activities[n - 1], known);
    }
  }

  /** The activities at one anchor among the first `k` placed, in order. */
  function At(p: Placement, k: nat, anchor: Option<Id>): seq<Message>
    requires Valid(p) && k <= |p.order|
  {
    if k == 0 then []
    else if p.anchors[p.order[k - 1]] == anchor then At(p, k - 1, anchor) + [AsMessage(p.events[p.order[k - 1]])]
    else At(p, k - 1, anchor)
  }

  /** The messages from `i` on, each followed by the activities at it, and then the ones at none. */
  function MergedFrom(messages: seq<Message>, i: nat, p: Placement): seq<Message>
    requires Valid(p) && i <= |messages|
    decreases |messages| - i
  {
    if i == |messages| then At(p, |p.order|, None)
    else [messages[i]] + At(p, |p.order|, Some(messages[i].id)) + MergedFrom(messages, i + 1, p)
  }

  function Merged(messages: seq<Message>, activities: seq<ThreadActivity>): seq<Message> {
    PlaceAllValid(activities, |activities|, Ids(messages));
    MergedFrom(messages, 0, PlaceAll(activities, |activities|, Ids(messages)))
  }

  function FollowingIn(following: map<Id, seq<Message>>, id: Id): seq<Message> {
    if id in following then following[id] else []
  }

  /** First pass: the order the ids are seen in, each one's first anchor and last event. */
  method PlaceEach(activities: seq<ThreadActivity>, known: set<Id>) returns (p: Placement)
    ensures p == PlaceAll(activities, |activities|, known)
  {
    var order: seq<Id> := [];
    var anchors: map<Id, Option<Id>> := map[];
    var events: map<Id, Snapshot> := map[];
    for n := 0 to |activities|
      invariant Placement(order, anchors, events) == PlaceAll(activities, n, known)
    {
      var id := activities[n].event.messageId;
      if id !in events {
        order := order + [id];
        anchors := anchors[id := KnownAnchor(activities[n].after, known)];
      }
      events := events[id := activities[n].event];
    }
    p := Placement(order, anchors, events);
  }

  method Append(following: map<Id, seq<Message>>, anchor: Id, m: Message) returns (following': map<Id, seq<Message>>)
    ensures forall id :: FollowingIn(following', id) == if id == anchor then FollowingIn(following, id) + [m]
            else FollowingIn(following, id)
  {
    following' := following[anchor := FollowingIn(following, anchor) + [m]];
  }

  /** Second pass: the activities that go last, and the ones that follow each message. */
  method GroupByAnchor(p: Placement) returns (trailing: seq<Message>, following: map<Id, seq<Message>>)
    requires Valid(p)
    ensures trailing == At(p, |p.order|, None)
    ensures forall id :: FollowingIn(following, id) == At(p, |p.order|, Some(id))
  {
    trailing, following := [], map[];
    for k := 0 to |p.order|
      invariant trailing == At(p, k, None)
      invariant forall id :: FollowingIn(following, id) == At(p, k, Some(id))
    {
      var materialised := AsMessage(p.events[p.order[k]]);
      match p.anchors[p.order[k]] {
        case None =>
          trailing := trailing + [materialised];
        case Some(anchor) =>
          following := Append(following, anchor, materialised);
      }
    }
  }

  lemma {:induction false} MergedFromEach(messages: seq<Message>, i: nat, p: Placement, merged: seq<Message>,
                                          after: seq<Message>)
    requires Valid(p) && i < |messages| && after == At(p, |p.order|, Some(messages[i].id))
    ensures (merged + [messages[i]] + after) + MergedFrom(messages, i + 1, p) == merged + MergedFrom(messages, i, p)
  {
    assert merged + ([messages[i]] + after + MergedFrom(messages, i + 1, p))
        == (merged + [messages[i]] + after) + MergedFrom(messages, i + 1, p);
  }

  /** Third pass: each message with what follows it, and then what goes last. */
  method Interleave(messages: seq<Message>, p: Placement, trailing: seq<Message>, following: map<Id, seq<Message>>)
    returns (merged: seq<Message>)
    requires Valid(p)
    requires trailing == At(p, |p.order|, None)
    requires forall id :: FollowingIn(following, id) == At(p, |p.order|, Some(id))
    ensures merged == MergedFrom(messages, 0, p)
  {
    merged := [];
    for i := 0 to |messages|
      invariant merged + MergedFrom(messages, i, p) == MergedFrom(messages, 0, p)
    {
      var after := FollowingIn(following, messages[i].id);
      MergedFromEach(messages, i, p, merged, after);
      merged := merged + [messages[i]] + after;
    }
    merged := merged + trailing;
  }

  method WithActivities(messages: seq<Message>, activities: seq<ThreadActivity>) returns (merged: seq<Message>)
    ensures merged == Merged(messages, activities)
  {
    PlaceAllValid(activities, |activities|, Ids(messages));
    var p := PlaceEach(activities, Ids(messages));
    var trailing, following := GroupByAnchor(p);
    merged := Interleave(messages, p, trailing, following);
  }

  // ---- The client, one activity at a time -------------------------------------------------------

  /** One message of a transcript, and where it came from: the thread, or an activity placed at an anchor. */
  datatype Entry = Base(message: Message) | Extra(message: Message, anchor: Option<Id>)

  function Seen(view: seq<Entry>, id: Id): bool {
    exists k :: 0 <= k < |view| && view[k].message.id == id
  }

  function Replace(entry: Entry, m: Message): Entry {
    if entry.message.id != m.id then entry
    else match entry
         case Base(_) => Base(m)
         case Extra(_, anchor) => Extra(m, anchor)
  }

  function Replaced(view: seq<Entry>, m: Message): seq<Entry> {
    seq(|view|, k requires 0 <= k < |view| => Replace(view[k], m))
  }

  /** After the anchor, and after the activities already placed at it. */
  function InsertAfter(view: seq<Entry>, extra: Entry): seq<Entry>
    requires extra.Extra? && extra.anchor.Some?
  {
    if view == [] then [extra]
    else if view[0].Base? && view[0].message.id == extra.anchor.value then [view[0]] + InsertRun(view[1..], extra)
    else [view[0]] + InsertAfter(view[1..], extra)
  }

  function InsertRun(view: seq<Entry>, extra: Entry): seq<Entry>
    requires extra.Extra?
  {
    if view != [] && view[0].Extra? && view[0].anchor == extra.anchor then [view[0]] + InsertRun(view[1..], extra)
    else [extra] + view
  }

  /** What the client does with one snapshot. */
  function Upsert(view: seq<Entry>, a: ThreadActivity, known: set<Id>): seq<Entry> {
    var m := Activity(a.event.messageId, a.event.activityType, a.event.content);
    var anchor := if a.after.Some? && a.after.value in known then a.after else None;
    if Seen(view, m.id) then Replaced(view, m)
    else if anchor.None? then view + [Extra(m, None)]
    else InsertAfter(view, Extra(m, anchor))
  }

  function Bases(messages: seq<Message>): seq<Entry> {
    seq(|messages|, i requires 0 <= i < |messages| => Base(messages[i]))
  }

  function UpsertAll(messages: seq<Message>, activities: seq<ThreadActivity>, n: nat): seq<Entry>
    requires n <= |activities|
  {
    if n == 0 then Bases(messages) else Upsert(UpsertAll(messages, activities, n - 1), activities[n - 1], Ids(messages))
  }

  function Shown(view: seq<Entry>): seq<Message> {
    seq(|view|, k requires 0 <= k < |view| => view[k].message)
  }

  // ---- They agree ---------------------------------------------------------------------------------

  /** The batch's layout, with each message's origin. */
  function Extras(p: Placement, k: nat, anchor: Option<Id>): (extras: seq<Entry>)
    requires Valid(p) && k <= |p.order|
    ensures forall j :: 0 <= j < |extras| ==> extras[j].Extra? && extras[j].anchor == anchor
  {
    if k == 0 then []
    else if p.anchors[p.order[k - 1]] == anchor
        then Extras(p, k - 1, anchor) + [Extra(AsMessage(p.events[p.order[k - 1]]), anchor)]
    else Extras(p, k - 1, anchor)
  }

  function Layout(messages: seq<Message>, i: nat, p: Placement): seq<Entry>
    requires Valid(p) && i <= |messages|
    decreases |messages| - i
  {
    if i == |messages| then Extras(p, |p.order|, None)
    else [Base(messages[i])] + (Extras(p, |p.order|, Some(messages[i].id)) + Layout(messages, i + 1, p))
  }

  lemma {:induction false} ExtrasShow(p: Placement, k: nat, anchor: Option<Id>)
    requires Valid(p) && k <= |p.order|
    ensures Shown(Extras(p, k, anchor)) == At(p, k, anchor)
  {
    if k > 0 {
      ExtrasShow(p, k - 1, anchor);
    }
  }

  lemma ShownConcat(a: seq<Entry>, b: seq<Entry>)
    ensures Shown(a + b) == Shown(a) + Shown(b)
  {
  }

  lemma {:induction false} LayoutShows(messages: seq<Message>, i: nat, p: Placement)
    requires Valid(p) && i <= |messages|
    ensures Shown(Layout(messages, i, p)) == MergedFrom(messages, i, p)
    decreases |messages| - i
  {
    if i == |messages| {
      ExtrasShow(p, |p.order|, None);
    } else {
      LayoutShows(messages, i + 1, p);
      ExtrasShow(p, |p.order|, Some(messages[i].id));
      ShownConcat(Extras(p, |p.order|, Some(messages[i].id)), Layout(messages, i + 1, p));
      ShownConcat([Base(messages[i])], Extras(p, |p.order|, Some(messages[i].id)) + Layout(messages, i + 1, p));
    }
  }

  // A new id ---------------------------------------------------------------------------------------

  lemma {:induction false} ExtrasUntouched(p: Placement, p': Placement, k: nat, anchor: Option<Id>)
    requires Valid(p) && Valid(p') && k <= |p.order| <= |p'.order| && p'.order[..|p.order|] == p.order
    requires forall j :: 0 <= j < |p.order| ==>
             p'.anchors[p.order[j]] == p.anchors[p.order[j]] && p'.events[p.order[j]] == p.events[p.order[j]]
    ensures Extras(p', k, anchor) == Extras(p, k, anchor)
  {
    if k > 0 {
      ExtrasUntouched(p, p', k - 1, anchor);
      assert p'.order[..|p.order|][k - 1] == p.order[k - 1];
    }
  }

  lemma ExtrasWithOneMore(p: Placement, p': Placement, id: Id, event: Snapshot, at: Option<Id>, anchor: Option<Id>)
    requires Valid(p) && Valid(p') && p'.order == p.order + [id]
    requires id in p'.anchors && p'.anchors[id] == at && id in p'.events && p'.events[id] == event
    requires forall j :: 0 <= j < |p.order| ==> p.order[j] in p'.anchors && p.order[j] in p'.events
    requires forall j :: 0 <= j < |p.order| ==>
             p'.anchors[p.order[j]] == p.anchors[p.order[j]] && p'.events[p.order[j]] == p.events[p.order[j]]
    ensures Extras(p', |p'.order|, anchor)
            == if at == anchor then Extras(p, |p.order|, anchor) + [Extra(AsMessage(event), anchor)]
                else Extras(p, |p.order|, anchor)
  {
    ExtrasUntouched(p, p', |p.order|, anchor);
  }

  /** A new activity joins the end of its own anchor's, and no other's. */
  lemma ExtrasWithNew(p: Placement, a: ThreadActivity, known: set<Id>, anchor: Option<Id>)
    requires Valid(p) && a.event.messageId !in p.events
    ensures Valid(Place(p, a, known))
    ensures var p' := Place(p, a, known);
            Extras(p', |p'.order|, anchor)
            == if KnownAnchor(a.after, known) == anchor
                then Extras(p, |p.order|, anchor) + [Extra(AsMessage(a.event), anchor)]
               else Extras(p, |p.order|, anchor)
  {
    PlaceValid(p, a, known);
    ExtrasWithOneMore(p, Place(p, a, known), a.event.messageId, a.event, KnownAnchor(a.after, known), anchor);
  }

  lemma {:induction false} InsertPastRun(run: seq<Entry>, rest: seq<Entry>, extra: Entry)
    requires extra.Extra? && extra.anchor.Some?
    requires forall j :: 0 <= j < |run| ==> run[j].Extra? && run[j].anchor == extra.anchor
    requires rest == [] || rest[0].Base? || rest[0].anchor != extra.anchor
    ensures InsertRun(run + rest, extra) == run + ([extra] + rest)
  {
    if run == [] {
      assert run + rest == rest;
    } else {
      assert (run + rest)[1..] == run[1..] + rest;
      InsertPastRun(run[1..], rest, extra);
      assert run + ([extra] + rest) == [run[0]] + (run[1..] + ([extra] + rest));
    }
  }

  lemma {:induction false} InsertPastOthers(run: seq<Entry>, rest: seq<Entry>, extra: Entry)
    requires extra.Extra? && extra.anchor.Some?
    requires forall j :: 0 <= j < |run| ==> run[j].Extra?
    ensures InsertAfter(run + rest, extra) == run + InsertAfter(rest, extra)
  {
    if run == [] {
      assert run + rest == rest;
    } else {
      assert (run + rest)[1..] == run[1..] + rest;
      InsertPastOthers(run[1..], rest, extra);
    }
  }

  lemma {:induction false} LayoutWithTrailing(messages: seq<Message>, i: nat, p: Placement, a: ThreadActivity,
                                              known: set<Id>)
    requires Valid(p) && i <= |messages| && a.event.messageId !in p.events
    requires KnownAnchor(a.after, known).None?
    ensures Valid(Place(p, a, known))
    ensures Layout(messages, i, Place(p, a, known)) == Layout(messages, i, p) + [Extra(AsMessage(a.event), None)]
    decreases |messages| - i
  {
    if i == |messages| {
      ExtrasWithNew(p, a, known, None);
    } else {
      ExtrasWithNew(p, a, known, Some(messages[i].id));
      LayoutWithTrailing(messages, i + 1, p, a, known);
    }
  }

  lemma {:induction false} LayoutElsewhere(messages: seq<Message>, i: nat, p: Placement, a: ThreadActivity,
                                           known: set<Id>)
    requires Valid(p) && i <= |messages| && a.event.messageId !in p.events
    requires KnownAnchor(a.after, known).Some?
    requires forall j :: i <= j < |messages| ==> messages[j].id != KnownAnchor(a.after, known).value
    ensures Valid(Place(p, a, known))
    ensures Layout(messages, i, Place(p, a, known)) == Layout(messages, i, p)
    decreases |messages| - i
  {
    if i == |messages| {
      ExtrasWithNew(p, a, known, None);
    } else {
      ExtrasWithNew(p, a, known, Some(messages[i].id));
      LayoutElsewhere(messages, i + 1, p, a, known);
    }
  }

  lemma {:induction false} NextIsElsewhere(messages: seq<Message>, i: nat, p: Placement, anchor: Id)
    requires Valid(p) && i <= |messages|
    requires forall j :: i <= j < |messages| ==> messages[j].id != anchor
    ensures var rest := Layout(messages, i, p); rest == [] || rest[0].Base? || rest[0].anchor != Some(anchor)
  {
  }

  lemma InsertAtItsAnchor(base: Entry, run: seq<Entry>, rest: seq<Entry>, extra: Entry)
    requires extra.Extra? && extra.anchor.Some? && base.Base? && base.message.id == extra.anchor.value
    requires forall j :: 0 <= j < |run| ==> run[j].Extra? && run[j].anchor == extra.anchor
    requires rest == [] || rest[0].Base? || rest[0].anchor != extra.anchor
    ensures InsertAfter([base] + (run + rest), extra) == [base] + ((run + [extra]) + rest)
  {
    assert ([base] + (run + rest))[1..] == run + rest;
    InsertPastRun(run, rest, extra);
    assert (run + [extra]) + rest == run + ([extra] + rest);
  }

  lemma InsertElsewhere(base: Entry, run: seq<Entry>, rest: seq<Entry>, extra: Entry)
    requires extra.Extra? && extra.anchor.Some? && base.Base? && base.message.id != extra.anchor.value
    requires forall j :: 0 <= j < |run| ==> run[j].Extra?
    ensures InsertAfter([base] + (run + rest), extra) == [base] + (run + InsertAfter(rest, extra))
  {
    assert ([base] + (run + rest))[1..] == run + rest;
    InsertPastOthers(run, rest, extra);
  }

  /** The rest of a layout whose first message has just been drawn. */
  lemma LayoutStep(messages: seq<Message>, i: nat, p: Placement, p': Placement, extra: Entry)
    requires Valid(p) && Valid(p') && i < |messages| && extra.Extra? && extra.anchor.Some?
    requires var here := Some(messages[i].id);
             Extras(p', |p'.order|, here) == if extra.anchor == here then Extras(p, |p.order|, here) + [extra]
                 else Extras(p, |p.order|, here)
    requires extra.anchor == Some(messages[i].id) ==>
               var rest := Layout(messages, i + 1, p);
               Layout(messages, i + 1, p') == rest && (rest == [] || rest[0].Base? || rest[0].anchor != extra.anchor)
    requires extra.anchor != Some(messages[i].id) ==>
               Layout(messages, i + 1, p') == InsertAfter(Layout(messages, i + 1, p), extra)
    ensures Layout(messages, i, p') == InsertAfter(Layout(messages, i, p), extra)
  {
    var run := Extras(p, |p.order|, Some(messages[i].id));
    if extra.anchor == Some(messages[i].id) {
      InsertAtItsAnchor(Base(messages[i]), run, Layout(messages, i + 1, p), extra);
    } else {
      InsertElsewhere(Base(messages[i]), run, Layout(messages, i + 1, p), extra);
    }
  }

  lemma {:induction false} LayoutWithAnchored(messages: seq<Message>, i: nat, p: Placement, a: ThreadActivity,
                                              known: set<Id>, at: nat)
    requires Valid(p) && i <= at < |messages| && a.event.messageId !in p.events
    requires forall j :: 0 <= j < |messages| && j != at ==> messages[j].id != messages[at].id
    requires KnownAnchor(a.after, known) == Some(messages[at].id)
    ensures Valid(Place(p, a, known))
    ensures Layout(messages, i, Place(p, a, known))
            == InsertAfter(Layout(messages, i, p), Extra(AsMessage(a.event), Some(messages[at].id)))
    decreases at - i
  {
    ExtrasWithNew(p, a, known, Some(messages[i].id));
    if i == at {
      LayoutElsewhere(messages, i + 1, p, a, known);
      NextIsElsewhere(messages, i + 1, p, messages[i].id);
    } else {
      LayoutWithAnchored(messages, i + 1, p, a, known, at);
    }
    LayoutStep(messages, i, p, Place(p, a, known), Extra(AsMessage(a.event), Some(messages[at].id)));
  }

  // An id seen before ------------------------------------------------------------------------------

  lemma {:induction false} ExtrasReplaced(p: Placement, a: ThreadActivity, known: set<Id>, k: nat, anchor: Option<Id>)
    requires Valid(p) && k <= |p.order| && a.event.messageId in p.events
    ensures Valid(Place(p, a, known))
    ensures Extras(Place(p, a, known), k, anchor) == Replaced(Extras(p, k, anchor), AsMessage(a.event))
  {
    PlaceValid(p, a, known);
    if k > 0 {
      ExtrasReplaced(p, a, known, k - 1, anchor);
    }
  }

  lemma ReplacedConcat(a: seq<Entry>, b: seq<Entry>, m: Message)
    ensures Replaced(a + b, m) == Replaced(a, m) + Replaced(b, m)
  {
  }

  /**
   A layout whose first message has just been drawn, with a message replaced in the rest and among what follows it.
   */
  lemma ReplacedStep(first: Message, run: seq<Entry>, rest: seq<Entry>, m: Message)
    requires first.id != m.id
    ensures Replaced([Base(first)] + run + rest, m) == [Base(first)] + Replaced(run, m) + Replaced(rest, m)
  {
    ReplacedConcat([Base(first)] + run, rest, m);
    ReplacedConcat([Base(first)], run, m);
    assert Replaced([Base(first)], m) == [Base(first)];
  }

  lemma LayoutReplacedStep(messages: seq<Message>, i: nat, p: Placement, p': Placement, m: Message)
    requires Valid(p) && Valid(p') && i < |messages| && messages[i].id != m.id
    requires Extras(p', |p'.order|, Some(messages[i].id)) == Replaced(Extras(p, |p.order|, Some(messages[i].id)), m)
    requires Layout(messages, i + 1, p') == Replaced(Layout(messages, i + 1, p), m)
    ensures Layout(messages, i, p') == Replaced(Layout(messages, i, p), m)
  {
    var run, rest := Extras(p, |p.order|, Some(messages[i].id)), Layout(messages, i + 1, p);
    ReplacedStep(messages[i], run, rest, m);
    assert Layout(messages, i, p) == [Base(messages[i])] + run + rest;
  }

  lemma {:induction false} LayoutReplaced(messages: seq<Message>, i: nat, p: Placement, a: ThreadActivity,
                                          known: set<Id>)
    requires Valid(p) && i <= |messages| && a.event.messageId in p.events
    requires a.event.messageId !in Ids(messages)
    ensures Valid(Place(p, a, known))
    ensures Layout(messages, i, Place(p, a, known)) == Replaced(Layout(messages, i, p), AsMessage(a.event))
    decreases |messages| - i
  {
    if i == |messages| {
      ExtrasReplaced(p, a, known, |p.order|, None);
    } else {
      ExtrasReplaced(p, a, known, |p.order|, Some(messages[i].id));
      LayoutReplaced(messages, i + 1, p, a, known);
      LayoutReplacedStep(messages, i, p, Place(p, a, known), AsMessage(a.event));
    }
  }

  // Seen or not ------------------------------------------------------------------------------------

  lemma {:induction false} ExtraIsPlaced(p: Placement, k: nat, anchor: Option<Id>, j: nat)
    requires Valid(p) && k <= |p.order| && j < |Extras(p, k, anchor)|
    ensures Extras(p, k, anchor)[j].message.id in p.events
  {
    if j < |Extras(p, k - 1, anchor)| {
      ExtraIsPlaced(p, k - 1, anchor, j);
    }
  }

  lemma {:induction false} PlacedIsExtra(p: Placement, k: nat, j: nat) returns (at: nat)
    requires Valid(p) && j < k <= |p.order|
    ensures at < |Extras(p, k, p.anchors[p.order[j]])|
            && Extras(p, k, p.anchors[p.order[j]])[at].message.id == p.order[j]
  {
    if j < k - 1 {
      at := PlacedIsExtra(p, k - 1, j);
    } else {
      at := |Extras(p, k - 1, p.anchors[p.order[j]])|;
    }
  }

  /** Whether every anchor is one of the thread's messages. */
  ghost predicate Anchored(p: Placement, messages: seq<Message>) {
    forall id :: id in p.anchors && p.anchors[id].Some? ==> p.anchors[id].value in Ids(messages)
  }

  lemma {:induction false} NotSeen(messages: seq<Message>, i: nat, p: Placement, id: Id)
    requires Valid(p) && i <= |messages| && id !in Ids(messages) && id !in p.events
    ensures !Seen(Layout(messages, i, p), id)
    decreases |messages| - i
  {
    var view := Layout(messages, i, p);
    forall k: nat | k < |view| ensures view[k].message.id != id {
      if i == |messages| {
        ExtraIsPlaced(p, |p.order|, None, k);
      } else {
        var run := Extras(p, |p.order|, Some(messages[i].id));
        if 0 < k <= |run| {
          ExtraIsPlaced(p, |p.order|, Some(messages[i].id), k - 1);
        } else if k > |run| {
          NotSeen(messages, i + 1, p, id);
          assert view[k] == Layout(messages, i + 1, p)[k - 1 - |run|];
        }
      }
    }
  }

  lemma {:induction false} RunIsInLayout(messages: seq<Message>, i: nat, p: Placement, anchor: Option<Id>, j: nat)
    returns (at: nat)
    requires Valid(p) && i <= |messages| && j < |Extras(p, |p.order|, anchor)|
    requires anchor.None? || exists j :: i <= j < |messages| && messages[j].id == anchor.value
    ensures at < |Layout(messages, i, p)| && Layout(messages, i, p)[at] == Extras(p, |p.order|, anchor)[j]
    decreases |messages| - i
  {
    if i == |messages| {
      at := j;
    } else if anchor == Some(messages[i].id) {
      at := j + 1;
    } else {
      at := RunIsInLayout(messages, i + 1, p, anchor, j);
      at := 1 + |Extras(p, |p.order|, Some(messages[i].id))| + at;
    }
  }

  lemma PlacedIsShown(messages: seq<Message>, p: Placement, id: Id) returns (at: nat)
    requires Valid(p) && Anchored(p, messages) && id in p.events
    ensures var view := Layout(messages, 0, p); at < |view| && view[at].Extra? && view[at].message.id == id
  {
    var j :| 0 <= j < |p.order| && p.order[j] == id;
    at := PlacedIsExtra(p, |p.order|, j);
    at := RunIsInLayout(messages, 0, p, p.anchors[id], at);
  }

  lemma {:induction false} MessageIsShown(messages: seq<Message>, i: nat, p: Placement, id: Id) returns (at: nat)
    requires Valid(p) && i <= |messages| && exists j :: i <= j < |messages| && messages[j].id == id
    ensures var view := Layout(messages, i, p); at < |view| && view[at].Base? && view[at].message.id == id
    decreases |messages| - i
  {
    if messages[i].id == id {
      at := 0;
    } else {
      at := MessageIsShown(messages, i + 1, p, id);
      at := 1 + |Extras(p, |p.order|, Some(messages[i].id))| + at;
    }
  }

  lemma IndexOf(messages: seq<Message>, id: Id) returns (at: nat)
    requires id in Ids(messages) && DistinctIds(messages)
    ensures at < |messages| && messages[at].id == id
    ensures forall j :: 0 <= j < |messages| && j != at ==> messages[j].id != id
  {
    at :| at < |messages| && messages[at].id == id;
  }

  lemma OneUpsert(messages: seq<Message>, p: Placement, a: ThreadActivity)
    requires Valid(p) && Anchored(p, messages) && DistinctIds(messages) && a.event.messageId !in Ids(messages)
    ensures var p' := Place(p, a, Ids(messages));
            && Valid(p') && Anchored(p', messages)
            && Layout(messages, 0, p') == Upsert(Layout(messages, 0, p), a, Ids(messages))
  {
    var known := Ids(messages);
    PlaceValid(p, a, known);
    if a.event.messageId in p.events {
      var shown := PlacedIsShown(messages, p, a.event.messageId);
      LayoutReplaced(messages, 0, p, a, known);
    } else {
      NotSeen(messages, 0, p, a.event.messageId);
      if KnownAnchor(a.after, known).None? {
        LayoutWithTrailing(messages, 0, p, a, known);
      } else {
        var at := IndexOf(messages, a.after.value);
        LayoutWithAnchored(messages, 0, p, a, known, at);
      }
    }
  }

  lemma {:induction false} NothingPlaced(messages: seq<Message>, i: nat)
    requires i <= |messages|
    ensures Layout(messages, i, Placement([], map[], map[])) == Bases(messages)[i..]
    decreases |messages| - i
  {
    if i < |messages| {
      NothingPlaced(messages, i + 1);
    }
  }

  ghost predicate NewIds(messages: seq<Message>, activities: seq<ThreadActivity>) {
    forall k :: 0 <= k < |activities| ==> activities[k].event.messageId !in Ids(messages)
  }

  lemma {:induction false} UpsertsLayOut(messages: seq<Message>, activities: seq<ThreadActivity>, n: nat)
    requires DistinctIds(messages) && NewIds(messages, activities) && n <= |activities|
    ensures var p := PlaceAll(activities, n, Ids(messages));
            Valid(p) && Anchored(p, messages) && Layout(messages, 0, p) == UpsertAll(messages, activities, n)
  {
    if n == 0 {
      NothingPlaced(messages, 0);
    } else {
      UpsertsLayOut(messages, activities, n - 1);
      OneUpsert(messages, PlaceAll(activities, n - 1, Ids(messages)), activities[n - 1]);
    }
  }

  // ---- What the client's way keeps --------------------------------------------------------------

  function Originals(view: seq<Entry>): seq<Message> {
    if view == [] then []
    else (if view[0].Base? then [view[0].message] else []) + Originals(view[1..])
  }

  function EntryIds(view: seq<Entry>): multiset<Id> {
    if view == [] then multiset{} else multiset{view[0].message.id} + EntryIds(view[1..])
  }

  lemma {:induction false} InsertRunKeeps(view: seq<Entry>, extra: Entry)
    requires extra.Extra?
    ensures Originals(InsertRun(view, extra)) == Originals(view)
    ensures EntryIds(InsertRun(view, extra)) == EntryIds(view) + multiset{extra.message.id}
  {
    if view != [] && view[0].Extra? && view[0].anchor == extra.anchor {
      InsertRunKeeps(view[1..], extra);
      assert InsertRun(view, extra)[1..] == InsertRun(view[1..], extra);
    } else {
      assert ([extra] + view)[1..] == view;
    }
  }

  lemma {:induction false} InsertKeeps(view: seq<Entry>, extra: Entry)
    requires extra.Extra? && extra.anchor.Some?
    ensures Originals(InsertAfter(view, extra)) == Originals(view)
    ensures EntryIds(InsertAfter(view, extra)) == EntryIds(view) + multiset{extra.message.id}
  {
    if view == [] {
      assert [extra][1..] == [];
    } else {
      assert InsertAfter(view, extra)[0] == view[0];
      if view[0].Base? && view[0].message.id == extra.anchor.value {
        InsertRunKeeps(view[1..], extra);
        assert InsertAfter(view, extra)[1..] == InsertRun(view[1..], extra);
      } else {
        InsertKeeps(view[1..], extra);
        assert InsertAfter(view, extra)[1..] == InsertAfter(view[1..], extra);
      }
    }
  }

  lemma {:induction false} AppendKeeps(view: seq<Entry>, extra: Entry)
    requires extra.Extra?
    ensures Originals(view + [extra]) == Originals(view)
    ensures EntryIds(view + [extra]) == EntryIds(view) + multiset{extra.message.id}
  {
    if view == [] {
      assert view + [extra] == [extra] && [extra][1..] == [];
    } else {
      assert (view + [extra])[1..] == view[1..] + [extra];
      AppendKeeps(view[1..], extra);
    }
  }

  lemma ReplacedRest(view: seq<Entry>, m: Message)
    requires view != []
    ensures Replaced(view, m) != [] && Replaced(view, m)[1..] == Replaced(view[1..], m)
    ensures Replaced(view, m)[0] == Replace(view[0], m) && Replace(view[0], m).message.id == view[0].message.id
  {
  }

  lemma {:induction false} ReplaceKeepsIds(view: seq<Entry>, m: Message)
    ensures EntryIds(Replaced(view, m)) == EntryIds(view)
  {
    if view != [] {
      ReplacedRest(view, m);
      ReplaceKeepsIds(view[1..], m);
    }
  }

  lemma {:induction false} ReplaceKeeps(view: seq<Entry>, m: Message)
    requires forall k :: 0 <= k < |view| && view[k].Base? ==> view[k].message.id != m.id
    ensures Originals(Replaced(view, m)) == Originals(view)
  {
    if view != [] {
      ReplacedRest(view, m);
      ReplaceKeeps(view[1..], m);
    }
  }

  lemma {:induction false} OriginalsAre(view: seq<Entry>, k: nat)
    requires k < |view| && view[k].Base?
    ensures view[k].message in Originals(view)
  {
    if k > 0 {
      OriginalsAre(view[1..], k - 1);
    }
  }

  lemma {:induction false} SeenIsCounted(view: seq<Entry>, id: Id)
    ensures Seen(view, id) <==> id in EntryIds(view)
  {
    if view != [] {
      SeenIsCounted(view[1..], id);
      if Seen(view[1..], id) {
        var k :| 0 <= k < |view[1..]| && view[1..][k].message.id == id;
        assert view[k + 1].message.id == id;
      }
      if Seen(view, id) && view[0].message.id != id {
        var k :| 0 <= k < |view| && view[k].message.id == id;
        assert view[1..][k - 1].message.id == id;
      }
    }
  }

  lemma {:induction false} OriginalBases(messages: seq<Message>)
    ensures Originals(Bases(messages)) == messages
  {
    if messages != [] {
      assert Bases(messages)[1..] == Bases(messages[1..]);
      OriginalBases(messages[1..]);
    }
  }

  lemma UpsertIds(view: seq<Entry>, a: ThreadActivity, known: set<Id>)
    ensures EntryIds(Upsert(view, a, known))
            == EntryIds(view) + if Seen(view, a.event.messageId) then multiset{} else multiset{a.event.messageId}
  {
    var m := AsMessage(a.event);
    var anchor := KnownAnchor(a.after, known);
    if Seen(view, m.id) {
      ReplaceKeepsIds(view, m);
    } else if anchor.None? {
      AppendKeeps(view, Extra(m, None));
    } else {
      InsertKeeps(view, Extra(m, anchor));
    }
  }

  lemma UpsertKeeps(messages: seq<Message>, view: seq<Entry>, a: ThreadActivity)
    requires Originals(view) == messages && a.event.messageId !in Ids(messages)
    ensures Originals(Upsert(view, a, Ids(messages))) == messages
  {
    var m := AsMessage(a.event);
    var anchor := KnownAnchor(a.after, Ids(messages));
    if Seen(view, m.id) {
      forall k: nat | k < |view| && view[k].Base? ensures view[k].message.id != m.id {
        OriginalsAre(view, k);
      }
      ReplaceKeeps(view, m);
    } else if anchor.None? {
      AppendKeeps(view, Extra(m, None));
    } else {
      InsertKeeps(view, Extra(m, anchor));
    }
  }

  function ActivityIds(activities: seq<ThreadActivity>, n: nat): set<Id>
    requires n <= |activities|
  {
    set k | 0 <= k < n :: activities[k].event.messageId
  }

  /**
   However many activities come, the thread's own messages stay as they were and in order, and every
   activity id is shown exactly once.
   */
  lemma {:induction false} MessagesStayAndActivitiesShowOnce(messages: seq<Message>, activities: seq<ThreadActivity>,
                                                             n: nat)
    requires NewIds(messages, activities) && n <= |activities|
    ensures Originals(UpsertAll(messages, activities, n)) == messages
    ensures EntryIds(UpsertAll(messages, activities, n))
            == EntryIds(Bases(messages)) + multiset(ActivityIds(activities, n))
  {
    OriginalBases(messages);
    if n > 0 {
      var view := UpsertAll(messages, activities, n - 1);
      var a := activities[n - 1];
      MessagesStayAndActivitiesShowOnce(messages, activities, n - 1);
      UpsertKeeps(messages, view, a);
      UpsertIds(view, a, Ids(messages));
      BasesHaveTheIds(messages, a.event.messageId);
      OneMoreId(activities, n, view, EntryIds(Bases(messages)));
    }
  }

  lemma OneMoreInSet(before: set<Id>, id: Id)
    ensures multiset(before + {id}) == multiset(before) + if id in before then multiset{} else multiset{id}
  {
    if id in before {
      assert before + {id} == before;
    }
  }

  lemma OneMoreId(activities: seq<ThreadActivity>, n: nat, view: seq<Entry>, others: multiset<Id>)
    requires 0 < n <= |activities| && activities[n - 1].event.messageId !in others
    requires EntryIds(view) == others + multiset(ActivityIds(activities, n - 1))
    ensures var id := activities[n - 1].event.messageId;
            EntryIds(view) + (if Seen(view, id) then multiset{} else multiset{id})
                == others + multiset(ActivityIds(activities, n))
  {
    var id := activities[n - 1].event.messageId;
    SeenIsCounted(view, id);
    OneMoreInSet(ActivityIds(activities, n - 1), id);
    assert ActivityIds(activities, n) == ActivityIds(activities, n - 1) + {id};
  }

  lemma {:induction false} BasesHaveTheIds(messages: seq<Message>, id: Id)
    requires id !in Ids(messages)
    ensures id !in EntryIds(Bases(messages))
  {
    SeenIsCounted(Bases(messages), id);
  }

  // ---- When they agree ----------------------------------------------------------------------------

  lemma {:induction false} TwicePlaced(view: seq<Entry>, j: nat, k: nat)
    requires j < k < |view| && view[j].message.id == view[k].message.id
    ensures EntryIds(view)[view[j].message.id] >= 2
  {
    if j == 0 {
      assert view[1..][k - 1] == view[k];
      SeenIsCounted(view[1..], view[j].message.id);
    } else {
      TwicePlaced(view[1..], j - 1, k - 1);
    }
  }

  lemma {:induction false} BasesOnce(messages: seq<Message>, id: Id)
    requires DistinctIds(messages)
    ensures EntryIds(Bases(messages))[id] <= 1
  {
    if messages != [] {
      assert Bases(messages)[1..] == Bases(messages[1..]);
      BasesOnce(messages[1..], id);
      BasesHaveTheIds(messages[1..], messages[0].id);
    }
  }

  lemma UpsertShowsOnce(view: seq<Entry>, a: ThreadActivity, known: set<Id>, id: Id)
    requires EntryIds(view)[id] <= 1
    ensures EntryIds(Upsert(view, a, known))[id] <= 1
  {
    UpsertIds(view, a, known);
    SeenIsCounted(view, a.event.messageId);
  }

  /** The client never shows an id twice, whatever it is sent. */
  lemma {:induction false} ClientShowsAnIdOnce(messages: seq<Message>, activities: seq<ThreadActivity>, n: nat, id: Id)
    requires DistinctIds(messages) && n <= |activities|
    ensures EntryIds(UpsertAll(messages, activities, n))[id] <= 1
  {
    if n == 0 {
      BasesOnce(messages, id);
    } else {
      ClientShowsAnIdOnce(messages, activities, n - 1, id);
      UpsertShowsOnce(UpsertAll(messages, activities, n - 1), activities[n - 1], Ids(messages), id);
    }
  }

  lemma PlaceAnchors(messages: seq<Message>, p: Placement, a: ThreadActivity)
    requires Anchored(p, messages)
    ensures var p' := Place(p, a, Ids(messages));
            Anchored(p', messages) && a.event.messageId in p'.events && forall id :: id in p.events ==> id in p'.events
  {
  }

  lemma {:induction false} PlacedAnchored(messages: seq<Message>, activities: seq<ThreadActivity>, n: nat)
    requires n <= |activities|
    ensures Anchored(PlaceAll(activities, n, Ids(messages)), messages)
  {
    if n > 0 {
      PlacedAnchored(messages, activities, n - 1);
      PlaceAnchors(messages, PlaceAll(activities, n - 1, Ids(messages)), activities[n - 1]);
    }
  }

  lemma {:induction false} EventIsPlaced(messages: seq<Message>, activities: seq<ThreadActivity>, n: nat, k: nat)
    requires k < n <= |activities|
    ensures activities[k].event.messageId in PlaceAll(activities, n, Ids(messages)).events
  {
    if k < n - 1 {
      EventIsPlaced(messages, activities, n - 1, k);
    }
  }

  /** An activity under a message's own id is drawn beside that message by the batch, over it by the client. */
  lemma BatchShowsItTwice(messages: seq<Message>, activities: seq<ThreadActivity>, k: nat)
    requires DistinctIds(messages) && k < |activities| && activities[k].event.messageId in Ids(messages)
    ensures Merged(messages, activities) != Shown(UpsertAll(messages, activities, |activities|))
  {
    var id := activities[k].event.messageId;
    var p := PlaceAll(activities, |activities|, Ids(messages));
    PlaceAllValid(activities, |activities|, Ids(messages));
    PlacedAnchored(messages, activities, |activities|);
    EventIsPlaced(messages, activities, |activities|, k);
    LayoutShows(messages, 0, p);
    var one := MessageIsShown(messages, 0, p, id);
    var two := PlacedIsShown(messages, p, id);
    var view := UpsertAll(messages, activities, |activities|);
    ClientShowsAnIdOnce(messages, activities, |activities|, id);
    if Merged(messages, activities) == Shown(view) {
      assert Shown(view)[one].id == id && Shown(view)[two].id == id;
      TwicePlaced(view, if one < two then one else two, if one < two then two else one);
    }
  }

  /**
   The batch draws what the client draws, one activity at a time: for every thread of distinct ids, exactly
   when no activity has the id of one of the thread's own messages.
   */
  lemma BatchEqualsTheClient(messages: seq<Message>, activities: seq<ThreadActivity>)
    requires DistinctIds(messages)
    ensures Merged(messages, activities) == Shown(UpsertAll(messages, activities, |activities|))
            <==> NewIds(messages, activities)
  {
    if NewIds(messages, activities) {
      UpsertsLayOut(messages, activities, |activities|);
      LayoutShows(messages, 0, PlaceAll(activities, |activities|, Ids(messages)));
    } else {
      var k: nat :| k < |activities| && activities[k].event.messageId in Ids(messages);
      BatchShowsItTwice(messages, activities, k);
    }
  }
}
