/**
 Which activity the merged thread holds where, said of the list of activities itself: no map, no order kept beside it.
 That the three passes of `ThreadActivities` come to this, for every thread and every list, is what is proved.
 */
module RestoredActivities {
  import opened Messages
  import opened ThreadActivities

  /** Whether no activity before the `k`-th has its id. */
  predicate IsFirst(activities: seq<ThreadActivity>, k: nat)
    requires k < |activities|
  {
    forall j :: 0 <= j < k ==> activities[j].event.messageId != activities[k].event.messageId
  }

  /** The last of the first `n` activities with an id that one of them has. */
  function LastOf(activities: seq<ThreadActivity>, n: nat, id: Id): (k: nat)
    requires n <= |activities| && exists j :: 0 <= j < n && activities[j].event.messageId == id
    ensures k < n && activities[k].event.messageId == id
    ensures forall j :: k < j < n ==> activities[j].event.messageId != id
  {
    if activities[n - 1].event.messageId == id then n - 1 else LastOf(activities, n - 1, id)
  }

  /** Whether an activity goes at `anchor`: after a message the thread has, or at the end when it names none of them. */
  predicate GoesAt(messages: seq<Message>, a: ThreadActivity, anchor: Option<Id>) {
    match anchor
    case Some(id) => a.after == anchor && exists m :: m in messages && m.id == id
    case None => a.after.None? || forall m :: m in messages ==> m.id != a.after.value
  }

  /** The first `k` activities that go at `anchor`, each id once, where it came first and as it came last. */
  function Restored(messages: seq<Message>, activities: seq<ThreadActivity>, k: nat, anchor: Option<Id>): seq<Message>
    requires k <= |activities|
  {
    if k == 0 then []
    else if IsFirst(activities, k - 1) && GoesAt(messages, activities[k - 1], anchor) then
      var last := activities[LastOf(activities, |activities|, activities[k - 1].event.messageId)].event;
      Restored(messages, activities, k - 1, anchor) + [Activity(last.messageId, last.activityType, last.content)]
    else Restored(messages, activities, k - 1, anchor)
  }

  /** The messages from `i` on, each followed by what goes after it, and then what goes at the end. */
  function ThreadFrom(messages: seq<Message>, i: nat, activities: seq<ThreadActivity>): seq<Message>
    requires i <= |messages|
    decreases |messages| - i
  {
    if i == |messages| then Restored(messages, activities, |activities|, None)
    else
      [messages[i]] + Restored(messages, activities, |activities|, Some(messages[i].id))
      + ThreadFrom(messages, i + 1, activities)
  }

  // ---- What is placed ---------------------------------------------------------------------------

  lemma {:induction false} SeenIsPlaced(activities: seq<ThreadActivity>, n: nat, known: set<Id>, id: Id)
    requires n <= |activities|
    ensures id in PlaceAll(activities, n, known).events
            <==> exists j :: 0 <= j < n && activities[j].event.messageId == id
  {
    if n > 0 {
      SeenIsPlaced(activities, n - 1, known, id);
    }
  }

  /** The last event of an id is the one placed. */
  lemma {:induction false} LastIsPlaced(activities: seq<ThreadActivity>, n: nat, known: set<Id>, id: Id)
    requires n <= |activities| && exists j :: 0 <= j < n && activities[j].event.messageId == id
    ensures var p := PlaceAll(activities, n, known);
            id in p.events && p.events[id] == activities[LastOf(activities, n, id)].event
  {
    SeenIsPlaced(activities, n, known, id);
    if activities[n - 1].event.messageId != id {
      LastIsPlaced(activities, n - 1, known, id);
    }
  }

  /** Places are given in order, and neither they nor the anchors given with them change. */
  lemma {:induction false} PlacesStay(activities: seq<ThreadActivity>, k: nat, n: nat, known: set<Id>)
    requires k <= n <= |activities|
    ensures var p, p' := PlaceAll(activities, k, known), PlaceAll(activities, n, known);
            && p.order <= p'.order
            && forall id :: id in p.events && id in p.anchors ==>
                 id in p'.events && id in p'.anchors && p'.anchors[id] == p.anchors[id]
  {
    if k < n {
      PlacesStay(activities, k, n - 1, known);
    }
  }

  lemma KnownGoesAt(messages: seq<Message>, a: ThreadActivity, anchor: Option<Id>)
    ensures KnownAnchor(a.after, Ids(messages)) == anchor <==> GoesAt(messages, a, anchor)
  {
    if anchor.Some? && GoesAt(messages, a, anchor) {
      var m :| m in messages && m.id == anchor.value;
      assert m.id in Ids(messages);
    }
  }

  lemma OneMorePlaced(messages: seq<Message>, activities: seq<ThreadActivity>, k: nat, anchor: Option<Id>)
    requires k < |activities| && IsFirst(activities, k) && Valid(PlaceAll(activities, |activities|, Ids(messages)))
    ensures var known := Ids(messages);
            var p, at := PlaceAll(activities, |activities|, known), |PlaceAll(activities, k, known).order|;
            var id := activities[k].event.messageId;
            && |PlaceAll(activities, k + 1, known).order| == at + 1 <= |p.order|
            && p.order[at] == id && p.events[id] == activities[LastOf(activities, |activities|, id)].event
            && (p.anchors[id] == anchor <==> GoesAt(messages, activities[k], anchor))
  {
    var known := Ids(messages);
    var id := activities[k].event.messageId;
    var before, after := PlaceAll(activities, k, known), PlaceAll(activities, k + 1, known);
    SeenIsPlaced(activities, k, known, id);
    assert after.order == before.order + [id] && after.anchors[id] == KnownAnchor(activities[k].after, known);
    assert after.order[|before.order|] == id;
    PlacesStay(activities, k + 1, |activities|, known);
    LastIsPlaced(activities, |activities|, known, id);
    KnownGoesAt(messages, activities[k], anchor);
  }

  /** An activity that comes again takes no place. */
  lemma NoMorePlaced(activities: seq<ThreadActivity>, k: nat, known: set<Id>)
    requires k < |activities| && !IsFirst(activities, k)
    ensures PlaceAll(activities, k + 1, known).order == PlaceAll(activities, k, known).order
  {
    SeenIsPlaced(activities, k, known, activities[k].event.messageId);
  }

  lemma OneMoreAt(p: Placement, k: nat, anchor: Option<Id>)
    requires Valid(p) && k < |p.order|
    ensures var event := p.events[p.order[k]];
            At(p, k + 1, anchor)
            == if p.anchors[p.order[k]] == anchor
               then At(p, k, anchor) + [Activity(event.messageId, event.activityType, event.content)]
               else At(p, k, anchor)
  {
  }

  lemma OneMoreRestored(messages: seq<Message>, activities: seq<ThreadActivity>, k: nat, anchor: Option<Id>)
    requires k < |activities| && IsFirst(activities, k) && Valid(PlaceAll(activities, |activities|, Ids(messages)))
    requires var p := PlaceAll(activities, |activities|, Ids(messages));
             var at := |PlaceAll(activities, k, Ids(messages)).order|;
             at <= |p.order| && At(p, at, anchor) == Restored(messages, activities, k, anchor)
    ensures var p := PlaceAll(activities, |activities|, Ids(messages));
            var at := |PlaceAll(activities, k + 1, Ids(messages)).order|;
            at <= |p.order| && At(p, at, anchor) == Restored(messages, activities, k + 1, anchor)
  {
    var p := PlaceAll(activities, |activities|, Ids(messages));
    OneMorePlaced(messages, activities, k, anchor);
    OneMoreAt(p, |PlaceAll(activities, k, Ids(messages)).order|, anchor);
  }

  lemma {:induction false} PlacedIsRestored(messages: seq<Message>, activities: seq<ThreadActivity>, k: nat,
                                            anchor: Option<Id>)
    requires k <= |activities| && Valid(PlaceAll(activities, |activities|, Ids(messages)))
    ensures var p := PlaceAll(activities, |activities|, Ids(messages));
            var at := |PlaceAll(activities, k, Ids(messages)).order|;
            at <= |p.order| && At(p, at, anchor) == Restored(messages, activities, k, anchor)
  {
    if k > 0 {
      PlacedIsRestored(messages, activities, k - 1, anchor);
      if IsFirst(activities, k - 1) {
        OneMoreRestored(messages, activities, k - 1, anchor);
      } else {
        NoMorePlaced(activities, k - 1, Ids(messages));
      }
    }
  }

  /** Whether a placement says of every anchor what the list does. */
  ghost predicate SaysTheSame(messages: seq<Message>, activities: seq<ThreadActivity>, p: Placement)
    requires Valid(p)
  {
    forall anchor :: At(p, |p.order|, anchor) == Restored(messages, activities, |activities|, anchor)
  }

  lemma {:induction false} MergedIsThread(messages: seq<Message>, i: nat, activities: seq<ThreadActivity>, p: Placement)
    requires i <= |messages| && Valid(p) && SaysTheSame(messages, activities, p)
    ensures MergedFrom(messages, i, p) == ThreadFrom(messages, i, activities)
    decreases |messages| - i
  {
    if i < |messages| {
      MergedIsThread(messages, i + 1, activities, p);
    }
  }

  /**
   What the batch shows, for every thread and every list of activities: each message, and after it, or at the end when
   the thread has no such message, each activity once, where its id came first, with the type and content it came last.
   */
  lemma MergedIsRestored(messages: seq<Message>, activities: seq<ThreadActivity>)
    ensures Merged(messages, activities) == ThreadFrom(messages, 0, activities)
  {
    var p := PlaceAll(activities, |activities|, Ids(messages));
    PlaceAllValid(activities, |activities|, Ids(messages));
    forall anchor ensures At(p, |p.order|, anchor) == Restored(messages, activities, |activities|, anchor) {
      PlacedIsRestored(messages, activities, |activities|, anchor);
    }
    MergedIsThread(messages, 0, activities, p);
  }

  // ---- Nothing is missing ------------------------------------------------------------------------

  lemma {:induction false} FirstOf(activities: seq<ThreadActivity>, k: nat) returns (first: nat)
    requires k < |activities|
    ensures first <= k && activities[first].event.messageId == activities[k].event.messageId
    ensures IsFirst(activities, first)
  {
    if IsFirst(activities, k) {
      first := k;
    } else {
      var j :| 0 <= j < k && activities[j].event.messageId == activities[k].event.messageId;
      first := FirstOf(activities, j);
    }
  }

  lemma {:induction false} FirstIsRestored(messages: seq<Message>, activities: seq<ThreadActivity>, n: nat, k: nat,
                                           anchor: Option<Id>)
    requires k < n <= |activities| && IsFirst(activities, k) && GoesAt(messages, activities[k], anchor)
    ensures var last := activities[LastOf(activities, |activities|, activities[k].event.messageId)].event;
            Activity(last.messageId, last.activityType, last.content) in Restored(messages, activities, n, anchor)
  {
    if k < n - 1 {
      FirstIsRestored(messages, activities, n - 1, k, anchor);
    }
  }

  lemma {:induction false} RestoredIsInTheThread(messages: seq<Message>, i: nat, activities: seq<ThreadActivity>,
                                                 anchor: Option<Id>, m: Message)
    requires i <= |messages| && m in Restored(messages, activities, |activities|, anchor)
    requires anchor.Some? ==> exists j :: i <= j < |messages| && messages[j].id == anchor.value
    ensures m in ThreadFrom(messages, i, activities)
    decreases |messages| - i
  {
    if i < |messages| && anchor != Some(messages[i].id) {
      RestoredIsInTheThread(messages, i + 1, activities, anchor, m);
    }
  }

  /** An activity whose id none after it has is in the merged thread, with its own type and its own content. */
  lemma LastContentIsShown(messages: seq<Message>, activities: seq<ThreadActivity>, k: nat)
    requires k < |activities|
    requires forall j :: k < j < |activities| ==> activities[j].event.messageId != activities[k].event.messageId
    ensures var event := activities[k].event;
            Activity(event.messageId, event.activityType, event.content) in Merged(messages, activities)
  {
    var event := activities[k].event;
    var first := FirstOf(activities, k);
    var anchor := KnownAnchor(activities[first].after, Ids(messages));
    KnownGoesAt(messages, activities[first], anchor);
    assert LastOf(activities, |activities|, event.messageId) == k;
    FirstIsRestored(messages, activities, |activities|, first, anchor);
    if anchor.Some? {
      var m :| m in messages && m.id == anchor.value;
      var j :| 0 <= j < |messages| && messages[j] == m;
    }
    MergedIsRestored(messages, activities);
    RestoredIsInTheThread(messages, 0, activities, anchor,
                          Activity(event.messageId, event.activityType, event.content));
  }
}
