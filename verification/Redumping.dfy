/**
 A dump of what a row holds, and when it comes back under its own ids. The dump a save names need not be of a
 literal beginning of the row: the row can hold results, answers and activities the dump lacks, and the dump ones
 the row lacks; and a message no row is searched for, a user's or a system's, may differ from the row's in any way.
 */
module Redumping {
  import opened Messages
  import opened LendStoredIds
  import opened LendingLaws

  /** Whether a dumped message is one the row is searched for, and is the row's message at `q`. */
  ghost predicate IsHeldAt(m: Message, stored: seq<Message>, q: nat) {
    GroupOf(m).Some? && q < |stored| && SameButId(m, stored[q])
  }

  /** `at` says which row message each dumped message is, where the row holds it: in the row's order. */
  ghost predicate DumpedFrom(messages: seq<Message>, stored: seq<Message>, at: seq<Option<nat>>) {
    && |at| == |messages|
    && (forall i :: 0 <= i < |at| && at[i].Some? ==> IsHeldAt(messages[i], stored, at[i].value))
    && (forall i, j :: 0 <= i < j < |at| && at[i].Some? && at[j].Some? ==> at[i].value < at[j].value)
  }

  /** No other dumped message carries `id`. */
  ghost predicate NoOtherCarries(messages: seq<Message>, p: nat, id: Id) {
    forall i: nat :: i < |messages| && messages[i].id == id ==> i == p
  }

  /** Such a dump in which no message carries an id another one is stored under. */
  ghost predicate Redumped(messages: seq<Message>, stored: seq<Message>, at: seq<Option<nat>>) {
    && DumpedFrom(messages, stored, at)
    && forall p: nat :: p < |at| && at[p].Some? ==> NoOtherCarries(messages, p, stored[at[p].value].id)
  }

  /** Where a dumped message stands in its group's row, past its end when the row does not hold it. */
  function PlaceOf(stored: seq<Message>, q: Option<nat>, group: Group): (place: nat)
    requires q.Some? ==> q.value < |stored|
    ensures place <= |Row(stored, group)|
  {
    match q
    case None => |Row(stored, group)|
    case Some(i) =>
      RowPrefix(stored, i, |stored|, group);
      Rank(stored, i, group)
  }

  /** The places of a group's first dumped messages. */
  function Places(messages: seq<Message>, stored: seq<Message>, at: seq<Option<nat>>, n: nat, group: Group)
    : (places: seq<nat>)
    requires n <= |messages| && DumpedFrom(messages, stored, at)
    ensures |places| == |RowTo(messages, n, group)|
  {
    if n == 0 then []
    else
      var before := Places(messages, stored, at, n - 1, group);
      if GroupOf(messages[n - 1]) == Some(group) then before + [PlaceOf(stored, at[n - 1], group)] else before
  }

  /** The places of all of them. */
  function AllPlaces(messages: seq<Message>, stored: seq<Message>, at: seq<Option<nat>>, group: Group)
    : (places: seq<nat>)
    requires DumpedFrom(messages, stored, at)
    ensures |places| == |Row(messages, group)|
  {
    Places(messages, stored, at, |messages|, group)
  }

  lemma {:induction false} PlacesPrefix(messages: seq<Message>, stored: seq<Message>, at: seq<Option<nat>>,
                                        n: nat, m: nat, group: Group)
    requires n <= m <= |messages| && DumpedFrom(messages, stored, at)
    ensures Places(messages, stored, at, n, group) <= Places(messages, stored, at, m, group)
  {
    if n < m {
      PlacesPrefix(messages, stored, at, n, m - 1, group);
    }
  }

  lemma PlaceAtRank(messages: seq<Message>, stored: seq<Message>, at: seq<Option<nat>>, p: nat, group: Group)
    requires p < |messages| && DumpedFrom(messages, stored, at) && GroupOf(messages[p]) == Some(group)
    ensures Rank(messages, p, group) < |AllPlaces(messages, stored, at, group)|
    ensures AllPlaces(messages, stored, at, group)[Rank(messages, p, group)] == PlaceOf(stored, at[p], group)
  {
    PlacesPrefix(messages, stored, at, p + 1, |messages|, group);
    RowPrefix(messages, p + 1, |messages|, group);
  }

  /** The dumped message at a place of its group. */
  lemma DumpedAt(messages: seq<Message>, group: Group, k: nat) returns (p: nat)
    requires k < |Row(messages, group)|
    ensures p < |messages| && GroupOf(messages[p]) == Some(group) && Rank(messages, p, group) == k
    ensures Row(messages, group)[k].key == KeyOf(messages[p])
  {
    p := RowEntryAt(messages, group, k);
  }

  /** A held message's row message is in its group, and where it stands there has its key and its own id. */
  lemma HeldPlace(messages: seq<Message>, stored: seq<Message>, at: seq<Option<nat>>, group: Group, p: nat)
    requires DumpedFrom(messages, stored, at) && p < |messages|
    requires GroupOf(messages[p]) == Some(group) && at[p].Some?
    ensures GroupOf(stored[at[p].value]) == Some(group)
    ensures PlaceOf(stored, at[p], group) < |Row(stored, group)|
    ensures Row(stored, group)[PlaceOf(stored, at[p], group)] == Entry(KeyOf(messages[p]), stored[at[p].value].id)
  {
    SameGroupAndKey(messages[p], stored[at[p].value]);
    RowAtRank(stored, at[p].value, group);
  }

  // ---- Places in a row ----------------------------------------------------------------------------------

  /** Places of wanted keys in a row: in order, each with its key, or past the end for one that is not there. */
  ghost predicate Fits(wanted: seq<Entry>, row: seq<Entry>, places: seq<nat>) {
    && |places| == |wanted|
    && (forall k :: 0 <= k < |places| ==> places[k] <= |row|)
    && (forall k :: 0 <= k < |places| && places[k] < |row| ==> row[places[k]].key == wanted[k].key)
    && (forall j, k :: 0 <= j < k < |places| && places[j] < |row| && places[k] < |row| ==> places[j] < places[k])
  }

  lemma PlacesIncrease(messages: seq<Message>, stored: seq<Message>, at: seq<Option<nat>>, group: Group, j: nat, k: nat)
    requires DumpedFrom(messages, stored, at) && j < k < |Row(messages, group)|
    requires AllPlaces(messages, stored, at, group)[j] < |Row(stored, group)|
    requires AllPlaces(messages, stored, at, group)[k] < |Row(stored, group)|
    ensures AllPlaces(messages, stored, at, group)[j] < AllPlaces(messages, stored, at, group)[k]
  {
    var p := DumpedAt(messages, group, j);
    var q := DumpedAt(messages, group, k);
    PlaceAtRank(messages, stored, at, p, group);
    PlaceAtRank(messages, stored, at, q, group);
    HeldPlace(messages, stored, at, group, p);
    if q <= p {
      RowPrefix(messages, q, p, group);
    }
    RowPrefix(stored, at[p].value + 1, at[q].value, group);
  }

  lemma PlaceHasItsKey(messages: seq<Message>, stored: seq<Message>, at: seq<Option<nat>>, group: Group, k: nat)
    requires DumpedFrom(messages, stored, at) && k < |Row(messages, group)|
    ensures var place := AllPlaces(messages, stored, at, group)[k];
            && place <= |Row(stored, group)|
            && (place < |Row(stored, group)| ==> Row(stored, group)[place].key == Row(messages, group)[k].key)
  {
    var p := DumpedAt(messages, group, k);
    PlaceAtRank(messages, stored, at, p, group);
    if at[p].Some? {
      HeldPlace(messages, stored, at, group, p);
    }
  }

  /** Group by group, a dump's places fit the row. */
  lemma PlacesFit(messages: seq<Message>, stored: seq<Message>, at: seq<Option<nat>>, group: Group)
    requires DumpedFrom(messages, stored, at)
    ensures Fits(Row(messages, group), Row(stored, group), AllPlaces(messages, stored, at, group))
  {
    var places, row := AllPlaces(messages, stored, at, group), Row(stored, group);
    forall k: nat | k < |places|
      ensures places[k] <= |row| && (places[k] < |row| ==> row[places[k]].key == Row(messages, group)[k].key)
    {
      PlaceHasItsKey(messages, stored, at, group, k);
    }
    forall j: nat, k: nat | j < k < |places| && places[j] < |row| && places[k] < |row| ensures places[j] < places[k] {
      PlacesIncrease(messages, stored, at, group, j, k);
    }
  }

  // ---- When the walk follows ----------------------------------------------------------------------------

  /** Where the walk goes on from when it has taken the places before the k-th that are there. */
  function From(places: seq<nat>, k: nat, end: nat): (from: nat)
    requires k <= |places|
    ensures from <= end
  {
    if k == 0 then 0
    else if places[k - 1] < end then places[k - 1] + 1
    else From(places, k - 1, end)
  }

  lemma {:induction false} FromIsBefore(wanted: seq<Entry>, row: seq<Entry>, places: seq<nat>, k: nat, m: nat)
    requires Fits(wanted, row, places) && k <= m < |places| && places[m] < |row|
    ensures From(places, k, |row|) <= places[m]
  {
    if k > 0 {
      FromIsBefore(wanted, row, places, k - 1, m);
    }
  }

  /**
   From where the walk goes on up to a message's place nothing has its key; for a message the row does not hold,
   nothing up to the row's end.
   */
  ghost predicate TightAt(wanted: seq<Entry>, row: seq<Entry>, places: seq<nat>, k: nat)
    requires k < |places| == |wanted| && places[k] <= |row|
  {
    forall j :: From(places, k, |row|) <= j < places[k] ==> row[j].key != wanted[k].key
  }

  ghost predicate Tight(wanted: seq<Entry>, row: seq<Entry>, places: seq<nat>)
    requires Fits(wanted, row, places)
  {
    forall k: nat :: k < |places| ==> TightAt(wanted, row, places, k)
  }

  /** A walk that stops at the k-th place goes on from past it, or from where it was when nothing is there. */
  lemma StopThenFrom(messages: seq<Message>, row: seq<Entry>, group: Group, places: seq<nat>, p: nat)
    requires Fits(Row(messages, group), row, places) && StopsAt(messages, row, group, places, p)
    requires Cursor(messages, p, row, group) == From(places, Rank(messages, p, group), |row|)
    ensures |RowTo(messages, p + 1, group)| <= |places|
    ensures Cursor(messages, p + 1, row, group) == From(places, |RowTo(messages, p + 1, group)|, |row|)
  {
  }

  /** The walk stops at a dumped message's own place. */
  ghost predicate StopsAt(messages: seq<Message>, row: seq<Entry>, group: Group, places: seq<nat>, p: nat) {
    && p < |messages| && GroupOf(messages[p]) == Some(group)
    && Rank(messages, p, group) < |places| && Stop(messages, row, p) == places[Rank(messages, p, group)]
  }

  /** It stops there for every one of a group. */
  ghost predicate Walks(messages: seq<Message>, row: seq<Entry>, group: Group, places: seq<nat>) {
    forall p: nat :: p < |messages| && GroupOf(messages[p]) == Some(group) ==> StopsAt(messages, row, group, places, p)
  }

  lemma TightStop(messages: seq<Message>, row: seq<Entry>, group: Group, places: seq<nat>, p: nat)
    requires Fits(Row(messages, group), row, places) && Tight(Row(messages, group), row, places)
    requires p < |messages| && GroupOf(messages[p]) == Some(group) && Rank(messages, p, group) < |places|
    requires Cursor(messages, p, row, group) == From(places, Rank(messages, p, group), |row|)
    ensures StopsAt(messages, row, group, places, p)
  {
    var k := Rank(messages, p, group);
    RowAtRank(messages, p, group);
    assert TightAt(Row(messages, group), row, places, k);
    if places[k] < |row| {
      FromIsBefore(Row(messages, group), row, places, k, k);
      assert row[places[k]].key == KeyOf(messages[p]);
    }
  }

  lemma {:induction false} TightWalk(messages: seq<Message>, row: seq<Entry>, group: Group, places: seq<nat>, p: nat)
    requires Fits(Row(messages, group), row, places) && Tight(Row(messages, group), row, places) && p <= |messages|
    ensures |RowTo(messages, p, group)| <= |places|
    ensures Cursor(messages, p, row, group) == From(places, |RowTo(messages, p, group)|, |row|)
  {
    if p > 0 {
      TightWalk(messages, row, group, places, p - 1);
      if GroupOf(messages[p - 1]) == Some(group) {
        RowAtRank(messages, p - 1, group);
        TightStop(messages, row, group, places, p - 1);
        StopThenFrom(messages, row, group, places, p - 1);
      }
    }
  }

  /** A walk that has stopped at its own places so far goes on from the last of them that is there. */
  lemma {:induction false} WalkedSoFar(messages: seq<Message>, row: seq<Entry>, group: Group, places: seq<nat>, p: nat)
    requires Fits(Row(messages, group), row, places) && Walks(messages, row, group, places) && p <= |messages|
    ensures |RowTo(messages, p, group)| <= |places|
    ensures Cursor(messages, p, row, group) == From(places, |RowTo(messages, p, group)|, |row|)
  {
    if p > 0 {
      WalkedSoFar(messages, row, group, places, p - 1);
      if GroupOf(messages[p - 1]) == Some(group) {
        assert StopsAt(messages, row, group, places, p - 1);
        StopThenFrom(messages, row, group, places, p - 1);
      }
    }
  }

  /**
   The greedy walk finds a dump's own row messages, and nothing for what the row does not hold, exactly when no
   row message it could mistake for one of them was skipped.
   */
  lemma WalksExactlyWhereTight(messages: seq<Message>, row: seq<Entry>, group: Group, places: seq<nat>)
    requires Fits(Row(messages, group), row, places)
    ensures Walks(messages, row, group, places) <==> Tight(Row(messages, group), row, places)
  {
    if Tight(Row(messages, group), row, places) {
      forall p: nat | p < |messages| && GroupOf(messages[p]) == Some(group)
        ensures StopsAt(messages, row, group, places, p)
      {
        RowAtRank(messages, p, group);
        TightWalk(messages, row, group, places, p);
        TightStop(messages, row, group, places, p);
      }
    }
    if Walks(messages, row, group, places) {
      forall k: nat | k < |places| ensures TightAt(Row(messages, group), row, places, k) {
        var p := DumpedAt(messages, group, k);
        WalkedSoFar(messages, row, group, places, p);
        assert StopsAt(messages, row, group, places, p);
      }
    }
  }

  // ---- What the row offers --------------------------------------------------------------------------------

  /** The id a dumped message is stored under, when the row holds it. */
  function OwnId(stored: seq<Message>, q: Option<nat>): Option<Id>
    requires q.Some? ==> q.value < |stored|
  {
    match q
    case None => None
    case Some(i) => Some(stored[i].id)
  }

  /**
   The activities of a type pair with their own: each is the row's at its own rank, or the row holds none of them
   and begins otherwise.
   */
  ghost predicate Pairs(wanted: seq<Entry>, row: seq<Entry>, places: seq<nat>) {
    || (|places| <= |row| && forall k :: 0 <= k < |places| ==> places[k] == k)
    || (!KeysPrefix(wanted, row) && forall k :: 0 <= k < |places| ==> places[k] == |row|)
  }

  /** What the row offers leads every message of a group back to its own, and nowhere else. */
  ghost predicate Followed(messages: seq<Message>, stored: seq<Message>, at: seq<Option<nat>>, group: Group)
    requires DumpedFrom(messages, stored, at)
  {
    PlacesFit(messages, stored, at, group);
    var wanted, row, places := Row(messages, group), Row(stored, group), AllPlaces(messages, stored, at, group);
    if group.ActivitiesOf? then Pairs(wanted, row, places) else Tight(wanted, row, places)
  }

  /** The same for every group the dump holds a message of. */
  ghost predicate AllFollowed(messages: seq<Message>, stored: seq<Message>, at: seq<Option<nat>>)
    requires DumpedFrom(messages, stored, at)
  {
    forall p: nat :: p < |messages| && GroupOf(messages[p]).Some? ==>
      Followed(messages, stored, at, GroupOf(messages[p]).value)
  }

  lemma PairedCandidate(messages: seq<Message>, stored: seq<Message>, at: seq<Option<nat>>, p: nat)
    requires DumpedFrom(messages, stored, at) && p < |messages| && messages[p].Activity?
    requires Followed(messages, stored, at, GroupOf(messages[p]).value)
    ensures Candidate(messages, stored, p) == OwnId(stored, at[p])
  {
    var group := GroupOf(messages[p]).value;
    var wanted, row, places := Row(messages, group), Row(stored, group), AllPlaces(messages, stored, at, group);
    PlacesFit(messages, stored, at, group);
    PlaceAtRank(messages, stored, at, p, group);
    if at[p].Some? {
      HeldPlace(messages, stored, at, group, p);
      forall k: nat | k < |wanted| ensures row[k].key == wanted[k].key {
        assert places[k] == k;
      }
    }
  }

  /** The row offers every message of a followed group exactly the id it is stored under, or nothing. */
  lemma OwnIsOffered(messages: seq<Message>, stored: seq<Message>, at: seq<Option<nat>>, p: nat)
    requires DumpedFrom(messages, stored, at) && p < |messages| && GroupOf(messages[p]).Some?
    requires Followed(messages, stored, at, GroupOf(messages[p]).value)
    ensures Candidate(messages, stored, p) == OwnId(stored, at[p])
  {
    var group := GroupOf(messages[p]).value;
    if messages[p].Activity? {
      PairedCandidate(messages, stored, at, p);
    } else {
      PlacesFit(messages, stored, at, group);
      PlaceAtRank(messages, stored, at, p, group);
      WalksExactlyWhereTight(messages, Row(stored, group), group, AllPlaces(messages, stored, at, group));
      assert StopsAt(messages, Row(stored, group), group, AllPlaces(messages, stored, at, group), p);
      if at[p].Some? {
        HeldPlace(messages, stored, at, group, p);
      }
    }
  }

  lemma RowIdsDiffer(stored: seq<Message>, group: Group, j: nat, k: nat)
    requires DistinctIds(stored) && j < k < |Row(stored, group)|
    ensures Row(stored, group)[j].id != Row(stored, group)[k].id
  {
    var p := RowEntryAt(stored, group, j);
    var q := RowEntryAt(stored, group, k);
    assert p != q;
  }

  /** An offer of the message's own id is an offer of its own place. */
  lemma OfferedItsOwn(messages: seq<Message>, stored: seq<Message>, at: seq<Option<nat>>, p: nat)
    requires DumpedFrom(messages, stored, at) && DistinctIds(stored) && p < |messages| && at[p].Some?
    requires Candidate(messages, stored, p) == OwnId(stored, at[p])
    ensures OfferAt(messages, stored, p) == PlaceOf(stored, at[p], GroupOf(messages[p]).value)
  {
    var group := GroupOf(messages[p]).value;
    var q := OfferIsThere(messages, stored, p);
    HeldPlace(messages, stored, at, group, p);
    RowAtRank(stored, q, group);
    var j, k := OfferAt(messages, stored, p), PlaceOf(stored, at[p], group);
    if j < k {
      RowIdsDiffer(stored, group, j, k);
    } else if k < j {
      RowIdsDiffer(stored, group, k, j);
    }
  }

  /** The row offers every message of a group its own id, and what it does not hold nothing. */
  ghost predicate OffersOwn(messages: seq<Message>, stored: seq<Message>, at: seq<Option<nat>>, group: Group)
    requires DumpedFrom(messages, stored, at)
  {
    forall p: nat :: p < |messages| && GroupOf(messages[p]) == Some(group) ==>
      Candidate(messages, stored, p) == OwnId(stored, at[p])
  }

  lemma OwnOfferStops(messages: seq<Message>, stored: seq<Message>, at: seq<Option<nat>>, group: Group, p: nat)
    requires DumpedFrom(messages, stored, at) && DistinctIds(stored) && !group.ActivitiesOf?
    requires p < |messages| && GroupOf(messages[p]) == Some(group)
    requires Candidate(messages, stored, p) == OwnId(stored, at[p])
    ensures StopsAt(messages, Row(stored, group), group, AllPlaces(messages, stored, at, group), p)
  {
    PlaceAtRank(messages, stored, at, p, group);
    if at[p].Some? {
      OfferedItsOwn(messages, stored, at, p);
    }
  }

  lemma OwnOfferPairs(messages: seq<Message>, stored: seq<Message>, at: seq<Option<nat>>, group: Group, k: nat)
    requires DumpedFrom(messages, stored, at) && DistinctIds(stored) && group.ActivitiesOf?
    requires OffersOwn(messages, stored, at, group) && k < |Row(messages, group)|
    ensures AllPlaces(messages, stored, at, group)[k]
            == if KeysPrefix(Row(messages, group), Row(stored, group)) then k else |Row(stored, group)|
  {
    var p := DumpedAt(messages, group, k);
    PlaceAtRank(messages, stored, at, p, group);
    if at[p].Some? {
      OfferedItsOwn(messages, stored, at, p);
    }
  }

  /** A group whose messages are all offered their own ids, or nothing where the row lacks them, is followed. */
  lemma OfferedIsFollowed(messages: seq<Message>, stored: seq<Message>, at: seq<Option<nat>>, group: Group)
    requires DumpedFrom(messages, stored, at) && DistinctIds(stored) && OffersOwn(messages, stored, at, group)
    ensures Followed(messages, stored, at, group)
  {
    PlacesFit(messages, stored, at, group);
    var row, places := Row(stored, group), AllPlaces(messages, stored, at, group);
    if group.ActivitiesOf? {
      forall k: nat | k < |places|
        ensures places[k] == if KeysPrefix(Row(messages, group), row) then k else |row|
      {
        OwnOfferPairs(messages, stored, at, group, k);
      }
    } else {
      forall p: nat | p < |messages| && GroupOf(messages[p]) == Some(group)
        ensures StopsAt(messages, row, group, places, p)
      {
        OwnOfferStops(messages, stored, at, group, p);
      }
      WalksExactlyWhereTight(messages, row, group, places);
    }
  }

  // ---- Stability ------------------------------------------------------------------------------------------

  /**
   An answer, tool result, reasoning or activity the row holds is stored as exactly the message it was, id and all,
   as long as its group is followed, its id is not reserved and no other dumped message carries that id. What the
   dump holds beside it, and whatever it was dumped under itself, plays no part.
   */
  lemma IdsAreStable(messages: seq<Message>, stored: seq<Message>, reserved: set<Id>, at: seq<Option<nat>>, p: nat)
    requires DumpedFrom(messages, stored, at) && DistinctIds(stored) && p < |messages| && at[p].Some?
    requires Followed(messages, stored, at, GroupOf(messages[p]).value)
    requires stored[at[p].value].id !in reserved && NoOtherCarries(messages, p, stored[at[p].value].id)
    ensures Lent(messages, stored, reserved)[p] == stored[at[p].value]
  {
    OwnIsOffered(messages, stored, at, p);
    TakenUnlessRefused(messages, stored, reserved, p);
    LentPointwise(messages, stored, reserved, p);
  }

  /** What the row does not hold keeps the id it was dumped under. */
  lemma UnheldKeepItsId(messages: seq<Message>, stored: seq<Message>, reserved: set<Id>, at: seq<Option<nat>>, p: nat)
    requires DumpedFrom(messages, stored, at) && p < |messages| && at[p].None?
    requires GroupOf(messages[p]).Some? ==> Followed(messages, stored, at, GroupOf(messages[p]).value)
    ensures Lent(messages, stored, reserved)[p] == messages[p]
  {
    if GroupOf(messages[p]).Some? {
      OwnIsOffered(messages, stored, at, p);
    }
    LentPointwise(messages, stored, reserved, p);
  }

  /** What comes back of a dumped message: the very message the row holds, or the one dumped where it holds none. */
  ghost predicate Returned(messages: seq<Message>, stored: seq<Message>, reserved: set<Id>, at: seq<Option<nat>>)
    requires DumpedFrom(messages, stored, at)
  {
    forall p: nat :: p < |messages| ==> ReturnedAt(messages, stored, reserved, at, p)
  }

  ghost predicate ReturnedAt(messages: seq<Message>, stored: seq<Message>, reserved: set<Id>, at: seq<Option<nat>>,
                             p: nat)
    requires DumpedFrom(messages, stored, at) && p < |messages|
  {
    Lent(messages, stored, reserved)[p] == if at[p].Some? then stored[at[p].value] else messages[p]
  }

  /** Nothing a dumped message is, or could be taken for when the row lacks it, has a reserved or carried id. */
  ghost predicate Free(messages: seq<Message>, stored: seq<Message>, reserved: set<Id>, at: seq<Option<nat>>)
    requires DumpedFrom(messages, stored, at)
  {
    forall p: nat, q: nat :: (p < |messages| && Matches(messages[p], stored, q)
                              && (at[p] == None || at[p] == Some(q))) ==>
      stored[q].id !in reserved + Ids(messages)
  }

  lemma FreeWhereHeld(messages: seq<Message>, stored: seq<Message>, reserved: set<Id>, at: seq<Option<nat>>, p: nat)
    requires DumpedFrom(messages, stored, at) && Free(messages, stored, reserved, at) && p < |messages| && at[p].Some?
    ensures stored[at[p].value].id !in reserved + Ids(messages)
    ensures NoOtherCarries(messages, p, stored[at[p].value].id)
  {
    SameGroupAndKey(messages[p], stored[at[p].value]);
    assert Matches(messages[p], stored, at[p].value);
  }

  lemma ReturnedWasOffered(messages: seq<Message>, stored: seq<Message>, reserved: set<Id>, at: seq<Option<nat>>,
                           p: nat)
    requires DumpedFrom(messages, stored, at) && DistinctIds(stored) && Free(messages, stored, reserved, at)
    requires p < |messages| && ReturnedAt(messages, stored, reserved, at, p)
    ensures Candidate(messages, stored, p) == OwnId(stored, at[p])
  {
    LentPointwise(messages, stored, reserved, p);
    if at[p].Some? {
      FreeWhereHeld(messages, stored, reserved, at, p);
    } else if Candidate(messages, stored, p).Some? {
      CandidateMatches(messages, stored, p);
      TakenUnlessRefused(messages, stored, reserved, p);
    }
  }

  lemma ReturnedIsFollowed(messages: seq<Message>, stored: seq<Message>, reserved: set<Id>, at: seq<Option<nat>>,
                           group: Group)
    requires DumpedFrom(messages, stored, at) && DistinctIds(stored) && Free(messages, stored, reserved, at)
    requires Returned(messages, stored, reserved, at)
    ensures Followed(messages, stored, at, group)
  {
    forall p: nat | p < |messages| && GroupOf(messages[p]) == Some(group)
      ensures Candidate(messages, stored, p) == OwnId(stored, at[p])
    {
      assert ReturnedAt(messages, stored, reserved, at, p);
      ReturnedWasOffered(messages, stored, reserved, at, p);
    }
    OfferedIsFollowed(messages, stored, at, group);
  }

  /**
   Where nothing reserved or carried is in the way, a dump comes back as what the row holds, and what the row lacks
   as it was, if and only if every group of it is followed.
   */
  lemma StableExactlyWhereFollowed(messages: seq<Message>, stored: seq<Message>, reserved: set<Id>,
                                   at: seq<Option<nat>>)
    requires DumpedFrom(messages, stored, at) && DistinctIds(stored) && Free(messages, stored, reserved, at)
    ensures Returned(messages, stored, reserved, at) <==> AllFollowed(messages, stored, at)
  {
    if AllFollowed(messages, stored, at) {
      forall p: nat | p < |messages| ensures ReturnedAt(messages, stored, reserved, at, p) {
        if at[p].Some? {
          FreeWhereHeld(messages, stored, reserved, at, p);
          IdsAreStable(messages, stored, reserved, at, p);
        } else {
          UnheldKeepItsId(messages, stored, reserved, at, p);
        }
      }
    }
    if Returned(messages, stored, reserved, at) {
      forall p: nat | p < |messages| && GroupOf(messages[p]).Some?
        ensures Followed(messages, stored, at, GroupOf(messages[p]).value)
      {
        ReturnedIsFollowed(messages, stored, reserved, at, GroupOf(messages[p]).value);
      }
    }
  }

  lemma OwnCarrierIsRefused(messages: seq<Message>, stored: seq<Message>, reserved: set<Id>, at: seq<Option<nat>>,
                            p: nat)
    requires Redumped(messages, stored, at) && AllFollowed(messages, stored, at) && p < |messages|
    requires Candidate(messages, stored, p).Some? && Candidate(messages, stored, p).value in Ids(messages) - reserved
    ensures messages[p].id == Candidate(messages, stored, p).value && Refused(messages, stored, reserved, p)
  {
    OwnIsOffered(messages, stored, at, p);
    var i: nat :| i < |messages| && messages[i].id == stored[at[p].value].id;
    assert NoOtherCarries(messages, p, stored[at[p].value].id);
  }

  /** An ordinary resume is lent once: lending the row's ids to what it stored changes nothing, whatever it carried. */
  lemma RedumpsAreLentOnce(messages: seq<Message>, stored: seq<Message>, reserved: set<Id>, at: seq<Option<nat>>)
    requires Redumped(messages, stored, at) && AllFollowed(messages, stored, at) && DistinctIds(stored)
    ensures Lent(Lent(messages, stored, reserved), stored, reserved) == Lent(messages, stored, reserved)
  {
    forall p: nat | p < |messages| && Candidate(messages, stored, p).Some?
                    && Candidate(messages, stored, p).value in Ids(messages) - reserved
      ensures messages[p].id == Candidate(messages, stored, p).value && Refused(messages, stored, reserved, p)
    {
      OwnCarrierIsRefused(messages, stored, reserved, at, p);
    }
    LendingTwiceByTheOffers(messages, stored, reserved);
  }

  // ---- Where groups are followed --------------------------------------------------------------------------

  /** The row holds nothing like a message it does not hold. */
  ghost predicate LacksAlike(messages: seq<Message>, stored: seq<Message>, at: seq<Option<nat>>, group: Group)
    requires DumpedFrom(messages, stored, at)
  {
    forall p: nat, q: nat :: p < |messages| && GroupOf(messages[p]) == Some(group) && at[p].None? ==>
      !Matches(messages[p], stored, q)
  }

  lemma LackedIsNowhere(messages: seq<Message>, stored: seq<Message>, at: seq<Option<nat>>, group: Group, k: nat,
                        j: nat)
    requires DumpedFrom(messages, stored, at) && LacksAlike(messages, stored, at, group)
    requires k < |Row(messages, group)| && AllPlaces(messages, stored, at, group)[k] == |Row(stored, group)|
    requires j < |Row(stored, group)|
    ensures Row(stored, group)[j].key != Row(messages, group)[k].key
  {
    var p := DumpedAt(messages, group, k);
    PlaceAtRank(messages, stored, at, p, group);
    if at[p].Some? {
      HeldPlace(messages, stored, at, group, p);
    }
    var q := RowEntryAt(stored, group, j);
    assert !Matches(messages[p], stored, q);
  }

  /** A group whose row holds no key twice is followed over any gaps: results are, where call ids are not reused. */
  lemma DistinctKeysAreFollowed(messages: seq<Message>, stored: seq<Message>, at: seq<Option<nat>>, group: Group)
    requires DumpedFrom(messages, stored, at) && !group.ActivitiesOf? && LacksAlike(messages, stored, at, group)
    requires forall j, k :: 0 <= j < k < |Row(stored, group)| ==> Row(stored, group)[j].key != Row(stored, group)[k].key
    ensures Followed(messages, stored, at, group)
  {
    PlacesFit(messages, stored, at, group);
    var row, places := Row(stored, group), AllPlaces(messages, stored, at, group);
    forall k: nat | k < |places| ensures TightAt(Row(messages, group), row, places, k) {
      forall j: nat | From(places, k, |row|) <= j < places[k] ensures row[j].key != Row(messages, group)[k].key {
        if places[k] < |row| {
          assert row[j].key != row[places[k]].key;
        } else {
          LackedIsNowhere(messages, stored, at, group, k, j);
        }
      }
    }
  }

  /** The row holds every dumped message of a group. */
  ghost predicate HoldsAll(messages: seq<Message>, at: seq<Option<nat>>, group: Group)
    requires |at| == |messages|
  {
    forall p: nat :: p < |messages| && GroupOf(messages[p]) == Some(group) ==> at[p].Some?
  }

  /** Whether a row message of a group stands before another. */
  predicate GapBefore(stored: seq<Message>, at: Option<nat>, q: nat, group: Group) {
    at.Some? && q < at.value && q < |stored| && GroupOf(stored[q]) == Some(group)
  }

  /** No message of a group is missing from the dump up to where it has reached. */
  ghost predicate NoGaps(messages: seq<Message>, stored: seq<Message>, at: seq<Option<nat>>, group: Group)
    requires |at| == |messages|
  {
    forall p: nat, q: nat :: (p < |messages| && GroupOf(messages[p]) == Some(group)
                              && GapBefore(stored, at[p], q, group)) ==>
      Some(q) in at
  }

  lemma AllAreThere(messages: seq<Message>, stored: seq<Message>, at: seq<Option<nat>>, group: Group, k: nat)
    requires DumpedFrom(messages, stored, at) && HoldsAll(messages, at, group) && k < |Row(messages, group)|
    ensures AllPlaces(messages, stored, at, group)[k] < |Row(stored, group)|
  {
    var p := DumpedAt(messages, group, k);
    PlaceAtRank(messages, stored, at, p, group);
    HeldPlace(messages, stored, at, group, p);
  }

  lemma {:induction false} AtLeastItsRank(messages: seq<Message>, stored: seq<Message>, at: seq<Option<nat>>,
                                          group: Group, k: nat)
    requires DumpedFrom(messages, stored, at) && HoldsAll(messages, at, group) && k < |Row(messages, group)|
    ensures AllPlaces(messages, stored, at, group)[k] >= k
  {
    if k > 0 {
      AtLeastItsRank(messages, stored, at, group, k - 1);
      AllAreThere(messages, stored, at, group, k - 1);
      AllAreThere(messages, stored, at, group, k);
      PlacesIncrease(messages, stored, at, group, k - 1, k);
    }
  }

  /** Every place before one that is taken is taken. */
  lemma EarlierIsTaken(messages: seq<Message>, stored: seq<Message>, at: seq<Option<nat>>, group: Group, k: nat, r: nat)
    returns (j: nat)
    requires DumpedFrom(messages, stored, at) && HoldsAll(messages, at, group) && NoGaps(messages, stored, at, group)
    requires k < |Row(messages, group)| && r < AllPlaces(messages, stored, at, group)[k]
    ensures j < |Row(messages, group)| && AllPlaces(messages, stored, at, group)[j] == r
  {
    AllAreThere(messages, stored, at, group, k);
    var p := DumpedAt(messages, group, k);
    PlaceAtRank(messages, stored, at, p, group);
    var q := RowEntryAt(stored, group, r);
    if at[p].value <= q {
      RowPrefix(stored, at[p].value, q, group);
    }
    assert GapBefore(stored, at[p], q, group);
    assert Some(q) in at;
    var i: nat :| i < |at| && at[i] == Some(q);
    SameGroupAndKey(messages[i], stored[q]);
    PlaceAtRank(messages, stored, at, i, group);
    RowAtRank(messages, i, group);
    j := Rank(messages, i, group);
  }

  /** Without gaps a group's dumped messages stand where they stand in the dump. */
  lemma NoGapsPlace(messages: seq<Message>, stored: seq<Message>, at: seq<Option<nat>>, group: Group, k: nat)
    requires DumpedFrom(messages, stored, at) && HoldsAll(messages, at, group) && NoGaps(messages, stored, at, group)
    requires k < |Row(messages, group)|
    ensures k < |Row(stored, group)| && AllPlaces(messages, stored, at, group)[k] == k
    decreases k
  {
    AllAreThere(messages, stored, at, group, k);
    AtLeastItsRank(messages, stored, at, group, k);
    if AllPlaces(messages, stored, at, group)[k] > k {
      var j := EarlierIsTaken(messages, stored, at, group, k, k);
      AtLeastItsRank(messages, stored, at, group, j);
      if j < k {
        NoGapsPlace(messages, stored, at, group, j);
      }
    }
  }

  /** A group the row holds all of, without gaps up to where it reaches, is followed: the walk never skips. */
  lemma NoGapsAreFollowed(messages: seq<Message>, stored: seq<Message>, at: seq<Option<nat>>, group: Group)
    requires DumpedFrom(messages, stored, at) && HoldsAll(messages, at, group) && NoGaps(messages, stored, at, group)
    ensures Followed(messages, stored, at, group)
  {
    PlacesFit(messages, stored, at, group);
    var row, places := Row(stored, group), AllPlaces(messages, stored, at, group);
    forall k: nat | k < |places| ensures k < |row| && places[k] == k {
      NoGapsPlace(messages, stored, at, group, k);
    }
    if places != [] {
      assert places[|places| - 1] < |row|;
    }
    if !group.ActivitiesOf? {
      forall k: nat | k < |places| ensures TightAt(Row(messages, group), row, places, k) {
        assert From(places, k, |row|) == k;
      }
    }
  }

  /** So is a group the row holds nothing of and nothing like: a failed run's row has no reasoning and no activities. */
  lemma LackedAreFollowed(messages: seq<Message>, stored: seq<Message>, at: seq<Option<nat>>, group: Group)
    requires DumpedFrom(messages, stored, at) && LacksAlike(messages, stored, at, group)
    requires forall p: nat :: p < |messages| && GroupOf(messages[p]) == Some(group) ==> at[p].None?
    ensures Followed(messages, stored, at, group)
  {
    PlacesFit(messages, stored, at, group);
    var wanted, row, places := Row(messages, group), Row(stored, group), AllPlaces(messages, stored, at, group);
    forall k: nat | k < |places| ensures places[k] == |row| {
      var p := DumpedAt(messages, group, k);
      PlaceAtRank(messages, stored, at, p, group);
    }
    forall k: nat, j: nat | k < |places| && j < |row| ensures row[j].key != wanted[k].key {
      LackedIsNowhere(messages, stored, at, group, k, j);
    }
    if group.ActivitiesOf? && wanted != [] && row != [] {
      assert row[0].key != wanted[0].key;
    }
  }

  // ---- A part of a dump -----------------------------------------------------------------------------------

  /**
   A part of a dump: every message of it a row is searched for is one of the whole's, and up to where it reaches
   none of those is left out.
   */
  ghost predicate PartOf(part: seq<Message>, whole: seq<Message>, g: seq<Option<nat>>) {
    && DumpedFrom(part, whole, g)
    && forall p: nat :: p < |part| && GroupOf(part[p]).Some? ==>
         HoldsAll(part, g, GroupOf(part[p]).value) && NoGaps(part, whole, g, GroupOf(part[p]).value)
  }

  /** Where a part's messages stand in the row, by where the whole's do. */
  function Through(g: seq<Option<nat>>, at: seq<Option<nat>>): (e: seq<Option<nat>>)
    requires forall i :: 0 <= i < |g| && g[i].Some? ==> g[i].value < |at|
    ensures |e| == |g|
  {
    seq(|g|, i requires 0 <= i < |g| => if g[i].Some? then at[g[i].value] else None)
  }

  lemma DumpedThrough(part: seq<Message>, whole: seq<Message>, stored: seq<Message>, g: seq<Option<nat>>,
                      at: seq<Option<nat>>)
    requires DumpedFrom(part, whole, g) && DumpedFrom(whole, stored, at)
    ensures DumpedFrom(part, stored, Through(g, at))
  {
    var e := Through(g, at);
    forall i | 0 <= i < |e| && e[i].Some? ensures IsHeldAt(part[i], stored, e[i].value) {
      assert IsHeldAt(part[i], whole, g[i].value) && IsHeldAt(whole[g[i].value], stored, e[i].value);
    }
  }

  /** A part stands where the whole does, group by group, as far as it goes. */
  lemma SamePlace(part: seq<Message>, whole: seq<Message>, stored: seq<Message>, g: seq<Option<nat>>,
                  at: seq<Option<nat>>, group: Group, k: nat)
    requires PartOf(part, whole, g) && DumpedFrom(whole, stored, at) && DumpedFrom(part, stored, Through(g, at))
    requires k < |Row(part, group)|
    ensures k < |Row(whole, group)| && Row(part, group)[k].key == Row(whole, group)[k].key
    ensures AllPlaces(part, stored, Through(g, at), group)[k] == AllPlaces(whole, stored, at, group)[k]
  {
    var p := DumpedAt(part, group, k);
    SameGroupAndKey(part[p], whole[g[p].value]);
    NoGapsPlace(part, whole, g, group, k);
    PlaceAtRank(part, whole, g, p, group);
    PlaceAtRank(part, stored, Through(g, at), p, group);
    PlaceAtRank(whole, stored, at, g[p].value, group);
    RowAtRank(whole, g[p].value, group);
  }

  lemma SameTight(part: seq<Message>, whole: seq<Message>, stored: seq<Message>, g: seq<Option<nat>>,
                  at: seq<Option<nat>>, group: Group)
    requires PartOf(part, whole, g) && DumpedFrom(whole, stored, at) && DumpedFrom(part, stored, Through(g, at))
    requires Followed(whole, stored, at, group) && !group.ActivitiesOf?
    ensures Followed(part, stored, Through(g, at), group)
  {
    PlacesFit(part, stored, Through(g, at), group);
    PlacesFit(whole, stored, at, group);
    var row, places := Row(stored, group), AllPlaces(part, stored, Through(g, at), group);
    var all := AllPlaces(whole, stored, at, group);
    forall k: nat | k < |places|
      ensures k < |all| && places[k] == all[k] && Row(part, group)[k].key == Row(whole, group)[k].key
    {
      SamePlace(part, whole, stored, g, at, group, k);
    }
    forall k: nat | k < |places| ensures TightAt(Row(part, group), row, places, k) {
      SameFrom(places, all, k, |row|);
      assert TightAt(Row(whole, group), row, all, k);
    }
  }

  lemma {:induction false} SameFrom(places: seq<nat>, all: seq<nat>, k: nat, end: nat)
    requires k <= |places| && k <= |all| && forall j :: 0 <= j < k ==> places[j] == all[j]
    ensures From(places, k, end) == From(all, k, end)
  {
    if k > 0 {
      SameFrom(places, all, k - 1, end);
    }
  }

  /** Of a type's activities the row holds all, or none and nothing like them. */
  ghost predicate AllOrNone(messages: seq<Message>, stored: seq<Message>, at: seq<Option<nat>>, group: Group)
    requires DumpedFrom(messages, stored, at)
  {
    || HoldsAll(messages, at, group)
    || (LacksAlike(messages, stored, at, group)
        && forall p: nat :: p < |messages| && GroupOf(messages[p]) == Some(group) ==> at[p].None?)
  }

  lemma SamePairs(part: seq<Message>, whole: seq<Message>, stored: seq<Message>, g: seq<Option<nat>>,
                  at: seq<Option<nat>>, group: Group)
    requires PartOf(part, whole, g) && DumpedFrom(whole, stored, at) && DumpedFrom(part, stored, Through(g, at))
    requires Followed(whole, stored, at, group) && HoldsAll(whole, at, group) && group.ActivitiesOf?
    ensures Followed(part, stored, Through(g, at), group)
  {
    PlacesFit(part, stored, Through(g, at), group);
    PlacesFit(whole, stored, at, group);
    var row, places := Row(stored, group), AllPlaces(part, stored, Through(g, at), group);
    var all := AllPlaces(whole, stored, at, group);
    forall k: nat | k < |places| ensures k < |row| && places[k] == k {
      SamePlace(part, whole, stored, g, at, group, k);
      AllAreThere(whole, stored, at, group, k);
      assert all[k] == k;
    }
    if places != [] {
      assert places[|places| - 1] < |row|;
    }
  }

  lemma LackedInPart(part: seq<Message>, whole: seq<Message>, stored: seq<Message>, g: seq<Option<nat>>,
                     at: seq<Option<nat>>, group: Group, p: nat)
    requires PartOf(part, whole, g) && DumpedFrom(whole, stored, at) && LacksAlike(whole, stored, at, group)
    requires forall p: nat :: p < |whole| && GroupOf(whole[p]) == Some(group) ==> at[p].None?
    requires p < |part| && GroupOf(part[p]) == Some(group)
    ensures Through(g, at)[p].None? && forall q: nat :: !Matches(part[p], stored, q)
  {
    var i := g[p].value;
    SameGroupAndKey(part[p], whole[i]);
    forall q: nat ensures !Matches(part[p], stored, q) {
      assert !Matches(whole[i], stored, q);
    }
  }

  /**
   Where the whole is followed, so is a part of it; a part of a type's activities only where the row holds all or
   none.
   */
  lemma PartIsFollowed(part: seq<Message>, whole: seq<Message>, stored: seq<Message>, g: seq<Option<nat>>,
                       at: seq<Option<nat>>, group: Group)
    requires PartOf(part, whole, g) && DumpedFrom(whole, stored, at) && DumpedFrom(part, stored, Through(g, at))
    requires Followed(whole, stored, at, group)
    requires group.ActivitiesOf? ==> AllOrNone(whole, stored, at, group)
    ensures Followed(part, stored, Through(g, at), group)
  {
    if !group.ActivitiesOf? {
      SameTight(part, whole, stored, g, at, group);
    } else if HoldsAll(whole, at, group) {
      SamePairs(part, whole, stored, g, at, group);
    } else {
      forall p: nat | p < |part| && GroupOf(part[p]) == Some(group)
        ensures Through(g, at)[p].None? && forall q: nat :: !Matches(part[p], stored, q)
      {
        LackedInPart(part, whole, stored, g, at, group, p);
      }
      LackedAreFollowed(part, stored, Through(g, at), group);
    }
  }

  /** Over a gap a repeated text misleads: dumped without the first of two answers alike, the second takes its id. */
  lemma ARepeatedTextMisleads(text: string, first: Id, second: Id, other: Id)
    requires first != second && other != first && other != second
    ensures var row := [Assistant(first, Some(text), []), Assistant(second, Some(text), [])];
            Lent([Assistant(other, Some(text), [])], row, {}) == [Assistant(first, Some(text), [])]
  {
    var row := [Assistant(first, Some(text), []), Assistant(second, Some(text), [])];
    var dump := [Assistant(other, Some(text), [])];
    var key := TextKey(Flat(text));
    assert RowTo(row, 1, TextAnswers) == [Entry(key, first)];
    assert Row(row, TextAnswers) == [Entry(key, first), Entry(key, second)];
    assert Cursor(dump, 0, Row(row, TextAnswers), TextAnswers) == 0;
    assert Candidate(dump, row, 0) == Some(first);
    assert Ids(dump) == {other};
    assert Take(dump, Offers(dump, row), {other}, {}, 0) == Lending([], {});
  }
}
