/**
 Lending said over again, of the messages and the row themselves: which row message each dumped message has for a
 partner, and which partners' ids are taken. No group, key, rank or cursor is spoken of; that the walk of
 `LendStoredIds` comes to the same is what is proved.
 */
module LendingByPartners {
  import opened Messages
  import opened LendStoredIds
  import opened LendingLaws

  /** How many activities of one type there are among the first `n` messages. */
  function ActivitiesBefore(messages: seq<Message>, n: nat, activityType: string): nat
    requires n <= |messages|
  {
    if n == 0 then 0
    else
      ActivitiesBefore(messages, n - 1, activityType)
      + if messages[n - 1].Activity? && messages[n - 1].activityType == activityType then 1 else 0
  }

  /** Whether the activity `stored[q]` stands among its type in the row where `m` is to stand among its own. */
  ghost predicate SamePlace(messages: seq<Message>, stored: seq<Message>, p: nat, q: nat)
    requires p < |messages| && q < |stored|
  {
    && messages[p].Activity? && SameKind(messages[p], stored[q])
    && ActivitiesBefore(messages, p, messages[p].activityType) == ActivitiesBefore(stored, q, messages[p].activityType)
  }

  /** Whether every dumped activity of a type has one of equal content at its own place in the row. */
  ghost predicate TypeAgrees(messages: seq<Message>, stored: seq<Message>, activityType: string) {
    forall i: nat :: i < |messages| && messages[i].Activity? && messages[i].activityType == activityType ==>
      exists q: nat :: q < |stored| && SamePlace(messages, stored, i, q) && stored[q].content == messages[i].content
  }

  /** Whether `q` is past the partners of all the messages of its kind before `p`. */
  ghost predicate PastEarlier(messages: seq<Message>, partners: seq<Option<nat>>, p: nat, q: nat)
    requires p < |messages| == |partners|
  {
    forall i: nat :: i < p && SameKind(messages[i], messages[p]) && partners[i].Some? ==> partners[i].value < q
  }

  /** Whether the row message `q` may be the partner of `messages[p]`, given the partners before it. */
  ghost predicate MayPartner(messages: seq<Message>, stored: seq<Message>, partners: seq<Option<nat>>, p: nat, q: nat)
    requires p < |messages| == |partners|
  {
    && q < |stored|
    && if messages[p].Activity?
       then SamePlace(messages, stored, p, q) && TypeAgrees(messages, stored, messages[p].activityType)
       else Alike(messages[p], stored[q]) && PastEarlier(messages, partners, p, q)
  }

  /** Each message's partner is the first row message that may be: none only where none may. */
  ghost predicate ArePartners(messages: seq<Message>, stored: seq<Message>, partners: seq<Option<nat>>) {
    && |partners| == |messages|
    && forall p: nat :: p < |messages| ==> IsPartner(messages, stored, partners, p)
  }

  ghost predicate IsPartner(messages: seq<Message>, stored: seq<Message>, partners: seq<Option<nat>>, p: nat)
    requires p < |messages| == |partners|
  {
    && (partners[p].Some? ==> MayPartner(messages, stored, partners, p, partners[p].value))
    && forall q: nat :: MayPartner(messages, stored, partners, p, q) ==>
         partners[p].Some? && partners[p].value <= q
  }

  // ---- The walk finds them --------------------------------------------------------------------

  /** Counting a type's activities is ranking in its row. */
  lemma {:induction false} CountIsRank(messages: seq<Message>, n: nat, activityType: string)
    requires n <= |messages|
    ensures ActivitiesBefore(messages, n, activityType) == |RowTo(messages, n, ActivitiesOf(activityType))|
  {
    if n > 0 {
      CountIsRank(messages, n - 1, activityType);
    }
  }

  /** Where in the row itself a group's `i`-th message stands. */
  function PlaceIn(stored: seq<Message>, group: Group, i: nat): (q: nat)
    requires i < |Row(stored, group)|
    ensures q < |stored| && GroupOf(stored[q]) == Some(group) && Rank(stored, q, group) == i
    ensures Row(stored, group)[i] == Entry(KeyOf(stored[q]), stored[q].id)
  {
    PositionsAndRanks(stored, |stored|, group);
    RowAtRank(stored, Positions(stored, |stored|, group)[i], group);
    Positions(stored, |stored|, group)[i]
  }

  lemma RanksIncrease(stored: seq<Message>, group: Group, q: nat, r: nat)
    requires q < |stored| && r < |stored| && GroupOf(stored[q]) == GroupOf(stored[r]) == Some(group)
    ensures q < r <==> Rank(stored, q, group) < Rank(stored, r, group)
  {
    if q < r {
      RowPrefix(stored, q + 1, r, group);
    } else if r < q {
      RowPrefix(stored, r + 1, q, group);
    }
  }

  /** The walk's partner for `messages[p]`. */
  function PartnerOf(messages: seq<Message>, stored: seq<Message>, p: nat): Option<nat>
    requires p < |messages|
  {
    if GroupOf(messages[p]).None? then None
    else
      var group := GroupOf(messages[p]).value;
      var row := Row(stored, group);
      var i := OfferAt(messages, stored, p);
      if i >= |row| || (messages[p].Activity? && !KeysPrefix(Row(messages, group), row)) then None
      else Some(PlaceIn(stored, group, i))
  }

  lemma PartnerIsOffered(messages: seq<Message>, stored: seq<Message>, p: nat)
    requires p < |messages|
    ensures Candidate(messages, stored, p)
            == if PartnerOf(messages, stored, p) == None then None
               else Some(stored[PartnerOf(messages, stored, p).value].id)
  {
  }

  function PartnersOf(messages: seq<Message>, stored: seq<Message>): (partners: seq<Option<nat>>)
    ensures |partners| == |messages|
    ensures forall p: nat :: p < |messages| ==> partners[p] == PartnerOf(messages, stored, p)
  {
    seq(|messages|, p requires 0 <= p < |messages| => PartnerOf(messages, stored, p))
  }

  /** A walk's cursor stands just past the furthest of the earlier finds. */
  lemma {:induction false} CursorIsPastEarlier(messages: seq<Message>, row: seq<Entry>, group: Group, n: nat, i: nat)
    requires n <= |messages|
    ensures Cursor(messages, n, row, group) <= i
            <==> forall k: nat :: k < n && GroupOf(messages[k]) == Some(group) && Stop(messages, row, k) < |row| ==>
                   Stop(messages, row, k) < i
  {
    if n > 0 {
      CursorIsPastEarlier(messages, row, group, n - 1, i);
      var past := Cursor(messages, n, row, group);
      if past <= i {
        CursorOnlyAdvances(messages, row, group, n - 1, n);
      }
    }
  }

  /** An earlier message of the kind was found where the walk of its group stopped. */
  lemma EarlierFind(messages: seq<Message>, stored: seq<Message>, group: Group, k: nat, m: Message, i: nat)
    requires k < |messages| && GroupOf(m) == Some(group) && !m.Activity? && i < |Row(stored, group)|
    ensures SameKind(messages[k], m) <==> GroupOf(messages[k]) == Some(group)
    ensures GroupOf(messages[k]) == Some(group) ==>
              var partner, stop := PartnerOf(messages, stored, k), Stop(messages, Row(stored, group), k);
              && (partner.Some? <==> stop < |Row(stored, group)|)
              && (partner.Some? ==> (partner.value < PlaceIn(stored, group, i) <==> stop < i))
  {
    AlikeIsSameKey(messages[k], m);
    if GroupOf(messages[k]) == Some(group) && Stop(messages, Row(stored, group), k) < |Row(stored, group)| {
      var found := PlaceIn(stored, group, Stop(messages, Row(stored, group), k));
      RanksIncrease(stored, group, found, PlaceIn(stored, group, i));
    }
  }

  /** What is found lies past what was found before it, for messages of its kind. */
  lemma FindIsPastEarlier(messages: seq<Message>, stored: seq<Message>, group: Group, p: nat, i: nat)
    requires p < |messages| && GroupOf(messages[p]) == Some(group) && !messages[p].Activity?
    requires i < |Row(stored, group)|
    ensures Cursor(messages, p, Row(stored, group), group) <= i
            <==> PastEarlier(messages, PartnersOf(messages, stored), p, PlaceIn(stored, group, i))
  {
    var row, partners := Row(stored, group), PartnersOf(messages, stored);
    CursorIsPastEarlier(messages, row, group, p, i);
    if PastEarlier(messages, partners, p, PlaceIn(stored, group, i)) {
      forall k: nat | k < p && GroupOf(messages[k]) == Some(group) && Stop(messages, row, k) < |row|
        ensures Stop(messages, row, k) < i
      {
        EarlierFind(messages, stored, group, k, messages[p], i);
        assert partners[k].Some?;
      }
    } else {
      var k: nat :| k < p && SameKind(messages[k], messages[p]) && partners[k].Some?
                    && partners[k].value >= PlaceIn(stored, group, i);
      EarlierFind(messages, stored, group, k, messages[p], i);
    }
  }

  lemma FindIsPartner(messages: seq<Message>, stored: seq<Message>, p: nat)
    requires p < |messages| && GroupOf(messages[p]).Some? && !messages[p].Activity?
    ensures IsPartner(messages, stored, PartnersOf(messages, stored), p)
  {
    var group := GroupOf(messages[p]).value;
    var row := Row(stored, group);
    var partners := PartnersOf(messages, stored);
    var stop := Stop(messages, row, p);
    if stop < |row| {
      FindIsPastEarlier(messages, stored, group, p, stop);
      AlikeIsSameKey(messages[p], stored[PlaceIn(stored, group, stop)]);
    }
    forall q: nat | MayPartner(messages, stored, partners, p, q)
      ensures stop < |row| && PlaceIn(stored, group, stop) <= q
    {
      AlikeIsSameKey(messages[p], stored[q]);
      var i := Rank(stored, q, group);
      RowAtRank(stored, q, group);
      RanksIncrease(stored, group, q, PlaceIn(stored, group, i));
      RanksIncrease(stored, group, PlaceIn(stored, group, i), q);
      FindIsPastEarlier(messages, stored, group, p, i);
      assert stop <= i;
      RanksIncrease(stored, group, q, PlaceIn(stored, group, stop));
    }
  }

  lemma SamePlaceIsSameRank(messages: seq<Message>, stored: seq<Message>, p: nat, q: nat)
    requires p < |messages| && q < |stored| && messages[p].Activity?
    ensures var g := ActivitiesOf(messages[p].activityType);
            SamePlace(messages, stored, p, q)
            <==> GroupOf(stored[q]) == Some(g) && Rank(stored, q, g) == Rank(messages, p, g)
  {
    CountIsRank(messages, p, messages[p].activityType);
    CountIsRank(stored, q, messages[p].activityType);
  }

  /** A type that agrees is held, place by place, at the beginning of its row. */
  lemma AgreesAt(messages: seq<Message>, stored: seq<Message>, activityType: string, k: nat)
    requires TypeAgrees(messages, stored, activityType) && k < |Row(messages, ActivitiesOf(activityType))|
    ensures k < |Row(stored, ActivitiesOf(activityType))|
    ensures Row(stored, ActivitiesOf(activityType))[k].key == Row(messages, ActivitiesOf(activityType))[k].key
  {
    var g := ActivitiesOf(activityType);
    var i := PlaceIn(messages, g, k);
    var q: nat :| q < |stored| && SamePlace(messages, stored, i, q) && stored[q].content == messages[i].content;
    SamePlaceIsSameRank(messages, stored, i, q);
    RowAtRank(stored, q, g);
  }

  /** A type's pairing is whole exactly when the row begins with all it dumps. */
  lemma TypeAgreesIsPrefix(messages: seq<Message>, stored: seq<Message>, activityType: string)
    ensures var g := ActivitiesOf(activityType);
            TypeAgrees(messages, stored, activityType) <==> KeysPrefix(Row(messages, g), Row(stored, g))
  {
    var g := ActivitiesOf(activityType);
    var wanted, row := Row(messages, g), Row(stored, g);
    if TypeAgrees(messages, stored, activityType) {
      forall k: nat | k < |wanted| ensures k < |row| && row[k].key == wanted[k].key {
        AgreesAt(messages, stored, activityType, k);
      }
      if |wanted| > 0 {
        AgreesAt(messages, stored, activityType, |wanted| - 1);
      }
    }
    if KeysPrefix(wanted, row) {
      forall i: nat | i < |messages| && messages[i].Activity? && messages[i].activityType == activityType
        ensures exists q: nat ::
                  q < |stored| && SamePlace(messages, stored, i, q) && stored[q].content == messages[i].content
      {
        RowAtRank(messages, i, g);
        var q := PlaceIn(stored, g, Rank(messages, i, g));
        SamePlaceIsSameRank(messages, stored, i, q);
      }
    }
  }

  lemma PairIsPartner(messages: seq<Message>, stored: seq<Message>, p: nat)
    requires p < |messages| && messages[p].Activity?
    ensures IsPartner(messages, stored, PartnersOf(messages, stored), p)
  {
    var group := ActivitiesOf(messages[p].activityType);
    var partners := PartnersOf(messages, stored);
    TypeAgreesIsPrefix(messages, stored, messages[p].activityType);
    if partners[p].Some? {
      SamePlaceIsSameRank(messages, stored, p, partners[p].value);
    }
    forall q: nat | MayPartner(messages, stored, partners, p, q) ensures partners[p] == Some(q) {
      SamePlaceIsSameRank(messages, stored, p, q);
      RowAtRank(stored, q, group);
      var at := PlaceIn(stored, group, Rank(stored, q, group));
      RanksIncrease(stored, group, q, at);
      RanksIncrease(stored, group, at, q);
    }
  }

  /** There always are partners: those the walk finds. */
  lemma PartnersAreThere(messages: seq<Message>, stored: seq<Message>)
    ensures ArePartners(messages, stored, PartnersOf(messages, stored))
  {
    var partners := PartnersOf(messages, stored);
    forall p: nat | p < |messages| ensures IsPartner(messages, stored, partners, p) {
      if messages[p].Activity? {
        PairIsPartner(messages, stored, p);
      } else if GroupOf(messages[p]).Some? {
        FindIsPartner(messages, stored, p);
      } else {
        forall q: nat ensures !MayPartner(messages, stored, partners, p, q) {
          if q < |stored| {
            AlikeIsSameKey(messages[p], stored[q]);
          }
        }
      }
    }
  }

  /** And no others. */
  lemma {:induction false} PartnersAreUnique(messages: seq<Message>, stored: seq<Message>, a: seq<Option<nat>>,
                                             b: seq<Option<nat>>, n: nat)
    requires ArePartners(messages, stored, a) && ArePartners(messages, stored, b) && n <= |messages|
    ensures a[..n] == b[..n]
  {
    if n > 0 {
      var p := n - 1;
      PartnersAreUnique(messages, stored, a, b, p);
      assert forall i: nat :: i < p ==> a[i] == a[..p][i] == b[..p][i] == b[i];
      forall q: nat ensures MayPartner(messages, stored, a, p, q) <==> MayPartner(messages, stored, b, p, q) {
      }
      assert IsPartner(messages, stored, a, p) && IsPartner(messages, stored, b, p);
      assert a[p] == b[p];
      assert a[..n] == a[..p] + [a[p]] && b[..n] == b[..p] + [b[p]];
    }
  }

  // ---- What is stored -------------------------------------------------------------------------

  /** Whether message `p` takes its partner's id: not reserved, on no dumped message, on no message renamed before. */
  ghost predicate Takes(messages: seq<Message>, stored: seq<Message>, reserved: set<Id>, partners: seq<Option<nat>>,
                        out: seq<Message>, p: nat)
    requires p < |messages| == |out| == |partners|
  {
    && partners[p].Some? && partners[p].value < |stored|
    && var id := stored[partners[p].value].id;
       && id !in reserved
       && (forall i: nat :: i < |messages| ==> messages[i].id != id)
       && forall i: nat :: i < p && out[i] != messages[i] ==> out[i].id != id
  }

  lemma LentToPartner(messages: seq<Message>, stored: seq<Message>, reserved: set<Id>, p: nat)
    requires p < |messages|
    ensures var out := Lent(messages, stored, reserved);
            LentAt(messages, stored, reserved, p).Some?
            <==> Takes(messages, stored, reserved, PartnersOf(messages, stored), out, p)
  {
    var out := Lent(messages, stored, reserved);
    var offers := Offers(messages, stored);
    PartnerIsOffered(messages, stored, p);
    if offers[p].Some? {
      var id := offers[p].value;
      TakenIsReservedOrLent(messages, offers, Ids(messages), reserved, p, id);
      forall i: nat | i < p && id !in Ids(messages)
        ensures Accepted(messages, offers, Ids(messages), reserved, i) == Some(id)
                <==> out[i] != messages[i] && out[i].id == id
      {
        LentPointwise(messages, stored, reserved, i);
      }
    }
  }

  /**
   Lending is this and nothing else: each message keeps all but its id, and takes the id of its partner -- the first
   row message alike past the partners of its kind, or for an activity the one at its own place, if its whole type
   agrees -- unless that id is reserved, on a dumped message, or lent already.
   */
  lemma LendingIsByPartners(messages: seq<Message>, stored: seq<Message>, reserved: set<Id>, partners: seq<Option<nat>>,
                            p: nat)
    requires ArePartners(messages, stored, partners) && p < |messages|
    ensures var out := Lent(messages, stored, reserved);
            if Takes(messages, stored, reserved, partners, out, p)
            then SameButId(messages[p], out[p]) && out[p].id == stored[partners[p].value].id
            else out[p] == messages[p]
  {
    PartnersAreThere(messages, stored);
    PartnersAreUnique(messages, stored, partners, PartnersOf(messages, stored), |messages|);
    assert partners == partners[..|messages|]
        && PartnersOf(messages, stored) == PartnersOf(messages, stored)[..|messages|];
    LentPointwise(messages, stored, reserved, p);
    LentToPartner(messages, stored, reserved, p);
    PartnerIsOffered(messages, stored, p);
  }
}
