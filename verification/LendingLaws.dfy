/** What lending a row's ids to a dump promises, over every dump and every row. */
module LendingLaws {
  import opened Messages
  import opened LendStoredIds

  // ---- Soundness ----------------------------------------------------------------------------

  /** Whether two messages are of one kind: the same constructor, and what else tells kinds apart. */
  predicate SameKind(m: Message, n: Message) {
    match (m, n)
    case (Tool(_, _, _, _), Tool(_, _, _, _)) => true
    case (Assistant(_, _, calls), Assistant(_, _, calls')) => calls == [] <==> calls' == []
    case (Reasoning(_, _), Reasoning(_, _)) => true
    case (Activity(_, type1, _), Activity(_, type2, _)) => type1 == type2
    case _ => false
  }

  /** Whether one of two messages of a kind may be known by the other: what each kind is compared by. */
  predicate Alike(m: Message, n: Message) {
    && SameKind(m, n)
    && match m
       case Tool(_, callId, _, _) => callId == n.callId
       case Assistant(_, answer, calls) =>
         if calls != [] then |calls| == |n.calls| && forall i :: 0 <= i < |calls| ==> calls[i].id == n.calls[i].id
         else Flat(if answer == None then "" else answer.value) == Flat(if n.answer == None then "" else n.answer.value)
       case Reasoning(_, thought) => Flat(thought) == Flat(n.thought)
       case Activity(_, _, content) => content == n.content
       case _ => false
  }

  /** What a removed newline leaves of a text, on its pieces and on one character: so on every text. */
  lemma {:induction false} FlatDropsOnlyNewlines(a: string, b: string, c: char)
    ensures Flat("") == "" && Flat([c]) == if c == '\n' then "" else [c]
    ensures Flat(a + b) == Flat(a) + Flat(b)
  {
    if a == "" {
      assert a + b == b;
    } else {
      assert (a + b)[1..] == a[1..] + b;
      FlatDropsOnlyNewlines(a[1..], b, c);
    }
  }

  /** The keys are the kinds' own comparisons. */
  lemma AlikeIsSameKey(m: Message, n: Message)
    ensures SameKind(m, n) <==> GroupOf(m).Some? && GroupOf(n) == GroupOf(m)
    ensures Alike(m, n) <==> SameKind(m, n) && KeyOf(n) == KeyOf(m)
  {
    if m.Assistant? && n.Assistant? && m.calls != [] && n.calls != [] {
      assert forall i :: 0 <= i < |m.calls| ==> CallIds(m.calls)[i] == m.calls[i].id;
      assert forall i :: 0 <= i < |n.calls| ==> CallIds(n.calls)[i] == n.calls[i].id;
      if Alike(m, n) {
        assert CallIds(m.calls) == CallIds(n.calls);
      }
    }
  }

  /** Whether `stored[q]` is a message `m` may be known by: same group, same key. */
  ghost predicate Matches(m: Message, stored: seq<Message>, q: nat) {
    && q < |stored|
    && GroupOf(m).Some?
    && GroupOf(stored[q]) == GroupOf(m)
    && KeyOf(stored[q]) == KeyOf(m)
  }

  /** Said of the messages themselves, without a group or a key. */
  lemma MatchesExactlyAlike(m: Message, stored: seq<Message>, q: nat)
    ensures Matches(m, stored, q) <==> q < |stored| && Alike(m, stored[q])
  {
    if q < |stored| {
      AlikeIsSameKey(m, stored[q]);
    }
  }

  lemma {:induction false} EntryIsARowMessage(stored: seq<Message>, n: nat, group: Group, i: nat) returns (q: nat)
    requires n <= |stored| && i < |RowTo(stored, n, group)|
    ensures q < |stored| && GroupOf(stored[q]) == Some(group)
    ensures RowTo(stored, n, group)[i] == Entry(KeyOf(stored[q]), stored[q].id)
  {
    if i < |RowTo(stored, n - 1, group)| {
      q := EntryIsARowMessage(stored, n - 1, group, i);
    } else {
      q := n - 1;
    }
  }

  lemma CandidateMatches(messages: seq<Message>, stored: seq<Message>, p: nat)
    requires p < |messages| && Candidate(messages, stored, p).Some?
    ensures exists q: nat :: Matches(messages[p], stored, q) && stored[q].id == Candidate(messages, stored, p).value
  {
    var group := GroupOf(messages[p]).value;
    var i := if messages[p].Activity? then Rank(messages, p, group) else Stop(messages, Row(stored, group), p);
    RowAtRank(messages, p, group);
    var q := EntryIsARowMessage(stored, |stored|, group, i);
    assert Matches(messages[p], stored, q);
  }

  /** The id lent to message `p`, whatever was offered to whom. */
  function Accepted(messages: seq<Message>, offers: seq<Option<Id>>, carried: set<Id>, reserved: set<Id>, p: nat)
    : Option<Id>
    requires p < |messages| == |offers|
  {
    if offers[p].None? || offers[p].value in Take(messages, offers, carried, reserved, p).taken
        || offers[p].value in carried
    then None else offers[p]
  }

  function Under(m: Message, id: Option<Id>): Message {
    if id.Some? then WithId(m, id.value) else m
  }

  lemma {:induction false} TakenPointwise(messages: seq<Message>, offers: seq<Option<Id>>, carried: set<Id>,
                                          reserved: set<Id>, n: nat, p: nat)
    requires p < n <= |messages| == |offers|
    ensures Take(messages, offers, carried, reserved, n).out[p]
            == Under(messages[p], Accepted(messages, offers, carried, reserved, p))
  {
    if p < n - 1 {
      TakenPointwise(messages, offers, carried, reserved, n - 1, p);
    }
  }

  ghost predicate AcceptedBefore(messages: seq<Message>, offers: seq<Option<Id>>, carried: set<Id>, reserved: set<Id>,
                                 n: nat, id: Id)
    requires n <= |messages| == |offers|
  {
    exists p: nat :: p < n && Accepted(messages, offers, carried, reserved, p) == Some(id)
  }

  lemma AcceptedNext(messages: seq<Message>, offers: seq<Option<Id>>, carried: set<Id>, reserved: set<Id>, n: nat,
                     id: Id)
    requires n < |messages| == |offers|
    ensures AcceptedBefore(messages, offers, carried, reserved, n + 1, id)
            <==> AcceptedBefore(messages, offers, carried, reserved, n, id)
                 || Accepted(messages, offers, carried, reserved, n) == Some(id)
  {
    if AcceptedBefore(messages, offers, carried, reserved, n, id) {
      var p: nat :| p < n && Accepted(messages, offers, carried, reserved, p) == Some(id);
      assert p < n + 1;
    }
  }

  /** What may not be lent any more is what was reserved and what was lent. */
  lemma {:induction false} TakenIsReservedOrLent(messages: seq<Message>, offers: seq<Option<Id>>, carried: set<Id>,
                                                 reserved: set<Id>, n: nat, id: Id)
    requires n <= |messages| == |offers|
    ensures id in Take(messages, offers, carried, reserved, n).taken
            <==> id in reserved || AcceptedBefore(messages, offers, carried, reserved, n, id)
  {
    if n > 0 {
      TakenIsReservedOrLent(messages, offers, carried, reserved, n - 1, id);
      AcceptedNext(messages, offers, carried, reserved, n - 1, id);
    }
  }

  lemma AcceptedOnce(messages: seq<Message>, offers: seq<Option<Id>>, carried: set<Id>, reserved: set<Id>, i: nat,
                     j: nat)
    requires i < j < |messages| == |offers|
    requires Accepted(messages, offers, carried, reserved, i).Some?
             && Accepted(messages, offers, carried, reserved, j).Some?
    ensures Accepted(messages, offers, carried, reserved, i) != Accepted(messages, offers, carried, reserved, j)
  {
    var id := Accepted(messages, offers, carried, reserved, i).value;
    TakenIsReservedOrLent(messages, offers, carried, reserved, j, id);
    assert AcceptedBefore(messages, offers, carried, reserved, j, id);
  }

  lemma AcceptedIsFree(messages: seq<Message>, offers: seq<Option<Id>>, carried: set<Id>, reserved: set<Id>, p: nat)
    requires p < |messages| == |offers| && Accepted(messages, offers, carried, reserved, p).Some?
    ensures Accepted(messages, offers, carried, reserved, p).value !in reserved + carried
  {
    TakenIsReservedOrLent(messages, offers, carried, reserved, p, offers[p].value);
  }

  /** The id `messages[p]` is lent from the row, if any. */
  function LentAt(messages: seq<Message>, stored: seq<Message>, reserved: set<Id>, p: nat): Option<Id>
    requires p < |messages|
  {
    Accepted(messages, Offers(messages, stored), Ids(messages), reserved, p)
  }

  lemma LentPointwise(messages: seq<Message>, stored: seq<Message>, reserved: set<Id>, p: nat)
    requires p < |messages|
    ensures Lent(messages, stored, reserved)[p] == Under(messages[p], LentAt(messages, stored, reserved, p))
  {
    TakenPointwise(messages, Offers(messages, stored), Ids(messages), reserved, |messages|, p);
  }

  /**
   Only ids change, and an id that changed is that of a row message alike, is not reserved and is carried by no
   dumped message.
   */
  lemma LendingIsSound(messages: seq<Message>, stored: seq<Message>, reserved: set<Id>, p: nat)
    requires p < |messages|
    ensures var m := Lent(messages, stored, reserved)[p];
            && SameButId(messages[p], m)
            && (m != messages[p] ==>
                  && m.id !in reserved && m.id !in Ids(messages)
                  && exists q: nat :: q < |stored| && Alike(messages[p], stored[q]) && stored[q].id == m.id)
  {
    LentPointwise(messages, stored, reserved, p);
    if LentAt(messages, stored, reserved, p).Some? {
      AcceptedIsFree(messages, Offers(messages, stored), Ids(messages), reserved, p);
      CandidateMatches(messages, stored, p);
      var q: nat :| Matches(messages[p], stored, q) && stored[q].id == Candidate(messages, stored, p).value;
      MatchesExactlyAlike(messages[p], stored, q);
    }
  }

  /** A row id is lent to one message at most. */
  lemma LentToOneOnly(messages: seq<Message>, stored: seq<Message>, reserved: set<Id>, i: nat, j: nat)
    requires i < j < |messages|
    requires Lent(messages, stored, reserved)[i] != messages[i] && Lent(messages, stored, reserved)[j] != messages[j]
    ensures Lent(messages, stored, reserved)[i].id != Lent(messages, stored, reserved)[j].id
  {
    LentPointwise(messages, stored, reserved, i);
    LentPointwise(messages, stored, reserved, j);
    AcceptedOnce(messages, Offers(messages, stored), Ids(messages), reserved, i, j);
  }

  /** No id is stored twice. */
  lemma NoIdIsStoredTwice(messages: seq<Message>, stored: seq<Message>, reserved: set<Id>)
    requires DistinctIds(messages) && Ids(messages) !! reserved
    ensures DistinctIds(Lent(messages, stored, reserved)) && Ids(Lent(messages, stored, reserved)) !! reserved
  {
    var out := Lent(messages, stored, reserved);
    forall i: nat, j: nat | i < j < |out| ensures out[i].id != out[j].id {
      LendingIsSound(messages, stored, reserved, i);
      LendingIsSound(messages, stored, reserved, j);
      if out[i] != messages[i] && out[j] != messages[j] {
        LentToOneOnly(messages, stored, reserved, i, j);
      }
    }
    forall p: nat | p < |out| ensures out[p].id !in reserved {
      LendingIsSound(messages, stored, reserved, p);
    }
  }

  // ---- Lending twice ------------------------------------------------------------------------

  ghost predicate SameButIds(ms: seq<Message>, ns: seq<Message>) {
    |ms| == |ns| && forall i :: 0 <= i < |ms| ==> SameButId(ms[i], ns[i])
  }

  lemma SameGroupAndKey(m: Message, n: Message)
    requires SameButId(m, n)
    ensures GroupOf(m) == GroupOf(n)
    ensures GroupOf(m).Some? ==> KeyOf(m) == KeyOf(n)
  {
  }

  ghost predicate SameKeys(row: seq<Entry>, row': seq<Entry>) {
    |row| == |row'| && forall k :: 0 <= k < |row| ==> row[k].key == row'[k].key
  }

  lemma {:induction false} RowKeysIgnoreIds(ms: seq<Message>, ns: seq<Message>, n: nat, group: Group)
    requires SameButIds(ms, ns) && n <= |ms|
    ensures SameKeys(RowTo(ms, n, group), RowTo(ns, n, group))
  {
    if n > 0 {
      RowKeysIgnoreIds(ms, ns, n - 1, group);
      SameGroupAndKey(ms[n - 1], ns[n - 1]);
    }
  }

  lemma {:induction false} CursorIgnoresIds(ms: seq<Message>, ns: seq<Message>, n: nat, row: seq<Entry>, group: Group)
    requires SameButIds(ms, ns) && n <= |ms|
    ensures Cursor(ms, n, row, group) == Cursor(ns, n, row, group)
  {
    if n > 0 {
      CursorIgnoresIds(ms, ns, n - 1, row, group);
      SameGroupAndKey(ms[n - 1], ns[n - 1]);
    }
  }

  /** What the row offers a message turns on nothing but groups and keys: the dumped ids play no part. */
  lemma CandidateIgnoresIds(ms: seq<Message>, ns: seq<Message>, stored: seq<Message>, p: nat)
    requires SameButIds(ms, ns) && p < |ms|
    ensures Candidate(ms, stored, p) == Candidate(ns, stored, p)
  {
    SameGroupAndKey(ms[p], ns[p]);
    if GroupOf(ms[p]).Some? {
      var group := GroupOf(ms[p]).value;
      RowKeysIgnoreIds(ms, ns, p, group);
      RowKeysIgnoreIds(ms, ns, |ms|, group);
      CursorIgnoresIds(ms, ns, p, Row(stored, group), group);
    }
  }

  /** Some message is dumped under `id`, and keeps it. */
  ghost predicate KeptByItsCarrier(messages: seq<Message>, stored: seq<Message>, reserved: set<Id>, id: Id) {
    exists i: nat :: i < |messages| && messages[i].id == id && LentAt(messages, stored, reserved, i).None?
  }

  /**
   An id that is not reserved but is offered is in use once everything is lent, unless the message that carried it was
   renamed.
   */
  lemma OfferedIsSpent(messages: seq<Message>, stored: seq<Message>, reserved: set<Id>, p: nat)
    requires p < |messages| && Candidate(messages, stored, p).Some? && Candidate(messages, stored, p).value !in reserved
    ensures var c := Candidate(messages, stored, p).value;
            c in Ids(Lent(messages, stored, reserved))
            <==> (c in Ids(messages) ==> KeptByItsCarrier(messages, stored, reserved, c))
  {
    var c := Candidate(messages, stored, p).value;
    if c in Ids(messages) {
      CarriedIsInUse(messages, stored, reserved, c);
    } else {
      FreeIsLent(messages, stored, reserved, p);
    }
  }

  lemma CarriedIsInUse(messages: seq<Message>, stored: seq<Message>, reserved: set<Id>, c: Id)
    requires c in Ids(messages)
    ensures c in Ids(Lent(messages, stored, reserved)) <==> KeptByItsCarrier(messages, stored, reserved, c)
  {
    var out := Lent(messages, stored, reserved);
    if c in Ids(out) {
      var i: nat :| i < |out| && out[i].id == c;
      LentPointwise(messages, stored, reserved, i);
      if LentAt(messages, stored, reserved, i).Some? {
        AcceptedIsFree(messages, Offers(messages, stored), Ids(messages), reserved, i);
      }
    }
    if KeptByItsCarrier(messages, stored, reserved, c) {
      var i: nat :| i < |messages| && messages[i].id == c && LentAt(messages, stored, reserved, i).None?;
      LentPointwise(messages, stored, reserved, i);
    }
  }

  lemma FreeIsLent(messages: seq<Message>, stored: seq<Message>, reserved: set<Id>, p: nat)
    requires p < |messages| && Candidate(messages, stored, p).Some?
    requires Candidate(messages, stored, p).value !in reserved + Ids(messages)
    ensures Candidate(messages, stored, p).value in Ids(Lent(messages, stored, reserved))
  {
    var c := Candidate(messages, stored, p).value;
    var offers := Offers(messages, stored);
    TakenIsReservedOrLent(messages, offers, Ids(messages), reserved, p, c);
    if AcceptedBefore(messages, offers, Ids(messages), reserved, p, c) {
      var i: nat :| i < p && Accepted(messages, offers, Ids(messages), reserved, i) == Some(c);
      LentPointwise(messages, stored, reserved, i);
    } else {
      LentPointwise(messages, stored, reserved, p);
    }
  }

  /** The second lending offers what the first did. */
  lemma OfferedAgain(messages: seq<Message>, stored: seq<Message>, reserved: set<Id>, p: nat)
    requires p < |messages|
    ensures Candidate(Lent(messages, stored, reserved), stored, p) == Candidate(messages, stored, p)
  {
    var out := Lent(messages, stored, reserved);
    forall p: nat | p < |messages| ensures SameButId(messages[p], out[p]) {
      LendingIsSound(messages, stored, reserved, p);
    }
    CandidateIgnoresIds(messages, out, stored, p);
  }

  /** What is offered again, is not reserved and is not in use is lent this time, to some message. */
  lemma UnspentIsLentNow(messages: seq<Message>, stored: seq<Message>, reserved: set<Id>, p: nat)
    requires p < |messages| && Candidate(messages, stored, p).Some?
    requires Candidate(messages, stored, p).value !in reserved + Ids(Lent(messages, stored, reserved))
    ensures var out := Lent(messages, stored, reserved); Lent(out, stored, reserved) != out
  {
    var out := Lent(messages, stored, reserved);
    var c := Candidate(messages, stored, p).value;
    OfferedAgain(messages, stored, reserved, p);
    FreeIsLent(out, stored, reserved, p);
    assert c in Ids(Lent(out, stored, reserved)) && c !in Ids(out);
  }

  /** What is offered again and is in use, or reserved, is lent to nobody. */
  lemma SpentIsNotLentAgain(messages: seq<Message>, stored: seq<Message>, reserved: set<Id>, p: nat)
    requires p < |messages|
    requires Candidate(messages, stored, p).Some? ==>
             Candidate(messages, stored, p).value in reserved + Ids(Lent(messages, stored, reserved))
    ensures var out := Lent(messages, stored, reserved); Lent(out, stored, reserved)[p] == out[p]
  {
    var out := Lent(messages, stored, reserved);
    OfferedAgain(messages, stored, reserved, p);
    LentPointwise(out, stored, reserved, p);
    if Candidate(messages, stored, p).Some? {
      TakenIsReservedOrLent(out, Offers(out, stored), Ids(out), reserved, p, Candidate(messages, stored, p).value);
    }
  }

  /** Every id offered to a message while another carries it stays with the one that carries it. */
  ghost predicate CarriersKeepTheirs(messages: seq<Message>, stored: seq<Message>, reserved: set<Id>) {
    forall p: nat :: p < |messages| ==> CarrierKeeps(messages, stored, reserved, p)
  }

  ghost predicate CarrierKeeps(messages: seq<Message>, stored: seq<Message>, reserved: set<Id>, p: nat)
    requires p < |messages|
  {
    var offer := Candidate(messages, stored, p);
    offer.Some? && offer.value in Ids(messages) - reserved ==> KeptByItsCarrier(messages, stored, reserved, offer.value)
  }

  /**
   Lending a row's ids a second time changes nothing exactly when no id that was offered, and refused because
   a dumped message carried it, was given up by the message that carried it.
   */
  lemma LendingTwiceIsLendingOnce(messages: seq<Message>, stored: seq<Message>, reserved: set<Id>)
    ensures var out := Lent(messages, stored, reserved);
            Lent(out, stored, reserved) == out <==> CarriersKeepTheirs(messages, stored, reserved)
  {
    var out := Lent(messages, stored, reserved);
    if CarriersKeepTheirs(messages, stored, reserved) {
      forall p: nat | p < |out| ensures Lent(out, stored, reserved)[p] == out[p] {
        assert CarrierKeeps(messages, stored, reserved, p);
        if Candidate(messages, stored, p).Some? && Candidate(messages, stored, p).value !in reserved {
          OfferedIsSpent(messages, stored, reserved, p);
        }
        SpentIsNotLentAgain(messages, stored, reserved, p);
      }
    } else {
      var p: nat :| p < |messages| && !CarrierKeeps(messages, stored, reserved, p);
      OfferedIsSpent(messages, stored, reserved, p);
      UnspentIsLentNow(messages, stored, reserved, p);
    }
  }

  /** A dump that carries none of the row's ids is such a one. */
  lemma FreshDumpsAreLentOnce(messages: seq<Message>, stored: seq<Message>, reserved: set<Id>)
    requires Ids(messages) !! Ids(stored)
    ensures Lent(Lent(messages, stored, reserved), stored, reserved) == Lent(messages, stored, reserved)
  {
    forall p: nat | p < |messages| && Candidate(messages, stored, p).Some?
      ensures Candidate(messages, stored, p).value !in Ids(messages)
    {
      CandidateMatches(messages, stored, p);
    }
    LendingTwiceIsLendingOnce(messages, stored, reserved);
  }

  // ---- Said of the offers alone ---------------------------------------------------------------

  /** Where in its group's row the offer to `messages[p]` stands. */
  function OfferAt(messages: seq<Message>, stored: seq<Message>, p: nat): nat
    requires p < |messages| && GroupOf(messages[p]).Some?
  {
    var group := GroupOf(messages[p]).value;
    if messages[p].Activity? then Rank(messages, p, group) else Stop(messages, Row(stored, group), p)
  }

  /** The row message at place `k` of its group. */
  lemma RowEntryAt(stored: seq<Message>, group: Group, k: nat) returns (q: nat)
    requires k < |Row(stored, group)|
    ensures q < |stored| && GroupOf(stored[q]) == Some(group) && Rank(stored, q, group) == k
    ensures Row(stored, group)[k] == Entry(KeyOf(stored[q]), stored[q].id)
  {
    PositionsAndRanks(stored, |stored|, group);
    q := Positions(stored, |stored|, group)[k];
    RowAtRank(stored, q, group);
  }

  lemma OfferIsThere(messages: seq<Message>, stored: seq<Message>, p: nat) returns (q: nat)
    requires p < |messages| && Candidate(messages, stored, p).Some?
    ensures GroupOf(messages[p]).Some? && q < |stored| && GroupOf(stored[q]) == GroupOf(messages[p])
    ensures Rank(stored, q, GroupOf(messages[p]).value) == OfferAt(messages, stored, p)
    ensures Candidate(messages, stored, p) == Some(stored[q].id)
  {
    q := RowEntryAt(stored, GroupOf(messages[p]).value, OfferAt(messages, stored, p));
  }

  lemma OffersIncrease(messages: seq<Message>, stored: seq<Message>, p: nat, q: nat)
    requires p < q < |messages| && GroupOf(messages[p]) == GroupOf(messages[q])
    requires Candidate(messages, stored, p).Some? && GroupOf(messages[p]).Some?
    ensures OfferAt(messages, stored, p) < OfferAt(messages, stored, q)
  {
    var group := GroupOf(messages[p]).value;
    if messages[p].Activity? {
      RowPrefix(messages, p + 1, q, group);
    } else {
      MatchesIncrease(messages, Row(stored, group), p, q);
    }
  }

  /** A row with distinct ids offers no id to two messages. */
  lemma OffersDiffer(messages: seq<Message>, stored: seq<Message>, p: nat, q: nat)
    requires DistinctIds(stored) && p < q < |messages|
    requires Candidate(messages, stored, p).Some? && Candidate(messages, stored, q).Some?
    ensures Candidate(messages, stored, p) != Candidate(messages, stored, q)
  {
    var i := OfferIsThere(messages, stored, p);
    var j := OfferIsThere(messages, stored, q);
    if GroupOf(messages[p]) == GroupOf(messages[q]) {
      OffersIncrease(messages, stored, p, q);
    }
    assert i != j;
  }

  /** What a message is offered, it takes if it may. */
  lemma TakenUnlessRefused(messages: seq<Message>, stored: seq<Message>, reserved: set<Id>, p: nat)
    requires DistinctIds(stored) && p < |messages|
    ensures LentAt(messages, stored, reserved, p).None?
            <==> (Candidate(messages, stored, p).None?
                  || Candidate(messages, stored, p).value in reserved + Ids(messages))
  {
    var offers := Offers(messages, stored);
    if offers[p].Some? {
      TakenIsReservedOrLent(messages, offers, Ids(messages), reserved, p, offers[p].value);
      forall i: nat | i < p ensures Accepted(messages, offers, Ids(messages), reserved, i) != offers[p] {
        if offers[i].Some? {
          OffersDiffer(messages, stored, i, p);
        }
      }
    }
  }

  /** Nothing it could be lent: no offer, or one of an id that is reserved or carried. */
  predicate Refused(messages: seq<Message>, stored: seq<Message>, reserved: set<Id>, i: nat)
    requires i < |messages|
  {
    Candidate(messages, stored, i).None? || Candidate(messages, stored, i).value in reserved + Ids(messages)
  }

  /** As a caller can see beforehand: whoever carries an id the row offers is itself lent nothing. */
  ghost predicate CarriersAreRefused(messages: seq<Message>, stored: seq<Message>, reserved: set<Id>) {
    forall p: nat :: (p < |messages| && Candidate(messages, stored, p).Some?
                      && Candidate(messages, stored, p).value in Ids(messages) - reserved) ==>
      exists i: nat :: i < |messages| && messages[i].id == Candidate(messages, stored, p).value
          && Refused(messages, stored, reserved, i)
  }

  /** For a row with distinct ids the condition can be read off the offers, before anything is lent. */
  lemma LendingTwiceByTheOffers(messages: seq<Message>, stored: seq<Message>, reserved: set<Id>)
    requires DistinctIds(stored)
    ensures var out := Lent(messages, stored, reserved);
            Lent(out, stored, reserved) == out <==> CarriersAreRefused(messages, stored, reserved)
  {
    forall i: nat | i < |messages|
      ensures LentAt(messages, stored, reserved, i).None? <==> Refused(messages, stored, reserved, i)
    {
      TakenUnlessRefused(messages, stored, reserved, i);
    }
    forall p: nat | p < |messages| && Candidate(messages, stored, p).Some?
        && Candidate(messages, stored, p).value in Ids(messages) - reserved
      ensures var c := Candidate(messages, stored, p).value;
              CarrierKeeps(messages, stored, reserved, p)
              <==> exists i: nat :: i < |messages| && messages[i].id == c && Refused(messages, stored, reserved, i)
    {
      RefusedIsKept(messages, stored, reserved, Candidate(messages, stored, p).value);
    }
    LendingTwiceIsLendingOnce(messages, stored, reserved);
  }

  lemma RefusedIsKept(messages: seq<Message>, stored: seq<Message>, reserved: set<Id>, id: Id)
    requires DistinctIds(stored)
    ensures KeptByItsCarrier(messages, stored, reserved, id)
            <==> exists i: nat :: i < |messages| && messages[i].id == id && Refused(messages, stored, reserved, i)
  {
    if KeptByItsCarrier(messages, stored, reserved, id) {
      var i: nat :| i < |messages| && messages[i].id == id && LentAt(messages, stored, reserved, i).None?;
      TakenUnlessRefused(messages, stored, reserved, i);
    }
    if i: nat :| i < |messages| && messages[i].id == id && Refused(messages, stored, reserved, i) {
      TakenUnlessRefused(messages, stored, reserved, i);
    }
  }

  /** Where a carrier gives its id up, the second lending lends it. */
  lemma LendingTwiceMayLendMore()
    ensures var row := [Tool("x", "c1", "", None), Tool("y", "c2", "", None)];
            var dump := [Tool("y", "c1", "", None), Tool("z", "c2", "", None)];
            && Lent(dump, row, {}) == [Tool("x", "c1", "", None), Tool("z", "c2", "", None)]
            && Lent(Lent(dump, row, {}), row, {}) == row
  {
    TwoTools("y", "z");
    TwoTools("x", "z");
    TakeTwo("y", "z");
    TakeTwo("x", "z");
  }

  lemma TwoTools(a: Id, b: Id)
    ensures var row := [Tool("x", "c1", "", None), Tool("y", "c2", "", None)];
            var dump := [Tool(a, "c1", "", None), Tool(b, "c2", "", None)];
            Offers(dump, row) == [Some("x"), Some("y")]
  {
    var row := [Tool("x", "c1", "", None), Tool("y", "c2", "", None)];
    var dump := [Tool(a, "c1", "", None), Tool(b, "c2", "", None)];
    assert RowTo(row, 1, Tools) == [Entry(CallKey("c1"), "x")];
    assert Row(row, Tools) == [Entry(CallKey("c1"), "x"), Entry(CallKey("c2"), "y")];
    assert Cursor(dump, 1, Row(row, Tools), Tools) == 1;
    assert Candidate(dump, row, 0) == Some("x");
    assert Candidate(dump, row, 1) == Some("y");
  }

  lemma TakeTwo(a: Id, b: Id)
    requires a != b && b != "x" && b != "y"
    ensures var dump := [Tool(a, "c1", "", None), Tool(b, "c2", "", None)];
            Take(dump, [Some("x"), Some("y")], Ids(dump), {}, 2).out
            == [Tool("x", "c1", "", None), Tool(if a == "y" then b else "y", "c2", "", None)]
  {
    var dump := [Tool(a, "c1", "", None), Tool(b, "c2", "", None)];
    assert Ids(dump) == {a, b};
    var offers := [Some("x"), Some("y")];
    assert Take(dump, offers, {a, b}, {}, 0) == Lending([], {});
    assert Take(dump, offers, {a, b}, {}, 1)
        == Lending([Tool("x", "c1", "", None)], if a == "x" then {} else {"x"});
  }

  // ---- The walk is complete and least -------------------------------------------------------

  ghost predicate Increasing(e: seq<nat>) {
    forall j, k :: 0 <= j < k < |e| ==> e[j] < e[k]
  }

  /** Whether `e` finds every key of `wanted` in `row`, in order. */
  ghost predicate Embeds(wanted: seq<Entry>, row: seq<Entry>, e: seq<nat>) {
    && |e| == |wanted| && Increasing(e)
    && forall k :: 0 <= k < |e| ==> e[k] < |row| && row[e[k]].key == wanted[k].key
  }

  lemma {:induction false} CursorIsLeast(messages: seq<Message>, row: seq<Entry>, group: Group, e: seq<nat>, p: nat)
    requires Embeds(Row(messages, group), row, e) && p <= |messages|
    ensures |RowTo(messages, p, group)| <= |e|
    ensures var k := |RowTo(messages, p, group)|;
            Cursor(messages, p, row, group) <= if k == 0 then 0 else e[k - 1] + 1
  {
    RowPrefix(messages, p, |messages|, group);
    if p > 0 {
      CursorIsLeast(messages, row, group, e, p - 1);
      if GroupOf(messages[p - 1]) == Some(group) {
        RowAtRank(messages, p - 1, group);
        var k := Rank(messages, p - 1, group);
        assert k > 0 ==> e[k - 1] < e[k];
        assert row[e[k]].key == KeyOf(messages[p - 1]);
      }
    }
  }

  /**
   The greedy walk is complete and least: if the dumped keys of a group can be found in the row in
   order at all, every one of them is found, and nowhere later than that.
   */
  lemma GreedyWalkIsLeast(messages: seq<Message>, row: seq<Entry>, group: Group, e: seq<nat>, p: nat)
    requires Embeds(Row(messages, group), row, e) && p < |messages| && GroupOf(messages[p]) == Some(group)
    ensures Rank(messages, p, group) < |e|
    ensures var stop := Stop(messages, row, p);
            stop <= e[Rank(messages, p, group)] && row[stop].key == KeyOf(messages[p])
  {
    CursorIsLeast(messages, row, group, e, p);
    RowAtRank(messages, p, group);
    var k := Rank(messages, p, group);
    assert k > 0 ==> e[k - 1] < e[k];
    assert row[e[k]].key == KeyOf(messages[p]);
  }

  lemma {:induction false} CursorOnlyAdvances(messages: seq<Message>, row: seq<Entry>, group: Group, n: nat, m: nat)
    requires n <= m <= |messages|
    ensures Cursor(messages, n, row, group) <= Cursor(messages, m, row, group)
  {
    if n < m {
      CursorOnlyAdvances(messages, row, group, n, m - 1);
    }
  }

  /** No two messages of a group are matched to one row message, nor out of order. */
  lemma MatchesIncrease(messages: seq<Message>, row: seq<Entry>, p: nat, q: nat)
    requires p < q < |messages| && GroupOf(messages[p]) == GroupOf(messages[q]) && GroupOf(messages[p]).Some?
    requires Stop(messages, row, p) < |row|
    ensures Stop(messages, row, p) < Stop(messages, row, q)
  {
    var group := GroupOf(messages[p]).value;
    CursorOnlyAdvances(messages, row, group, p + 1, q);
  }
}
