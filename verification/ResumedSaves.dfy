/**
 The saves a resumed or forked session makes, cut or not, are sound saves of its source row. What the framework
 does is asked of it here, once: how it dumps a history, and that what the snapshot is stored as can be followed to
 the source row. Only messages a row is searched for are asked about; a user's or a system's may be anything.
 */
module ResumedSaves {
  import opened Messages
  import opened LendStoredIds
  import opened LendingLaws
  import opened Redumping
  import opened ContinuedHistory
  import opened StripBinaryContent
  import opened AgentSession
  import opened IdStability

  /** What messages are stored as. */
  function Stored(messages: seq<Message>): seq<Message> {
    Stripped(messages, |messages|)
  }

  /** What the first `n` messages of a history dump to, one after another. */
  function Shapes(shape: ModelMessage -> seq<Message>, history: seq<ModelMessage>, n: nat): seq<Message>
    requires n <= |history|
  {
    if n == 0 then [] else Shapes(shape, history, n - 1) + shape(history[n - 1])
  }

  function StoredShapes(shape: ModelMessage -> seq<Message>, history: seq<ModelMessage>, n: nat): seq<Message>
    requires n <= |history|
  {
    Stored(Shapes(shape, history, n))
  }

  // ---- The messages a row is searched for -----------------------------------------------------------------

  /** The messages among the first `n` that a row is searched for. */
  function MatchedTo(messages: seq<Message>, n: nat): seq<Message>
    requires n <= |messages|
  {
    if n == 0 then []
    else if GroupOf(messages[n - 1]).Some? then MatchedTo(messages, n - 1) + [messages[n - 1]]
    else MatchedTo(messages, n - 1)
  }

  function Matched(messages: seq<Message>): seq<Message> {
    MatchedTo(messages, |messages|)
  }

  /** Where they stand. */
  function MatchedAt(messages: seq<Message>, n: nat): (at: seq<nat>)
    requires n <= |messages|
    ensures |at| == |MatchedTo(messages, n)|
    ensures forall k :: 0 <= k < |at| ==> at[k] < n && messages[at[k]] == MatchedTo(messages, n)[k]
    ensures forall k :: 0 <= k < |at| ==> GroupOf(messages[at[k]]).Some?
  {
    if n == 0 then []
    else if GroupOf(messages[n - 1]).Some? then MatchedAt(messages, n - 1) + [n - 1]
    else MatchedAt(messages, n - 1)
  }

  lemma {:induction false} MatchedPrefix(messages: seq<Message>, n: nat, m: nat)
    requires n <= m <= |messages|
    ensures MatchedAt(messages, n) <= MatchedAt(messages, m)
  {
    if n < m {
      MatchedPrefix(messages, n, m - 1);
    }
  }

  /** A matched message's place among the matched ones. */
  lemma MatchedRank(messages: seq<Message>, p: nat)
    requires p < |messages| && GroupOf(messages[p]).Some?
    ensures |MatchedAt(messages, p)| < |MatchedAt(messages, |messages|)|
    ensures MatchedAt(messages, |messages|)[|MatchedAt(messages, p)|] == p
    ensures Matched(messages)[|MatchedAt(messages, p)|] == messages[p]
  {
    MatchedPrefix(messages, p + 1, |messages|);
  }

  lemma MatchedIncreases(messages: seq<Message>, j: nat, k: nat)
    requires j < k < |MatchedAt(messages, |messages|)|
    ensures MatchedAt(messages, |messages|)[j] < MatchedAt(messages, |messages|)[k]
  {
    var at := MatchedAt(messages, |messages|);
    MatchedPrefix(messages, at[k], |messages|);
    MatchedAtRank(messages, |messages|, k);
  }

  /** Before the k-th matched message stand k matched messages. */
  lemma {:induction false} MatchedAtRank(messages: seq<Message>, n: nat, k: nat)
    requires n <= |messages| && k < |MatchedAt(messages, n)|
    ensures |MatchedAt(messages, MatchedAt(messages, n)[k])| == k
  {
    if k < |MatchedAt(messages, n - 1)| {
      MatchedAtRank(messages, n - 1, k);
    }
  }

  lemma {:induction false} MatchedFirst(a: seq<Message>, b: seq<Message>, n: nat)
    requires n <= |a|
    ensures MatchedTo(a + b, n) == MatchedTo(a, n)
  {
    if n > 0 {
      MatchedFirst(a, b, n - 1);
    }
  }

  lemma {:induction false} MatchedPast(a: seq<Message>, b: seq<Message>, n: nat)
    requires n <= |b|
    ensures MatchedTo(a + b, |a| + n) == Matched(a) + MatchedTo(b, n)
  {
    if n == 0 {
      MatchedFirst(a, b, |a|);
    } else {
      MatchedPast(a, b, n - 1);
    }
  }

  lemma MatchedConcat(a: seq<Message>, b: seq<Message>)
    ensures Matched(a + b) == Matched(a) + Matched(b)
  {
    MatchedPast(a, b, |b|);
  }

  lemma {:induction false} MatchedIgnoresIds(a: seq<Message>, b: seq<Message>, n: nat)
    requires SameButIds(a, b) && n <= |a|
    ensures SameButIds(MatchedTo(a, n), MatchedTo(b, n))
  {
    if n > 0 {
      MatchedIgnoresIds(a, b, n - 1);
      SameGroupAndKey(a[n - 1], b[n - 1]);
    }
  }

  /** The first matched messages of `whole` are those of `part`, ids aside. */
  ghost predicate BeginsAlike(part: seq<Message>, whole: seq<Message>) {
    |Matched(part)| <= |Matched(whole)| && SameButIds(Matched(part), Matched(whole)[..|Matched(part)|])
  }

  /** Which message of `whole` a message of `part` is: the matched one of the same rank. */
  function AlignedAt(part: seq<Message>, whole: seq<Message>, p: nat): (q: Option<nat>)
    requires p < |part| && |Matched(part)| <= |Matched(whole)|
    ensures q.Some? ==> q.value < |whole|
  {
    if GroupOf(part[p]).None? then None
    else
      MatchedRank(part, p);
      Some(MatchedAt(whole, |whole|)[|MatchedAt(part, p)|])
  }

  function Align(part: seq<Message>, whole: seq<Message>): (g: seq<Option<nat>>)
    requires |Matched(part)| <= |Matched(whole)|
    ensures |g| == |part| && forall p :: 0 <= p < |g| && g[p].Some? ==> g[p].value < |whole|
  {
    seq(|part|, p requires 0 <= p < |part| => AlignedAt(part, whole, p))
  }

  lemma AlignedIsHeld(part: seq<Message>, whole: seq<Message>, p: nat)
    requires BeginsAlike(part, whole) && p < |part| && GroupOf(part[p]).Some?
    ensures IsHeldAt(part[p], whole, AlignedAt(part, whole, p).value)
  {
    MatchedRank(part, p);
    var k := |MatchedAt(part, p)|;
    assert SameButId(Matched(part)[k], Matched(whole)[..|Matched(part)|][k]);
  }

  lemma AlignedIncreases(part: seq<Message>, whole: seq<Message>, p: nat, q: nat)
    requires BeginsAlike(part, whole) && p < q < |part| && GroupOf(part[p]).Some? && GroupOf(part[q]).Some?
    ensures AlignedAt(part, whole, p).value < AlignedAt(part, whole, q).value
  {
    MatchedRank(part, q);
    MatchedPrefix(part, p + 1, q);
    MatchedIncreases(whole, |MatchedAt(part, p)|, |MatchedAt(part, q)|);
  }

  /** Up to where the part reaches, every matched message of the whole is aligned to. */
  lemma AlignedMissesNone(part: seq<Message>, whole: seq<Message>, p: nat, q: nat)
    requires BeginsAlike(part, whole) && p < |part| && GroupOf(part[p]).Some?
    requires q < AlignedAt(part, whole, p).value && GroupOf(whole[q]).Some?
    ensures Some(q) in Align(part, whole)
  {
    var at := MatchedAt(part, |part|);
    MatchedRank(part, p);
    MatchedRank(whole, q);
    var k := |MatchedAt(whole, q)|;
    if k >= |MatchedAt(part, p)| && k > |MatchedAt(part, p)| {
      MatchedIncreases(whole, |MatchedAt(part, p)|, k);
    }
    MatchedAtRank(part, |part|, k);
    assert Align(part, whole)[at[k]] == Some(q);
  }

  lemma AlignIsPart(part: seq<Message>, whole: seq<Message>)
    requires BeginsAlike(part, whole)
    ensures PartOf(part, whole, Align(part, whole))
  {
    var g := Align(part, whole);
    forall p: nat | p < |g| && g[p].Some? ensures IsHeldAt(part[p], whole, g[p].value) {
      AlignedIsHeld(part, whole, p);
    }
    forall p: nat, q: nat | p < q < |g| && g[p].Some? && g[q].Some? ensures g[p].value < g[q].value {
      AlignedIncreases(part, whole, p, q);
    }
    forall p: nat, q: nat, group | p < |part| && GroupOf(part[p]) == Some(group) && GapBefore(whole, g[p], q, group)
      ensures Some(q) in g
    {
      AlignedMissesNone(part, whole, p, q);
    }
  }

  // ---- Stripping a concatenation, and whatever the ids ---------------------------------------------------

  lemma {:induction false} StrippedPrefix(a: seq<Message>, b: seq<Message>, n: nat)
    requires n <= |a|
    ensures Stripped(a + b, n) == Stripped(a, n)
  {
    if n > 0 {
      StrippedPrefix(a, b, n - 1);
    }
  }

  lemma {:induction false} StrippedPast(a: seq<Message>, b: seq<Message>, n: nat)
    requires n <= |b|
    ensures Stripped(a + b, |a| + n) == Stored(a) + Stripped(b, n)
  {
    if n == 0 {
      StrippedPrefix(a, b, |a|);
    } else {
      StrippedPast(a, b, n - 1);
    }
  }

  lemma StrippedIgnoresIds(m: Message, n: Message)
    requires SameButId(m, n)
    ensures StrippedMessage(m).Some? <==> StrippedMessage(n).Some?
    ensures StrippedMessage(m).Some? ==> SameButId(StrippedMessage(m).value, StrippedMessage(n).value)
  {
  }

  lemma {:induction false} StoredIgnoresIds(a: seq<Message>, b: seq<Message>, n: nat)
    requires SameButIds(a, b) && n <= |a|
    ensures SameButIds(Stripped(a, n), Stripped(b, n))
  {
    if n > 0 {
      StoredIgnoresIds(a, b, n - 1);
      StrippedIgnoresIds(a[n - 1], b[n - 1]);
    }
  }

  lemma {:induction false} ShapesOfPrefix(shape: ModelMessage -> seq<Message>, a: seq<ModelMessage>,
                                          b: seq<ModelMessage>, n: nat)
    requires n <= |a| && n <= |b| && a[..n] == b[..n]
    ensures Shapes(shape, a, n) == Shapes(shape, b, n)
  {
    if n > 0 {
      assert a[..n][n - 1] == b[..n][n - 1];
      assert a[..n][..n - 1] == a[..n - 1] && b[..n][..n - 1] == b[..n - 1];
      ShapesOfPrefix(shape, a, b, n - 1);
    }
  }

  lemma OneMoreStored(shape: ModelMessage -> seq<Message>, history: seq<ModelMessage>, n: nat)
    requires n < |history|
    ensures StoredShapes(shape, history, n + 1) == StoredShapes(shape, history, n) + Stored(shape(history[n]))
  {
    StrippedPast(Shapes(shape, history, n), shape(history[n]), |shape(history[n])|);
  }

  // ---- What is kept begins what the whole is --------------------------------------------------------------

  lemma {:induction false} MatchedShapesGrow(shape: ModelMessage -> seq<Message>, history: seq<ModelMessage>, n: nat,
                                             m: nat)
    requires n <= m <= |history|
    ensures Matched(StoredShapes(shape, history, n)) <= Matched(StoredShapes(shape, history, m))
  {
    if n < m {
      MatchedShapesGrow(shape, history, n, m - 1);
      OneMoreStored(shape, history, m - 1);
      MatchedConcat(StoredShapes(shape, history, m - 1), Stored(shape(history[m - 1])));
    }
  }

  /** A request's tool results, alone in a request, are stored as exactly the messages of it a row is searched for. */
  ghost predicate ResultsStandAlone(shape: ModelMessage -> seq<Message>, parts: seq<RequestPart>) {
    SameButIds(Matched(Stored(shape(Request(ToolResults(parts, |parts|))))), Matched(Stored(shape(Request(parts)))))
  }

  /** The request a history is cut at, if it is cut at one that holds results, is such a request. */
  ghost predicate CutStandsAlone(shape: ModelMessage -> seq<Message>, history: seq<ModelMessage>, cut: nat)
    requires cut <= |history|
  {
    |KeptHistory(history, cut)| > cut && history[cut].Request? ==> ResultsStandAlone(shape, history[cut].parts)
  }

  lemma AlikeSoFar(a: seq<Message>, b: seq<Message>, whole: seq<Message>)
    requires SameButIds(a, b) && b <= whole
    ensures |a| <= |whole| && SameButIds(a, whole[..|a|])
  {
    assert whole[..|a|] == b;
  }

  lemma AlikeConcat(first: seq<Message>, a: seq<Message>, b: seq<Message>)
    requires SameButIds(a, b)
    ensures SameButIds(first + a, first + b)
  {
  }

  /** A history cut at a request that keeps its results. */
  lemma ResultsBeginAlike(shape: ModelMessage -> seq<Message>, history: seq<ModelMessage>, kept: seq<ModelMessage>,
                          cut: nat)
    requires cut < |history| && |kept| == cut + 1 && kept[..cut] == history[..cut]
    requires SameButIds(Matched(Stored(shape(kept[cut]))), Matched(Stored(shape(history[cut]))))
    ensures SameButIds(Matched(StoredShapes(shape, kept, |kept|)), Matched(StoredShapes(shape, history, cut + 1)))
  {
    var before := StoredShapes(shape, history, cut);
    ShapesOfPrefix(shape, kept, history, cut);
    OneMoreStored(shape, kept, cut);
    OneMoreStored(shape, history, cut);
    MatchedConcat(before, Stored(shape(kept[cut])));
    MatchedConcat(before, Stored(shape(history[cut])));
    AlikeConcat(Matched(before), Matched(Stored(shape(kept[cut]))), Matched(Stored(shape(history[cut]))));
  }

  /** What a history cut anywhere is stored as begins like what the whole one is, as far as a row is searched. */
  lemma KeptBeginsAlike(shape: ModelMessage -> seq<Message>, history: seq<ModelMessage>, cut: nat)
    requires cut <= |history| && CutStandsAlone(shape, history, cut)
    ensures var kept := KeptHistory(history, cut);
            BeginsAlike(StoredShapes(shape, kept, |kept|), StoredShapes(shape, history, |history|))
  {
    var kept := KeptHistory(history, cut);
    var stored, whole := StoredShapes(shape, kept, |kept|), StoredShapes(shape, history, |history|);
    KeptAnswersWhatTheCutDid(history, cut);
    if |kept| == cut {
      ShapesOfPrefix(shape, kept, history, cut);
      MatchedShapesGrow(shape, history, cut, |history|);
      AlikeSoFar(Matched(stored), Matched(stored), Matched(whole));
    } else {
      assert ResultsStandAlone(shape, history[cut].parts);
      ResultsBeginAlike(shape, history, kept, cut);
      MatchedShapesGrow(shape, history, cut + 1, |history|);
      AlikeSoFar(Matched(stored), Matched(StoredShapes(shape, history, cut + 1)), Matched(whole));
    }
  }

  // ---- The saves a session makes ------------------------------------------------------------------------

  /** Where a resumed session cuts its history. */
  function SessionCut(session: Session): (cut: nat)
    requires session.history.Some?
    ensures cut <= |session.history.value|
  {
    var turn := NewTurn(session.adapter, session.posted);
    CutAt(session.adapter, session.history.value,
        TurnId(session.adapter, turn, |turn|, session.posted, session.history.value))
  }

  /** What a resumed session stores of its k-th dump, before any id is lent. */
  function SessionDump(session: Session, k: nat): seq<Message>
    requires session.history.Some?
  {
    Stored(session.dump(Continued(session.adapter, session.history.value, session.posted).kept, k))
  }

  /**
   What is asked of the framework: it dumps what the session keeps message by message, each as `shape` says,
   whatever ids it mints, and the results of the request the history is cut at as it dumps them in it.
   */
  ghost predicate DumpsBy(session: Session, shape: ModelMessage -> seq<Message>, k: nat)
    requires session.history.Some?
  {
    var kept := Continued(session.adapter, session.history.value, session.posted).kept;
    && SameButIds(session.dump(kept, k), Shapes(shape, kept, |kept|))
    && CutStandsAlone(shape, session.history.value, SessionCut(session))
  }

  /**
   What is asked of the source row: `at` says which of its messages those are that the snapshot is stored as, where
   it holds them, and it can be followed to them. Of a type's activities it holds all or none.
   */
  ghost predicate RowHolds(row: seq<Message>, shape: ModelMessage -> seq<Message>, history: seq<ModelMessage>,
                           at: seq<Option<nat>>) {
    var whole := StoredShapes(shape, history, |history|);
    && DumpedFrom(whole, row, at) && AllFollowed(whole, row, at)
    && forall p: nat :: p < |whole| && whole[p].Activity? ==> AllOrNone(whole, row, at, GroupOf(whole[p]).value)
  }

  /** What a session dumps begins like what its snapshot is stored as. */
  lemma DumpBeginsAlike(session: Session, shape: ModelMessage -> seq<Message>, k: nat)
    requires session.history.Some? && DumpsBy(session, shape, k)
    ensures BeginsAlike(SessionDump(session, k), StoredShapes(shape, session.history.value, |session.history.value|))
  {
    var history := session.history.value;
    var kept := KeptHistory(history, SessionCut(session));
    var dumped := session.dump(kept, k);
    var whole := StoredShapes(shape, history, |history|);
    KeptBeginsAlike(shape, history, SessionCut(session));
    StoredIgnoresIds(dumped, Shapes(shape, kept, |kept|), |dumped|);
    MatchedIgnoresIds(Stored(dumped), StoredShapes(shape, kept, |kept|), |Stored(dumped)|);
    AlikeTwice(Matched(Stored(dumped)), Matched(StoredShapes(shape, kept, |kept|)), Matched(whole));
  }

  lemma AlikeTwice(a: seq<Message>, b: seq<Message>, whole: seq<Message>)
    requires SameButIds(a, b) && |b| <= |whole| && SameButIds(b, whole[..|b|])
    ensures SameButIds(a, whole[..|a|])
  {
    forall i | 0 <= i < |a| ensures SameButId(a[i], whole[..|a|][i]) {
      assert SameButId(a[i], b[i]) && SameButId(b[i], whole[..|b|][i]);
    }
  }

  /** The row message each message of the session's dump is, when the whole snapshot stands in the row at `at`. */
  function SessionAt(session: Session, shape: ModelMessage -> seq<Message>, at: seq<Option<nat>>, k: nat)
    : seq<Option<nat>>
    requires session.history.Some? && DumpsBy(session, shape, k)
    requires |at| == |StoredShapes(shape, session.history.value, |session.history.value|)|
  {
    DumpBeginsAlike(session, shape, k);
    Through(Align(SessionDump(session, k), StoredShapes(shape, session.history.value, |session.history.value|)), at)
  }

  /** What a resumed session stores, read as a save of its source row. */
  function SessionSave(session: Session, shape: ModelMessage -> seq<Message>, at: seq<Option<nat>>, k: nat,
                       output: seq<Message>): Save
    requires session.history.Some? && DumpsBy(session, shape, k)
    requires |at| == |StoredShapes(shape, session.history.value, |session.history.value|)|
  {
    var turn := Continued(session.adapter, session.history.value, session.posted).turn;
    Save(SessionDump(session, k), SessionAt(session, shape, at, k), turn, output)
  }

  /** Wherever the posted turn cuts its history, a session's dump can be followed to its source row's own messages. */
  lemma ACutDumpIsFollowed(session: Session, shape: ModelMessage -> seq<Message>, at: seq<Option<nat>>, k: nat)
    requires session.history.Some? && DumpsBy(session, shape, k)
    requires RowHolds(session.source, shape, session.history.value, at)
    ensures DumpedFrom(SessionDump(session, k), session.source, SessionAt(session, shape, at, k))
    ensures AllFollowed(SessionDump(session, k), session.source, SessionAt(session, shape, at, k))
  {
    var dump, whole := SessionDump(session, k), StoredShapes(shape, session.history.value, |session.history.value|);
    DumpBeginsAlike(session, shape, k);
    AlignIsPart(dump, whole);
    var g := Align(dump, whole);
    DumpedThrough(dump, whole, session.source, g, at);
    forall p: nat | p < |dump| && GroupOf(dump[p]).Some?
      ensures Followed(dump, session.source, Through(g, at), GroupOf(dump[p]).value)
    {
      SameGroupAndKey(dump[p], whole[g[p].value]);
      PartIsFollowed(dump, whole, session.source, g, at, GroupOf(dump[p]).value);
    }
  }

  /** No message is dumped under, and none of the posted turn has, an id that another one is stored under. */
  ghost predicate IdsAreTheirOwn(row: seq<Message>, save: Save) {
    forall p: nat :: p < |save.at| && save.at[p].Some? && save.at[p].value < |row| ==>
      row[save.at[p].value].id !in Ids(save.turn) && NoOtherCarries(save.dump, p, row[save.at[p].value].id)
  }

  /** What a resumed session stores, with or without a cut, is a sound save of its source row. */
  lemma AStoredRowIsASoundSave(session: Session, shape: ModelMessage -> seq<Message>, at: seq<Option<nat>>, k: nat,
                               output: seq<Message>)
    requires session.history.Some? && session.source != [] && DumpsBy(session, shape, k)
    requires RowHolds(session.source, shape, session.history.value, at)
    requires var save := SessionSave(session, shape, at, k, output);
             IdsAreNew(session.source, save) && IdsAreTheirOwn(session.source, save)
    ensures var save := SessionSave(session, shape, at, k, output);
            && Sound(session.source, save)
            && session.PriorAt(k) + output == SavedRow(session.source, save)
  {
    ACutDumpIsFollowed(session, shape, at, k);
  }
}
