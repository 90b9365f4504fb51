/**
 What a session stores is a row the next one can resume from. The row holds what the session dumped, ids aside, and
 then the posted turn and the output; the next snapshot is stored as the same, and then what the run added to it. So
 of a chain of sessions only the first one's source row has to be asked about.
 */
module NextRows {
  import opened Messages
  import opened LendStoredIds
  import opened LendingLaws
  import opened Redumping
  import opened ContinuedHistory
  import opened StripBinaryContent
  import opened AgentSession
  import opened IdStability
  import opened ResumedSaves

  // ---- One list after another -----------------------------------------------------------------------------

  lemma {:induction false} RowFirst(x: seq<Message>, y: seq<Message>, n: nat, group: Group)
    requires n <= |x|
    ensures RowTo(x + y, n, group) == RowTo(x, n, group)
  {
    if n > 0 {
      RowFirst(x, y, n - 1, group);
    }
  }

  lemma {:induction false} RowBoth(x: seq<Message>, y: seq<Message>, n: nat, group: Group)
    requires n <= |y|
    ensures RowTo(x + y, |x| + n, group) == Row(x, group) + RowTo(y, n, group)
  {
    if n == 0 {
      RowFirst(x, y, |x|, group);
    } else {
      RowBoth(x, y, n - 1, group);
    }
  }

  lemma RowConcat(x: seq<Message>, y: seq<Message>, group: Group)
    ensures Row(x + y, group) == Row(x, group) + Row(y, group)
  {
    RowBoth(x, y, |y|, group);
  }

  /**
   A message of the first list is the row's at the same index; one of the second is where `r` says, that much later.
   */
  function OntoAt(a: seq<Message>, n: nat, r: seq<Option<nat>>, i: nat): Option<nat>
    requires i < |a| + |r|
  {
    if i < |a| then (if GroupOf(a[i]).Some? then Some(i) else None)
    else
      match r[i - |a|]
      case None => None
      case Some(q) => Some(n + q)
  }

  function Onto(a: seq<Message>, n: nat, r: seq<Option<nat>>): (at: seq<Option<nat>>)
    ensures |at| == |a| + |r|
  {
    seq(|a| + |r|, i requires 0 <= i < |a| + |r| => OntoAt(a, n, r, i))
  }

  lemma OntoIsHeld(a: seq<Message>, x: seq<Message>, b: seq<Message>, y: seq<Message>, r: seq<Option<nat>>, i: nat)
    requires SameButIds(a, x) && DumpedFrom(b, y, r) && i < |a + b| && OntoAt(a, |x|, r, i).Some?
    ensures IsHeldAt((a + b)[i], x + y, OntoAt(a, |x|, r, i).value)
  {
    if i >= |a| {
      assert IsHeldAt(b[i - |a|], y, r[i - |a|].value);
      assert (x + y)[|x| + r[i - |a|].value] == y[r[i - |a|].value];
    }
  }

  lemma OntoIsDumped(a: seq<Message>, x: seq<Message>, b: seq<Message>, y: seq<Message>, r: seq<Option<nat>>)
    requires SameButIds(a, x) && DumpedFrom(b, y, r)
    ensures DumpedFrom(a + b, x + y, Onto(a, |x|, r))
  {
    var at := Onto(a, |x|, r);
    forall i: nat | i < |at| && at[i].Some? ensures IsHeldAt((a + b)[i], x + y, at[i].value) {
      OntoIsHeld(a, x, b, y, r, i);
    }
  }

  lemma OntoFirstPlace(a: seq<Message>, x: seq<Message>, b: seq<Message>, y: seq<Message>, group: Group, p: nat)
    requires SameButIds(a, x) && p < |a| && GroupOf(a[p]) == Some(group)
    ensures Rank(a + b, p, group) == Rank(a, p, group) && PlaceOf(x + y, Some(p), group) == Rank(a, p, group)
  {
    RowFirst(a, b, p, group);
    RowFirst(x, y, p, group);
    RowKeysIgnoreIds(a, x, p, group);
  }

  lemma OntoSecondPlace(a: seq<Message>, x: seq<Message>, b: seq<Message>, y: seq<Message>, r: seq<Option<nat>>,
                        group: Group, p: nat)
    requires SameButIds(a, x) && DumpedFrom(b, y, r) && p < |b| && GroupOf(b[p]) == Some(group)
    ensures Rank(a + b, |a| + p, group) == |Row(a, group)| + Rank(b, p, group)
    ensures OntoAt(a, |x|, r, |a| + p).Some? ==> OntoAt(a, |x|, r, |a| + p).value < |x + y|
    ensures PlaceOf(x + y, OntoAt(a, |x|, r, |a| + p), group) == |Row(a, group)| + PlaceOf(y, r[p], group)
  {
    RowBoth(a, b, p, group);
    RowKeysIgnoreIds(a, x, |a|, group);
    match r[p] {
      case None => RowConcat(x, y, group);
      case Some(q) => RowBoth(x, y, q, group);
    }
  }

  lemma OntoPlaceOf(a: seq<Message>, x: seq<Message>, b: seq<Message>, y: seq<Message>, r: seq<Option<nat>>,
                    group: Group, p: nat)
    requires SameButIds(a, x) && DumpedFrom(b, y, r) && p < |a + b| && GroupOf((a + b)[p]) == Some(group)
    ensures var k, n, q := Rank(a + b, p, group), |Row(a, group)|, OntoAt(a, |x|, r, p);
            && (p < |a| <==> k < n) && (q.Some? ==> q.value < |x + y|)
            && PlaceOf(x + y, q, group) == (if p < |a| then k else n + PlaceOf(y, r[p - |a|], group))
            && (p >= |a| ==> k == n + Rank(b, p - |a|, group))
  {
    if p < |a| {
      RowAtRank(a, p, group);
      OntoFirstPlace(a, x, b, y, group, p);
    } else {
      OntoSecondPlace(a, x, b, y, r, group, p - |a|);
    }
  }

  /** In each group the first list's messages stand at their ranks, and the second's as many places later. */
  lemma OntoPlace(a: seq<Message>, x: seq<Message>, b: seq<Message>, y: seq<Message>, r: seq<Option<nat>>,
                  group: Group, k: nat)
    requires SameButIds(a, x) && DumpedFrom(b, y, r) && DumpedFrom(a + b, x + y, Onto(a, |x|, r))
    requires k < |Row(a + b, group)| && |Row(a + b, group)| == |Row(a, group)| + |Row(b, group)|
    ensures AllPlaces(a + b, x + y, Onto(a, |x|, r), group)[k]
            == if k < |Row(a, group)| then k else |Row(a, group)| + AllPlaces(b, y, r, group)[k - |Row(a, group)|]
  {
    var p := DumpedAt(a + b, group, k);
    PlaceAtRank(a + b, x + y, Onto(a, |x|, r), p, group);
    OntoPlaceOf(a, x, b, y, r, group, p);
    if p >= |a| {
      PlaceAtRank(b, y, r, p - |a|, group);
    }
  }

  lemma {:induction false} OntoFrom(all: seq<nat>, places: seq<nat>, n: nat, k: nat, end: nat)
    requires |all| == n + |places| && k <= |all|
    requires forall j :: 0 <= j < |all| ==> all[j] == if j < n then j else n + places[j - n]
    ensures From(all, k, n + end) == if k < n then k else n + From(places, k - n, end)
  {
    if k > 0 {
      OntoFrom(all, places, n, k - 1, end);
    }
  }

  lemma OntoAllPlaces(a: seq<Message>, x: seq<Message>, b: seq<Message>, y: seq<Message>, r: seq<Option<nat>>,
                      group: Group)
    requires SameButIds(a, x) && DumpedFrom(b, y, r) && DumpedFrom(a + b, x + y, Onto(a, |x|, r))
    ensures |Row(a, group)| == |Row(x, group)|
    ensures var n, all, places := |Row(a, group)|, AllPlaces(a + b, x + y, Onto(a, |x|, r), group),
            AllPlaces(b, y, r, group);
            && |all| == n + |places|
            && forall j :: 0 <= j < |all| ==> all[j] == if j < n then j else n + places[j - n]
  {
    RowConcat(a, b, group);
    RowKeysIgnoreIds(a, x, |a|, group);
    var all := AllPlaces(a + b, x + y, Onto(a, |x|, r), group);
    forall j: nat | j < |all|
      ensures all[j] == if j < |Row(a, group)| then j
              else |Row(a, group)| + AllPlaces(b, y, r, group)[j - |Row(a, group)|]
    {
      OntoPlace(a, x, b, y, r, group, j);
    }
  }

  lemma OntoTightAt(first: seq<Entry>, last: seq<Entry>, row: seq<Entry>, more: seq<Entry>, all: seq<nat>,
                    places: seq<nat>, k: nat)
    requires |first| == |row| && |all| == |first| + |last| && |places| == |last| && k < |all|
    requires forall j :: 0 <= j < |all| ==> all[j] == if j < |first| then j else |first| + places[j - |first|]
    requires forall j :: 0 <= j < |places| ==> places[j] <= |more|
    requires k >= |first| ==> TightAt(last, more, places, k - |first|)
    ensures all[k] <= |row + more| && TightAt(first + last, row + more, all, k)
  {
    OntoFrom(all, places, |first|, k, |more|);
    if k >= |first| {
      forall j | From(all, k, |row + more|) <= j < all[k] ensures (row + more)[j].key != (first + last)[k].key {
        assert (row + more)[j] == more[j - |row|];
      }
    }
  }

  lemma OntoIsTight(a: seq<Message>, x: seq<Message>, b: seq<Message>, y: seq<Message>, r: seq<Option<nat>>,
                    group: Group)
    requires SameButIds(a, x) && DumpedFrom(b, y, r) && DumpedFrom(a + b, x + y, Onto(a, |x|, r))
    requires Followed(b, y, r, group) && !group.ActivitiesOf?
    ensures Followed(a + b, x + y, Onto(a, |x|, r), group)
  {
    PlacesFit(a + b, x + y, Onto(a, |x|, r), group);
    PlacesFit(b, y, r, group);
    RowConcat(a, b, group);
    RowConcat(x, y, group);
    OntoAllPlaces(a, x, b, y, r, group);
    var all, places := AllPlaces(a + b, x + y, Onto(a, |x|, r), group), AllPlaces(b, y, r, group);
    forall k: nat | k < |all| ensures TightAt(Row(a + b, group), Row(x + y, group), all, k) {
      OntoTightAt(Row(a, group), Row(b, group), Row(x, group), Row(y, group), all, places, k);
    }
  }

  lemma OntoPairs(a: seq<Message>, x: seq<Message>, b: seq<Message>, y: seq<Message>, r: seq<Option<nat>>, group: Group)
    requires SameButIds(a, x) && DumpedFrom(b, y, r) && DumpedFrom(a + b, x + y, Onto(a, |x|, r))
    requires Followed(b, y, r, group) && HoldsAll(b, r, group) && group.ActivitiesOf?
    ensures Followed(a + b, x + y, Onto(a, |x|, r), group)
  {
    PlacesFit(a + b, x + y, Onto(a, |x|, r), group);
    RowConcat(x, y, group);
    OntoAllPlaces(a, x, b, y, r, group);
    var places := AllPlaces(b, y, r, group);
    forall k: nat | k < |places| ensures k < |Row(y, group)| && places[k] == k {
      AllAreThere(b, y, r, group, k);
    }
    if places != [] {
      assert places[|places| - 1] < |Row(y, group)|;
    }
  }

  lemma NoneIsFollowed(b: seq<Message>, y: seq<Message>, r: seq<Option<nat>>, group: Group)
    requires DumpedFrom(b, y, r) && forall p: nat :: p < |b| ==> GroupOf(b[p]) != Some(group)
    ensures Followed(b, y, r, group)
  {
    PlacesFit(b, y, r, group);
    if Row(b, group) != [] {
      var p := DumpedAt(b, group, 0);
    }
  }

  lemma OntoIsFollowed(a: seq<Message>, x: seq<Message>, b: seq<Message>, y: seq<Message>, r: seq<Option<nat>>,
                       group: Group)
    requires SameButIds(a, x) && DumpedFrom(b, y, r) && AllFollowed(b, y, r)
    requires DumpedFrom(a + b, x + y, Onto(a, |x|, r)) && (group.ActivitiesOf? ==> HoldsAll(b, r, group))
    ensures Followed(a + b, x + y, Onto(a, |x|, r), group)
  {
    if p: nat :| p < |b| && GroupOf(b[p]) == Some(group) {
      assert Followed(b, y, r, group);
    } else {
      NoneIsFollowed(b, y, r, group);
    }
    if group.ActivitiesOf? {
      OntoPairs(a, x, b, y, r, group);
    } else {
      OntoIsTight(a, x, b, y, r, group);
    }
  }

  lemma OntoHoldsAll(a: seq<Message>, b: seq<Message>, n: nat, r: seq<Option<nat>>, group: Group)
    requires |r| == |b| && HoldsAll(b, r, group)
    ensures HoldsAll(a + b, Onto(a, n, r), group)
  {
    forall p: nat | p < |a + b| && GroupOf((a + b)[p]) == Some(group) ensures Onto(a, n, r)[p].Some? {
      assert p >= |a| ==> (a + b)[p] == b[p - |a|];
    }
  }

  // ---- The row a session stores ---------------------------------------------------------------------------

  lemma {:induction false} ShapesConcat(shape: ModelMessage -> seq<Message>, kept: seq<ModelMessage>,
                                        more: seq<ModelMessage>, n: nat)
    requires n <= |more|
    ensures Shapes(shape, kept + more, |kept| + n) == Shapes(shape, kept, |kept|) + Shapes(shape, more, n)
  {
    if n == 0 {
      assert (kept + more)[..|kept|] == kept[..|kept|];
      ShapesOfPrefix(shape, kept + more, kept, |kept|);
    } else {
      ShapesConcat(shape, kept, more, n - 1);
    }
  }

  lemma StoredShapesConcat(shape: ModelMessage -> seq<Message>, kept: seq<ModelMessage>, more: seq<ModelMessage>)
    ensures StoredShapes(shape, kept + more, |kept + more|)
            == StoredShapes(shape, kept, |kept|) + StoredShapes(shape, more, |more|)
  {
    ShapesConcat(shape, kept, more, |more|);
    StrippedPast(Shapes(shape, kept, |kept|), Shapes(shape, more, |more|), |Shapes(shape, more, |more|)|);
  }

  /**
   What is asked of a run: what it adds to the snapshot is stored as messages of the posted turn and the output, at
   `r`, and can be followed to them; every activity it adds is among them.
   */
  ghost predicate AddsWhatItStores(shape: ModelMessage -> seq<Message>, more: seq<ModelMessage>, added: seq<Message>,
                                   r: seq<Option<nat>>) {
    var b := StoredShapes(shape, more, |more|);
    && DumpedFrom(b, added, r) && AllFollowed(b, added, r)
    && forall p: nat :: p < |b| && b[p].Activity? ==> r[p].Some?
  }

  lemma LentKeepsAlike(kept: seq<Message>, dump: seq<Message>, row: seq<Message>, reserved: set<Id>)
    requires SameButIds(dump, kept)
    ensures SameButIds(kept, Lent(dump, row, reserved))
  {
    forall p: nat | p < |kept| ensures SameButId(kept[p], Lent(dump, row, reserved)[p]) {
      LendingIsSound(dump, row, reserved, p);
      assert SameButId(dump[p], kept[p]);
    }
  }

  lemma AppendedRowHolds(a: seq<Message>, x: seq<Message>, b: seq<Message>, y: seq<Message>, r: seq<Option<nat>>)
    requires SameButIds(a, x) && DumpedFrom(b, y, r) && AllFollowed(b, y, r)
    requires forall p: nat :: p < |b| && b[p].Activity? ==> r[p].Some?
    ensures DumpedFrom(a + b, x + y, Onto(a, |x|, r)) && AllFollowed(a + b, x + y, Onto(a, |x|, r))
    ensures forall p: nat :: p < |a + b| && (a + b)[p].Activity? ==>
              AllOrNone(a + b, x + y, Onto(a, |x|, r), GroupOf((a + b)[p]).value)
  {
    OntoIsDumped(a, x, b, y, r);
    forall p: nat | p < |a + b| && GroupOf((a + b)[p]).Some?
      ensures Followed(a + b, x + y, Onto(a, |x|, r), GroupOf((a + b)[p]).value)
    {
      OntoIsFollowed(a, x, b, y, r, GroupOf((a + b)[p]).value);
    }
    forall p: nat | p < |a + b| && (a + b)[p].Activity?
      ensures AllOrNone(a + b, x + y, Onto(a, |x|, r), GroupOf((a + b)[p]).value)
    {
      OntoHoldsAll(a, b, |x|, r, GroupOf((a + b)[p]).value);
    }
  }

  /** What a session stores: what it dumped, ids aside, and then its turn and output. */
  lemma StoredInTwo(session: Session, shape: ModelMessage -> seq<Message>, k: nat, output: seq<Message>)
    returns (x: seq<Message>)
    requires session.history.Some? && session.source != [] && DumpsBy(session, shape, k)
    ensures var c := Continued(session.adapter, session.history.value, session.posted);
            && SameButIds(StoredShapes(shape, c.kept, |c.kept|), x) && |x| == |SessionDump(session, k)|
            && session.PriorAt(k) + output == x + (c.turn + output)
  {
    var c := Continued(session.adapter, session.history.value, session.posted);
    var dumped := session.dump(c.kept, k);
    StoredIgnoresIds(dumped, Shapes(shape, c.kept, |c.kept|), |dumped|);
    LentKeepsAlike(StoredShapes(shape, c.kept, |c.kept|), SessionDump(session, k), session.source, Ids(c.turn));
    x := Lent(SessionDump(session, k), session.source, Ids(c.turn));
    assert x + c.turn + output == x + (c.turn + output);
  }

  /** Whatever row it was resumed from, what a session stores holds the next snapshot, and can be followed to it. */
  lemma TheStoredRowHolds(session: Session, shape: ModelMessage -> seq<Message>, k: nat, output: seq<Message>,
                          more: seq<ModelMessage>, r: seq<Option<nat>>)
    requires session.history.Some? && session.source != [] && DumpsBy(session, shape, k)
    requires var c := Continued(session.adapter, session.history.value, session.posted);
             AddsWhatItStores(shape, more, c.turn + output, r)
    ensures var c := Continued(session.adapter, session.history.value, session.posted);
            RowHolds(session.PriorAt(k) + output, shape, c.kept + more,
                     Onto(StoredShapes(shape, c.kept, |c.kept|), |SessionDump(session, k)|, r))
  {
    var c := Continued(session.adapter, session.history.value, session.posted);
    var x := StoredInTwo(session, shape, k, output);
    StoredShapesConcat(shape, c.kept, more);
    AppendedRowHolds(StoredShapes(shape, c.kept, |c.kept|), x, StoredShapes(shape, more, |more|), c.turn + output, r);
  }

  // ---- A chain of sessions --------------------------------------------------------------------------------

  /** One session of a chain: its dump, its output, and what its run added to the snapshot. */
  datatype Turn = Turn(session: Session, k: nat, output: seq<Message>, more: seq<ModelMessage>, r: seq<Option<nat>>)

  function Kept(t: Turn): Continuation
    requires t.session.history.Some?
  {
    Continued(t.session.adapter, t.session.history.value, t.session.posted)
  }

  /** What is asked of each one: a resumed session, a framework that dumps and adds as it should. */
  ghost predicate WellRun(t: Turn, shape: ModelMessage -> seq<Message>) {
    && t.session.history.Some? && t.session.source != [] && DumpsBy(t.session, shape, t.k)
    && AddsWhatItStores(shape, t.more, Kept(t).turn + t.output, t.r)
  }

  /** The next session reads the row this one stored, and goes on from the snapshot its run left. */
  ghost predicate ResumedBy(t: Turn, next: Turn)
    requires t.session.history.Some?
  {
    && next.session.source == t.session.PriorAt(t.k) + t.output
    && next.session.history == Some(Kept(t).kept + t.more)
  }

  ghost predicate Sessions(ts: seq<Turn>, shape: ModelMessage -> seq<Message>) {
    && (forall i :: 0 <= i < |ts| ==> WellRun(ts[i], shape))
    && (forall i :: 0 <= i < |ts| - 1 ==> ts[i].session.history.Some? && ResumedBy(ts[i], ts[i + 1]))
  }

  /** Where the source row of the i-th session holds its snapshot, when the first one's does at `at`. */
  ghost function RowAt(ts: seq<Turn>, shape: ModelMessage -> seq<Message>, at: seq<Option<nat>>, i: nat)
    : seq<Option<nat>>
    requires Sessions(ts, shape) && i < |ts|
  {
    if i == 0 then at
    else
      var t := ts[i - 1];
      Onto(StoredShapes(shape, Kept(t).kept, |Kept(t).kept|), |SessionDump(t.session, t.k)|, t.r)
  }

  /** Of a chain of sessions, each reading the row the last one stored, only the first row has to be asked about. */
  lemma EverySourceRowHolds(ts: seq<Turn>, shape: ModelMessage -> seq<Message>, at: seq<Option<nat>>, i: nat)
    requires Sessions(ts, shape) && i < |ts|
    requires RowHolds(ts[0].session.source, shape, ts[0].session.history.value, at)
    ensures RowHolds(ts[i].session.source, shape, ts[i].session.history.value, RowAt(ts, shape, at, i))
  {
    if i > 0 {
      var t := ts[i - 1];
      assert WellRun(t, shape) && ResumedBy(t, ts[i - 1 + 1]);
      TheStoredRowHolds(t.session, shape, t.k, t.output, t.more, t.r);
    }
  }

  /** The i-th session's save. */
  ghost function SaveOf(ts: seq<Turn>, shape: ModelMessage -> seq<Message>, at: seq<Option<nat>>, i: nat): Save
    requires Sessions(ts, shape) && i < |ts| && RowHolds(ts[0].session.source, shape, ts[0].session.history.value, at)
  {
    EverySourceRowHolds(ts, shape, at, i);
    SessionSave(ts[i].session, shape, RowAt(ts, shape, at, i), ts[i].k, ts[i].output)
  }

  /** What is asked of the ids of the i-th save. */
  ghost predicate CleanIds(ts: seq<Turn>, shape: ModelMessage -> seq<Message>, at: seq<Option<nat>>, i: nat)
    requires Sessions(ts, shape) && i < |ts| && RowHolds(ts[0].session.source, shape, ts[0].session.history.value, at)
  {
    var row, save := ts[i].session.source, SaveOf(ts, shape, at, i);
    IdsAreNew(row, save) && IdsAreTheirOwn(row, save)
  }

  /** The row the i-th session reads, or the last one stored. */
  function RowBefore(ts: seq<Turn>, i: nat): seq<Message>
    requires i <= |ts| && |ts| > 0
  {
    if i < |ts| then ts[i].session.source else ts[|ts| - 1].session.PriorAt(ts[|ts| - 1].k) + ts[|ts| - 1].output
  }

  /** Each session of a chain saves its source row soundly, and stores what the next one reads. */
  lemma EverySessionSavesSoundly(ts: seq<Turn>, shape: ModelMessage -> seq<Message>, at: seq<Option<nat>>, i: nat)
    requires Sessions(ts, shape) && i < |ts| && RowHolds(ts[0].session.source, shape, ts[0].session.history.value, at)
    requires CleanIds(ts, shape, at, i)
    ensures Sound(RowBefore(ts, i), SaveOf(ts, shape, at, i))
    ensures RowBefore(ts, i + 1) == SavedRow(RowBefore(ts, i), SaveOf(ts, shape, at, i))
  {
    EverySourceRowHolds(ts, shape, at, i);
    assert WellRun(ts[i], shape);
    AStoredRowIsASoundSave(ts[i].session, shape, RowAt(ts, shape, at, i), ts[i].k, ts[i].output);
    if i + 1 < |ts| {
      assert ResumedBy(ts[i], ts[i + 1]);
    }
  }

  /** A message of the first source row that every session's cut keeps: at `path[i]` in the row the i-th one reads. */
  ghost predicate InEverySession(ts: seq<Turn>, shape: ModelMessage -> seq<Message>, at: seq<Option<nat>>,
                                 path: seq<nat>)
    requires Sessions(ts, shape) && |ts| > 0 && RowHolds(ts[0].session.source, shape, ts[0].session.history.value, at)
  {
    && |path| == |ts| + 1 && path[0] < |ts[0].session.source|
    && forall i: nat :: i < |ts| ==> StaysIn(ts, shape, at, i, path[i], path[i + 1])
  }

  ghost predicate StaysIn(ts: seq<Turn>, shape: ModelMessage -> seq<Message>, at: seq<Option<nat>>, i: nat, from: nat,
                          to: nat)
    requires Sessions(ts, shape) && i < |ts| && RowHolds(ts[0].session.source, shape, ts[0].session.history.value, at)
  {
    to < |SaveOf(ts, shape, at, i).at| && SaveOf(ts, shape, at, i).at[to] == Some(from)
  }

  lemma EverySaveKeeps(ts: seq<Turn>, shape: ModelMessage -> seq<Message>, at: seq<Option<nat>>, path: seq<nat>, i: nat)
    requires Sessions(ts, shape) && i < |ts|
    requires RowHolds(ts[0].session.source, shape, ts[0].session.history.value, at)
    requires DistinctIds(ts[0].session.source) && forall i: nat :: i < |ts| ==> CleanIds(ts, shape, at, i)
    requires InEverySession(ts, shape, at, path)
    ensures Saved(RowBefore(ts, i), SaveOf(ts, shape, at, i), RowBefore(ts, i + 1))
    ensures Keeps(RowBefore(ts, i), SaveOf(ts, shape, at, i), path[i], path[i + 1])
  {
    EverySessionSavesSoundly(ts, shape, at, i);
    assert StaysIn(ts, shape, at, i, path[i], path[i + 1]);
    SoundSavesKeep(RowBefore(ts, i), SaveOf(ts, shape, at, i), path[i], path[i + 1]);
  }

  /**
   However many sessions resume one another's rows and snapshots, and wherever the client cuts them: an answer, a tool
   result, a reasoning or an activity of the first row that was never cut is, in the last row, the message it was.
   */
  lemma SessionsKeepIds(ts: seq<Turn>, shape: ModelMessage -> seq<Message>, at: seq<Option<nat>>, path: seq<nat>)
    requires Sessions(ts, shape) && |ts| > 0 && RowHolds(ts[0].session.source, shape, ts[0].session.history.value, at)
    requires DistinctIds(ts[0].session.source) && forall i: nat :: i < |ts| ==> CleanIds(ts, shape, at, i)
    requires InEverySession(ts, shape, at, path)
    ensures path[|ts|] < |RowBefore(ts, |ts|)| && RowBefore(ts, |ts|)[path[|ts|]] == ts[0].session.source[path[0]]
  {
    var rows := seq(|ts| + 1, i requires 0 <= i <= |ts| => RowBefore(ts, i));
    var saves := seq(|ts|, i requires 0 <= i < |ts| => SaveOf(ts, shape, at, i));
    forall i: nat | i < |ts|
      ensures Saved(rows[i], saves[i], rows[i + 1]) && Keeps(rows[i], saves[i], path[i], path[i + 1])
    {
      EverySaveKeeps(ts, shape, at, path, i);
    }
    KeptMessagesKeepTheirIds(rows, saves, path, |ts|);
  }
}
