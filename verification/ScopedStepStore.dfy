/**
 Scoped views of one step ledger. A view prefixes every run id it hands down and takes the prefix off every
 one it hands back; two views are as good as two ledgers exactly when neither prefix begins the other.
 */
module ScopedStepStore {
  import opened Messages

  type Key = string

  /** A record of the ledger; `info` is whatever else it carries. */
  datatype Row =
    | RunRow(runId: Key, parentRunId: Option<Key>, conversationId: Option<string>, info: Json)
    | EventRow(runId: Key, info: Json)
    | SnapshotRow(runId: Key, interrupted: bool, info: Json)
    | EffectRow(runId: Key, toolCallId: string, resolved: bool, info: Json)

  datatype Query =
    | GetRun(runId: Key)
    | ListRuns(parentRunId: Option<Key>, conversationId: Option<string>)
    | ListEvents(runId: Key)
    | LatestSnapshot(runId: Key, includeInterrupted: bool)
    | GetToolEffect(runId: Key, toolCallId: string)
    | ListUnresolved(runId: Key)

  predicate Matches(q: Query, row: Row) {
    match q
    case GetRun(id) => row.RunRow? && row.runId == id
    case ListRuns(parent, conversation) =>
      row.RunRow? && (parent.None? || row.parentRunId == parent)
          && (conversation.None? || row.conversationId == conversation)
    case ListEvents(id) => row.EventRow? && row.runId == id
    case LatestSnapshot(id, includeInterrupted) =>
      row.SnapshotRow? && row.runId == id && (includeInterrupted || !row.interrupted)
    case GetToolEffect(id, call) => row.EffectRow? && row.runId == id && row.toolCallId == call
    case ListUnresolved(id) => row.EffectRow? && row.runId == id && !row.resolved
  }

  /** The rows that match, oldest first. */
  function Selected(rows: seq<Row>, n: nat, q: Query): seq<Row>
    requires n <= |rows|
  {
    if n == 0 then []
    else if Matches(q, rows[n - 1]) then Selected(rows, n - 1, q) + [rows[n - 1]]
    else Selected(rows, n - 1, q)
  }

  /** A lookup of one row answers with the oldest or the newest match, a list with all. */
  function Picked(q: Query, found: seq<Row>): seq<Row> {
    if found == [] then []
    else match q
         case GetRun(_) => [found[0]]
         case GetToolEffect(_, _) => [found[0]]
         case LatestSnapshot(_, _) => [found[|found| - 1]]
         case _ => found
  }

  function Ask(rows: seq<Row>, q: Query): seq<Row> {
    Picked(q, Selected(rows, |rows|, q))
  }

  /**
   What the ledger answers, of the rows themselves: `places` are those of the rows asked for; a run or a tool effect is
   the first of them, a snapshot the last, and a list all of them, oldest first.
   */
  lemma AskSpelledOut(rows: seq<Row>, q: Query) returns (places: seq<nat>)
    ensures forall k :: 0 <= k < |places| ==> places[k] < |rows|
    ensures forall k :: 0 <= k < |places| - 1 ==> places[k] < places[k + 1]
    ensures forall i: nat :: i < |rows| ==>
              (i in places
               <==> match q
                    case GetRun(id) => rows[i].RunRow? && rows[i].runId == id
                    case ListRuns(parent, conversation) =>
                      && rows[i].RunRow? && (parent != None ==> rows[i].parentRunId == parent)
                      && (conversation != None ==> rows[i].conversationId == conversation)
                    case ListEvents(id) => rows[i].EventRow? && rows[i].runId == id
                    case LatestSnapshot(id, includeInterrupted) =>
                      rows[i].SnapshotRow? && rows[i].runId == id && (rows[i].interrupted ==> includeInterrupted)
                    case GetToolEffect(id, call) =>
                      rows[i].EffectRow? && rows[i].runId == id && rows[i].toolCallId == call
                    case ListUnresolved(id) => rows[i].EffectRow? && rows[i].runId == id && !rows[i].resolved)
    ensures var answer := Ask(rows, q);
            if places == [] then answer == []
            else match q
                 case GetRun(_) => answer == [rows[places[0]]]
                 case GetToolEffect(_, _) => answer == [rows[places[0]]]
                 case LatestSnapshot(_, _) => answer == [rows[places[|places| - 1]]]
                 case _ => |answer| == |places| && forall k :: 0 <= k < |places| ==> answer[k] == rows[places[k]]
  {
    places := SelectedAt(rows, |rows|, q);
  }

  lemma {:induction false} SelectedAt(rows: seq<Row>, n: nat, q: Query) returns (places: seq<nat>)
    requires n <= |rows|
    ensures |places| == |Selected(rows, n, q)|
    ensures forall k :: 0 <= k < |places| ==> places[k] < n && Selected(rows, n, q)[k] == rows[places[k]]
    ensures forall k :: 0 <= k < |places| - 1 ==> places[k] < places[k + 1]
    ensures forall i: nat :: i < n ==> (i in places <==> Matches(q, rows[i]))
  {
    if n == 0 {
      places := [];
    } else {
      places := SelectedAt(rows, n - 1, q);
      assert n - 1 !in places;
      if Matches(q, rows[n - 1]) {
        places := places + [n - 1];
      }
    }
  }

  // ---- Keys ----------------------------------------------------------------------------------------------

  function Prefix(scope: string): string {
    scope + ":"
  }

  function KeyOf(scope: string, id: Key): Key {
    Prefix(scope) + id
  }

  predicate Mine(scope: string, key: Key) {
    Prefix(scope) <= key
  }

  /** A key without the prefix is handed back as it is. */
  function Unkey(scope: string, key: Key): Key {
    if Mine(scope, key) then key[|Prefix(scope)|..] else key
  }

  lemma KeysRoundTrip(scope: string, id: Key)
    ensures Mine(scope, KeyOf(scope, id)) && Unkey(scope, KeyOf(scope, id)) == id
    ensures Mine(scope, id) ==> KeyOf(scope, Unkey(scope, id)) == id
    ensures KeyOf(scope, id) == scope + ":" + id
    ensures !(scope + ":" <= id) ==> Unkey(scope, id) == id
  {
    if Mine(scope, id) {
      assert Prefix(scope) == id[..|Prefix(scope)|];
    }
  }

  function WithRunId(row: Row, id: Key): Row {
    match row
    case RunRow(_, parent, conversation, info) => RunRow(id, parent, conversation, info)
    case EventRow(_, info) => EventRow(id, info)
    case SnapshotRow(_, interrupted, info) => SnapshotRow(id, interrupted, info)
    case EffectRow(_, call, resolved, info) => EffectRow(id, call, resolved, info)
  }

  function ScopedIn(scope: string, row: Row): Row {
    WithRunId(row, KeyOf(scope, row.runId))
  }

  function ScopedOut(scope: string, row: Row): Row {
    WithRunId(row, Unkey(scope, row.runId))
  }

  /** A run id in a question is translated; a parent's is not. */
  function QueryIn(scope: string, q: Query): Query {
    match q
    case GetRun(id) => GetRun(KeyOf(scope, id))
    case ListRuns(parent, conversation) => q
    case ListEvents(id) => ListEvents(KeyOf(scope, id))
    case LatestSnapshot(id, includeInterrupted) => LatestSnapshot(KeyOf(scope, id), includeInterrupted)
    case GetToolEffect(id, call) => GetToolEffect(KeyOf(scope, id), call)
    case ListUnresolved(id) => ListUnresolved(KeyOf(scope, id))
  }

  /** Each row with its key translated back. */
  function Outs(scope: string, rows: seq<Row>, n: nat): seq<Row>
    requires n <= |rows|
  {
    if n == 0 then [] else Outs(scope, rows, n - 1) + [ScopedOut(scope, rows[n - 1])]
  }

  /** The rows of a scope, translated back. */
  function View(scope: string, rows: seq<Row>, n: nat): seq<Row>
    requires n <= |rows|
  {
    if n == 0 then []
    else View(scope, rows, n - 1) + if Mine(scope, rows[n - 1].runId) then [ScopedOut(scope, rows[n - 1])] else []
  }

  /** What a view answers: a list of runs is filtered, since the ledger answers for every scope. */
  function ScopedAsk(scope: string, rows: seq<Row>, q: Query): seq<Row> {
    var answer := Ask(rows, QueryIn(scope, q));
    if q.ListRuns? then View(scope, answer, |answer|) else Outs(scope, answer, |answer|)
  }

  // ---- The ledger and its views --------------------------------------------------------------------------------

  class StepStore {
    var rows: seq<Row>

    constructor ()
      ensures rows == []
    {
      rows := [];
    }

    method Append(row: Row)
      modifies this
      ensures rows == old(rows) + [row]
    {
      rows := rows + [row];
    }

    method Answer(q: Query) returns (found: seq<Row>)
      ensures found == Ask(rows, q)
    {
      found := [];
      for n := 0 to |rows|
        invariant found == Selected(rows, n, q)
      {
        if Matches(q, rows[n]) {
          found := found + [rows[n]];
        }
      }
      found := Picked(q, found);
    }
  }

  class ScopedStore {
    const inner: StepStore
    const scope: string

    constructor (inner: StepStore, scope: string)
      ensures this.inner == inner && this.scope == scope
    {
      this.inner, this.scope := inner, scope;
    }

    /** `register_run`, `append_event`, `save_snapshot` and `record_tool_effect`. */
    method Append(row: Row)
      modifies inner
      ensures inner.rows == old(inner.rows) + [ScopedIn(scope, row)]
    {
      inner.Append(ScopedIn(scope, row));
    }

    method Answer(q: Query) returns (answer: seq<Row>)
      ensures answer == ScopedAsk(scope, inner.rows, q)
    {
      var records := inner.Answer(QueryIn(scope, q));
      answer := [];
      for n := 0 to |records|
        invariant answer == if q.ListRuns? then View(scope, records, n) else Outs(scope, records, n)
      {
        if !q.ListRuns? || Mine(scope, records[n].runId) {
          answer := answer + [ScopedOut(scope, records[n])];
        }
      }
    }
  }

  // ---- One view is one store --------------------------------------------------------------------------------------

  lemma MatchesAlike(scope: string, q: Query, row: Row)
    ensures Mine(scope, row.runId) ==> (Matches(QueryIn(scope, q), row) <==> Matches(q, ScopedOut(scope, row)))
    ensures !q.ListRuns? && Matches(QueryIn(scope, q), row) ==> Mine(scope, row.runId)
  {
    KeysRoundTrip(scope, row.runId);
    if !q.ListRuns? {
      KeysRoundTrip(scope, q.runId);
    }
  }

  lemma SelectedSnoc(rows: seq<Row>, row: Row, q: Query)
    ensures Selected(rows + [row], |rows| + 1, q) == Selected(rows, |rows|, q) + if Matches(q, row) then [row] else []
  {
    SelectedPrefix(rows, row, |rows|, q);
  }

  lemma {:induction false} SelectedPrefix(rows: seq<Row>, row: Row, n: nat, q: Query)
    requires n <= |rows|
    ensures Selected(rows + [row], n, q) == Selected(rows, n, q)
  {
    if n > 0 {
      SelectedPrefix(rows, row, n - 1, q);
    }
  }

  lemma ViewSnoc(scope: string, rows: seq<Row>, row: Row)
    ensures View(scope, rows + [row], |rows| + 1) == View(scope, rows, |rows|) + if Mine(scope, row.runId)
            then [ScopedOut(scope, row)] else []
  {
    ViewPrefix(scope, rows, row, |rows|);
  }

  lemma {:induction false} ViewPrefix(scope: string, rows: seq<Row>, row: Row, n: nat)
    requires n <= |rows|
    ensures View(scope, rows + [row], n) == View(scope, rows, n)
  {
    if n > 0 {
      ViewPrefix(scope, rows, row, n - 1);
    }
  }

  /** Asking for the rows first and translating after is translating first and asking after. */
  lemma {:induction false} SelectedInView(scope: string, rows: seq<Row>, n: nat, q: Query)
    requires n <= |rows|
    ensures var found := Selected(rows, n, QueryIn(scope, q));
            var view := View(scope, rows, n);
            Selected(view, |view|, q) == View(scope, found, |found|)
  {
    if n > 0 {
      SelectedInView(scope, rows, n - 1, q);
      var row := rows[n - 1];
      var found, view := Selected(rows, n - 1, QueryIn(scope, q)), View(scope, rows, n - 1);
      MatchesAlike(scope, q, row);
      ViewSnoc(scope, found, row);
      SelectedSnoc(view, ScopedOut(scope, row), q);
      NothingMore(found);
      NothingMore(view);
      NothingMore(Selected(view, |view|, q));
    }
  }

  lemma NothingMore(rows: seq<Row>)
    ensures rows + [] == rows
  {
  }

  lemma {:induction false} AllMine(scope: string, rows: seq<Row>, n: nat)
    requires n <= |rows| && forall k :: 0 <= k < n ==> Mine(scope, rows[k].runId)
    ensures View(scope, rows, n) == Outs(scope, rows, n)
  {
    if n > 0 {
      AllMine(scope, rows, n - 1);
    }
  }

  lemma {:induction false} FoundAreMine(scope: string, rows: seq<Row>, n: nat, q: Query)
    requires n <= |rows| && !q.ListRuns?
    ensures forall k :: 0 <= k < |Selected(rows, n, QueryIn(scope, q))| ==>
            Mine(scope, Selected(rows, n, QueryIn(scope, q))[k].runId)
  {
    if n > 0 {
      FoundAreMine(scope, rows, n - 1, q);
      MatchesAlike(scope, q, rows[n - 1]);
    }
  }

  lemma {:induction false} OutsAt(scope: string, rows: seq<Row>, n: nat)
    requires n <= |rows|
    ensures |Outs(scope, rows, n)| == n
    ensures forall k :: 0 <= k < n ==> Outs(scope, rows, n)[k] == ScopedOut(scope, rows[k])
  {
    if n > 0 {
      OutsAt(scope, rows, n - 1);
    }
  }

  lemma PickedOut(scope: string, q: Query, found: seq<Row>)
    requires !q.ListRuns?
    ensures var picked := Picked(QueryIn(scope, q), found);
            Outs(scope, picked, |picked|) == Picked(q, Outs(scope, found, |found|))
  {
    var picked := Picked(QueryIn(scope, q), found);
    OutsAt(scope, found, |found|);
    OutsAt(scope, picked, |picked|);
  }

  /** A view of a shared ledger answers as a ledger holding only its own rows would. */
  lemma ViewAnswersForItself(scope: string, rows: seq<Row>, q: Query)
    ensures ScopedAsk(scope, rows, q) == Ask(View(scope, rows, |rows|), q)
  {
    SelectedInView(scope, rows, |rows|, q);
    if !q.ListRuns? {
      var found := Selected(rows, |rows|, QueryIn(scope, q));
      FoundAreMine(scope, rows, |rows|, q);
      AllMine(scope, found, |found|);
      PickedOut(scope, q, found);
    }
  }

  /** What a view writes is what it has, and is not what a separate view has. */
  lemma AppendedIsItsOwn(scope: string, other: string, rows: seq<Row>, row: Row)
    ensures var rows' := rows + [ScopedIn(scope, row)];
            && View(scope, rows', |rows'|) == View(scope, rows, |rows|) + [row]
            && (Separate(scope, other) ==> View(other, rows', |rows'|) == View(other, rows, |rows|))
  {
    KeysRoundTrip(scope, row.runId);
    ViewSnoc(scope, rows, ScopedIn(scope, row));
    ViewSnoc(other, rows, ScopedIn(scope, row));
    if Separate(scope, other) {
      InBothScopes(scope, other, KeyOf(scope, row.runId));
      NothingMore(View(other, rows, |rows|));
    }
  }

  // ---- Two views --------------------------------------------------------------------------------------------------

  /** Neither prefix begins the other. */
  predicate Separate(a: string, b: string) {
    !(Prefix(a) <= Prefix(b)) && !(Prefix(b) <= Prefix(a))
  }

  /** That is: the names differ, and neither begins with the other and a colon. */
  lemma SeparateNames(a: string, b: string)
    ensures Separate(a, b) <==> a != b && !(a + ":" <= b) && !(b + ":" <= a)
  {
    PrefixOfPrefix(a, b);
    PrefixOfPrefix(b, a);
  }

  lemma PrefixOfPrefix(a: string, b: string)
    ensures Prefix(a) <= Prefix(b) <==> a == b || a + ":" <= b
  {
    if Prefix(a) <= Prefix(b) {
      if |a| == |b| {
        assert a == Prefix(a)[..|a|] && b == Prefix(b)[..|b|];
      } else {
        assert Prefix(b)[..|a| + 1] == b[..|a| + 1];
      }
    }
  }

  /** A key can be in two scopes only if one prefix begins the other. */
  lemma InBothScopes(a: string, b: string, key: Key)
    ensures Mine(a, key) && Mine(b, key) ==> !Separate(a, b)
  {
    if Mine(a, key) && Mine(b, key) {
      assert key[..|Prefix(a)|] == Prefix(a) && key[..|Prefix(b)|] == Prefix(b);
      if |Prefix(a)| <= |Prefix(b)| {
        assert Prefix(a) == Prefix(b)[..|Prefix(a)|];
      } else {
        assert Prefix(b) == Prefix(a)[..|Prefix(b)|];
      }
    }
  }

  /** What one of two clients does next: write a row or ask something. */
  datatype Op = Write(first: bool, row: Row) | Read(first: bool, query: Query)

  function Scope(a: string, b: string, first: bool): string {
    if first then a else b
  }

  /** The shared ledger after some of a script, through the two views. */
  function Shared(a: string, b: string, script: seq<Op>, n: nat): seq<Row>
    requires n <= |script|
  {
    if n == 0 then []
    else match script[n - 1]
         case Write(first, row) => Shared(a, b, script, n - 1) + [ScopedIn(Scope(a, b, first), row)]
         case Read(_, _) => Shared(a, b, script, n - 1)
  }

  /** One client's own ledger after the same. */
  function Own(script: seq<Op>, first: bool, n: nat): seq<Row>
    requires n <= |script|
  {
    if n == 0 then []
    else match script[n - 1]
         case Write(who, row) => if who == first then Own(script, first, n - 1) + [row] else Own(script, first, n - 1)
         case Read(_, _) => Own(script, first, n - 1)
  }

  /** Every question of a script is answered as it would be with a ledger each. */
  ghost predicate Indistinguishable(a: string, b: string, script: seq<Op>) {
    forall n :: 0 <= n < |script| && script[n].Read? ==>
      ScopedAsk(Scope(a, b, script[n].first), Shared(a, b, script, n), script[n].query)
          == Ask(Own(script, script[n].first, n), script[n].query)
  }

  lemma {:induction false} SharedIsBoth(a: string, b: string, script: seq<Op>, n: nat)
    requires Separate(a, b) && n <= |script|
    ensures var shared := Shared(a, b, script, n);
            View(a, shared, |shared|) == Own(script, true, n) && View(b, shared, |shared|) == Own(script, false, n)
  {
    if n > 0 {
      SharedIsBoth(a, b, script, n - 1);
      if script[n - 1].Write? {
        var scope, other := Scope(a, b, script[n - 1].first), Scope(a, b, !script[n - 1].first);
        AppendedIsItsOwn(scope, other, Shared(a, b, script, n - 1), script[n - 1].row);
      }
    }
  }

  /** Where one prefix begins the other, what one client files under a run id the other finds under another. */
  lemma NestedScopesLeak(a: string, b: string, writer: bool) returns (script: seq<Op>)
    requires Prefix(Scope(a, b, !writer)) <= Prefix(Scope(a, b, writer))
    ensures !Indistinguishable(a, b, script)
  {
    var outer, inner := Scope(a, b, !writer), Scope(a, b, writer);
    var rest := Prefix(inner)[|Prefix(outer)|..];
    var row := RunRow("r", None, None, Null);
    var q := GetRun(rest + "r");
    script := [Write(writer, row), Read(!writer, q)];
    var stored := ScopedIn(inner, row);
    assert Prefix(outer) + rest == Prefix(inner);
    assert stored.runId == KeyOf(outer, rest + "r");
    assert Shared(a, b, script, 0) == [] && Own(script, !writer, 0) == [];
    assert Shared(a, b, script, 1) == [] + [stored];
    assert Own(script, !writer, 1) == [];
    SelectedSnoc([], stored, QueryIn(outer, q));
    assert [] + [stored] == [stored];
    assert ScopedAsk(outer, [stored], q) != [] by {
      assert Ask([stored], QueryIn(outer, q)) == [stored];
      OutsAt(outer, [stored], 1);
    }
  }

  /**
   Two views over one ledger are two ledgers: for every script of writes and questions, in any order, each
   question is answered as it would be with a ledger each. It is so exactly when neither prefix begins the
   other, which a scope name with a colon in it can break.
   */
  lemma TwoViewsAreTwoStores(a: string, b: string)
    ensures (forall script: seq<Op> :: Indistinguishable(a, b, script)) <==> Separate(a, b)
  {
    if Separate(a, b) {
      forall script: seq<Op> ensures Indistinguishable(a, b, script) {
        forall n | 0 <= n < |script| && script[n].Read?
          ensures ScopedAsk(Scope(a, b, script[n].first), Shared(a, b, script, n), script[n].query)
                  == Ask(Own(script, script[n].first, n), script[n].query)
        {
          SharedIsBoth(a, b, script, n);
          ViewAnswersForItself(Scope(a, b, script[n].first), Shared(a, b, script, n), script[n].query);
        }
      }
    } else {
      var script := NestedScopesLeak(a, b, !(Prefix(a) <= Prefix(b)));
    }
  }
}
