/**
 Naming a dumped history the way the stored conversation named it.

 A dump gives almost every message a fresh id. `LendStoredIds` walks the dump and the stored row
 once per group of messages and hands each dumped message the id the row holds for it. What is
 proved: the walk finds the earliest embedding whenever there is one, nothing is ever stored under
 two messages' id, and exactly when lending twice is lending once and when a row dumped again comes back under
 its own ids.
 */
module LendStoredIds {
  import opened Messages

  /** What a message is matched within: its kind, or, for an activity, its type. */
  datatype Group = Tools | CallAnswers | TextAnswers | Reasonings | ActivitiesOf(activityType: string)

  datatype Key =
    | CallKey(callId: Id)
    | CallsKey(callIds: seq<Id>)
    | TextKey(text: string)
    | ContentKey(content: map<string, Json>)

  function CallIds(calls: seq<ToolCall>): seq<Id> {
    seq(|calls|, i requires 0 <= i < |calls| => calls[i].id)
  }

  function GroupOf(m: Message): Option<Group> {
    match m
    case Tool(_, _, _, _) => Some(Tools)
    case Assistant(_, _, calls) => if calls != [] then Some(CallAnswers) else Some(TextAnswers)
    case Reasoning(_, _) => Some(Reasonings)
    case Activity(_, activityType, _) => Some(ActivitiesOf(activityType))
    case _ => None
  }

  /** What two messages of one group are compared by. */
  function KeyOf(m: Message): Key
    requires GroupOf(m).Some?
  {
    match m
    case Tool(_, callId, _, _) => CallKey(callId)
    case Assistant(_, answer, calls) =>
      if calls != [] then CallsKey(CallIds(calls)) else TextKey(Flat(OrEmpty(answer)))
    case Reasoning(_, thought) => TextKey(Flat(thought))
    case Activity(_, _, content) => ContentKey(content)
  }

  /** One message of a row, as its group's walk sees it. */
  datatype Entry = Entry(key: Key, id: Id)

  /** A group's messages among the first `n` of a row, in row order. */
  function RowTo(stored: seq<Message>, n: nat, group: Group): seq<Entry>
    requires n <= |stored|
  {
    if n == 0 then []
    else
      RowTo(stored, n - 1, group)
      + if GroupOf(stored[n - 1]) == Some(group) then [Entry(KeyOf(stored[n - 1]), stored[n - 1].id)] else []
  }

  /** A group's messages in a row, in row order. */
  function Row(stored: seq<Message>, group: Group): seq<Entry> {
    RowTo(stored, |stored|, group)
  }

  /** The first place at or after `from` that holds `key`, or the row's length. */
  function Seek(row: seq<Entry>, from: nat, key: Key): (i: nat)
    requires from <= |row|
    ensures from <= i <= |row|
    ensures i < |row| ==> row[i].key == key
    ensures forall j :: from <= j < i ==> row[j].key != key
    decreases |row| - from
  {
    if from == |row| || row[from].key == key then from else Seek(row, from + 1, key)
  }

  /** How far a group's walk has consumed `row` once it has seen the first `n` messages. */
  function Cursor(messages: seq<Message>, n: nat, row: seq<Entry>, group: Group): (c: nat)
    requires n <= |messages|
    ensures c <= |row|
  {
    if n == 0 then 0
    else
      var c := Cursor(messages, n - 1, row, group);
      if GroupOf(messages[n - 1]) == Some(group) then Past(row, c, KeyOf(messages[n - 1])) else c
  }

  /** A cursor moves past what it finds, and stays where it is when it finds nothing. */
  function Past(row: seq<Entry>, c: nat, key: Key): (c': nat)
    requires c <= |row|
    ensures c <= c' <= |row|
  {
    var i := Seek(row, c, key);
    if i < |row| then i + 1 else c
  }

  /** Where in its group's row the walk stops for `messages[p]`: the row's length when nothing left matches. */
  function Stop(messages: seq<Message>, row: seq<Entry>, p: nat): (i: nat)
    requires p < |messages| && GroupOf(messages[p]).Some?
    ensures i <= |row|
  {
    Seek(row, Cursor(messages, p, row, GroupOf(messages[p]).value), KeyOf(messages[p]))
  }

  /** How many messages of a group stand before `messages[p]`. */
  function Rank(messages: seq<Message>, p: nat, group: Group): nat
    requires p < |messages|
  {
    |RowTo(messages, p, group)|
  }

  /** Whether `row` begins with the wanted keys. */
  predicate KeysPrefix(wanted: seq<Entry>, row: seq<Entry>) {
    && |wanted| <= |row|
    && forall k :: 0 <= k < |wanted| ==> row[k].key == wanted[k].key
  }

  /**
   The row's id for the dumped activity at `p`: the row must begin with all the contents its type
   dumps, and then the activity takes the id at its own place.
   */
  function PairedActivity(messages: seq<Message>, stored: seq<Message>, p: nat): Option<Id>
    requires p < |messages| && messages[p].Activity?
  {
    var group := ActivitiesOf(messages[p].activityType);
    var row := Row(stored, group);
    var rank := Rank(messages, p, group);
    if KeysPrefix(Row(messages, group), row) && rank < |row| then Some(row[rank].id) else None
  }

  /** The id the row offers `messages[p]`, before any question of whether it may be lent. */
  function Candidate(messages: seq<Message>, stored: seq<Message>, p: nat): Option<Id>
    requires p < |messages|
  {
    if messages[p].Activity? then PairedActivity(messages, stored, p)
    else if GroupOf(messages[p]).None? then None
    else
      var row := Row(stored, GroupOf(messages[p]).value);
      var i := Stop(messages, row, p);
      if i < |row| then Some(row[i].id) else None
  }

  /** What the row offers each message. */
  function Offers(messages: seq<Message>, stored: seq<Message>): (offers: seq<Option<Id>>)
    ensures |offers| == |messages|
  {
    seq(|messages|, p requires 0 <= p < |messages| => Candidate(messages, stored, p))
  }

  /** What has been stored, and every id that may not be lent any more. */
  datatype Lending = Lending(out: seq<Message>, taken: set<Id>)

  /** Take an offer, except of an id that is taken already or that some message carries. */
  function TakeOne(prior: Lending, m: Message, lent: Option<Id>, carried: set<Id>): Lending {
    if lent.None? || lent.value in prior.taken || lent.value in carried
    then Lending(prior.out + [m], prior.taken)
    else Lending(prior.out + [WithId(m, lent.value)], prior.taken + {lent.value})
  }

  /** The first `n` messages, stored in order. */
  function Take(messages: seq<Message>, offers: seq<Option<Id>>, carried: set<Id>, reserved: set<Id>, n: nat)
    : (lending: Lending)
    requires n <= |messages| == |offers|
    ensures |lending.out| == n
  {
    if n == 0 then Lending([], reserved)
    else TakeOne(Take(messages, offers, carried, reserved, n - 1), messages[n - 1], offers[n - 1], carried)
  }

  /** `messages`, each under the id `stored` holds for the same message, where it holds one. */
  function Lent(messages: seq<Message>, stored: seq<Message>, reserved: set<Id>): (out: seq<Message>)
    ensures |out| == |messages|
  {
    Take(messages, Offers(messages, stored), Ids(messages), reserved, |messages|).out
  }

  // ---- The loops that compute it ------------------------------------------------------------

  /** What a dictionary of rows holds under `group`: nothing until something is put there. */
  function RowIn<T>(rows: map<Group, seq<T>>, group: Group): seq<T> {
    if group in rows then rows[group] else []
  }

  function CursorIn(cursors: map<Group, nat>, group: Group): nat {
    if group in cursors then cursors[group] else 0
  }

  lemma {:induction false} RowPrefix(messages: seq<Message>, n: nat, m: nat, group: Group)
    requires n <= m <= |messages|
    ensures RowTo(messages, n, group) <= RowTo(messages, m, group)
  {
    if n < m {
      RowPrefix(messages, n, m - 1, group);
    }
  }

  /** A message stands in its group's row at its rank. */
  lemma RowAtRank(messages: seq<Message>, p: nat, group: Group)
    requires p < |messages| && GroupOf(messages[p]) == Some(group)
    ensures Rank(messages, p, group) < |Row(messages, group)|
    ensures Row(messages, group)[Rank(messages, p, group)] == Entry(KeyOf(messages[p]), messages[p].id)
  {
    RowPrefix(messages, p + 1, |messages|, group);
  }

  /** Each group's messages, keys and ids. */
  method GroupRows(stored: seq<Message>) returns (rows: map<Group, seq<Entry>>)
    ensures forall g :: RowIn(rows, g) == Row(stored, g)
  {
    rows := map[];
    for index: nat := 0 to |stored|
      invariant forall g :: RowIn(rows, g) == RowTo(stored, index, g)
    {
      if GroupOf(stored[index]).Some? {
        var g := GroupOf(stored[index]).value;
        rows := rows[g := RowIn(rows, g) + [Entry(KeyOf(stored[index]), stored[index].id)]];
      }
    }
  }

  /** The id of the next row message with `key`, consuming the row up to it. */
  method NextMatch(row: seq<Entry>, cursor: nat, key: Key) returns (found: Option<Id>, cursor': nat)
    requires cursor <= |row|
    ensures cursor' == Past(row, cursor, key)
    ensures var i := Seek(row, cursor, key);
            found == if i < |row| then Some(row[i].id) else None
  {
    for index := cursor to |row|
      invariant Seek(row, cursor, key) == Seek(row, index, key)
    {
      if row[index].key == key {
        return Some(row[index].id), index + 1;
      }
    }
    return None, cursor;
  }

  /** The positions of one group's messages among the first `n`, in order. */
  function Positions(messages: seq<Message>, n: nat, group: Group): seq<nat>
    requires n <= |messages|
  {
    if n == 0 then []
    else Positions(messages, n - 1, group) + if GroupOf(messages[n - 1]) == Some(group) then [n - 1] else []
  }

  lemma {:induction false} PositionsAndRanks(messages: seq<Message>, n: nat, group: Group)
    requires n <= |messages|
    ensures |Positions(messages, n, group)| == |RowTo(messages, n, group)|
    ensures forall k :: 0 <= k < |Positions(messages, n, group)| ==>
              var p := Positions(messages, n, group)[k];
              p < n && GroupOf(messages[p]) == Some(group) && Rank(messages, p, group) == k
  {
    if n > 0 {
      PositionsAndRanks(messages, n - 1, group);
    }
  }

  lemma {:induction false} PositionAtRank(messages: seq<Message>, n: nat, p: nat, group: Group)
    requires p < n <= |messages| && GroupOf(messages[p]) == Some(group)
    ensures Rank(messages, p, group) < |Positions(messages, n, group)|
    ensures Positions(messages, n, group)[Rank(messages, p, group)] == p
  {
    if p < n - 1 {
      PositionAtRank(messages, n - 1, p, group);
    } else {
      PositionsAndRanks(messages, n - 1, group);
    }
  }

  method PositionsOf(messages: seq<Message>, group: Group) returns (at: seq<nat>)
    ensures at == Positions(messages, |messages|, group)
  {
    at := [];
    for position: nat := 0 to |messages|
      invariant at == Positions(messages, position, group)
    {
      if GroupOf(messages[position]) == Some(group) {
        at := at + [position];
      }
    }
  }

  /** Whether `paired` holds what the pairing comes to for every activity whose type is not still to do. */
  ghost predicate Paired(paired: map<nat, Id>, messages: seq<Message>, stored: seq<Message>, todo: set<Group>) {
    forall p: nat :: p < |messages| && messages[p].Activity? ==>
                       PairedOrToDo(paired, messages, stored, todo, p)
  }

  ghost predicate PairedOrToDo(paired: map<nat, Id>, messages: seq<Message>, stored: seq<Message>, todo: set<Group>,
                               p: nat)
    requires p < |messages| && messages[p].Activity?
  {
    if ActivitiesOf(messages[p].activityType) in todo then p !in paired
    else PairedActivity(messages, stored, p) == if p in paired then Some(paired[p]) else None
  }

  /** The row's id for each dumped activity, by its index in `messages`. */
  method PairActivities(messages: seq<Message>, stored: seq<Message>) returns (paired: map<nat, Id>)
    ensures Paired(paired, messages, stored, {})
  {
    var dumped := GroupRows(messages);
    var held := GroupRows(stored);
    paired := map[];
    var todo := dumped.Keys;
    forall p: nat | p < |messages| && messages[p].Activity?
      ensures ActivitiesOf(messages[p].activityType) in todo
    {
      RowAtRank(messages, p, ActivitiesOf(messages[p].activityType));
      assert RowIn(dumped, ActivitiesOf(messages[p].activityType)) != [];
    }
    while todo != {}
      invariant Paired(paired, messages, stored, todo)
      decreases todo
    {
      var g :| g in todo;
      if g.ActivitiesOf? {
        paired := PairGroup(messages, stored, g, RowIn(dumped, g), RowIn(held, g), todo, paired);
      }
      todo := todo - {g};
    }
  }

  /** Pair one type's dumped activities with the row's first ones, all of them or none. */
  method PairGroup(messages: seq<Message>, stored: seq<Message>, g: Group, wanted: seq<Entry>, row: seq<Entry>,
                   ghost todo: set<Group>, paired: map<nat, Id>)
    returns (paired': map<nat, Id>)
    requires g.ActivitiesOf? && g in todo && Paired(paired, messages, stored, todo)
    requires wanted == Row(messages, g) && row == Row(stored, g)
    ensures Paired(paired', messages, stored, todo - {g})
  {
    paired' := paired;
    ghost var at := Positions(messages, |messages|, g);
    if KeysPrefix(wanted, row) {
      var positions := PositionsOf(messages, g);
      PositionsAndRanks(messages, |messages|, g);
      paired' := WithPairs(positions, row[..|positions|], paired);
    }
    forall p: nat | p < |messages| && messages[p].Activity?
      ensures PairedOrToDo(paired', messages, stored, todo - {g}, p)
    {
      assert PairedOrToDo(paired, messages, stored, todo, p);
      PairedAt(messages, stored, g, p);
    }
  }

  /** An activity of `g` is found at its rank, and one of another type nowhere among `g`'s. */
  lemma PairedAt(messages: seq<Message>, stored: seq<Message>, g: Group, p: nat)
    requires p < |messages| && messages[p].Activity?
    ensures var at := Positions(messages, |messages|, g);
            if GroupOf(messages[p]) == Some(g)
            then Rank(messages, p, g) < |at| && at[Rank(messages, p, g)] == p
            else p !in at
  {
    if GroupOf(messages[p]) == Some(g) {
      PositionAtRank(messages, |messages|, p, g);
    } else {
      PositionsAndRanks(messages, |messages|, g);
    }
  }

  method WithPairs(at: seq<nat>, row: seq<Entry>, paired: map<nat, Id>) returns (paired': map<nat, Id>)
    requires |row| == |at|
    requires forall j, k :: 0 <= j < k < |at| ==> at[j] != at[k]
    ensures forall k :: 0 <= k < |at| ==> at[k] in paired' && paired'[at[k]] == row[k].id
    ensures forall p: nat :: p !in at ==> (p in paired' <==> p in paired) && (p in paired ==> paired'[p] == paired[p])
  {
    paired' := paired;
    for k := 0 to |at|
      invariant forall j :: 0 <= j < k ==> at[j] in paired' && paired'[at[j]] == row[j].id
      invariant forall p: nat :: p !in at ==>
                (p in paired' <==> p in paired) && (p in paired ==> paired'[p] == paired[p])
    {
      paired' := paired'[at[k] := row[k].id];
    }
  }

  /** Whether every kind's cursor is where its walk stands after the first `n` messages. */
  ghost predicate CursorsAt(cursors: map<Group, nat>, messages: seq<Message>, stored: seq<Message>, n: nat)
    requires n <= |messages|
  {
    forall g: Group :: !g.ActivitiesOf? ==> CursorIn(cursors, g) == Cursor(messages, n, Row(stored, g), g)
  }

  /** What the row offers the next message; its kind's cursor moves whether or not the offer is taken. */
  method Offer(messages: seq<Message>, ghost stored: seq<Message>, rows: map<Group, seq<Entry>>,
               activities: map<nat, Id>, cursors: map<Group, nat>, position: nat)
    returns (lent: Option<Id>, cursors': map<Group, nat>)
    requires position < |messages|
    requires forall g :: RowIn(rows, g) == Row(stored, g)
    requires Paired(activities, messages, stored, {}) && CursorsAt(cursors, messages, stored, position)
    ensures lent == Offers(messages, stored)[position]
    ensures CursorsAt(cursors', messages, stored, position + 1)
  {
    var m := messages[position];
    lent, cursors' := None, cursors;
    if m.Activity? {
      lent := if position in activities then Some(activities[position]) else None;
    } else if GroupOf(m).Some? {
      var g := GroupOf(m).value;
      assert CursorIn(cursors, g) == Cursor(messages, position, Row(stored, g), g);
      var cursor;
      lent, cursor := NextMatch(RowIn(rows, g), CursorIn(cursors, g), KeyOf(m));
      cursors' := cursors[g := cursor];
    }
  }

  /** Rows by group, one walk, and the three reasons an id is not lent. */
  method LendStoredIds(messages: seq<Message>, stored: seq<Message>, reserved: set<Id>) returns (out: seq<Message>)
    ensures out == Lent(messages, stored, reserved)
  {
    var rows := GroupRows(stored);
    var cursors: map<Group, nat> := map[];
    var activities := PairActivities(messages, stored);
    var taken, carried := reserved, Ids(messages);
    out := [];
    ghost var offers := Offers(messages, stored);
    for position: nat := 0 to |messages|
      invariant CursorsAt(cursors, messages, stored, position)
      invariant Take(messages, offers, carried, reserved, position) == Lending(out, taken)
    {
      var lent;
      lent, cursors := Offer(messages, stored, rows, activities, cursors, position);
      if lent.None? || lent.value in taken || lent.value in carried {
        out := out + [messages[position]];
      } else {
        taken := taken + {lent.value};
        out := out + [WithId(messages[position], lent.value)];
      }
    }
  }
}
