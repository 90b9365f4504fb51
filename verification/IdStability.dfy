/**
 Ids over any number of saves. Each resume or fork dumps a snapshot under fresh ids, takes the ids its
 source row holds, and stores the result with the client's new turn and the run's own messages; the
 row it stores is what the next one reads.
 */
module IdStability {
  import opened Messages
  import opened LendStoredIds
  import opened LendingLaws
  import opened Redumping

  /**
   One save. `dump` is what the framework dumps of the history the run kept -- all of its source row's
   messages, or those before a cut -- and `at` says which row message each one is, where the row holds it.
   */
  datatype Save = Save(dump: seq<Message>, at: seq<Option<nat>>, turn: seq<Message>, output: seq<Message>)

  /** What a save stores when it reads `row`. */
  function SavedRow(row: seq<Message>, save: Save): seq<Message> {
    Lent(save.dump, row, Ids(save.turn)) + save.turn + save.output
  }

  /**
   What is asked of new ids: the dump, the posted turn and the output name no two messages alike, and the output is
   new.
   */
  ghost predicate IdsAreNew(row: seq<Message>, save: Save) {
    && DistinctIds(save.dump) && DistinctIds(save.turn) && DistinctIds(save.output)
    && Ids(save.dump) !! Ids(save.turn)
    && Ids(save.output) !! Ids(row) + Ids(save.dump) + Ids(save.turn)
  }

  lemma LentIdsAreKnown(row: seq<Message>, save: Save, p: nat)
    requires p < |save.dump|
    ensures Lent(save.dump, row, Ids(save.turn))[p].id in Ids(save.dump) + Ids(row)
  {
    LendingIsSound(save.dump, row, Ids(save.turn), p);
  }

  lemma DistinctConcat(a: seq<Message>, b: seq<Message>)
    requires DistinctIds(a) && DistinctIds(b) && Ids(a) !! Ids(b)
    ensures DistinctIds(a + b) && Ids(a + b) == Ids(a) + Ids(b)
  {
    var ab := a + b;
    forall i, j | 0 <= i < j < |ab| ensures ab[i].id != ab[j].id {
      assert i < |a| ==> ab[i].id in Ids(a);
      assert j >= |a| ==> ab[j] == b[j - |a|];
      assert i >= |a| ==> ab[i] == b[i - |a|];
      assert j >= |a| ==> b[j - |a|].id in Ids(b);
    }
    forall id | id in Ids(a) + Ids(b) ensures id in Ids(ab) {
      var m :| (m in a || m in b) && m.id == id;
      assert m in ab;
    }
  }

  /** A save stores a row with distinct ids, whatever row it read and whatever it took from it. */
  lemma SavingKeepsIdsDistinct(row: seq<Message>, save: Save)
    requires IdsAreNew(row, save)
    ensures DistinctIds(SavedRow(row, save))
  {
    var kept := Lent(save.dump, row, Ids(save.turn));
    NoIdIsStoredTwice(save.dump, row, Ids(save.turn));
    DistinctConcat(kept, save.turn);
    forall id | id in Ids(kept) ensures id in Ids(save.dump) + Ids(row) {
      var p: nat :| p < |kept| && kept[p].id == id;
      LentIdsAreKnown(row, save, p);
    }
    DistinctConcat(kept + save.turn, save.output);
  }

  // ---- One message, one save ---------------------------------------------------------------------------

  /**
   A save keeps the row message at `from` as the dumped one at `to`: it is that one's own, its group can be followed
   to it, and neither the posted turn nor another dumped message carries its id. Nothing is asked of other groups.
   */
  ghost predicate Keeps(row: seq<Message>, save: Save, from: nat, to: nat) {
    && DumpedFrom(save.dump, row, save.at) && to < |save.at| && save.at[to] == Some(from)
    && Followed(save.dump, row, save.at, GroupOf(save.dump[to]).value)
    && row[from].id !in Ids(save.turn) && NoOtherCarries(save.dump, to, row[from].id)
  }

  /** A message a save keeps is stored as the very message its source row held. */
  lemma KeptByOneSave(row: seq<Message>, save: Save, from: nat, to: nat)
    requires DistinctIds(row) && Keeps(row, save, from, to)
    ensures from < |row| && to < |SavedRow(row, save)| && SavedRow(row, save)[to] == row[from]
  {
    IdsAreStable(save.dump, row, Ids(save.turn), save.at, to);
  }

  /** A save that keeps everything its dump and its row have in common. */
  ghost predicate Sound(row: seq<Message>, save: Save) {
    && IdsAreNew(row, save)
    && Redumped(save.dump, row, save.at) && AllFollowed(save.dump, row, save.at)
    && forall p :: 0 <= p < |save.at| && save.at[p].Some? ==> row[save.at[p].value].id !in Ids(save.turn)
  }

  lemma SoundSavesKeep(row: seq<Message>, save: Save, from: nat, to: nat)
    requires Sound(row, save) && to < |save.at| && save.at[to] == Some(from)
    ensures Keeps(row, save, from, to)
  {
  }

  // ---- Any number of saves -----------------------------------------------------------------------

  ghost predicate Saved(row: seq<Message>, save: Save, row': seq<Message>) {
    IdsAreNew(row, save) && row' == SavedRow(row, save)
  }

  /** Rows that follow from one another by saves, each reading what the one before it stored. */
  ghost predicate Chain(rows: seq<seq<Message>>, saves: seq<Save>) {
    && |rows| == |saves| + 1
    && DistinctIds(rows[0])
    && forall k :: 0 <= k < |saves| ==> Saved(rows[k], saves[k], rows[k + 1])
  }

  /** A message kept by every save: it is at `path[k]` after `k` of them. */
  ghost predicate KeptThroughout(rows: seq<seq<Message>>, saves: seq<Save>, path: seq<nat>) {
    && |path| == |rows| == |saves| + 1
    && path[0] < |rows[0]|
    && forall k :: 0 <= k < |saves| ==> Keeps(rows[k], saves[k], path[k], path[k + 1])
  }

  /** However many saves, no row ever names two messages by one id. */
  lemma {:induction false} IdsStayDistinct(rows: seq<seq<Message>>, saves: seq<Save>, n: nat)
    requires Chain(rows, saves) && n < |rows|
    ensures DistinctIds(rows[n])
  {
    if n > 0 {
      assert Saved(rows[n - 1], saves[n - 1], rows[n - 1 + 1]);
      SavingKeepsIdsDistinct(rows[n - 1], saves[n - 1]);
    }
  }

  /**
   Over any sequence of resume and fork saves: an answer, a tool result, a reasoning or an activity that every save
   kept is still the message it was, id and all.
   */
  lemma {:induction false} KeptMessagesKeepTheirIds(rows: seq<seq<Message>>, saves: seq<Save>, path: seq<nat>, n: nat)
    requires Chain(rows, saves) && KeptThroughout(rows, saves, path) && n < |rows|
    ensures path[n] < |rows[n]| && rows[n][path[n]] == rows[0][path[0]]
  {
    if n > 0 {
      KeptMessagesKeepTheirIds(rows, saves, path, n - 1);
      IdsStayDistinct(rows, saves, n - 1);
      assert Keeps(rows[n - 1], saves[n - 1], path[n - 1], path[n - 1 + 1]);
      assert Saved(rows[n - 1], saves[n - 1], rows[n - 1 + 1]);
      KeptByOneSave(rows[n - 1], saves[n - 1], path[n - 1], path[n]);
    }
  }
}
