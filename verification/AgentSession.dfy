/** One run's persistence: the conversation before it, remembered once, and the three exits that store it. */
module AgentSession {
  import opened Messages
  import opened LendStoredIds
  import opened ContinuedHistory
  import opened StripBinaryContent
  import opened RunTranscript
  import opened TranscriptObserver

  /** How the store answers one save: the row is kept, an anonymous write is refused, or anything else is raised. */
  datatype Answer = Kept | Refused | Broke(error: string)

  class Session {
    const adapter: Adapter
    /** The k-th dump of a history. No two dumps need agree on the ids they mint. */
    const dump: (seq<ModelMessage>, nat) -> seq<Message>
    /** The snapshot a resumed or forked run continues from. */
    const history: Option<seq<ModelMessage>>
    const posted: seq<Message>
    /** The source thread's stored row, empty when there is none. */
    const source: seq<Message>
    /** Whether there is anywhere to store. */
    const persists: bool

    var dumps: nat
    var prior: Option<seq<Message>>
    var rows: seq<seq<Message>>
    var audits: seq<string>

    constructor (adapter: Adapter, dump: (seq<ModelMessage>, nat) -> seq<Message>, history: Option<seq<ModelMessage>>,
                 posted: seq<Message>, source: seq<Message>, persists: bool)
      ensures this.adapter == adapter && this.dump == dump && this.history == history
      ensures this.posted == posted && this.source == source && this.persists == persists
      ensures Valid() && prior == None && rows == [] && audits == []
    {
      this.adapter, this.dump, this.history, this.posted, this.source := adapter, dump, history, posted, source;
      this.persists := persists;
      dumps, prior, rows, audits := 0, None, [], [];
    }

    /** Everything before this run's own output, if the history is dumped the k-th time. */
    function PriorAt(k: nat): seq<Message> {
      match history
      case None => posted
      case Some(held) =>
        var c := Continued(adapter, held, posted);
        var dumped := dump(c.kept, k);
        var kept := Stripped(dumped, |dumped|);
        (if source != [] then Lent(kept, source, Ids(c.turn)) else kept) + c.turn
    }

    /** Every row this run stored begins with the one prior conversation it remembers. */
    ghost predicate Valid()
      reads this
    {
      && (prior.Some? ==> exists k :: prior.value == PriorAt(k))
      && (rows != [] ==> prior.Some?)
      && (forall i :: 0 <= i < |rows| ==> prior.value <= rows[i])
    }

    /** What a run that resumes nothing stores first: the conversation the client posted, as it posted it. */
    lemma RowsBeginWithThePost()
      requires Valid() && history.None?
      ensures prior.Some? ==> prior.value == posted
      ensures forall i :: 0 <= i < |rows| ==> posted <= rows[i]
    {
    }

    /**
     And what a resumed or forked one does: a stripped dump of the history that is kept, under the ids of the source
     thread's row when there is one, and then the messages of the new turn -- the same for every row.
     */
    lemma RowsBeginWithTheHistory() returns (k: nat)
      requires Valid() && history.Some? && prior.Some?
      ensures var c := Continued(adapter, history.value, posted);
              var kept := Stripped(dump(c.kept, k), |dump(c.kept, k)|);
              && prior.value == (if source == [] then kept else Lent(kept, source, Ids(c.turn))) + c.turn
              && forall i :: 0 <= i < |rows| ==> prior.value <= rows[i]
    {
      k :| prior.value == PriorAt(k);
    }

    /** The prior conversation, dumped, stripped and named once however many exits ask for it. */
    method PriorMessages() returns (messages: seq<Message>)
      requires Valid()
      modifies this`prior, this`dumps
      ensures Valid() && prior == Some(messages)
      ensures old(prior).Some? ==> prior == old(prior) && dumps == old(dumps)
      ensures history.None? ==> messages == posted
      ensures old(prior).None? && history.Some? ==>
                var c := Continued(adapter, history.value, posted);
                var dumped := dump(c.kept, old(dumps));
                var kept := Stripped(dumped, |dumped|);
                messages == (if source == [] then kept else Lent(kept, source, Ids(c.turn))) + c.turn
      ensures old(prior).None? ==> messages == PriorAt(old(dumps))
    {
      if prior.None? {
        ghost var k := dumps;
        match history {
          case None =>
            prior := Some(posted);
          case Some(held) =>
            var c := Continued(adapter, held, posted);
            var kept := Strip(dump(c.kept, dumps));
            dumps := dumps + 1;
            if source != [] {
              kept := LendStoredIds.LendStoredIds(kept, source, Ids(c.turn));
            }
            prior := Some(kept + c.turn);
        }
        assert prior.value == PriorAt(k);
      }
      messages := prior.value;
    }

    /** Store a row, or lose it quietly when the store refuses an anonymous write; what else it raises goes on. */
    method Save(row: seq<Message>, answer: Answer) returns (raised: Option<string>)
      requires Valid() && prior.Some? && prior.value <= row
      modifies this`rows
      ensures Valid()
      ensures rows == if answer.Kept? then old(rows) + [row] else old(rows)
      ensures raised == if answer.Broke? then Some(answer.error) else None
    {
      match answer {
        case Kept =>
          rows := rows + [row];
          return None;
        case Refused =>
          return None;
        case Broke(error) =>
          return Some(error);
      }
    }

    /** The completed exit: the dump of the new messages, under the ids they streamed under. */
    method OnComplete(transcript: Observer, dumped: seq<Message>, answer: Answer) returns (raised: Option<string>)
      requires Valid()
      modifies this
      ensures Valid() && audits == old(audits)
      ensures old(prior).Some? ==> prior == old(prior)
      ensures raised == if persists && answer.Broke? then Some(answer.error) else None
      ensures if !persists then unchanged(this)
              else prior.Some? && rows ==
                   var named := WithStreamedIds(transcript.Value(), dumped);
                   if answer.Kept? then old(rows) + [prior.value + Stripped(named, |named|)] else old(rows)
    {
      raised := None;
      if persists {
        var named := transcript.Lend(dumped);
        var new_ := Strip(named);
        var before := PriorMessages();
        raised := Save(before + new_, answer);
      }
    }

    /**
     The two other exits: what the transcript holds so far, then an audit record whether or not the row was kept --
     but none when the store raised. What the audit logger raises goes on too.
     */
    method Finalize(transcript: Observer, error: string, answer: Answer, logger: Option<string>)
      returns (raised: Option<string>)
      requires Valid()
      modifies this
      ensures Valid()
      ensures old(prior).Some? ==> prior == old(prior)
      ensures raised == if persists && answer.Broke? then Some(answer.error) else logger
      ensures audits == if raised.Some? then old(audits) else old(audits) + [error]
      ensures if !persists then rows == old(rows) && prior == old(prior)
              else prior.Some? && rows ==
                   if answer.Kept? then old(rows) + [prior.value + MessagesOf(transcript.Value())] else old(rows)
    {
      raised := None;
      if persists {
        var before := PriorMessages();
        var streamed := transcript.Rebuilt();
        raised := Save(before + streamed, answer);
      }
      if raised.None? {
        if logger.Some? {
          return logger;
        }
        audits := audits + [error];
      }
    }
  }
}
