/**
 What a server-held run continues from, and the turn the client adds to it.

 The framework is seen through three questions only: what one message loads into, which calls of a
 history are pending, and the id the last message of a stored request is dumped under.
 */
module ContinuedHistory {
  import opened Messages

  datatype RequestPart =
    | UserPrompt(text: string)
    | ToolReturn(callId: Id, content: string)
    | RetryPrompt(callId: Id, toolName: Option<string>)
    | OtherPart(text: string)

  datatype ModelMessage = Request(parts: seq<RequestPart>) | Response(text: string, calls: seq<ToolCall>)

  /** The framework's adapter, as far as it is asked. */
  datatype Adapter = Adapter(
    load: Message -> seq<ModelMessage>,
    pending: seq<ModelMessage> -> set<Id>,
    dumpedId: ModelMessage -> Id)

  // ---- The new turn -------------------------------------------------------------------------

  /** Whether a posted message loads into a model response; a tool result never does. */
  predicate LoadsResponse(a: Adapter, m: Message) {
    !m.Tool? && exists k :: 0 <= k < |a.load(m)| && a.load(m)[k].Response?
  }

  /** The index just past the last of the first `n` posted messages that loads into a response. */
  function AfterLastResponse(a: Adapter, posted: seq<Message>, n: nat): (k: nat)
    requires n <= |posted|
    ensures k <= n
    ensures k > 0 ==> LoadsResponse(a, posted[k - 1])
    ensures forall i :: k <= i < n ==> !LoadsResponse(a, posted[i])
  {
    if n == 0 || LoadsResponse(a, posted[n - 1]) then n else AfterLastResponse(a, posted, n - 1)
  }

  function NewTurn(a: Adapter, posted: seq<Message>): seq<Message> {
    posted[AfterLastResponse(a, posted, |posted|)..]
  }

  /** The calls of the posted assistant messages. */
  function Called(posted: seq<Message>): set<Id> {
    set m, c | m in posted && m.Assistant? && c in m.calls :: c.id
  }

  /** Whether a message of the new turn ends up in the request the turn loads into. */
  predicate Contributes(a: Adapter, posted: seq<Message>, history: seq<ModelMessage>, m: Message) {
    if m.Tool? then m.callId in Called(posted) || m.callId in a.pending(history)
    else a.load(m) != []
  }

  /** The id of the last of the first `n` messages that contributes. */
  function TurnId(a: Adapter, turn: seq<Message>, n: nat, posted: seq<Message>, history: seq<ModelMessage>): Option<Id>
    requires n <= |turn|
  {
    if n == 0 then None
    else if Contributes(a, posted, history, turn[n - 1]) then Some(turn[n - 1].id)
    else TurnId(a, turn, n - 1, posted, history)
  }

  // ---- The cut ------------------------------------------------------------------------------

  predicate IsToolResult(part: RequestPart) {
    part.ToolReturn? || (part.RetryPrompt? && part.toolName.Some?)
  }

  /** Whether a stored request is the user turn the client resubmitted. */
  predicate Names(a: Adapter, m: ModelMessage, turnId: Id) {
    m.Request? && (exists k :: 0 <= k < |m.parts| && m.parts[k].UserPrompt?) && a.dumpedId(m) == turnId
  }

  /** The first message at or after `from` that the turn names, or the history's length. */
  function CutFrom(a: Adapter, history: seq<ModelMessage>, from: nat, turnId: Id): (cut: nat)
    requires from <= |history|
    ensures from <= cut <= |history|
    ensures cut < |history| ==> Names(a, history[cut], turnId)
    ensures forall i :: from <= i < cut ==> !Names(a, history[i], turnId)
    decreases |history| - from
  {
    if from == |history| || Names(a, history[from], turnId) then from else CutFrom(a, history, from + 1, turnId)
  }

  function CutAt(a: Adapter, history: seq<ModelMessage>, turnId: Option<Id>): nat {
    if turnId.None? then |history| else CutFrom(a, history, 0, turnId.value)
  }

  /** The tool results among the first `n` parts. */
  function ToolResults(parts: seq<RequestPart>, n: nat): (results: seq<RequestPart>)
    requires n <= |parts|
    ensures forall k :: 0 <= k < |results| ==> IsToolResult(results[k])
  {
    if n == 0 then []
    else if IsToolResult(parts[n - 1]) then ToolResults(parts, n - 1) + [parts[n - 1]]
    else ToolResults(parts, n - 1)
  }

  function KeptHistory(history: seq<ModelMessage>, cut: nat): seq<ModelMessage>
    requires cut <= |history|
  {
    if cut == |history| || history[cut].Response? then history[..cut]
    else
      var results := ToolResults(history[cut].parts, |history[cut].parts|);
      history[..cut] + if results == [] then [] else [Request(results)]
  }

  /** The calls a message answers. */
  function AnswersOf(m: ModelMessage): set<Id> {
    match m
    case Request(parts) => set part | part in parts && IsToolResult(part) :: part.callId
    case Response(_, _) => {}
  }

  /** The calls the first `n` messages of a history answer. */
  function Answered(history: seq<ModelMessage>, n: nat): set<Id>
    requires n <= |history|
  {
    if n == 0 then {} else Answered(history, n - 1) + AnswersOf(history[n - 1])
  }

  predicate Dropped(m: Message, answered: set<Id>) {
    m.Tool? && m.callId in answered
  }

  /** The first `n` messages of the turn, without the client's copies of answered results. */
  function Resubmitted(turn: seq<Message>, n: nat, answered: set<Id>): seq<Message>
    requires n <= |turn|
  {
    if n == 0 then []
    else if Dropped(turn[n - 1], answered) then Resubmitted(turn, n - 1, answered)
    else Resubmitted(turn, n - 1, answered) + [turn[n - 1]]
  }

  datatype Continuation = Continuation(kept: seq<ModelMessage>, turn: seq<Message>)

  function Continued(a: Adapter, history: seq<ModelMessage>, posted: seq<Message>): Continuation {
    var turn := NewTurn(a, posted);
    var cut := CutAt(a, history, TurnId(a, turn, |turn|, posted, history));
    var kept := KeptHistory(history, cut);
    Continuation(kept, Resubmitted(turn, |turn|, Answered(kept, |kept|)))
  }

  // ---- What the cut promises ------------------------------------------------------------------

  /** The new turn is the longest end of what was posted in which nothing loads into a response. */
  lemma NewTurnIsTheLongestResponseFreeEnd(a: Adapter, posted: seq<Message>, j: nat)
    requires j <= |posted|
    ensures var k := AfterLastResponse(a, posted, |posted|);
            (forall i :: j <= i < |posted| ==> !LoadsResponse(a, posted[i])) <==> k <= j
  {
    var k := AfterLastResponse(a, posted, |posted|);
    if j < k {
      assert LoadsResponse(a, posted[k - 1]);
    }
  }

  /** The turn is named by its last contributor, and by nothing when it has none. */
  lemma {:induction false} TurnIsNamedByItsLastContributor(a: Adapter, turn: seq<Message>, n: nat,
                                                           posted: seq<Message>, history: seq<ModelMessage>)
    requires n <= |turn|
    ensures match TurnId(a, turn, n, posted, history)
            case None => forall i :: 0 <= i < n ==> !Contributes(a, posted, history, turn[i])
            case Some(id) =>
              exists i :: 0 <= i < n && turn[i].id == id && Contributes(a, posted, history, turn[i])
                          && forall j :: i < j < n ==> !Contributes(a, posted, history, turn[j])
  {
    if n > 0 && !Contributes(a, posted, history, turn[n - 1]) {
      TurnIsNamedByItsLastContributor(a, turn, n - 1, posted, history);
    }
  }

  /** Where each message of the stored turn stands in the posted one: in order, and none missing but the dropped. */
  lemma {:induction false} ResubmittedIsASublist(turn: seq<Message>, n: nat, answered: set<Id>) returns (f: seq<nat>)
    requires n <= |turn|
    ensures |f| == |Resubmitted(turn, n, answered)|
    ensures forall k :: 0 <= k < |f| ==> f[k] < n && Resubmitted(turn, n, answered)[k] == turn[f[k]]
    ensures forall k :: 0 <= k < |f| - 1 ==> f[k] < f[k + 1]
    ensures forall i: nat :: i < n ==> (i in f <==> !Dropped(turn[i], answered))
  {
    if n == 0 {
      f := [];
    } else {
      f := ResubmittedIsASublist(turn, n - 1, answered);
      assert n - 1 !in f;
      if !Dropped(turn[n - 1], answered) {
        f := f + [n - 1];
      }
    }
  }

  /** Where each result kept of the cut request stood in it: in order, and none missing. */
  lemma {:induction false} ResultsAreASublist(parts: seq<RequestPart>, n: nat) returns (f: seq<nat>)
    requires n <= |parts|
    ensures |f| == |ToolResults(parts, n)|
    ensures forall k :: 0 <= k < |f| ==> f[k] < n && ToolResults(parts, n)[k] == parts[f[k]]
    ensures forall k :: 0 <= k < |f| - 1 ==> f[k] < f[k + 1]
    ensures forall i: nat :: i < n ==> (i in f <==> IsToolResult(parts[i]))
  {
    if n == 0 {
      f := [];
    } else {
      f := ResultsAreASublist(parts, n - 1);
      assert n - 1 !in f;
      if IsToolResult(parts[n - 1]) {
        f := f + [n - 1];
      }
    }
  }

  lemma {:induction false} AnsweredPrefix(h: seq<ModelMessage>, h': seq<ModelMessage>, n: nat)
    requires n <= |h| && n <= |h'| && h[..n] == h'[..n]
    ensures Answered(h, n) == Answered(h', n)
  {
    if n > 0 {
      assert h[..n][n - 1] == h'[..n][n - 1];
      assert h[..n][..n - 1] == h[..n - 1] && h'[..n][..n - 1] == h'[..n - 1];
      AnsweredPrefix(h, h', n - 1);
    }
  }

  lemma {:induction false} ResultsAnswerTheSame(parts: seq<RequestPart>, n: nat)
    requires n <= |parts|
    ensures AnswersOf(Request(ToolResults(parts, n))) == AnswersOf(Request(parts[..n]))
  {
    if n > 0 {
      ResultsAnswerTheSame(parts, n - 1);
      AnswersOfMore(parts[..n - 1], parts[n - 1]);
      assert parts[..n - 1] + [parts[n - 1]] == parts[..n];
      AnswersOfMore(ToolResults(parts, n - 1), parts[n - 1]);
    }
  }

  lemma AnswersOfMore(parts: seq<RequestPart>, part: RequestPart)
    ensures AnswersOf(Request(parts + [part]))
            == AnswersOf(Request(parts)) + if IsToolResult(part) then {part.callId} else {}
  {
    var more := parts + [part];
    forall p | p in parts ensures p in more {
    }
    assert part in more;
  }

  /**
   What is kept of a history cut at `cut` is what stood before the cut, then at most one request that
   holds nothing but tool results; and it answers exactly the calls answered up to and including the cut.
   */
  lemma KeptAnswersWhatTheCutDid(history: seq<ModelMessage>, cut: nat)
    requires cut <= |history|
    ensures var kept := KeptHistory(history, cut);
            && cut <= |kept| <= cut + 1
            && kept[..cut] == history[..cut]
            && (|kept| == cut + 1 ==>
                kept[cut].Request? && kept[cut].parts != [] && forall k :: 0 <= k < |kept[cut].parts| ==>
                IsToolResult(kept[cut].parts[k]))
            && Answered(kept, |kept|) == Answered(history, if cut < |history| then cut + 1 else cut)
  {
    var kept := KeptHistory(history, cut);
    AnsweredPrefix(kept, history, cut);
    if cut < |history| && history[cut].Request? {
      var parts := history[cut].parts;
      ResultsAnswerTheSame(parts, |parts|);
      assert parts[..|parts|] == parts;
      if ToolResults(parts, |parts|) == [] {
        assert AnswersOf(Request([])) == {};
      }
    }
  }

  /** No kept message is a user turn the client resubmitted: what it edits is cut, not kept beside it. */
  lemma NothingKeptIsNamed(a: Adapter, history: seq<ModelMessage>, turnId: Id, k: nat)
    requires k < |KeptHistory(history, CutFrom(a, history, 0, turnId))|
    ensures !Names(a, KeptHistory(history, CutFrom(a, history, 0, turnId))[k], turnId)
  {
    var cut := CutFrom(a, history, 0, turnId);
    var kept := KeptHistory(history, cut);
    KeptAnswersWhatTheCutDid(history, cut);
    if k < cut {
      assert kept[..cut][k] == history[..cut][k];
    } else {
      forall i | 0 <= i < |kept[k].parts| ensures !kept[k].parts[i].UserPrompt? {
        assert IsToolResult(kept[k].parts[i]);
      }
    }
  }

  lemma {:induction false} NoAnsweredResultStays(turn: seq<Message>, n: nat, answered: set<Id>)
    requires n <= |turn|
    ensures forall k :: 0 <= k < |Resubmitted(turn, n, answered)| ==>
            !Dropped(Resubmitted(turn, n, answered)[k], answered)
  {
    if n > 0 {
      NoAnsweredResultStays(turn, n - 1, answered);
    }
  }

  /** The stored thread never records one call answered twice, once by the kept history and once by the turn. */
  lemma NoCallIsAnsweredTwice(a: Adapter, history: seq<ModelMessage>, posted: seq<Message>, k: nat)
    requires k < |Continued(a, history, posted).turn|
    ensures var c := Continued(a, history, posted);
            c.turn[k].Tool? ==> c.turn[k].callId !in Answered(c.kept, |c.kept|)
  {
    var c := Continued(a, history, posted);
    NoAnsweredResultStays(NewTurn(a, posted), |NewTurn(a, posted)|, Answered(c.kept, |c.kept|));
  }

  /** The history is kept whole exactly when the turn names nothing in it. */
  lemma OnlyAResubmissionCuts(a: Adapter, history: seq<ModelMessage>, posted: seq<Message>)
    ensures var turn := NewTurn(a, posted);
            var id := TurnId(a, turn, |turn|, posted, history);
            Continued(a, history, posted).kept == history
            <==> id.None? || forall i :: 0 <= i < |history| ==> !Names(a, history[i], id.value)
  {
    var turn := NewTurn(a, posted);
    var id := TurnId(a, turn, |turn|, posted, history);
    var cut := CutAt(a, history, id);
    KeptAnswersWhatTheCutDid(history, cut);
    if cut == |history| {
      assert history[..cut] == history;
    } else {
      assert Names(a, history[cut], id.value);
      var kept := KeptHistory(history, cut);
      if |kept| == |history| && cut == |history| - 1 {
        NothingKeptIsNamed(a, history, id.value, cut);
      }
    }
  }

  // ---- The same, said of what was posted and what is held -------------------------------------

  /** Whether a posted message reaches the request its turn loads into; a result does when its call is known. */
  ghost predicate Folded(a: Adapter, history: seq<ModelMessage>, posted: seq<Message>, m: Message) {
    if m.Tool?
    then
      || m.callId in a.pending(history)
      || exists other, call :: other in posted && other.Assistant? && call in other.calls && call.id == m.callId
    else a.load(m) != []
  }

  /** Whether the last message from `from` on to reach the request is posted under `id`. */
  ghost predicate TurnIsUnder(a: Adapter, history: seq<ModelMessage>, posted: seq<Message>, from: nat, id: Id) {
    exists i :: from <= i < |posted| && posted[i].id == id && Folded(a, history, posted, posted[i])
                && forall j :: i < j < |posted| ==> !Folded(a, history, posted, posted[j])
  }

  /** Whether `history[k]` is a request with a user prompt, held under the id of that turn. */
  ghost predicate IsPostedAgain(a: Adapter, history: seq<ModelMessage>, posted: seq<Message>, from: nat, k: nat)
    requires k < |history|
  {
    && history[k].Request?
    && (exists part :: part in history[k].parts && part.UserPrompt?)
    && TurnIsUnder(a, history, posted, from, a.dumpedId(history[k]))
  }

  /** Whether some result kept, or retry bound to a tool, answers a call. */
  ghost predicate IsAnswered(kept: seq<ModelMessage>, callId: Id) {
    exists m, part :: m in kept && m.Request? && part in m.parts
                      && (part.ToolReturn? || (part.RetryPrompt? && part.toolName.Some?)) && part.callId == callId
  }

  lemma FoldedIsContributing(a: Adapter, history: seq<ModelMessage>, posted: seq<Message>, m: Message)
    ensures Folded(a, history, posted, m) <==> Contributes(a, posted, history, m)
  {
  }

  lemma TurnIsUnderItsId(a: Adapter, history: seq<ModelMessage>, posted: seq<Message>, from: nat, id: Id)
    requires from <= |posted|
    ensures TurnIsUnder(a, history, posted, from, id)
            <==> TurnId(a, posted[from..], |posted| - from, posted, history) == Some(id)
  {
    var turn := posted[from..];
    forall i | 0 <= i < |turn|
      ensures Folded(a, history, posted, posted[from + i]) <==> Contributes(a, posted, history, turn[i])
    {
      FoldedIsContributing(a, history, posted, turn[i]);
    }
    TurnIsNamedByItsLastContributor(a, turn, |turn|, posted, history);
    if TurnId(a, turn, |turn|, posted, history) == Some(id) {
      var i :| 0 <= i < |turn| && turn[i].id == id && Contributes(a, posted, history, turn[i])
               && forall j :: i < j < |turn| ==> !Contributes(a, posted, history, turn[j]);
      forall j | from + i < j < |posted| ensures !Folded(a, history, posted, posted[j]) {
        assert turn[j - from] == posted[j];
      }
      assert posted[from + i].id == id;
    }
    if TurnIsUnder(a, history, posted, from, id) {
      var i :| from <= i < |posted| && posted[i].id == id && Folded(a, history, posted, posted[i])
               && forall j :: i < j < |posted| ==> !Folded(a, history, posted, posted[j]);
      assert turn[i - from] == posted[i] && Contributes(a, posted, history, turn[i - from]);
    }
  }

  lemma {:induction false} AnsweredBySome(kept: seq<ModelMessage>, n: nat, callId: Id)
    requires n <= |kept|
    ensures callId in Answered(kept, n) <==> IsAnswered(kept[..n], callId)
  {
    if n > 0 {
      AnsweredBySome(kept, n - 1, callId);
      var m := kept[n - 1];
      assert kept[..n] == kept[..n - 1] + [m];
      if callId in AnswersOf(m) {
        var part :| part in m.parts && IsToolResult(part) && part.callId == callId;
        assert m in kept[..n];
      }
      if IsAnswered(kept[..n - 1], callId) {
        var m', part :| m' in kept[..n - 1] && m'.Request? && part in m'.parts
                        && (part.ToolReturn? || (part.RetryPrompt? && part.toolName.Some?)) && part.callId == callId;
        assert m' in kept[..n];
      }
    }
  }

  /** The new turn starts just past the last posted message that is no result and loads into a response. */
  lemma TheTurnStartsPastTheLastResponse(a: Adapter, posted: seq<Message>)
    ensures var from := AfterLastResponse(a, posted, |posted|);
            && (from > 0 ==>
                  !posted[from - 1].Tool? && exists loaded :: loaded in a.load(posted[from - 1]) && loaded.Response?)
            && forall i, loaded :: from <= i < |posted| && !posted[i].Tool? && loaded in a.load(posted[i]) ==>
                 loaded.Request?
  {
    var from := AfterLastResponse(a, posted, |posted|);
    forall i, loaded | from <= i < |posted| && !posted[i].Tool? && loaded in a.load(posted[i]) ensures loaded.Request? {
      assert !LoadsResponse(a, posted[i]);
    }
  }

  lemma PostedAgainIsNamed(a: Adapter, history: seq<ModelMessage>, posted: seq<Message>, from: nat, k: nat)
    requires k < |history| && from <= |posted|
    ensures var id := TurnId(a, posted[from..], |posted| - from, posted, history);
            IsPostedAgain(a, history, posted, from, k) <==> id.Some? && Names(a, history[k], id.value)
  {
    TurnIsUnderItsId(a, history, posted, from, a.dumpedId(history[k]));
  }

  /** The history is cut at the first request that was posted again, and nowhere when none was. */
  lemma TheCutIsAtTheTurnPostedAgain(a: Adapter, history: seq<ModelMessage>, posted: seq<Message>)
    ensures var from := AfterLastResponse(a, posted, |posted|);
            var turn := NewTurn(a, posted);
            var cut := CutAt(a, history, TurnId(a, turn, |turn|, posted, history));
            && cut <= |history|
            && (cut < |history| ==> IsPostedAgain(a, history, posted, from, cut))
            && forall k :: 0 <= k < cut ==> !IsPostedAgain(a, history, posted, from, k)
  {
    var from := AfterLastResponse(a, posted, |posted|);
    var turn := NewTurn(a, posted);
    var id := TurnId(a, turn, |turn|, posted, history);
    forall k: nat | k < |history|
      ensures IsPostedAgain(a, history, posted, from, k) <==> id.Some? && Names(a, history[k], id.value)
    {
      PostedAgainIsNamed(a, history, posted, from, k);
    }
  }

  /** Whether `places` are, in order, those of the tool results among `parts`, and no others. */
  ghost predicate PicksResults(parts: seq<RequestPart>, places: seq<nat>) {
    forall i: nat :: i < |parts| ==>
      (i in places <==> parts[i].ToolReturn? || (parts[i].RetryPrompt? && parts[i].toolName.Some?))
  }

  /** Whether `picked` is what stands at `places`, which go up. */
  ghost predicate PicksFrom<T>(all: seq<T>, places: seq<nat>, picked: seq<T>) {
    && |picked| == |places|
    && (forall k :: 0 <= k < |places| ==> places[k] < |all| && picked[k] == all[places[k]])
    && forall k :: 0 <= k < |places| - 1 ==> places[k] < places[k + 1]
  }

  function Shifted(places: seq<nat>, from: nat): (shifted: seq<nat>)
    ensures |shifted| == |places| && forall k :: 0 <= k < |places| ==> shifted[k] == from + places[k]
  {
    seq(|places|, k requires 0 <= k < |places| => from + places[k])
  }

  lemma InShifted(places: seq<nat>, from: nat, i: nat)
    ensures i in Shifted(places, from) <==> i >= from && i - from in places
  {
    if i >= from && i - from in places {
      var k :| 0 <= k < |places| && places[k] == i - from;
      assert Shifted(places, from)[k] == i;
    }
  }

  lemma ShiftedPicks<T>(all: seq<T>, from: nat, places: seq<nat>, picked: seq<T>)
    requires from <= |all| && PicksFrom(all[from..], places, picked)
    ensures PicksFrom(all, Shifted(places, from), picked)
  {
  }

  lemma DroppedIsAnswered(kept: seq<ModelMessage>, m: Message)
    ensures Dropped(m, Answered(kept, |kept|)) <==> m.Tool? && IsAnswered(kept, m.callId)
  {
    if m.Tool? {
      AnsweredBySome(kept, |kept|, m.callId);
      assert kept[..|kept|] == kept;
    }
  }

  lemma WhatIsLeft(a: Adapter, history: seq<ModelMessage>, posted: seq<Message>) returns (left: seq<nat>)
    ensures var c := Continued(a, history, posted);
            && PicksFrom(posted, left, c.turn)
            && forall i: nat :: i < |posted| ==>
                 (i in left <==> i >= AfterLastResponse(a, posted, |posted|)
                                 && !(posted[i].Tool? && IsAnswered(c.kept, posted[i].callId)))
  {
    var c := Continued(a, history, posted);
    var turn, answered := NewTurn(a, posted), Answered(c.kept, |c.kept|);
    var f := ResubmittedIsASublist(turn, |turn|, answered);
    var from := AfterLastResponse(a, posted, |posted|);
    left := Shifted(f, from);
    ShiftedPicks(posted, from, f, c.turn);
    forall i: nat | i < |posted|
      ensures i in left <==> i >= from && !(posted[i].Tool? && IsAnswered(c.kept, posted[i].callId))
    {
      InShifted(f, from, i);
      DroppedIsAnswered(c.kept, posted[i]);
      assert i >= from ==> turn[i - from] == posted[i];
    }
  }

  /**
   What is continued, whole. `from` is where the new turn starts and `cut` where the history is cut; `places` are those
   of the cut request's tool results, and `left` those of the posted messages that are stored.
   */
  lemma ContinuedSpelledOut(a: Adapter, history: seq<ModelMessage>, posted: seq<Message>)
    returns (from: nat, cut: nat, places: seq<nat>, left: seq<nat>)
    ensures from <= |posted| && cut <= |history|
    ensures from > 0 ==>
              !posted[from - 1].Tool? && exists loaded :: loaded in a.load(posted[from - 1]) && loaded.Response?
    ensures forall i, loaded :: from <= i < |posted| && !posted[i].Tool? && loaded in a.load(posted[i]) ==>
              loaded.Request?
    ensures cut < |history| ==> IsPostedAgain(a, history, posted, from, cut)
    ensures forall k :: 0 <= k < cut ==> !IsPostedAgain(a, history, posted, from, k)
    ensures var c := Continued(a, history, posted);
            if cut == |history| then c.kept == history
            else
              && |c.kept| == cut + (if places == [] then 0 else 1) && c.kept[..cut] == history[..cut]
              && PicksResults(history[cut].parts, places)
              && (places != [] ==> c.kept[cut].Request? && PicksFrom(history[cut].parts, places, c.kept[cut].parts))
    ensures var c := Continued(a, history, posted);
            && PicksFrom(posted, left, c.turn)
            && forall i: nat :: i < |posted| ==>
                 (i in left <==> i >= from && !(posted[i].Tool? && IsAnswered(c.kept, posted[i].callId)))
  {
    var turn := NewTurn(a, posted);
    from := AfterLastResponse(a, posted, |posted|);
    cut := CutAt(a, history, TurnId(a, turn, |turn|, posted, history));
    TheTurnStartsPastTheLastResponse(a, posted);
    TheCutIsAtTheTurnPostedAgain(a, history, posted);
    places := [];
    if cut == |history| {
      assert history[..cut] == history;
    } else {
      places := ResultsAreASublist(history[cut].parts, |history[cut].parts|);
    }
    left := WhatIsLeft(a, history, posted);
  }
}
