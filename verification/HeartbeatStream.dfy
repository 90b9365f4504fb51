/**
 Keeping a silent stream alive with comment frames, and why no client notices: read as section 9.2.6 of the
 WHATWG HTML standard reads an event stream, the frames dispatch nothing and disturb nothing.
 */
module HeartbeatStream {
  import opened Messages

  const HEARTBEAT_COMMENT := ": django-ag-ui heartbeat"
  const HEARTBEAT := HEARTBEAT_COMMENT + "\n\n"

  // ---- The event stream as a client reads it ----------------------------------------------------------

  datatype Event = Event(kind: string, data: string, lastId: string)

  /** A parser between two characters: the line so far, its buffers, and what it has dispatched. */
  datatype Parser = Parser(line: string, afterReturn: bool, data: string, kind: string, idBuffer: string,
                           lastId: string, retry: Option<string>, events: seq<Event>)

  function Start(): Parser {
    Parser("", false, "", "", "", "", None, [])
  }

  /** Position of the first colon, or the length where there is none. */
  function ColonAt(line: string): (at: nat)
    ensures at <= |line| && (at < |line| ==> line[at] == ':')
  {
    if line == "" || line[0] == ':' then 0 else 1 + ColonAt(line[1..])
  }

  /** What follows the colon, less one leading space. */
  function ValueOf(line: string): string {
    var at := ColonAt(line);
    if at == |line| then ""
    else if at + 1 < |line| && line[at + 1] == ' ' then line[at + 2..]
    else line[at + 1..]
  }

  function TakeField(p: Parser, name: string, value: string): Parser {
    if name == "event" then p.(kind := value)
    else if name == "data" then p.(data := p.data + value + "\n")
    else if name == "id" then if '\0' in value then p else p.(idBuffer := value)
    else if name == "retry" then
      if value != "" && (forall c :: c in value ==> '0' <= c <= '9') then p.(retry := Some(value)) else p
    else p
  }

  function Dispatch(p: Parser): Parser {
    var q := p.(lastId := p.idBuffer, data := "", kind := "");
    if p.data == "" then q
    else
      var text := if p.data[|p.data| - 1] == '\n' then p.data[..|p.data| - 1] else p.data;
      q.(events := p.events + [Event(if p.kind == "" then "message" else p.kind, text, p.idBuffer)])
  }

  /** The line that has just ended. */
  function EndLine(p: Parser): Parser {
    var q := p.(line := "");
    if p.line == "" then Dispatch(q)
    else if p.line[0] == ':' then q
    else TakeField(q, p.line[..ColonAt(p.line)], ValueOf(p.line))
  }

  /** One character; a line feed straight after a carriage return belongs to it. */
  function Read(p: Parser, c: char): Parser {
    if c == '\n' then if p.afterReturn then p.(afterReturn := false) else EndLine(p)
    else if c == '\r' then EndLine(p.(afterReturn := false)).(afterReturn := true)
    else p.(line := p.line + [c], afterReturn := false)
  }

  function ReadAll(p: Parser, text: string): Parser
    decreases text
  {
    if text == "" then p else ReadAll(Read(p, text[0]), text[1..])
  }

  lemma {:induction false} ReadConcat(p: Parser, a: string, b: string)
    ensures ReadAll(p, a + b) == ReadAll(ReadAll(p, a), b)
    decreases a
  {
    if a == "" {
      assert a + b == b;
    } else {
      assert (a + b)[1..] == a[1..] + b;
      ReadConcat(Read(p, a[0]), a[1..], b);
    }
  }

  /** After a carriage return the line is a new one. */
  predicate Steady(p: Parser) {
    p.afterReturn ==> p.line == ""
  }

  /** Nothing half read: a blank line here would dispatch nothing and change nothing. */
  predicate Clean(p: Parser) {
    p.line == "" && p.data == "" && p.kind == "" && p.lastId == p.idBuffer
  }

  // ---- A heartbeat ------------------------------------------------------------------------------------

  lemma {:induction false} ReadWithinALine(p: Parser, text: string)
    requires text != "" && '\n' !in text && '\r' !in text
    ensures ReadAll(p, text) == p.(line := p.line + text, afterReturn := false)
    decreases text
  {
    if |text| > 1 {
      ReadWithinALine(Read(p, text[0]), text[1..]);
      assert p.line + [text[0]] + text[1..] == p.line + text;
    } else {
      assert text == [text[0]];
      assert text[1..] == "";
    }
  }

  lemma CommentIsOneLine()
    ensures '\n' !in HEARTBEAT_COMMENT && '\r' !in HEARTBEAT_COMMENT && HEARTBEAT_COMMENT[0] == ':'
  {
  }

  lemma ReadTwo(p: Parser, c: char, d: char)
    ensures ReadAll(p, [c, d]) == Read(Read(p, c), d)
  {
    assert [c, d][1..] == [d] && [d][1..] == "";
    assert ReadAll(p, [c, d]) == ReadAll(Read(p, c), [d]);
    assert ReadAll(Read(p, c), [d]) == ReadAll(Read(Read(p, c), d), "");
  }

  lemma EndingALine(p: Parser)
    ensures var q := EndLine(p);
            && q.line == "" && q.afterReturn == p.afterReturn
            && (p.line != "" ==> q.events == p.events && |q.data| >= |p.data|)
  {
  }

  lemma BlankAfter(p: Parser)
    requires !p.afterReturn
    ensures Read(Read(p, '\n'), '\n') == Dispatch(EndLine(p))
  {
    EndingALine(p);
    var ended := EndLine(p);
    assert ended.(line := "") == ended;
  }

  /** A line and a blank one. */
  lemma ReadFrame(p: Parser, text: string)
    requires text != "" && '\n' !in text && '\r' !in text
    ensures ReadAll(p, text + "\n\n") == Dispatch(EndLine(p.(line := p.line + text, afterReturn := false)))
  {
    ReadConcat(p, text, "\n\n");
    ReadWithinALine(p, text);
    var q := p.(line := p.line + text, afterReturn := false);
    assert "\n\n" == ['\n', '\n'];
    ReadTwo(q, '\n', '\n');
    BlankAfter(q);
  }

  lemma ReadHeartbeat(p: Parser)
    ensures ReadAll(p, HEARTBEAT) == Dispatch(EndLine(p.(line := p.line + HEARTBEAT_COMMENT, afterReturn := false)))
  {
    CommentIsOneLine();
    ReadFrame(p, HEARTBEAT_COMMENT);
  }

  /** A heartbeat leaves a parser as it found it exactly when nothing was half read. */
  lemma HeartbeatChangesNothing(p: Parser)
    ensures ReadAll(p, HEARTBEAT) == p.(afterReturn := false) <==> Clean(p)
  {
    ReadHeartbeat(p);
    CommentIsOneLine();
    if Clean(p) {
      assert "" + HEARTBEAT_COMMENT == HEARTBEAT_COMMENT;
    }
  }

  // ---- A stream of frames -------------------------------------------------------------------------------

  /** One chunk as it leaves: upstream's, or a beat. */
  datatype Frame = Chunk(text: string) | Beat

  function Text(frames: seq<Frame>, n: nat): string
    requires n <= |frames|
  {
    if n == 0 then ""
    else Text(frames, n - 1) + match frames[n - 1] case Chunk(text) => text case Beat => HEARTBEAT
  }

  function UpstreamText(frames: seq<Frame>, n: nat): string
    requires n <= |frames|
  {
    if n == 0 then ""
    else UpstreamText(frames, n - 1) + match frames[n - 1] case Chunk(text) => text case Beat => ""
  }

  predicate IsBreak(c: char) {
    c == '\n' || c == '\r'
  }

  /** Whether the last line of a chunk is a blank one, in any of the three ways to end a line. */
  predicate EndsInBlankLine(text: string) {
    || (|text| >= 2 && text[|text| - 2] == '\n' && IsBreak(text[|text| - 1]))
    || (|text| >= 2 && text[|text| - 2] == '\r' && text[|text| - 1] == '\r')
    || (|text| >= 3 && IsBreak(text[|text| - 3]) && text[|text| - 2] == '\r' && text[|text| - 1] == '\n')
  }

  lemma {:induction false} ReadingIsSteady(p: Parser, text: string)
    requires Steady(p)
    ensures Steady(ReadAll(p, text))
    decreases text
  {
    if text != "" {
      ReadingIsSteady(Read(p, text[0]), text[1..]);
    }
  }

  lemma AfterABreak(p: Parser, c: char)
    requires Steady(p) && IsBreak(c)
    ensures Read(p, c).line == "" && Read(p, c).afterReturn == (c == '\r')
  {
  }

  lemma BlankLineCleans(p: Parser, c: char)
    requires p.line == "" && IsBreak(c) && !(p.afterReturn && c == '\n')
    ensures Clean(Read(p, c)) && Read(p, c).afterReturn == (c == '\r')
  {
  }

  lemma ReadLast(p: Parser, text: string)
    requires text != ""
    ensures ReadAll(p, text) == Read(ReadAll(p, text[..|text| - 1]), text[|text| - 1])
  {
    var last := [text[|text| - 1]];
    assert text == text[..|text| - 1] + last;
    ReadConcat(p, text[..|text| - 1], last);
    assert last[1..] == "";
  }

  /** After a chunk that ends in a blank line nothing is half read. */
  lemma FrameLeavesClean(p: Parser, text: string)
    requires Steady(p) && EndsInBlankLine(text)
    ensures Clean(ReadAll(p, text))
  {
    var n := |text|;
    var one := text[..n - 1];
    ReadLast(p, text);
    ReadLast(p, one);
    assert one[..n - 2] == text[..n - 2];
    ReadingIsSteady(p, text[..n - 2]);
    AfterABreak(ReadAll(p, text[..n - 2]), text[n - 2]);
    if text[n - 2] == '\r' && text[n - 1] == '\n' {
      ReadLast(p, text[..n - 2]);
      assert text[..n - 2][..n - 3] == text[..n - 3];
      ReadingIsSteady(p, text[..n - 3]);
      AfterABreak(ReadAll(p, text[..n - 3]), text[n - 3]);
      BlankLineCleans(ReadAll(p, text[..n - 2]), '\r');
    } else {
      BlankLineCleans(ReadAll(p, one), text[n - 1]);
    }
  }

  /** Two parsers that differ at most in having just read a carriage return. */
  predicate Alike(p: Parser, q: Parser) {
    p.(afterReturn := false) == q.(afterReturn := false)
  }

  /** With nothing half read that difference does not survive a character. */
  lemma AlikeReadAlike(p: Parser, q: Parser, text: string)
    requires Clean(p) && Alike(p, q) && text != ""
    ensures ReadAll(p, text) == ReadAll(q, text)
  {
    assert Read(p, text[0]) == Read(q, text[0]);
  }

  ghost predicate CompleteFrames(frames: seq<Frame>) {
    forall k :: 0 <= k < |frames| && frames[k].Chunk? ==> EndsInBlankLine(frames[k].text)
  }

  /** A parser of the stream with beats, and one of the stream without. */
  ghost predicate InStep(with: Parser, without: Parser) {
    Alike(with, without) && Clean(with) && Steady(with)
  }

  lemma BeatKeepsStep(with: Parser, without: Parser)
    requires InStep(with, without)
    ensures InStep(ReadAll(with, HEARTBEAT), without)
  {
    HeartbeatChangesNothing(with);
  }

  lemma ChunkKeepsStep(with: Parser, without: Parser, text: string)
    requires InStep(with, without) && EndsInBlankLine(text)
    ensures InStep(ReadAll(with, text), ReadAll(without, text))
  {
    AlikeReadAlike(with, without, text);
    FrameLeavesClean(with, text);
    ReadingIsSteady(with, text);
  }

  /**
   Wherever and however often the beats fall, a parser reads the stream as it would have read upstream alone,
   provided upstream's chunks are complete frames: the same events, ids and reconnection time at every frame.
   */
  lemma {:induction false} HeartbeatsAreInvisible(frames: seq<Frame>, n: nat)
    requires CompleteFrames(frames) && n <= |frames|
    ensures var with, without := ReadAll(Start(), Text(frames, n)), ReadAll(Start(), UpstreamText(frames, n));
            && InStep(with, without)
            && with.events == without.events && with.lastId == without.lastId && with.retry == without.retry
  {
    if n > 0 {
      HeartbeatsAreInvisible(frames, n - 1);
      var with, without := ReadAll(Start(), Text(frames, n - 1)), ReadAll(Start(), UpstreamText(frames, n - 1));
      match frames[n - 1] {
        case Beat =>
          ReadConcat(Start(), Text(frames, n - 1), HEARTBEAT);
          BeatKeepsStep(with, without);
          assert UpstreamText(frames, n) == UpstreamText(frames, n - 1);
        case Chunk(text) =>
          ReadConcat(Start(), Text(frames, n - 1), text);
          ReadConcat(Start(), UpstreamText(frames, n - 1), text);
          ChunkKeepsStep(with, without, text);
      }
    }
  }

  // ---- Exactly where a beat may fall ----------------------------------------------------------------------

  /** The kind an event would have: an unnamed one is a message. */
  function Kind(p: Parser): string {
    if p.kind == "" then "message" else p.kind
  }

  /** Between two events: no line, no data and no name is pending. */
  predicate Between(p: Parser) {
    p.line == "" && p.data == "" && Kind(p) == "message"
  }

  /** Nothing a client could tell apart, now or later. */
  predicate Seem(p: Parser, q: Parser) {
    && p.events == q.events && p.line == q.line && p.data == q.data && p.idBuffer == q.idBuffer && Kind(p) == Kind(q)
    && (p.afterReturn == q.afterReturn || Between(p))
  }

  lemma SeemDispatched(p: Parser, q: Parser)
    requires p.events == q.events && p.line == q.line && p.data == q.data && p.idBuffer == q.idBuffer
             && Kind(p) == Kind(q)
    requires p.afterReturn == q.afterReturn
    ensures Seem(Dispatch(p), Dispatch(q))
  {
  }

  lemma SeemWithAField(p: Parser, q: Parser, name: string, value: string)
    requires p.events == q.events && p.line == q.line && p.data == q.data && p.idBuffer == q.idBuffer
             && Kind(p) == Kind(q)
    requires p.afterReturn == q.afterReturn
    ensures Seem(TakeField(p, name, value), TakeField(q, name, value))
  {
  }

  lemma SeemAfterALine(p: Parser, q: Parser)
    requires p.events == q.events && p.line == q.line && p.data == q.data && p.idBuffer == q.idBuffer
             && Kind(p) == Kind(q)
    requires p.afterReturn == q.afterReturn
    ensures Seem(EndLine(p), EndLine(q))
  {
    if p.line == "" {
      SeemDispatched(p.(line := ""), q.(line := ""));
    } else if p.line[0] != ':' {
      SeemWithAField(p.(line := ""), q.(line := ""), p.line[..ColonAt(p.line)], ValueOf(p.line));
    }
  }

  lemma SeemAfterOne(p: Parser, q: Parser, c: char)
    requires Seem(p, q)
    ensures Seem(Read(p, c), Read(q, c))
  {
    if IsBreak(c) && p.afterReturn == q.afterReturn {
      SeemAfterALine(p.(afterReturn := false), q.(afterReturn := false));
    }
  }

  lemma {:induction false} SeemForever(p: Parser, q: Parser, text: string)
    requires Seem(p, q)
    ensures ReadAll(p, text).events == ReadAll(q, text).events
    decreases text
  {
    if text != "" {
      SeemAfterOne(p, q, text[0]);
      SeemForever(Read(p, text[0]), Read(q, text[0]), text[1..]);
    }
  }

  const PROBE := "data:a"

  lemma ReadProbe(p: Parser)
    ensures ReadAll(p, PROBE + "\n\n") == Dispatch(EndLine(p.(line := p.line + PROBE, afterReturn := false)))
  {
    ReadFrame(p, PROBE);
  }

  lemma ProbeIsData()
    ensures PROBE[..ColonAt(PROBE)] == "data" && ValueOf(PROBE) == "a" && PROBE[0] != ':'
  {
    assert ColonAt(PROBE) == 4;
    assert PROBE[..4] == "data" && PROBE[5..] == "a";
  }

  lemma ProbeEnds(p: Parser)
    requires p.line == PROBE && p.data == ""
    ensures EndLine(p) == p.(line := "", data := "a\n")
  {
    ProbeIsData();
    assert "" + "a" + "\n" == "a\n";
  }

  lemma ProbeAlone(p: Parser)
    requires p.line == "" && p.data == ""
    ensures ReadAll(p, PROBE + "\n\n").events == p.events + [Event(Kind(p), "a", p.idBuffer)]
  {
    ReadProbe(p);
    assert "" + PROBE == PROBE;
    ProbeEnds(p.(line := PROBE, afterReturn := false));
    assert "a\n"[..1] == "a";
  }

  lemma {:induction false} ColonOfTwo(a: string, b: string)
    ensures ColonAt(a + b) == if ColonAt(a) < |a| then ColonAt(a) else |a| + ColonAt(b)
  {
    if a == "" {
      assert a + b == b;
    } else if a[0] != ':' {
      assert (a + b)[1..] == a[1..] + b;
      ColonOfTwo(a[1..], b);
    }
  }

  /** After the start of another line the probe is not read as itself. */
  lemma ProbeAfterALine(line: string)
    requires line != ""
    ensures var all := line + PROBE; all[..ColonAt(all)] == "data" ==> |ValueOf(all)| > 1
  {
    assert ColonAt(PROBE) == 4;
    ColonOfTwo(line, PROBE);
  }

  lemma ProbeUnlike(p: Parser)
    requires p.line != "" && p.data == ""
    ensures var q := ReadAll(p, PROBE + "\n\n");
            q.events == p.events || (|q.events| == |p.events| + 1 && q.events[|p.events|].data != "a")
  {
    ReadProbe(p);
    var all := p.line + PROBE;
    var ended := EndLine(p.(line := all, afterReturn := false));
    ProbeAfterALine(p.line);
    if ended.data != "" {
      assert ended.data == "" + ValueOf(all) + "\n";
      assert ended.data[..|ended.data| - 1] == ValueOf(all);
    }
  }

  lemma Dispatching(p: Parser)
    ensures var q := Dispatch(p);
            && q.line == p.line && q.afterReturn == p.afterReturn && q.data == "" && q.kind == ""
            && |q.events| == |p.events| + if p.data == "" then 0 else 1
  {
  }

  lemma HeartbeatEnds(p: Parser)
    ensures var q := ReadAll(p, HEARTBEAT);
            && q.line == "" && q.data == "" && q.kind == "" && !q.afterReturn
            && |q.events| >= |p.events| && (p.data != "" ==> |q.events| == |p.events| + 1)
  {
    ReadHeartbeat(p);
    var beaten := p.(line := p.line + HEARTBEAT_COMMENT, afterReturn := false);
    EndingALine(beaten);
    Dispatching(EndLine(beaten));
  }

  /** A beat that falls inside an event shows: some way for the stream to go on is read differently. */
  lemma ABeatInsideShows(p: Parser) returns (text: string)
    requires !Between(p)
    ensures ReadAll(ReadAll(p, HEARTBEAT), text).events != ReadAll(p, text).events
  {
    var beaten := ReadAll(p, HEARTBEAT);
    HeartbeatEnds(p);
    if p.data != "" {
      text := "";
    } else {
      text := PROBE + "\n\n";
      ProbeAlone(beaten);
      if p.line == "" {
        ReadHeartbeat(p);
        CommentIsOneLine();
        assert "" + HEARTBEAT_COMMENT == HEARTBEAT_COMMENT;
        assert beaten.events == p.events;
        ProbeAlone(p);
        var one, other := ReadAll(beaten, text).events, ReadAll(p, text).events;
        assert one[|p.events|].kind == "message" && other[|p.events|].kind == Kind(p);
      } else {
        ProbeUnlike(p);
        var one := ReadAll(beaten, text).events;
        assert one[|beaten.events|].data == "a";
      }
    }
  }

  lemma ABeatBetweenSeemsNothing(p: Parser)
    requires Between(p)
    ensures Seem(p, ReadAll(p, HEARTBEAT))
  {
    ReadHeartbeat(p);
    CommentIsOneLine();
    assert "" + HEARTBEAT_COMMENT == HEARTBEAT_COMMENT;
  }

  /**
   After any text at all, a beat is invisible to the client, however the stream goes on, exactly when it falls
   between two events.
   */
  lemma InvisibleExactlyBetweenEvents(before: string)
    ensures (forall after: string ::
               ReadAll(Start(), before + HEARTBEAT + after).events == ReadAll(Start(), before + after).events)
            <==> Between(ReadAll(Start(), before))
  {
    var p := ReadAll(Start(), before);
    forall after: string
      ensures ReadAll(Start(), before + HEARTBEAT + after) == ReadAll(ReadAll(p, HEARTBEAT), after)
      ensures ReadAll(Start(), before + after) == ReadAll(p, after)
    {
      ReadConcat(Start(), before + HEARTBEAT, after);
      ReadConcat(Start(), before, HEARTBEAT);
      ReadConcat(Start(), before, after);
    }
    if Between(p) {
      ABeatBetweenSeemsNothing(p);
      forall after: string ensures ReadAll(ReadAll(p, HEARTBEAT), after).events == ReadAll(p, after).events {
        SeemForever(p, ReadAll(p, HEARTBEAT), after);
      }
    } else {
      var after := ABeatInsideShows(p);
    }
  }

  // ---- The stage ------------------------------------------------------------------------------------------

  /** How one wait for upstream's next chunk came out. */
  datatype Wait = Expired | Landed(text: string) | Ended | Failed(error: string)

  predicate Stops(wait: Wait) {
    wait.Ended? || wait.Failed?
  }

  /** What has left after `n` waits, none of which stopped the stream. */
  function Left(waits: seq<Wait>, n: nat): seq<Frame>
    requires n <= |waits|
  {
    if n == 0 then []
    else Left(waits, n - 1) + match waits[n - 1]
                              case Expired => [Beat]
                              case Landed(text) => [Chunk(text)]
                              case _ => []
  }

  /** Upstream's chunks, in order. */
  function Chunks(frames: seq<Frame>): seq<string> {
    if frames == [] then []
    else Chunks(frames[..|frames| - 1]) + match frames[|frames| - 1] case Chunk(text) => [text] case Beat => []
  }

  function LandedIn(waits: seq<Wait>, n: nat): seq<string>
    requires n <= |waits|
  {
    if n == 0 then [] else LandedIn(waits, n - 1) + match waits[n - 1] case Landed(text) => [text] case _ => []
  }

  /** The loop over the waits: a beat for each that expires, the chunk for each that lands, until one stops it. */
  method ForwardWithHeartbeats(waits: seq<Wait>) returns (out: seq<Frame>, stopped: nat, raised: Option<string>)
    ensures stopped <= |waits| && out == Left(waits, stopped)
    ensures |out| == stopped && forall k :: 0 <= k < stopped ==>
              match waits[k] case Expired => out[k] == Beat case Landed(text) => out[k] == Chunk(text) case _ => false
    ensures stopped < |waits| ==> waits[stopped].Ended? || waits[stopped].Failed?
    ensures raised == if stopped < |waits| && waits[stopped].Failed? then Some(waits[stopped].error) else None
  {
    out, stopped, raised := [], 0, None;
    while stopped < |waits|
      invariant stopped <= |waits| && out == Left(waits, stopped) && raised == None
      invariant |out| == stopped && forall k :: 0 <= k < stopped ==>
                  match waits[k] case Expired => out[k] == Beat case Landed(text) => out[k] == Chunk(text)
                  case _ => false
    {
      match waits[stopped] {
        case Expired =>
          out := out + [Beat];
        case Landed(text) =>
          out := out + [Chunk(text)];
        case Ended =>
          break;
        case Failed(error) =>
          raised := Some(error);
          break;
      }
      stopped := stopped + 1;
    }
  }

  /** Taking the beats out again leaves what upstream sent, in order. */
  lemma {:induction false} OnlyBeatsAreAdded(waits: seq<Wait>, n: nat)
    requires n <= |waits|
    ensures Chunks(Left(waits, n)) == LandedIn(waits, n)
  {
    if n > 0 {
      OnlyBeatsAreAdded(waits, n - 1);
      var before := Left(waits, n - 1);
      if waits[n - 1].Expired? || waits[n - 1].Landed? {
        assert Left(waits, n)[..|before|] == before;
      } else {
        assert Left(waits, n) == before;
      }
    }
  }
}
