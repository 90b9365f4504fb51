/**
 The AG-UI messages a thread row holds, as far as the persistence kernel reads them.
 Every kind of message carries an id; everything else a message carries is its body.
 */
module Messages {

  datatype Option<+T> = None | Some(value: T)

  type Id = string

  /** A JSON value, compared structurally. */
  datatype Json =
    | Null
    | Bool(b: bool)
    | Number(n: real)
    | Text(s: string)
    | Array(items: seq<Json>)
    | Object(fields: map<string, Json>)

  datatype ToolCall = ToolCall(id: Id, name: string, arguments: string)

  /** Where a media part's bytes are: inline base64, behind a URL, or at a provider. */
  datatype Source = Inline(data: string) | Url(url: string) | File(handle: string)

  datatype Part = TextPart(text: string) | MediaPart(source: Source)

  datatype Content = Plain(text: string) | Parts(parts: seq<Part>)

  /** No tool calls and an empty list of them are one thing here, as in every test the code makes. */
  datatype Message =
    | System(id: Id, prompt: string)
    | User(id: Id, body: Content)
    | Assistant(id: Id, answer: Option<string>, calls: seq<ToolCall>)
    | Tool(id: Id, callId: Id, result: string, outcome: Option<string>)
    | Reasoning(id: Id, thought: string)
    | Activity(id: Id, activityType: string, content: map<string, Json>)

  /** Whether two messages are one message under two ids. */
  predicate SameButId(m: Message, n: Message) {
    match m
    case System(_, prompt) => n.System? && n.prompt == prompt
    case User(_, body) => n.User? && n.body == body
    case Assistant(_, answer, calls) => n.Assistant? && n.answer == answer && n.calls == calls
    case Tool(_, callId, result, outcome) => n.Tool? && n.callId == callId && n.result == result && n.outcome == outcome
    case Reasoning(_, thought) => n.Reasoning? && n.thought == thought
    case Activity(_, activityType, content) => n.Activity? && n.activityType == activityType && n.content == content
  }

  function WithId(m: Message, id: Id): (n: Message)
    ensures n.id == id && SameButId(m, n)
    ensures n == m <==> id == m.id
  {
    m.(id := id)
  }

  function Ids(messages: seq<Message>): (ids: set<Id>)
    ensures forall i :: 0 <= i < |messages| ==> messages[i].id in ids
  {
    set m | m in messages :: m.id
  }

  ghost predicate DistinctIds(messages: seq<Message>) {
    forall i, j :: 0 <= i < j < |messages| ==> messages[i].id != messages[j].id
  }

  /** `text` with every newline removed. */
  function Flat(text: string): (flat: string)
    ensures '\n' !in flat
    ensures forall c :: c != '\n' && c in text ==> c in flat
  {
    if text == "" then ""
    else if text[0] == '\n' then Flat(text[1..])
    else [text[0]] + Flat(text[1..])
  }

  /** A missing text reads as the empty one. */
  function OrEmpty(text: Option<string>): string {
    match text
    case None => ""
    case Some(t) => t
  }
}
