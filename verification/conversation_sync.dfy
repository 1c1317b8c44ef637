/**
 Importing past conversations (MacOS/brain/conversation-sync.ts): three loops that fold decoded rows into turns.

 Every row acts on the turns in one of a few ways, its event; the loops below are proved against the fold of
 their rows' events. `strip` stands for the removal of system wrappers, which ends by trimming.
 */
module ConversationSync {
  import opened Options
  import opened LineFraming

  datatype Kind = Text | Thinking | ToolCall | ToolResult

  datatype Block = Block(kind: Kind, text: string, name: string, cmd: string, ts: int)

  datatype Turn = Turn(input: string, output: string, transcript: seq<Block>, createdAt: int)

  const BLOCK_CAP: nat := 4000

  function Cap(s: string): string {
    if |s| > BLOCK_CAP then s[..BLOCK_CAP] + ['\U{2026}'] else s
  }

  // ---- events ----

  /** `Reply` opens a turn if none is open; `Attach` only adds to an open one. */
  datatype Event =
    | Skip
    | Human(input: string, ts: int)
    | Close
    | Reply(blocks: seq<Block>, output: Option<string>, ts: int)
    | Attach(blocks: seq<Block>)

  /** `open` says that the current turn is the last of `turns`; otherwise there is none. */
  datatype State = State(turns: seq<Turn>, open: bool)

  function Push(s: State, input: string, ts: int): State {
    State(s.turns + [Turn(input, "", [], ts)], true)
  }

  function AddTo(s: State, blocks: seq<Block>, output: Option<string>): State
    requires s.turns != []
  {
    var n := |s.turns| - 1;
    var cur := s.turns[n];
    s.(turns := s.turns[n := cur.(transcript := cur.transcript + blocks, output := if output.Some? then output.value else cur.output)])
  }

  lemma AddNothing(s: State)
    requires s.turns != []
    ensures AddTo(s, [], None) == s
  {
    var n := |s.turns| - 1;
    assert s.turns[n].transcript + [] == s.turns[n].transcript;
  }

  lemma AddTwice(s: State, a: seq<Block>, x: Option<string>, b: seq<Block>, y: Option<string>)
    requires s.turns != []
    ensures AddTo(AddTo(s, a, x), b, y) == AddTo(s, a + b, if y.Some? then y else x)
  {
    var n := |s.turns| - 1;
    assert s.turns[n].transcript + a + b == s.turns[n].transcript + (a + b);
  }

  function Apply(s: State, e: Event): (s': State)
    requires s.open ==> s.turns != []
    ensures s'.open ==> s'.turns != []
  {
    match e
    case Skip => s
    case Human(input, ts) => Push(s, input, ts)
    case Close => s.(open := false)
    case Reply(blocks, output, ts) => AddTo(if s.open then s else Push(s, "", ts), blocks, output)
    case Attach(blocks) => if s.open then AddTo(s, blocks, None) else s
  }

  function Fold(events: seq<Event>): (s: State)
    ensures s.open ==> s.turns != []
  {
    if events == [] then State([], false) else Apply(Fold(events[..|events| - 1]), events[|events| - 1])
  }

  predicate Worth(t: Turn) {
    Trim(t.input) != "" || t.transcript != []
  }

  function Returned(turns: seq<Turn>): seq<Turn> {
    if turns == [] then []
    else Returned(turns[..|turns| - 1]) + if Worth(turns[|turns| - 1]) then [turns[|turns| - 1]] else []
  }

  // ---- Claude rows ----

  datatype Content = Plain(text: string) | Parts(parts: seq<Part>) | NoContent

  datatype Part = TextPart(text: string) | ThinkingPart(thinking: string) | ToolUsePart(tool: Tool) | ResultPart(result: string) | OtherPart

  datatype Tool = Tool(name: string, title: string, detail: string)

  datatype Body = Body(text: string, thinking: seq<string>, tools: seq<Tool>)

  datatype ClaudeRow = UserRow(meta: bool, content: Content, ts: int) | AssistantRow(meta: bool, content: Content, ts: int) | OtherRow

  function JoinParts(parts: seq<string>): string {
    if parts == [] then "" else if |parts| == 1 then parts[0] else parts[0] + "\n\n" + JoinParts(parts[1..])
  }

  function TextsOf(parts: seq<Part>): seq<string> {
    if parts == [] then []
    else TextsOf(parts[..|parts| - 1]) +
         match parts[|parts| - 1]
         case TextPart(text) => [text]
         case ResultPart(result) => if Trim(result) != "" then [result] else []
         case _ => []
  }

  function ThinkingOf(parts: seq<Part>): seq<string> {
    if parts == [] then []
    else ThinkingOf(parts[..|parts| - 1]) + if parts[|parts| - 1].ThinkingPart? then [parts[|parts| - 1].thinking] else []
  }

  function ToolsOf(parts: seq<Part>): seq<Tool> {
    if parts == [] then []
    else ToolsOf(parts[..|parts| - 1]) + if parts[|parts| - 1].ToolUsePart? then [parts[|parts| - 1].tool] else []
  }

  function BodyOf(content: Content): Body {
    match content
    case Plain(text) => Body(text, [], [])
    case Parts(parts) => Body(JoinParts(TextsOf(parts)), ThinkingOf(parts), ToolsOf(parts))
    case NoContent => Body("", [], [])
  }

  /** A user row that only carries tool results. */
  predicate ResultsOnly(content: Content) {
    content.Parts? && forall i :: 0 <= i < |content.parts| ==> content.parts[i].ResultPart?
  }

  function ThinkingBlocks(thinking: seq<string>, ts: int): seq<Block> {
    if thinking == [] then []
    else
      var th := thinking[|thinking| - 1];
      ThinkingBlocks(thinking[..|thinking| - 1], ts) + if Trim(th) != "" then [Block(Thinking, Cap(th), "", "", ts)] else []
  }

  function TextBlocks(text: string, ts: int): seq<Block> {
    if Trim(text) != "" then [Block(Text, Cap(text), "", "", ts)] else []
  }

  function ToolBlocks(tools: seq<Tool>, ts: int): seq<Block> {
    if tools == [] then []
    else
      var t := tools[|tools| - 1];
      ToolBlocks(tools[..|tools| - 1], ts) + [Block(ToolCall, t.title, t.name, t.detail, ts)]
  }

  function ReplyOf(body: Body, ts: int): Event {
    Reply(ThinkingBlocks(body.thinking, ts) + TextBlocks(body.text, ts) + ToolBlocks(body.tools, ts),
          if Trim(body.text) != "" then Some(Cap(body.text)) else None, ts)
  }

  function HumanOf(clean: string, ts: int): Event {
    if clean == "" then Close else Human(Cap(clean), ts)
  }

  predicate IsCaveat(clean: string) {
    "Caveat:" <= clean
  }

  function ClaudeEvent(row: ClaudeRow, open: bool, strip: string -> string): Event {
    match row
    case OtherRow => Skip
    case UserRow(meta, content, ts) =>
      if meta then Skip
      else
        var text := BodyOf(content).text;
        if ResultsOnly(content) && open then
          (if Trim(text) != "" then Attach([Block(ToolResult, Cap(text), "", "", ts)]) else Skip)
        else if IsCaveat(strip(text)) then Close
        else HumanOf(strip(text), ts)
    case AssistantRow(meta, content, ts) => if meta then Skip else ReplyOf(BodyOf(content), ts)
  }

  function OpenAfter(open: bool, e: Event): bool {
    match e
    case Human(_, _) => true
    case Reply(_, _, _) => true
    case Close => false
    case _ => open
  }

  function IsOpen(events: seq<Event>): bool {
    if events == [] then false else OpenAfter(IsOpen(events[..|events| - 1]), events[|events| - 1])
  }

  lemma {:induction false} FoldOpens(events: seq<Event>)
    ensures Fold(events).open == IsOpen(events)
    decreases |events|
  {
    if events != [] { FoldOpens(events[..|events| - 1]); }
  }

  function ClaudeEvents(rows: seq<ClaudeRow>, strip: string -> string): seq<Event> {
    if rows == [] then []
    else
      var before := ClaudeEvents(rows[..|rows| - 1], strip);
      before + [ClaudeEvent(rows[|rows| - 1], IsOpen(before), strip)]
  }

  // ---- Codex rows ----

  datatype CodexRow = UserMessage(text: string, ts: int) | AssistantMessage(text: string, ts: int)
                    | Call(name: string, title: string, cmd: string, ts: int) | IgnoredRow

  function CodexEvent(row: CodexRow, strip: string -> string): Event {
    match row
    case UserMessage(text, ts) => HumanOf(strip(text), ts)
    case AssistantMessage(text, ts) => Reply(TextBlocks(text, ts), if Trim(text) != "" then Some(Cap(text)) else None, ts)
    case Call(name, title, cmd, ts) => Attach([Block(ToolCall, title, name, cmd, ts)])
    case IgnoredRow => Skip
  }

  function CodexEvents(rows: seq<CodexRow>, strip: string -> string): seq<Event> {
    if rows == [] then [] else CodexEvents(rows[..|rows| - 1], strip) + [CodexEvent(rows[|rows| - 1], strip)]
  }

  // ---- Conductor rows ----

  datatype ConductorRow = ConductorRow(user: bool, body: Body, ts: int)

  function ConductorEvent(row: ConductorRow, strip: string -> string): Event {
    if row.user then HumanOf(strip(row.body.text), row.ts) else ReplyOf(row.body, row.ts)
  }

  function ConductorEvents(rows: seq<ConductorRow>, strip: string -> string): seq<Event> {
    if rows == [] then [] else ConductorEvents(rows[..|rows| - 1], strip) + [ConductorEvent(rows[|rows| - 1], strip)]
  }
}
