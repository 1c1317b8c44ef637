/**
 What each row of a conversation becomes, read off the rows themselves: which start a turn, which add to one, what is kept
 of each part, and when the turns were opened.
 */
module ConversationRows {
  import opened Options
  import opened LineFraming
  import opened ConversationSync
  import opened ConversationLaws

  // ---- parts ----

  /** The first 4000 characters and an ellipsis, if there are more. */
  function Clipped(s: string): string {
    if |s| <= 4000 then s else s[..4000] + "\U{2026}"
  }

  predicate IsBlank(s: string) {
    Trim(s) == ""
  }

  /** The texts of a message and its results that are not blank, in order. */
  function Spoken(parts: seq<Part>): seq<string> {
    if parts == [] then []
    else
      (match parts[0]
       case TextPart(text) => [text]
       case ResultPart(result) => if IsBlank(result) then [] else [result]
       case _ => []) + Spoken(parts[1..])
  }

  /** An empty line between any two. */
  function Paragraphs(texts: seq<string>): string {
    if texts == [] then ""
    else if |texts| == 1 then texts[0]
    else Paragraphs(texts[..|texts| - 1]) + "\n\n" + texts[|texts| - 1]
  }

  function TextOf(content: Content): string {
    match content
    case Plain(text) => text
    case Parts(parts) => Paragraphs(Spoken(parts))
    case NoContent => ""
  }

  function Thoughts(parts: seq<Part>, ts: int): seq<Block> {
    if parts == [] then []
    else
      (if parts[0].ThinkingPart? && !IsBlank(parts[0].thinking) then [Block(Thinking, Clipped(parts[0].thinking), "", "", ts)] else [])
      + Thoughts(parts[1..], ts)
  }

  function Calls(parts: seq<Part>, ts: int): seq<Block> {
    if parts == [] then []
    else
      (match parts[0]
       case ToolUsePart(tool) => [Block(ToolCall, tool.title, tool.name, tool.detail, ts)]
       case _ => []) + Calls(parts[1..], ts)
  }

  function Speech(kind: Kind, text: string, ts: int): seq<Block> {
    if IsBlank(text) then [] else [Block(kind, Clipped(text), "", "", ts)]
  }

  /** A reply: its thinking, what it says, and the tools it calls. */
  function ReplyBlocks(content: Content, ts: int): seq<Block> {
    match content
    case Parts(parts) => Thoughts(parts, ts) + Speech(Text, TextOf(content), ts) + Calls(parts, ts)
    case _ => Speech(Text, TextOf(content), ts)
  }

  predicate OnlyResults(content: Content) {
    content.Parts? && forall p :: p in content.parts ==> p.ResultPart?
  }

  /** More than system wrappers, and no caveat. */
  predicate IsMessage(content: Content, strip: string -> string) {
    strip(TextOf(content)) != "" && !("Caveat:" <= strip(TextOf(content)))
  }

  // ---- Claude rows ----

  /** A turn is open after what the user said and after what the assistant said, until the user sends boilerplate. */
  function Open(rows: seq<ClaudeRow>, strip: string -> string): bool {
    if rows == [] then false
    else
      var open := Open(rows[..|rows| - 1], strip);
      match rows[|rows| - 1]
      case OtherRow => open
      case AssistantRow(meta, _, _) => open || !meta
      case UserRow(meta, content, _) => if meta || (open && OnlyResults(content)) then open else IsMessage(content, strip)
  }

  function ItemsOfRow(row: ClaudeRow, open: bool, strip: string -> string): seq<Item> {
    match row
    case OtherRow => []
    case AssistantRow(meta, content, ts) => if meta then [] else (if open then [] else [Said("")]) + Dids(ReplyBlocks(content, ts))
    case UserRow(meta, content, ts) =>
      if meta then []
      else if open && OnlyResults(content) then Dids(Speech(ToolResult, TextOf(content), ts))
      else if IsMessage(content, strip) then [Said(Clipped(strip(TextOf(content))))]
      else []
  }

  function RowItems(rows: seq<ClaudeRow>, strip: string -> string): seq<Item> {
    if rows == [] then []
    else
      var init := rows[..|rows| - 1];
      RowItems(init, strip) + ItemsOfRow(rows[|rows| - 1], Open(init, strip), strip)
  }

  // ---- the model reads the parts alike ----

  lemma {:induction false} PartsRead(parts: seq<Part>, ts: int)
    ensures Spoken(parts) == TextsOf(parts)
    ensures Thoughts(parts, ts) == ThinkingBlocks(ThinkingOf(parts), ts)
    ensures Calls(parts, ts) == ToolBlocks(ToolsOf(parts), ts)
    decreases |parts|
  {
    if parts != [] {
      var init, last := parts[..|parts| - 1], parts[|parts| - 1];
      PartsRead(init, ts);
      SnocParts(init, last, ts);
      assert parts == init + [last];
      LastPartReads(parts, ts);
      hide Spoken, Thoughts, Calls, TextsOf, ThinkingBlocks, ToolBlocks, ThinkingOf, ToolsOf;
    }
  }

  lemma LastPartReads(parts: seq<Part>, ts: int)
    requires parts != []
    ensures var init, last := parts[..|parts| - 1], parts[|parts| - 1];
      && TextsOf(parts) == TextsOf(init) + Spoken([last])
      && ThinkingBlocks(ThinkingOf(parts), ts) == ThinkingBlocks(ThinkingOf(init), ts) + Thoughts([last], ts)
      && ToolBlocks(ToolsOf(parts), ts) == ToolBlocks(ToolsOf(init), ts) + Calls([last], ts)
  {
    var init, last := parts[..|parts| - 1], parts[|parts| - 1];
    assert [last][1..] == [];
    var th, tools := ThinkingOf(init), ToolsOf(init);
    if last.ThinkingPart? { assert (th + [last.thinking])[..|th|] == th; } else { assert th + [] == th; }
    if last.ToolUsePart? { assert (tools + [last.tool])[..|tools|] == tools; } else { assert tools + [] == tools; }
  }

  lemma SnocParts(init: seq<Part>, last: Part, ts: int)
    ensures Spoken(init + [last]) == Spoken(init) + Spoken([last])
    ensures Thoughts(init + [last], ts) == Thoughts(init, ts) + Thoughts([last], ts)
    ensures Calls(init + [last], ts) == Calls(init, ts) + Calls([last], ts)
  {
    hide *;
    SnocSpoken(init, last);
    SnocPartThoughts(init, last, ts);
    SnocCalls(init, last, ts);
  }

  lemma {:induction false} SnocSpoken(init: seq<Part>, last: Part)
    ensures Spoken(init + [last]) == Spoken(init) + Spoken([last])
  {
    if init == [] {
      assert [] + [last] == [last];
    } else {
      assert (init + [last])[1..] == init[1..] + [last];
      SnocSpoken(init[1..], last);
    }
  }

  lemma {:induction false} SnocPartThoughts(init: seq<Part>, last: Part, ts: int)
    ensures Thoughts(init + [last], ts) == Thoughts(init, ts) + Thoughts([last], ts)
  {
    if init == [] {
      assert [] + [last] == [last];
    } else {
      assert (init + [last])[1..] == init[1..] + [last];
      SnocPartThoughts(init[1..], last, ts);
    }
  }

  lemma {:induction false} SnocCalls(init: seq<Part>, last: Part, ts: int)
    ensures Calls(init + [last], ts) == Calls(init, ts) + Calls([last], ts)
  {
    if init == [] {
      assert [] + [last] == [last];
    } else {
      assert (init + [last])[1..] == init[1..] + [last];
      SnocCalls(init[1..], last, ts);
    }
  }

  lemma {:induction false} ParagraphsRead(texts: seq<string>)
    ensures Paragraphs(texts) == JoinParts(texts)
    decreases |texts|
  {
    if |texts| > 1 {
      var init, last := texts[..|texts| - 1], texts[|texts| - 1];
      ParagraphsRead(init);
      JoinSnoc(init, last);
      assert texts == init + [last];
    }
  }

  lemma {:induction false} JoinSnoc(init: seq<string>, last: string)
    requires init != []
    ensures JoinParts(init + [last]) == JoinParts(init) + "\n\n" + last
  {
    if |init| == 1 {
      assert (init + [last])[1..] == [last];
    } else {
      assert (init + [last])[1..] == init[1..] + [last];
      JoinSnoc(init[1..], last);
      assert init[0] + "\n\n" + (JoinParts(init[1..]) + "\n\n" + last) == init[0] + "\n\n" + JoinParts(init[1..]) + "\n\n" + last;
    }
  }

  lemma ContentReads(content: Content, ts: int)
    ensures TextOf(content) == BodyOf(content).text
    ensures ReplyOf(BodyOf(content), ts).blocks == ReplyBlocks(content, ts)
    ensures OnlyResults(content) <==> ResultsOnly(content)
    ensures forall s :: Clipped(s) == Cap(s)
  {
    if content.Parts? {
      PartsRead(content.parts, ts);
      ParagraphsRead(TextsOf(content.parts));
      assert forall i :: 0 <= i < |content.parts| ==> content.parts[i] in content.parts;
    }
    hide Spoken, Thoughts, Calls, Paragraphs, JoinParts, TextsOf, Trim;
    assert [] + TextBlocks(BodyOf(content).text, ts) + [] == TextBlocks(BodyOf(content).text, ts);
  }

  function OpenAfterRow(row: ClaudeRow, open: bool, strip: string -> string): bool {
    match row
    case OtherRow => open
    case AssistantRow(meta, _, _) => open || !meta
    case UserRow(meta, content, _) => if meta || (open && OnlyResults(content)) then open else IsMessage(content, strip)
  }

  lemma ReplyReads(row: ClaudeRow, open: bool, strip: string -> string)
    requires row.AssistantRow? && !row.meta
    ensures var e := ClaudeEvent(row, open, strip); ItemsOf(e, open) == ItemsOfRow(row, open, strip) && OpenAfter(open, e)
  {
    ContentReads(row.content, row.ts);
    var e := ClaudeEvent(row, open, strip);
    assert e == ReplyOf(BodyOf(row.content), row.ts) && e.Reply?;
    hide ClaudeEvent, ReplyOf, BodyOf, ReplyBlocks, Dids;
  }

  lemma UserReads(row: ClaudeRow, open: bool, strip: string -> string)
    requires row.UserRow? && !row.meta
    ensures var e := ClaudeEvent(row, open, strip);
      ItemsOf(e, open) == ItemsOfRow(row, open, strip) && OpenAfter(open, e) == OpenAfterRow(row, open, strip)
  {
    ContentReads(row.content, row.ts);
    assert Dids([]) == [];
    hide TextOf, BodyOf, ReplyBlocks, OnlyResults, ResultsOnly, Clipped, Cap, Trim, ReplyOf, Dids;
  }

  lemma RowReads(row: ClaudeRow, open: bool, strip: string -> string)
    ensures var e := ClaudeEvent(row, open, strip);
      ItemsOf(e, open) == ItemsOfRow(row, open, strip) && OpenAfter(open, e) == OpenAfterRow(row, open, strip)
  {
    hide ReplyOf, BodyOf, ReplyBlocks, OnlyResults, ResultsOnly, IsMessage, HumanOf, Dids;
    match row
    case OtherRow =>
    case AssistantRow(meta, _, _) => if !meta { ReplyReads(row, open, strip); }
    case UserRow(meta, _, _) => if !meta { UserReads(row, open, strip); }
  }

  lemma {:induction false} RowsRead(rows: seq<ClaudeRow>, strip: string -> string)
    ensures IsOpen(ClaudeEvents(rows, strip)) == Open(rows, strip)
    ensures Stream(ClaudeEvents(rows, strip)) == RowItems(rows, strip)
    decreases |rows|
  {
    if rows != [] {
      var init, row := rows[..|rows| - 1], rows[|rows| - 1];
      RowsRead(init, strip);
      var before := ClaudeEvents(init, strip);
      RowReads(row, Open(init, strip), strip);
      assert (before + [ClaudeEvent(row, IsOpen(before), strip)])[..|before|] == before;
      hide ClaudeEvent, ItemsOf, ItemsOfRow, OpenAfter, IsMessage, OnlyResults;
    }
  }

  // ---- Codex and Conductor rows ----

  function OpenCodex(rows: seq<CodexRow>, strip: string -> string): bool {
    if rows == [] then false
    else
      match rows[|rows| - 1]
      case UserMessage(text, _) => strip(text) != ""
      case AssistantMessage(_, _) => true
      case _ => OpenCodex(rows[..|rows| - 1], strip)
  }

  function ItemsOfCodex(row: CodexRow, open: bool, strip: string -> string): seq<Item> {
    match row
    case UserMessage(text, _) => if strip(text) == "" then [] else [Said(Clipped(strip(text)))]
    case AssistantMessage(text, ts) => (if open then [] else [Said("")]) + Dids(Speech(Text, text, ts))
    case Call(name, title, cmd, ts) => if open then [Did(Block(ToolCall, title, name, cmd, ts))] else []
    case IgnoredRow => []
  }

  function CodexItems(rows: seq<CodexRow>, strip: string -> string): seq<Item> {
    if rows == [] then []
    else
      var init := rows[..|rows| - 1];
      CodexItems(init, strip) + ItemsOfCodex(rows[|rows| - 1], OpenCodex(init, strip), strip)
  }

  lemma ClippedIsCap(s: string)
    ensures Clipped(s) == Cap(s)
  {
  }

  lemma CodexRowReads(row: CodexRow, open: bool, strip: string -> string)
    ensures var e := CodexEvent(row, strip);
      && ItemsOf(e, open) == ItemsOfCodex(row, open, strip)
      && OpenAfter(open, e) == match row case UserMessage(text, _) => strip(text) != "" case AssistantMessage(_, _) => true case _ => open
  {
    forall s ensures Clipped(s) == Cap(s) { ClippedIsCap(s); }
    hide Clipped, Cap, Trim;
  }

  lemma {:induction false} CodexRowsRead(rows: seq<CodexRow>, strip: string -> string)
    ensures IsOpen(CodexEvents(rows, strip)) == OpenCodex(rows, strip)
    ensures Stream(CodexEvents(rows, strip)) == CodexItems(rows, strip)
    decreases |rows|
  {
    if rows != [] {
      var init, row := rows[..|rows| - 1], rows[|rows| - 1];
      CodexRowsRead(init, strip);
      var before := CodexEvents(init, strip);
      CodexRowReads(row, OpenCodex(init, strip), strip);
      assert (before + [CodexEvent(row, strip)])[..|before|] == before;
      hide CodexEvent, ItemsOf, ItemsOfCodex, OpenAfter;
    }
  }

  function OpenConductor(rows: seq<ConductorRow>, strip: string -> string): bool {
    rows != [] && (rows[|rows| - 1].user ==> strip(rows[|rows| - 1].body.text) != "")
  }

  function ItemsOfConductor(row: ConductorRow, open: bool, strip: string -> string): seq<Item> {
    if row.user then (if strip(row.body.text) == "" then [] else [Said(Clipped(strip(row.body.text)))])
    else
      var body := row.body;
      (if open then [] else [Said("")])
      + Dids(ThoughtBlocks(body.thinking, row.ts) + Speech(Text, body.text, row.ts) + CallBlocks(body.tools, row.ts))
  }

  function ThoughtBlocks(thinking: seq<string>, ts: int): seq<Block> {
    if thinking == [] then []
    else (if IsBlank(thinking[0]) then [] else [Block(Thinking, Clipped(thinking[0]), "", "", ts)]) + ThoughtBlocks(thinking[1..], ts)
  }

  function CallBlocks(tools: seq<Tool>, ts: int): seq<Block> {
    seq(|tools|, i requires 0 <= i < |tools| => Block(ToolCall, tools[i].title, tools[i].name, tools[i].detail, ts))
  }

  function ConductorItems(rows: seq<ConductorRow>, strip: string -> string): seq<Item> {
    if rows == [] then []
    else
      var init := rows[..|rows| - 1];
      ConductorItems(init, strip) + ItemsOfConductor(rows[|rows| - 1], OpenConductor(init, strip), strip)
  }

  lemma {:induction false} ThoughtsRead(thinking: seq<string>, ts: int)
    ensures ThoughtBlocks(thinking, ts) == ThinkingBlocks(thinking, ts)
    decreases |thinking|
  {
    if thinking != [] {
      var init, last := thinking[..|thinking| - 1], thinking[|thinking| - 1];
      ThoughtsRead(init, ts);
      SnocThoughts(init, last, ts);
      assert thinking == init + [last];
      assert [last][1..] == [];
    }
  }

  lemma {:induction false} SnocThoughts(init: seq<string>, last: string, ts: int)
    ensures ThoughtBlocks(init + [last], ts) == ThoughtBlocks(init, ts) + ThoughtBlocks([last], ts)
  {
    if init == [] {
      assert [] + [last] == [last];
    } else {
      assert (init + [last])[1..] == init[1..] + [last];
      SnocThoughts(init[1..], last, ts);
    }
  }

  lemma {:induction false} CallsRead(tools: seq<Tool>, ts: int)
    ensures CallBlocks(tools, ts) == ToolBlocks(tools, ts)
    decreases |tools|
  {
    if tools != [] { CallsRead(tools[..|tools| - 1], ts); }
  }

  lemma ConductorRowReads(row: ConductorRow, open: bool, strip: string -> string)
    ensures var e := ConductorEvent(row, strip);
      && ItemsOf(e, open) == ItemsOfConductor(row, open, strip)
      && OpenAfter(open, e) == (row.user ==> strip(row.body.text) != "")
  {
    ThoughtsRead(row.body.thinking, row.ts);
    CallsRead(row.body.tools, row.ts);
    forall s ensures Clipped(s) == Cap(s) { ClippedIsCap(s); }
    hide Clipped, Cap, Trim, ThoughtBlocks, CallBlocks, ThinkingBlocks, ToolBlocks;
  }

  lemma {:induction false} ConductorRowsRead(rows: seq<ConductorRow>, strip: string -> string)
    ensures IsOpen(ConductorEvents(rows, strip)) == OpenConductor(rows, strip)
    ensures Stream(ConductorEvents(rows, strip)) == ConductorItems(rows, strip)
    decreases |rows|
  {
    if rows != [] {
      var init, row := rows[..|rows| - 1], rows[|rows| - 1];
      ConductorRowsRead(init, strip);
      var before := ConductorEvents(init, strip);
      ConductorRowReads(row, OpenConductor(init, strip), strip);
      assert (before + [ConductorEvent(row, strip)])[..|before|] == before;
      hide ConductorEvent, ItemsOf, ItemsOfConductor, OpenAfter;
    }
  }

  // ---- when turns were opened, and which come back ----

  /** What each turn begins with, and when. */
  function Openings(turns: seq<Turn>): seq<(string, int)> {
    seq(|turns|, i requires 0 <= i < |turns| => (turns[i].input, turns[i].createdAt))
  }

  function OpeningOf(e: Event, open: bool): seq<(string, int)> {
    match e
    case Human(input, ts) => [(input, ts)]
    case Reply(_, _, ts) => if open then [] else [("", ts)]
    case _ => []
  }

  function OpeningsOf(events: seq<Event>): seq<(string, int)> {
    if events == [] then []
    else OpeningsOf(events[..|events| - 1]) + OpeningOf(events[|events| - 1], IsOpen(events[..|events| - 1]))
  }

  lemma {:induction false} TurnsOpenAsTold(events: seq<Event>)
    ensures Openings(Fold(events).turns) == OpeningsOf(events)
    decreases |events|
  {
    if events != [] {
      var init, e := events[..|events| - 1], events[|events| - 1];
      TurnsOpenAsTold(init);
      FoldOpens(init);
      OpeningAdds(Fold(init), e);
    }
  }

  lemma OpeningAdds(s: State, e: Event)
    requires s.open ==> s.turns != []
    ensures Openings(Apply(s, e).turns) == Openings(s.turns) + OpeningOf(e, s.open)
  {
  }

  /** When the rows that start a turn were written. */
  function RowOpenings(rows: seq<ClaudeRow>, strip: string -> string): seq<(string, int)> {
    if rows == [] then []
    else
      var init := rows[..|rows| - 1];
      RowOpenings(init, strip) +
      match rows[|rows| - 1]
      case AssistantRow(meta, _, ts) => if meta || Open(init, strip) then [] else [("", ts)]
      case UserRow(meta, content, ts) =>
        if meta || (Open(init, strip) && OnlyResults(content)) || !IsMessage(content, strip) then []
        else [(Clipped(strip(TextOf(content))), ts)]
      case _ => []
  }

  lemma OpeningReads(row: ClaudeRow, open: bool, strip: string -> string)
    ensures OpeningOf(ClaudeEvent(row, open, strip), open) ==
      match row
      case AssistantRow(meta, _, ts) => if meta || open then [] else [("", ts)]
      case UserRow(meta, content, ts) =>
        if meta || (open && OnlyResults(content)) || !IsMessage(content, strip) then [] else [(Clipped(strip(TextOf(content))), ts)]
      case _ => []
  {
    if !row.OtherRow? { ContentReads(row.content, row.ts); }
    hide TextOf, BodyOf, ReplyBlocks, OnlyResults, ResultsOnly, Clipped, Cap, Trim;
  }

  lemma {:induction false} ClaudeOpenings(rows: seq<ClaudeRow>, strip: string -> string)
    ensures OpeningsOf(ClaudeEvents(rows, strip)) == RowOpenings(rows, strip)
    decreases |rows|
  {
    if rows != [] {
      var init, row := rows[..|rows| - 1], rows[|rows| - 1];
      ClaudeOpenings(init, strip);
      RowsRead(init, strip);
      var before := ClaudeEvents(init, strip);
      OpeningReads(row, Open(init, strip), strip);
      assert (before + [ClaudeEvent(row, IsOpen(before), strip)])[..|before|] == before;
      hide ClaudeEvent, OpeningOf, IsMessage, OnlyResults, RowItems, Stream, Open;
    }
  }

  function CodexOpenings(rows: seq<CodexRow>, strip: string -> string): seq<(string, int)> {
    if rows == [] then []
    else
      var init := rows[..|rows| - 1];
      CodexOpenings(init, strip) +
      match rows[|rows| - 1]
      case UserMessage(text, ts) => if strip(text) == "" then [] else [(Clipped(strip(text)), ts)]
      case AssistantMessage(_, ts) => if OpenCodex(init, strip) then [] else [("", ts)]
      case _ => []
  }

  lemma CodexOpeningReads(row: CodexRow, open: bool, strip: string -> string)
    ensures OpeningOf(CodexEvent(row, strip), open) ==
      match row
      case UserMessage(text, ts) => if strip(text) == "" then [] else [(Clipped(strip(text)), ts)]
      case AssistantMessage(_, ts) => if open then [] else [("", ts)]
      case _ => []
  {
    if row.UserMessage? { ClippedIsCap(strip(row.text)); }
    hide Clipped, Cap, TextBlocks, Trim;
  }

  lemma {:induction false} CodexTurnsOpen(rows: seq<CodexRow>, strip: string -> string)
    ensures OpeningsOf(CodexEvents(rows, strip)) == CodexOpenings(rows, strip)
    decreases |rows|
  {
    if rows != [] {
      var init, row := rows[..|rows| - 1], rows[|rows| - 1];
      CodexTurnsOpen(init, strip);
      CodexRowsRead(init, strip);
      var before := CodexEvents(init, strip);
      CodexOpeningReads(row, OpenCodex(init, strip), strip);
      assert (before + [CodexEvent(row, strip)])[..|before|] == before;
      hide CodexEvent, OpeningOf, Clipped, CodexItems, Stream, OpenCodex;
    }
  }

  function ConductorOpenings(rows: seq<ConductorRow>, strip: string -> string): seq<(string, int)> {
    if rows == [] then []
    else
      var init, row := rows[..|rows| - 1], rows[|rows| - 1];
      ConductorOpenings(init, strip) +
      if row.user then if strip(row.body.text) == "" then [] else [(Clipped(strip(row.body.text)), row.ts)]
      else if OpenConductor(init, strip) then [] else [("", row.ts)]
  }

  lemma ConductorOpeningReads(row: ConductorRow, open: bool, strip: string -> string)
    ensures OpeningOf(ConductorEvent(row, strip), open) ==
      if row.user then if strip(row.body.text) == "" then [] else [(Clipped(strip(row.body.text)), row.ts)]
      else if open then [] else [("", row.ts)]
  {
    ClippedIsCap(strip(row.body.text));
    hide Clipped, Cap, TextBlocks, ThinkingBlocks, ToolBlocks, Trim;
  }

  lemma {:induction false} ConductorTurnsOpen(rows: seq<ConductorRow>, strip: string -> string)
    ensures OpeningsOf(ConductorEvents(rows, strip)) == ConductorOpenings(rows, strip)
    decreases |rows|
  {
    if rows != [] {
      var init, row := rows[..|rows| - 1], rows[|rows| - 1];
      ConductorTurnsOpen(init, strip);
      ConductorRowsRead(init, strip);
      var before := ConductorEvents(init, strip);
      ConductorOpeningReads(row, OpenConductor(init, strip), strip);
      assert (before + [ConductorEvent(row, strip)])[..|before|] == before;
      hide ConductorEvent, OpeningOf, Clipped, ConductorItems, Stream, OpenConductor;
    }
  }

  /** Of the turns those that hold a message or a block come back, in order; no other does. */
  lemma {:induction false} ReturnedHoldSomething(turns: seq<Turn>)
    ensures forall t :: t in Returned(turns) <==> t in turns && (!IsBlank(t.input) || t.transcript != [])
    decreases |turns|
  {
    if turns != [] {
      ReturnedHoldSomething(turns[..|turns| - 1]);
      assert turns == turns[..|turns| - 1] + [turns[|turns| - 1]];
    }
  }

  // ---- what an import holds ----

  /** The turns of an imported Claude conversation, unrolled, are what its rows say: every message of the user that is more
      than wrappers and no caveat starts one; replies add their thinking, speech and tool calls in that order, and start one
      if none is open; tool results are added to the open one. Texts are clipped, blank ones left out, meta rows ignored. A
      turn is dated by the row that started it. */
  lemma ClaudeTurnsAreTheRows(rows: seq<ClaudeRow>, strip: string -> string)
    ensures var turns := Fold(ClaudeEvents(rows, strip)).turns;
      Unroll(turns) == RowItems(rows, strip) && Openings(turns) == RowOpenings(rows, strip)
  {
    TurnsAreTheStream(ClaudeEvents(rows, strip));
    RowsRead(rows, strip);
    TurnsOpenAsTold(ClaudeEvents(rows, strip));
    ClaudeOpenings(rows, strip);
  }

  /** Of a Codex conversation: replies start a turn if none is open, calls only add to an open one. */
  lemma CodexTurnsAreTheRows(rows: seq<CodexRow>, strip: string -> string)
    ensures var turns := Fold(CodexEvents(rows, strip)).turns;
      Unroll(turns) == CodexItems(rows, strip) && Openings(turns) == CodexOpenings(rows, strip)
  {
    TurnsAreTheStream(CodexEvents(rows, strip));
    CodexRowsRead(rows, strip);
    TurnsOpenAsTold(CodexEvents(rows, strip));
    CodexTurnsOpen(rows, strip);
  }

  /** Of a Conductor conversation. */
  lemma ConductorTurnsAreTheRows(rows: seq<ConductorRow>, strip: string -> string)
    ensures var turns := Fold(ConductorEvents(rows, strip)).turns;
      Unroll(turns) == ConductorItems(rows, strip) && Openings(turns) == ConductorOpenings(rows, strip)
  {
    TurnsAreTheStream(ConductorEvents(rows, strip));
    ConductorRowsRead(rows, strip);
    TurnsOpenAsTold(ConductorEvents(rows, strip));
    ConductorTurnsOpen(rows, strip);
  }
}
