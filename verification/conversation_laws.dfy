/** What an import neither loses, duplicates nor reorders. */
module ConversationLaws {
  import opened Options
  import opened LineFraming
  import opened ConversationSync

  // ---- reading turns, and reading events ----

  /** A conversation as one stream: what was said, "" where a turn opens without it, and what was done. */
  datatype Item = Said(input: string) | Did(block: Block)

  function Dids(blocks: seq<Block>): seq<Item> {
    seq(|blocks|, i requires 0 <= i < |blocks| => Did(blocks[i]))
  }

  function Unroll(turns: seq<Turn>): seq<Item> {
    if turns == [] then []
    else Unroll(turns[..|turns| - 1]) + ([Said(turns[|turns| - 1].input)] + Dids(turns[|turns| - 1].transcript))
  }

  function ItemsOf(e: Event, open: bool): seq<Item> {
    match e
    case Human(input, _) => [Said(input)]
    case Reply(blocks, _, _) => (if open then [] else [Said("")]) + Dids(blocks)
    case Attach(blocks) => if open then Dids(blocks) else []
    case _ => []
  }

  function Stream(events: seq<Event>): seq<Item> {
    if events == [] then []
    else Stream(events[..|events| - 1]) + ItemsOf(events[|events| - 1], IsOpen(events[..|events| - 1]))
  }

  function Transcripts(turns: seq<Turn>): seq<Block> {
    if turns == [] then [] else Transcripts(turns[..|turns| - 1]) + turns[|turns| - 1].transcript
  }

  function Inputs(turns: seq<Turn>): seq<string> {
    if turns == [] then []
    else Inputs(turns[..|turns| - 1]) + if turns[|turns| - 1].input != "" then [turns[|turns| - 1].input] else []
  }

  function BlocksOf(e: Event, open: bool): seq<Block> {
    match e
    case Reply(blocks, _, _) => blocks
    case Attach(blocks) => if open then blocks else []
    case _ => []
  }

  /** The blocks the rows give, in order. */
  function Emitted(events: seq<Event>): seq<Block> {
    if events == [] then []
    else Emitted(events[..|events| - 1]) + BlocksOf(events[|events| - 1], IsOpen(events[..|events| - 1]))
  }

  /** The human messages kept, in order. */
  function Humans(events: seq<Event>): seq<string> {
    if events == [] then []
    else Humans(events[..|events| - 1]) + if events[|events| - 1].Human? then [events[|events| - 1].input] else []
  }

  function LastText(blocks: seq<Block>): Option<string> {
    if blocks == [] then None
    else if blocks[|blocks| - 1].kind == Text then Some(blocks[|blocks| - 1].text)
    else LastText(blocks[..|blocks| - 1])
  }

  predicate OutputIsLastText(t: Turn) {
    t.output == match LastText(t.transcript) case None => "" case Some(text) => text
  }

  /** Human messages are not blank, a reply's output is its last text, and attachments hold no text. */
  predicate WellShaped(e: Event) {
    match e
    case Human(input, _) => Trim(input) != ""
    case Reply(blocks, output, _) => output == LastText(blocks)
    case Attach(blocks) => LastText(blocks) == None
    case _ => true
  }

  predicate AllWellShaped(events: seq<Event>) {
    forall i :: 0 <= i < |events| ==> WellShaped(events[i])
  }

  // ---- one event ----

  lemma DidsConcat(a: seq<Block>, b: seq<Block>)
    ensures Dids(a + b) == Dids(a) + Dids(b)
  {
  }

  lemma {:induction false} LastTextConcat(a: seq<Block>, b: seq<Block>)
    ensures LastText(a + b) == if LastText(b).Some? then LastText(b) else LastText(a)
    decreases |b|
  {
    if b == [] {
      assert a + b == a;
    } else {
      assert (a + b)[..|a + b| - 1] == a + b[..|b| - 1];
      LastTextConcat(a, b[..|b| - 1]);
    }
  }

  lemma PushReads(s: State, input: string, ts: int)
    ensures var turns := Push(s, input, ts).turns;
      && Unroll(turns) == Unroll(s.turns) + [Said(input)] && Transcripts(turns) == Transcripts(s.turns)
      && Inputs(turns) == Inputs(s.turns) + if input != "" then [input] else []
  {
    var turns := Push(s, input, ts).turns;
    assert turns[..|turns| - 1] == s.turns;
    assert [Said(input)] + Dids([]) == [Said(input)];
  }

  lemma AddReads(s: State, blocks: seq<Block>, output: Option<string>)
    requires s.turns != []
    ensures var turns := AddTo(s, blocks, output).turns;
      && Unroll(turns) == Unroll(s.turns) + Dids(blocks) && Transcripts(turns) == Transcripts(s.turns) + blocks
      && Inputs(turns) == Inputs(s.turns)
  {
    var turns := AddTo(s, blocks, output).turns;
    var n := |turns| - 1;
    assert turns[..n] == s.turns[..n];
    DidsConcat(s.turns[n].transcript, blocks);
    var said := [Said(turns[n].input)];
    assert said + Dids(s.turns[n].transcript + blocks) == (said + Dids(s.turns[n].transcript)) + Dids(blocks);
    assert Unroll(turns[..n]) + ((said + Dids(s.turns[n].transcript)) + Dids(blocks)) ==
           (Unroll(turns[..n]) + (said + Dids(s.turns[n].transcript))) + Dids(blocks);
  }

  lemma ApplyReads(s: State, e: Event)
    requires s.open ==> s.turns != []
    ensures var turns := Apply(s, e).turns;
      && Unroll(turns) == Unroll(s.turns) + ItemsOf(e, s.open) && Transcripts(turns) == Transcripts(s.turns) + BlocksOf(e, s.open)
      && Inputs(turns) == Inputs(s.turns) + if e.Human? && e.input != "" then [e.input] else []
  {
    hide Unroll, Transcripts, Inputs, Push, AddTo, Dids;
    match e
    case Human(input, ts) => PushReads(s, input, ts);
    case Reply(blocks, output, ts) =>
      var s1 := if s.open then s else Push(s, "", ts);
      if !s.open { PushReads(s, "", ts); }
      assert s1.turns != [] by { PushIsNotEmpty(s, "", ts); }
      AddReads(s1, blocks, output);
      assert Unroll(s.turns) + ([Said("")] + Dids(blocks)) == (Unroll(s.turns) + [Said("")]) + Dids(blocks);
    case Attach(blocks) => if s.open { AddReads(s, blocks, None); }
    case _ =>
  }

  lemma PushIsNotEmpty(s: State, input: string, ts: int)
    ensures Push(s, input, ts).turns != []
  {
  }

  predicate AllOutputs(turns: seq<Turn>) {
    forall i :: 0 <= i < |turns| ==> OutputIsLastText(turns[i])
  }

  lemma ApplyKeepsOutputs(s: State, e: Event)
    requires (s.open ==> s.turns != []) && WellShaped(e) && AllOutputs(s.turns)
    ensures AllOutputs(Apply(s, e).turns)
  {
    match e
    case Reply(blocks, output, ts) =>
      var s1 := if s.open then s else Push(s, "", ts);
      LastTextConcat(s1.turns[|s1.turns| - 1].transcript, blocks);
      hide LastText;
    case Attach(blocks) => if s.open { LastTextConcat(s.turns[|s.turns| - 1].transcript, blocks); }
    case _ =>
  }

  // ---- whole imports ----

  lemma {:induction false} FoldReads(events: seq<Event>)
    ensures Unroll(Fold(events).turns) == Stream(events) && Transcripts(Fold(events).turns) == Emitted(events)
    ensures AllWellShaped(events) ==> Inputs(Fold(events).turns) == Humans(events) && AllOutputs(Fold(events).turns)
    decreases |events|
  {
    if events != [] {
      var init, e := events[..|events| - 1], events[|events| - 1];
      FoldReads(init);
      FoldOpens(init);
      ApplyReads(Fold(init), e);
      if AllWellShaped(events) {
        assert WellShaped(e) && AllWellShaped(init);
        ApplyKeepsOutputs(Fold(init), e);
        assert e.Human? ==> e.input != "";
      }
      hide Apply, AllOutputs, Unroll, Transcripts, Inputs, ItemsOf, BlocksOf, WellShaped;
    }
  }

  /** Unrolling the turns of a parse gives back the stream of its rows: every message and every block sits in the turn
      it belongs to, in order. */
  lemma TurnsAreTheStream(events: seq<Event>)
    ensures Unroll(Fold(events).turns) == Stream(events)
  {
    FoldReads(events);
  }

  predicate InputsAreNotBlank(turns: seq<Turn>) {
    forall i :: 0 <= i < |turns| && turns[i].input != "" ==> Trim(turns[i].input) != ""
  }

  /** The final filter drops no block, no message and no output: only turns that hold nothing. */
  lemma {:induction false} FilterDropsNothing(turns: seq<Turn>)
    requires InputsAreNotBlank(turns)
    ensures Transcripts(Returned(turns)) == Transcripts(turns) && Inputs(Returned(turns)) == Inputs(turns)
    ensures AllOutputs(turns) ==> AllOutputs(Returned(turns))
    decreases |turns|
  {
    if turns != [] {
      var init, last := turns[..|turns| - 1], turns[|turns| - 1];
      assert InputsAreNotBlank(init) && (last.input != "" ==> Trim(last.input) != "");
      FilterDropsNothing(init);
      assert turns == init + [last];
      SnocReads(init, last);
      SnocReads(Returned(init), last);
      assert Trim("") == "";
      hide Transcripts, Inputs, AllOutputs, OutputIsLastText, Trim;
      if !Worth(last) {
        assert last.input == "" && last.transcript == [];
        assert Transcripts(init) + [] == Transcripts(init) && Inputs(init) + [] == Inputs(init);
        assert Returned(turns) == Returned(init);
      }
    }
  }

  lemma SnocReads(turns: seq<Turn>, t: Turn)
    ensures Transcripts(turns + [t]) == Transcripts(turns) + t.transcript
    ensures Inputs(turns + [t]) == Inputs(turns) + if t.input != "" then [t.input] else []
    ensures AllOutputs(turns + [t]) <==> AllOutputs(turns) && OutputIsLastText(t)
  {
    assert (turns + [t])[..|turns|] == turns;
    assert AllOutputs(turns + [t]) ==> OutputIsLastText((turns + [t])[|turns|]);
    assert forall i :: 0 <= i < |turns| ==> (turns + [t])[i] == turns[i];
    hide OutputIsLastText;
  }

  lemma {:induction false} FoldInputsAreNotBlank(events: seq<Event>)
    requires AllWellShaped(events)
    ensures InputsAreNotBlank(Fold(events).turns)
    decreases |events|
  {
    if events != [] {
      assert WellShaped(events[|events| - 1]);
      FoldInputsAreNotBlank(events[..|events| - 1]);
    }
  }

  lemma ImportKeepsAll(events: seq<Event>)
    requires AllWellShaped(events)
    ensures var turns := Returned(Fold(events).turns);
      && Transcripts(turns) == Emitted(events) && Inputs(turns) == Humans(events) && AllOutputs(turns)
  {
    FoldReads(events);
    FoldInputsAreNotBlank(events);
    FilterDropsNothing(Fold(events).turns);
  }

  // ---- the three sources ----

  /** What is assumed of the removal of wrappers: its result is trimmed. */
  ghost predicate Trims(strip: string -> string) {
    forall text :: Trim(strip(text)) == strip(text)
  }

  lemma {:induction false} TrimShortens(s: string)
    ensures |TrimLeft(s)| <= |s| && |TrimRight(s)| <= |s|
    decreases |s|
  {
    if s != "" {
      TrimShortens(s[1..]);
      TrimShortens(s[..|s| - 1]);
    }
  }

  lemma TrimmedStartsSolid(s: string)
    requires s != "" && Trim(s) == s
    ensures !IsSpace(s[0])
  {
    if IsSpace(s[0]) {
      TrimShortens(s[1..]);
      TrimShortens(TrimLeft(s));
    }
  }

  lemma {:induction false} SolidStartStays(s: string)
    requires s != "" && !IsSpace(s[0])
    ensures TrimRight(s) != ""
    decreases |s|
  {
    if IsSpace(s[|s| - 1]) { SolidStartStays(s[..|s| - 1]); }
  }

  /** Cutting a trimmed message to size does not blank it. */
  lemma CappedIsNotBlank(clean: string)
    requires clean != "" && Trim(clean) == clean
    ensures Trim(Cap(clean)) != ""
  {
    TrimmedStartsSolid(clean);
    SolidStartStays(Cap(clean));
  }

  lemma {:induction false} ThinkingHasNoText(thinking: seq<string>, ts: int)
    ensures LastText(ThinkingBlocks(thinking, ts)) == None
    decreases |thinking|
  {
    if thinking != [] {
      ThinkingHasNoText(thinking[..|thinking| - 1], ts);
      var init := ThinkingBlocks(thinking[..|thinking| - 1], ts);
      assert Trim(thinking[|thinking| - 1]) != "" ==> ThinkingBlocks(thinking, ts)[..|init|] == init;
      assert Trim(thinking[|thinking| - 1]) == "" ==> ThinkingBlocks(thinking, ts) == init;
    }
  }

  lemma {:induction false} ToolsHaveNoText(tools: seq<Tool>, ts: int)
    ensures LastText(ToolBlocks(tools, ts)) == None
    decreases |tools|
  {
    if tools != [] {
      ToolsHaveNoText(tools[..|tools| - 1], ts);
      var init := ToolBlocks(tools[..|tools| - 1], ts);
      assert ToolBlocks(tools, ts)[..|init|] == init;
    }
  }

  lemma OneBlock(b: Block)
    ensures LastText([b]) == if b.kind == Text then Some(b.text) else None
  {
    assert [b][..0] == [];
  }

  lemma ReplyIsWellShaped(body: Body, ts: int)
    ensures WellShaped(ReplyOf(body, ts))
  {
    ThinkingHasNoText(body.thinking, ts);
    ToolsHaveNoText(body.tools, ts);
    OneBlock(Block(Text, Cap(body.text), "", "", ts));
    assert LastText(TextBlocks(body.text, ts)) == if Trim(body.text) != "" then Some(Cap(body.text)) else None;
    LastTextConcat(ThinkingBlocks(body.thinking, ts), TextBlocks(body.text, ts));
    LastTextConcat(ThinkingBlocks(body.thinking, ts) + TextBlocks(body.text, ts), ToolBlocks(body.tools, ts));
    hide LastText, ThinkingBlocks, ToolBlocks, TextBlocks;
  }

  lemma HumanIsWellShaped(clean: string, ts: int)
    requires Trim(clean) == clean
    ensures WellShaped(HumanOf(clean, ts))
  {
    if clean != "" { CappedIsNotBlank(clean); }
  }

  lemma {:induction false} ClaudeIsWellShaped(rows: seq<ClaudeRow>, strip: string -> string)
    requires Trims(strip)
    ensures AllWellShaped(ClaudeEvents(rows, strip))
    decreases |rows|
  {
    if rows != [] {
      var init, row := rows[..|rows| - 1], rows[|rows| - 1];
      ClaudeIsWellShaped(init, strip);
      if !row.OtherRow? {
        var body := BodyOf(row.content);
        ReplyIsWellShaped(body, row.ts);
        HumanIsWellShaped(strip(body.text), row.ts);
        OneBlock(Block(ToolResult, Cap(body.text), "", "", row.ts));
      }
      assert WellShaped(ClaudeEvent(row, IsOpen(ClaudeEvents(init, strip)), strip)) by { hide ReplyOf, HumanOf, LastText; }
      hide ClaudeEvent, WellShaped;
    }
  }

  lemma {:induction false} CodexIsWellShaped(rows: seq<CodexRow>, strip: string -> string)
    requires Trims(strip)
    ensures AllWellShaped(CodexEvents(rows, strip))
    decreases |rows|
  {
    if rows != [] {
      var init, row := rows[..|rows| - 1], rows[|rows| - 1];
      CodexIsWellShaped(init, strip);
      match row {
        case UserMessage(text, ts) => HumanIsWellShaped(strip(text), ts);
        case AssistantMessage(text, ts) => OneBlock(Block(Text, Cap(text), "", "", ts));
        case Call(name, title, cmd, ts) => OneBlock(Block(ToolCall, title, name, cmd, ts));
        case IgnoredRow =>
      }
      assert WellShaped(CodexEvent(row, strip));
      hide CodexEvent, WellShaped;
    }
  }

  lemma {:induction false} ConductorIsWellShaped(rows: seq<ConductorRow>, strip: string -> string)
    requires Trims(strip)
    ensures AllWellShaped(ConductorEvents(rows, strip))
    decreases |rows|
  {
    if rows != [] {
      var init, row := rows[..|rows| - 1], rows[|rows| - 1];
      ConductorIsWellShaped(init, strip);
      ReplyIsWellShaped(row.body, row.ts);
      HumanIsWellShaped(strip(row.body.text), row.ts);
      assert WellShaped(ConductorEvent(row, strip)) by { hide ReplyOf, HumanOf, WellShaped; }
      hide ConductorEvent, WellShaped;
    }
  }

  /** An imported Claude conversation holds exactly the blocks of its rows and its kept human messages, each in order;
      and each turn's output is its last assistant text. */
  lemma ClaudeKeepsAll(rows: seq<ClaudeRow>, strip: string -> string)
    requires Trims(strip)
    ensures var events := ClaudeEvents(rows, strip);
      var turns := Returned(Fold(events).turns);
      Transcripts(turns) == Emitted(events) && Inputs(turns) == Humans(events) && AllOutputs(turns)
  {
    ClaudeIsWellShaped(rows, strip);
    ImportKeepsAll(ClaudeEvents(rows, strip));
  }

  /** The same of a Codex conversation. */
  lemma CodexKeepsAll(rows: seq<CodexRow>, strip: string -> string)
    requires Trims(strip)
    ensures var events := CodexEvents(rows, strip);
      var turns := Returned(Fold(events).turns);
      Transcripts(turns) == Emitted(events) && Inputs(turns) == Humans(events) && AllOutputs(turns)
  {
    CodexIsWellShaped(rows, strip);
    ImportKeepsAll(CodexEvents(rows, strip));
  }

  /** The same of a Conductor conversation. */
  lemma ConductorKeepsAll(rows: seq<ConductorRow>, strip: string -> string)
    requires Trims(strip)
    ensures var events := ConductorEvents(rows, strip);
      var turns := Returned(Fold(events).turns);
      Transcripts(turns) == Emitted(events) && Inputs(turns) == Humans(events) && AllOutputs(turns)
  {
    ConductorIsWellShaped(rows, strip);
    ImportKeepsAll(ConductorEvents(rows, strip));
  }

  // ---- rows that meet no open turn ----

  function RowText(row: ClaudeRow): string {
    if row.OtherRow? then "" else BodyOf(row.content).text
  }

  predicate Says(row: ClaudeRow, strip: string -> string) {
    strip(RowText(row)) != "" && !IsCaveat(strip(RowText(row)))
  }

  /** A Claude turn is open after a human message that is more than wrappers and no caveat, and after any message of the
      assistant; rows that only carry tool results leave it open. */
  function OpenClaudeRows(rows: seq<ClaudeRow>, strip: string -> string): bool {
    if rows == [] then false
    else
      var open := OpenClaudeRows(rows[..|rows| - 1], strip);
      match rows[|rows| - 1]
      case OtherRow => open
      case AssistantRow(meta, _, _) => open || !meta
      case UserRow(meta, content, _) =>
        if meta || (ResultsOnly(content) && open) then open else Says(rows[|rows| - 1], strip)
  }

  predicate IsUserMessage(row: ClaudeRow) {
    row.UserRow? && !row.meta && !ResultsOnly(row.content)
  }

  /** Row `i` carries only tool results, meets no open turn, and strips neither to nothing nor to a caveat. */
  predicate Stray(rows: seq<ClaudeRow>, i: nat, strip: string -> string)
    requires i < |rows|
  {
    var row := rows[i];
    row.UserRow? && !row.meta && ResultsOnly(row.content) && !OpenClaudeRows(rows[..i], strip) && Says(row, strip)
  }

  /** The messages the user typed, as they are kept; and with them those made of stray results. */
  function TypedMessages(rows: seq<ClaudeRow>, strip: string -> string): seq<string> {
    if rows == [] then []
    else
      var row := rows[|rows| - 1];
      TypedMessages(rows[..|rows| - 1], strip)
      + if IsUserMessage(row) && Says(row, strip) then [Cap(strip(RowText(row)))] else []
  }

  function KeptMessages(rows: seq<ClaudeRow>, strip: string -> string): seq<string> {
    if rows == [] then []
    else
      var row := rows[|rows| - 1];
      KeptMessages(rows[..|rows| - 1], strip)
      + if (IsUserMessage(row) && Says(row, strip)) || Stray(rows, |rows| - 1, strip) then [Cap(strip(RowText(row)))] else []
  }

  lemma RowEvent(row: ClaudeRow, open: bool, strip: string -> string)
    ensures var e := ClaudeEvent(row, open, strip);
      && OpenAfter(open, e) == (match row
         case OtherRow => open
         case AssistantRow(meta, _, _) => open || !meta
         case UserRow(meta, content, _) => if meta || (ResultsOnly(content) && open) then open else Says(row, strip))
      && (e.Human? <==> row.UserRow? && !row.meta && !(ResultsOnly(row.content) && open) && Says(row, strip))
      && (e.Human? ==> e.input == Cap(strip(RowText(row))))
  {
    hide BodyOf, ResultsOnly, IsCaveat, Cap, ThinkingBlocks, TextBlocks, ToolBlocks, Trim;
  }

  lemma {:induction false} ClaudeOpens(rows: seq<ClaudeRow>, strip: string -> string)
    ensures IsOpen(ClaudeEvents(rows, strip)) == OpenClaudeRows(rows, strip)
    ensures Humans(ClaudeEvents(rows, strip)) == KeptMessages(rows, strip)
    decreases |rows|
  {
    if rows != [] {
      var init, row := rows[..|rows| - 1], rows[|rows| - 1];
      ClaudeOpens(init, strip);
      var before := ClaudeEvents(init, strip);
      var e := ClaudeEvent(row, IsOpen(before), strip);
      assert (before + [e])[..|before|] == before;
      RowEvent(row, IsOpen(before), strip);
      hide ClaudeEvent, Says, ResultsOnly, OpenAfter, Cap, RowText;
    }
  }

  predicate NoneStray(rows: seq<ClaudeRow>, strip: string -> string) {
    forall i :: 0 <= i < |rows| ==> !Stray(rows, i, strip)
  }

  lemma StrayOneMore(rows: seq<ClaudeRow>, strip: string -> string)
    requires rows != []
    ensures NoneStray(rows, strip) <==> NoneStray(rows[..|rows| - 1], strip) && !Stray(rows, |rows| - 1, strip)
  {
    var init := rows[..|rows| - 1];
    assert forall i :: 0 <= i < |init| ==> init[i] == rows[i] && init[..i] == rows[..i];
    assert forall i :: 0 <= i < |init| ==> (Stray(init, i, strip) <==> Stray(rows, i, strip)) by { hide OpenClaudeRows, Says, ResultsOnly; }
    hide Stray;
  }

  lemma {:induction false} TypedIffNoneStray(rows: seq<ClaudeRow>, strip: string -> string)
    ensures |TypedMessages(rows, strip)| <= |KeptMessages(rows, strip)|
    ensures KeptMessages(rows, strip) == TypedMessages(rows, strip) <==> NoneStray(rows, strip)
    ensures |TypedMessages(rows, strip)| == |KeptMessages(rows, strip)| ==> NoneStray(rows, strip)
    decreases |rows|
  {
    if rows != [] {
      StrayOneMore(rows, strip);
      TypedIffNoneStray(rows[..|rows| - 1], strip);
      NotBoth(rows, strip);
      hide NoneStray, Stray, Says, IsUserMessage, Cap, RowText;
    }
  }

  lemma NotBoth(rows: seq<ClaudeRow>, strip: string -> string)
    requires rows != []
    ensures Stray(rows, |rows| - 1, strip) ==> !IsUserMessage(rows[|rows| - 1])
  {
    hide ResultsOnly, OpenClaudeRows, Says;
  }

  /** Tool results belong to the running assistant turn, if there is one. Where there is none, as after boilerplate, they
      become a human message, as if the user had typed them: the imported messages are exactly those typed and those made
      of stray results, in order; and they are only those typed if and only if every row of results meets an open turn, or
      strips to nothing or to a caveat. */
  lemma StrayResultsBecomeAHumanTurn(rows: seq<ClaudeRow>, strip: string -> string)
    requires Trims(strip)
    ensures var imported := Inputs(Returned(Fold(ClaudeEvents(rows, strip)).turns));
      imported == KeptMessages(rows, strip) && (imported == TypedMessages(rows, strip) <==> NoneStray(rows, strip))
  {
    ClaudeKeepsAll(rows, strip);
    ClaudeOpens(rows, strip);
    TypedIffNoneStray(rows, strip);
    hide NoneStray;
  }

  /** A Codex turn is open after a human message that is more than wrappers, or any message of the assistant. */
  function OpenRows(rows: seq<CodexRow>, strip: string -> string): bool {
    if rows == [] then false
    else
      match rows[|rows| - 1]
      case UserMessage(text, _) => strip(text) != ""
      case AssistantMessage(_, _) => true
      case _ => OpenRows(rows[..|rows| - 1], strip)
  }

  function RowBlocks(row: CodexRow): seq<Block> {
    match row
    case AssistantMessage(text, ts) => TextBlocks(text, ts)
    case Call(name, title, cmd, ts) => [Block(ToolCall, title, name, cmd, ts)]
    case _ => []
  }

  /** All the blocks of the rows, and those of the rows that are not stray calls. */
  function AllBlocks(rows: seq<CodexRow>): seq<Block> {
    if rows == [] then [] else AllBlocks(rows[..|rows| - 1]) + RowBlocks(rows[|rows| - 1])
  }

  function MetBlocks(rows: seq<CodexRow>, strip: string -> string): seq<Block> {
    if rows == [] then []
    else
      var init, row := rows[..|rows| - 1], rows[|rows| - 1];
      MetBlocks(init, strip) + if row.Call? && !OpenRows(init, strip) then [] else RowBlocks(row)
  }

  predicate CallsMeetOpenTurns(rows: seq<CodexRow>, strip: string -> string) {
    forall i :: 0 <= i < |rows| && rows[i].Call? ==> OpenRows(rows[..i], strip)
  }

  lemma {:induction false} CodexEmits(rows: seq<CodexRow>, strip: string -> string)
    ensures IsOpen(CodexEvents(rows, strip)) == OpenRows(rows, strip)
    ensures Emitted(CodexEvents(rows, strip)) == MetBlocks(rows, strip)
    decreases |rows|
  {
    if rows != [] {
      var init, row := rows[..|rows| - 1], rows[|rows| - 1];
      CodexEmits(init, strip);
      var before, e := CodexEvents(init, strip), CodexEvent(row, strip);
      assert (before + [e])[..|before|] == before;
      hide Trim, Cap, TextBlocks;
    }
  }

  lemma MeetOneMore(rows: seq<CodexRow>, strip: string -> string)
    requires rows != []
    ensures var init, row := rows[..|rows| - 1], rows[|rows| - 1];
      CallsMeetOpenTurns(rows, strip) <==> CallsMeetOpenTurns(init, strip) && (row.Call? ==> OpenRows(init, strip))
  {
    var init := rows[..|rows| - 1];
    assert forall i :: 0 <= i < |init| ==> init[i] == rows[i] && init[..i] == rows[..i];
    hide OpenRows;
  }

  lemma {:induction false} NoneStrayIffAllMet(rows: seq<CodexRow>, strip: string -> string)
    ensures |MetBlocks(rows, strip)| <= |AllBlocks(rows)|
    ensures MetBlocks(rows, strip) == AllBlocks(rows) <==> CallsMeetOpenTurns(rows, strip)
    ensures |MetBlocks(rows, strip)| == |AllBlocks(rows)| ==> CallsMeetOpenTurns(rows, strip)
    decreases |rows|
  {
    if rows != [] {
      MeetOneMore(rows, strip);
      NoneStrayIffAllMet(rows[..|rows| - 1], strip);
      hide CallsMeetOpenTurns, OpenRows, TextBlocks;
    }
  }

  /** A Codex tool call that comes before any turn is open is dropped, unlike a message of the assistant: an import
      holds exactly the blocks of the other rows, and loses none if and only if every call meets an open turn. */
  lemma StrayCallsAreDropped(rows: seq<CodexRow>, strip: string -> string)
    requires Trims(strip)
    ensures var kept := Transcripts(Returned(Fold(CodexEvents(rows, strip)).turns));
      kept == MetBlocks(rows, strip) && (kept == AllBlocks(rows) <==> CallsMeetOpenTurns(rows, strip))
  {
    CodexKeepsAll(rows, strip);
    CodexEmits(rows, strip);
    NoneStrayIffAllMet(rows, strip);
    hide CallsMeetOpenTurns;
  }
}
