/** The three parse loops (MacOS/brain/conversation-sync.ts), with the mutable current turn they keep. */
module ConversationParsers {
  import opened Options
  import opened LineFraming
  import opened ConversationSync

  /** The locals of a parse loop: the turns so far, and whether `cur` is the last of them or null. */
  class Parser {
    var turns: seq<Turn>
    var open: bool

    constructor ()
      ensures Model() == Fold([])
    {
      turns, open := [], false;
    }

    function Model(): State
      reads this
    {
      State(turns, open)
    }

    predicate Valid()
      reads this
    {
      open ==> turns != []
    }

    method OpenTurn(input: string, ts: int)
      modifies this
      ensures Model() == Push(old(Model()), input, ts)
    {
      turns := turns + [Turn(input, "", [], ts)];
      open := true;
    }

    method PushBlock(b: Block)
      requires turns != []
      modifies `turns
      ensures turns != [] && Model() == AddTo(old(Model()), [b], None)
    {
      var n := |turns| - 1;
      turns := turns[n := turns[n].(transcript := turns[n].transcript + [b])];
    }

    method UserMessage(clean: string, ts: int)
      requires Valid()
      modifies this
      ensures Valid() && Model() == Apply(old(Model()), HumanOf(clean, ts))
    {
      if clean == "" {
        open := false;
      } else {
        OpenTurn(Cap(clean), ts);
      }
    }

    method AssistantMessage(body: Body, ts: int)
      requires Valid()
      modifies this
      ensures Valid() && Model() == Apply(old(Model()), ReplyOf(body, ts))
    {
      if !open {
        OpenTurn("", ts);
      }
      ghost var started := Model();
      hide AddTo, ThinkingBlocks, TextBlocks, ToolBlocks;
      PushThinking(body.thinking, ts);
      PushText(body.text, ts);
      PushTools(body.tools, ts);
      ghost var output := if Trim(body.text) != "" then Some(Cap(body.text)) else None;
      AddTwice(started, ThinkingBlocks(body.thinking, ts), None, TextBlocks(body.text, ts), output);
      AddTwice(started, ThinkingBlocks(body.thinking, ts) + TextBlocks(body.text, ts), output, ToolBlocks(body.tools, ts), None);
    }

    method PushThinking(thinking: seq<string>, ts: int)
      requires turns != []
      modifies `turns
      ensures turns != [] && Model() == AddTo(old(Model()), ThinkingBlocks(thinking, ts), None)
    {
      hide AddTo;
      var i := 0;
      AddNothing(Model());
      while i < |thinking|
        invariant i <= |thinking| && turns != [] && Model() == AddTo(old(Model()), ThinkingBlocks(thinking[..i], ts), None)
      {
        assert thinking[..i + 1][..i] == thinking[..i];
        if Trim(thinking[i]) != "" {
          var b := Block(Thinking, Cap(thinking[i]), "", "", ts);
          AddTwice(old(Model()), ThinkingBlocks(thinking[..i], ts), None, [b], None);
          PushBlock(b);
        } else {
          assert ThinkingBlocks(thinking[..i + 1], ts) == ThinkingBlocks(thinking[..i], ts);
        }
        i := i + 1;
      }
      assert thinking[..i] == thinking;
    }

    method PushText(text: string, ts: int)
      requires turns != []
      modifies `turns
      ensures turns != [] && Model() == AddTo(old(Model()), TextBlocks(text, ts), if Trim(text) != "" then Some(Cap(text)) else None)
    {
      if Trim(text) != "" {
        PushBlock(Block(Text, Cap(text), "", "", ts));
        var n := |turns| - 1;
        turns := turns[n := turns[n].(output := Cap(text))];
      } else {
        AddNothing(Model());
      }
    }

    method PushTools(tools: seq<Tool>, ts: int)
      requires turns != []
      modifies `turns
      ensures turns != [] && Model() == AddTo(old(Model()), ToolBlocks(tools, ts), None)
    {
      hide AddTo;
      var i := 0;
      AddNothing(Model());
      while i < |tools|
        invariant i <= |tools| && turns != [] && Model() == AddTo(old(Model()), ToolBlocks(tools[..i], ts), None)
      {
        assert tools[..i + 1][..i] == tools[..i];
        var b := Block(ToolCall, tools[i].title, tools[i].name, tools[i].detail, ts);
        AddTwice(old(Model()), ToolBlocks(tools[..i], ts), None, [b], None);
        PushBlock(b);
        i := i + 1;
      }
      assert tools[..i] == tools;
    }

    /** One turn of the Claude loop. */
    method Claude(row: ClaudeRow, strip: string -> string)
      requires Valid()
      modifies this
      ensures Valid() && Model() == Apply(old(Model()), ClaudeEvent(row, old(open), strip))
    {
      if row.OtherRow? || row.meta {
        return;
      }
      var body := BodyOf(row.content);
      if row.UserRow? {
        if ResultsOnly(row.content) && open {
          if Trim(body.text) != "" {
            PushBlock(Block(ToolResult, Cap(body.text), "", "", row.ts));
          }
          return;
        }
        var clean := strip(body.text);
        if |clean| == 0 || "Caveat:" <= clean {
          open := false;
          return;
        }
        OpenTurn(Cap(clean), row.ts);
      } else {
        AssistantMessage(body, row.ts);
      }
    }

    /** One turn of the Codex loop. */
    method Codex(row: CodexRow, strip: string -> string)
      requires Valid()
      modifies this
      ensures Valid() && Model() == Apply(old(Model()), CodexEvent(row, strip))
    {
      match row {
        case UserMessage(text, ts) => UserMessage(strip(text), ts);
        case AssistantMessage(text, ts) =>
          if !open {
            OpenTurn("", ts);
          }
          PushText(text, ts);
        case Call(name, title, cmd, ts) =>
          if open {
            PushBlock(Block(ToolCall, title, name, cmd, ts));
          }
        case IgnoredRow =>
      }
    }

    method Kept() returns (kept: seq<Turn>)
      ensures kept == Returned(turns)
    {
      kept := [];
      var i := 0;
      while i < |turns|
        invariant i <= |turns| && kept == Returned(turns[..i])
      {
        assert turns[..i + 1][..i] == turns[..i];
        if Trim(turns[i].input) != "" || |turns[i].transcript| > 0 {
          kept := kept + [turns[i]];
        }
        i := i + 1;
      }
      assert turns[..i] == turns;
    }
  }

  lemma FoldSnoc(events: seq<Event>, e: Event)
    ensures Fold(events + [e]) == Apply(Fold(events), e)
  {
    assert (events + [e])[..|events|] == events;
  }

  method ParseClaude(rows: seq<ClaudeRow>, strip: string -> string) returns (turns: seq<Turn>)
    ensures turns == Returned(Fold(ClaudeEvents(rows, strip)).turns)
  {
    hide Apply, Fold, ClaudeEvent, Returned, IsOpen;
    var p := new Parser();
    var i := 0;
    while i < |rows|
      invariant i <= |rows| && p.Valid() && fresh(p) && p.Model() == Fold(ClaudeEvents(rows[..i], strip))
    {
      assert rows[..i + 1][..i] == rows[..i];
      FoldOpens(ClaudeEvents(rows[..i], strip));
      FoldSnoc(ClaudeEvents(rows[..i], strip), ClaudeEvent(rows[i], p.open, strip));
      p.Claude(rows[i], strip);
      i := i + 1;
    }
    assert rows[..i] == rows;
    turns := p.Kept();
  }

  method ParseCodex(rows: seq<CodexRow>, strip: string -> string) returns (turns: seq<Turn>)
    ensures turns == Returned(Fold(CodexEvents(rows, strip)).turns)
  {
    hide Apply, Fold, CodexEvent, Returned;
    var p := new Parser();
    var i := 0;
    while i < |rows|
      invariant i <= |rows| && p.Valid() && fresh(p) && p.Model() == Fold(CodexEvents(rows[..i], strip))
    {
      assert rows[..i + 1][..i] == rows[..i];
      FoldSnoc(CodexEvents(rows[..i], strip), CodexEvent(rows[i], strip));
      p.Codex(rows[i], strip);
      i := i + 1;
    }
    assert rows[..i] == rows;
    turns := p.Kept();
  }

  method ParseConductor(rows: seq<ConductorRow>, strip: string -> string) returns (turns: seq<Turn>)
    ensures turns == Returned(Fold(ConductorEvents(rows, strip)).turns)
  {
    hide Apply, Fold, ReplyOf, HumanOf, Returned;
    var p := new Parser();
    var i := 0;
    while i < |rows|
      invariant i <= |rows| && p.Valid() && fresh(p) && p.Model() == Fold(ConductorEvents(rows[..i], strip))
    {
      assert rows[..i + 1][..i] == rows[..i];
      FoldSnoc(ConductorEvents(rows[..i], strip), ConductorEvent(rows[i], strip));
      if rows[i].user {
        p.UserMessage(strip(rows[i].body.text), rows[i].ts);
      } else {
        p.AssistantMessage(rows[i].body, rows[i].ts);
      }
      i := i + 1;
    }
    assert rows[..i] == rows;
    turns := p.Kept();
  }
}
