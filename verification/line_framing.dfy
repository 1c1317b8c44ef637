/**
 Incremental line framing: the socket reader of MacOS/brain/codex-bridge.ts and the Codex stdout reader of
 MacOS/brain/engine.ts. Chunks are decoded text.
 */
module LineFraming {
  import opened Options

  // ---- text as lines ----

  function NewlineIn(text: string): (r: Option<nat>)
    ensures r.None? <==> '\n' !in text
    ensures r.Some? ==> r.value < |text| && text[r.value] == '\n' && '\n' !in text[..r.value]
  {
    if text == "" then None
    else if text[0] == '\n' then Some(0)
    else
      var r := NewlineIn(text[1..]);
      if r.None? then
        assert text == [text[0]] + text[1..];
        None
      else
        assert text[..r.value + 1] == [text[0]] + text[1..][..r.value];
        Some(r.value + 1)
  }

  /** The newline-terminated lines of a text, without their newlines. */
  function Lines(text: string): seq<string> {
    var nl := NewlineIn(text);
    if nl.None? then [] else [text[..nl.value]] + Lines(text[nl.value + 1..])
  }

  /** The text after the last newline. */
  function Rest(text: string): string {
    var nl := NewlineIn(text);
    if nl.None? then text else Rest(text[nl.value + 1..])
  }

  function Join(lines: seq<string>): string {
    if lines == [] then "" else lines[0] + "\n" + Join(lines[1..])
  }

  /** `lines` and `rest` are the only way to cut `text` at its newlines. */
  ghost predicate Cuts(text: string, lines: seq<string>, rest: string) {
    text == Join(lines) + rest && '\n' !in rest && forall i :: 0 <= i < |lines| ==> '\n' !in lines[i]
  }

  lemma CutsExtend(line: string, tail: string, lines: seq<string>, rest: string)
    requires '\n' !in line && Cuts(tail, lines, rest)
    ensures Cuts(line + "\n" + tail, [line] + lines, rest)
  {
    assert ([line] + lines)[1..] == lines;
    assert line + "\n" + (Join(lines) + rest) == (line + "\n" + Join(lines)) + rest;
  }

  lemma {:induction false} LinesCut(text: string)
    ensures Cuts(text, Lines(text), Rest(text))
    decreases |text|
  {
    hide Lines, Rest, Cuts;
    var nl := NewlineIn(text);
    if nl.Some? {
      var line, tail := text[..nl.value], text[nl.value + 1..];
      LinesCut(tail);
      CutFirstLine(text);
      assert text == line + "\n" + tail;
      hide NewlineIn;
      CutsExtend(line, tail, Lines(tail), Rest(tail));
    } else {
      NoMoreLines(text);
      NothingToCut(text);
    }
  }

  lemma NothingToCut(text: string)
    requires '\n' !in text
    ensures Cuts(text, [], text)
  {
    assert Join([]) + text == text;
  }

  lemma FirstNewline(line: string, tail: string)
    requires '\n' !in line
    ensures NewlineIn(line + "\n" + tail) == Some(|line|)
    ensures (line + "\n" + tail)[..|line|] == line && (line + "\n" + tail)[|line| + 1..] == tail
  {
    var text := line + "\n" + tail;
    assert text[|line|] == '\n' && forall k :: 0 <= k < |line| ==> text[k] == line[k];
  }

  lemma LinesOfLine(line: string, tail: string)
    requires '\n' !in line
    ensures Lines(line + "\n" + tail) == [line] + Lines(tail) && Rest(line + "\n" + tail) == Rest(tail)
  {
    FirstNewline(line, tail);
  }

  lemma {:induction false} CutIsUnique(text: string, lines: seq<string>, rest: string)
    requires Cuts(text, lines, rest)
    ensures lines == Lines(text) && rest == Rest(text)
    decreases |lines|
  {
    if lines != [] {
      var tail := Join(lines[1..]) + rest;
      assert text == lines[0] + "\n" + tail;
      assert Cuts(tail, lines[1..], rest) && '\n' !in lines[0];
      assert lines == [lines[0]] + lines[1..];
      hide Cuts, Join, Lines, Rest;
      CutIsUnique(tail, lines[1..], rest);
      LinesOfLine(lines[0], tail);
    } else {
      assert text == rest;
      NoMoreLines(text);
    }
  }

  /** A cut is the text's lines and rest: framing is pinned down by the text alone. */
  lemma LinesAreTheCut(text: string, lines: seq<string>, rest: string)
    ensures Cuts(text, lines, rest) <==> lines == Lines(text) && rest == Rest(text)
  {
    LinesCut(text);
    if Cuts(text, lines, rest) { CutIsUnique(text, lines, rest); }
  }

  lemma {:induction false} LinesOfConcat(a: string, b: string)
    ensures Lines(a + b) == Lines(a) + Lines(Rest(a) + b) && Rest(a + b) == Rest(Rest(a) + b)
    decreases |a|
  {
    hide Lines, Rest;
    var nl := NewlineIn(a);
    if nl.Some? {
      var line, tail := a[..nl.value], a[nl.value + 1..];
      LinesOfConcat(tail, b);
      assert a == line + "\n" + tail;
      assert a + b == line + "\n" + (tail + b);
      hide NewlineIn;
      LinesOfLine(line, tail);
      LinesOfLine(line, tail + b);
      assert [line] + (Lines(tail) + Lines(Rest(tail) + b)) == ([line] + Lines(tail)) + Lines(Rest(tail) + b);
    } else {
      NoMoreLines(a);
      assert [] + Lines(a + b) == Lines(a + b);
    }
  }

  lemma CutFirstLine(text: string)
    requires NewlineIn(text).Some?
    ensures var nl := NewlineIn(text).value;
      Lines(text) == [text[..nl]] + Lines(text[nl + 1..]) && Rest(text) == Rest(text[nl + 1..])
  {
  }

  lemma NoMoreLines(text: string)
    requires NewlineIn(text).None?
    ensures Lines(text) == [] && Rest(text) == text
  {
  }

  // ---- blank lines ----

  /** White space and line terminators, as `trim` removes them. */
  predicate IsSpace(c: char) {
    var n := c as int;
    9 <= n <= 13 || 0x2000 <= n <= 0x200a || n in {0x20, 0xa0, 0x1680, 0x2028, 0x2029, 0x202f, 0x205f, 0x3000, 0xfeff}
  }

  function TrimLeft(s: string): string {
    if s != "" && IsSpace(s[0]) then TrimLeft(s[1..]) else s
  }

  function TrimRight(s: string): string {
    if s != "" && IsSpace(s[|s| - 1]) then TrimRight(s[..|s| - 1]) else s
  }

  function Trim(s: string): string {
    TrimRight(TrimLeft(s))
  }

  function NonBlank(lines: seq<string>): seq<string> {
    if lines == [] then []
    else NonBlank(lines[..|lines| - 1]) + if Trim(lines[|lines| - 1]) == "" then [] else [lines[|lines| - 1]]
  }

  lemma {:induction false} NonBlankConcat(a: seq<string>, b: seq<string>)
    ensures NonBlank(a + b) == NonBlank(a) + NonBlank(b)
    decreases |b|
  {
    if b == [] {
      assert a + b == a;
    } else {
      assert (a + b)[..|a + b| - 1] == a + b[..|b| - 1];
      NonBlankConcat(a, b[..|b| - 1]);
    }
  }

  lemma NonBlankOfOne(line: string)
    ensures NonBlank([]) == [] && NonBlank([line]) == if Trim(line) == "" then [] else [line]
  {
    assert [line][..0] == [];
  }

  function Concat(chunks: seq<string>): string {
    if chunks == [] then "" else Concat(chunks[..|chunks| - 1]) + chunks[|chunks| - 1]
  }

  // ---- the readers ----

  const CAP: nat := 1048576

  function Last(text: string, n: nat): string {
    if |text| > n then text[|text| - n..] else text
  }

  /** `buf` and the lines handled so far, after the chunks; `cap` is absent for the socket reader. */
  function Feed(chunks: seq<string>, cap: Option<nat>): (string, seq<string>) {
    if chunks == [] then ("", [])
    else
      var (buf, handled) := Feed(chunks[..|chunks| - 1], cap);
      var text := buf + chunks[|chunks| - 1];
      (if cap.Some? then Last(Rest(text), cap.value) else Rest(text), handled + NonBlank(Lines(text)))
  }

  /** The Codex reader, closed: a partial line that is not blank is handled too. */
  function Drained(chunks: seq<string>): seq<string> {
    var (buf, handled) := Feed(chunks, Some(CAP));
    handled + if Trim(buf) == "" then [] else [buf]
  }

  class LineReader {
    const cap: Option<nat>
    var buf: string
    var handled: seq<string>
    ghost var fed: seq<string>

    constructor (cap: Option<nat>)
      ensures Valid() && fed == [] && this.cap == cap
    {
      this.cap, buf, handled, fed := cap, "", [], [];
    }

    /** The reader holds what `Feed` says of the chunks it has been fed. */
    ghost predicate Valid()
      reads this
    {
      (buf, handled) == Feed(fed, cap)
    }

    method OnData(d: string)
      requires Valid()
      modifies this
      ensures Valid() && fed == old(fed) + [d]
    {
      hide Lines, Rest, NewlineIn, NonBlank;
      buf := buf + d;
      TakeLines();
      if cap.Some? && |buf| > cap.value {
        buf := buf[|buf| - cap.value..];
      }
      fed := fed + [d];
      assert fed[..|fed| - 1] == old(fed);
    }

    /** Handles every complete line of the buffer. */
    method TakeLines()
      modifies `buf, `handled
      ensures buf == Rest(old(buf)) && handled == old(handled) + NonBlank(Lines(old(buf)))
    {
      hide Lines, Rest, NewlineIn, NonBlank, Trim;
      var nl := NewlineIn(buf);
      ghost var lines: seq<string> := [];
      NonBlankOfOne("");
      assert [] + Lines(buf) == Lines(buf);
      while nl.Some?
        invariant nl == NewlineIn(buf) && Lines(old(buf)) == lines + Lines(buf) && Rest(old(buf)) == Rest(buf)
        invariant handled == old(handled) + NonBlank(lines)
        decreases |buf|
      {
        var line := buf[..nl.value];
        CutFirstLine(buf);
        buf := buf[nl.value + 1..];
        NonBlankConcat(lines, [line]);
        NonBlankOfOne(line);
        assert lines + ([line] + Lines(buf)) == (lines + [line]) + Lines(buf);
        lines := lines + [line];
        if Trim(line) != "" {
          handled := handled + [line];
        }
        nl := NewlineIn(buf);
      }
      NoMoreLines(buf);
      assert lines == Lines(old(buf));
    }

    method OnClose()
      requires Valid() && cap == Some(CAP)
      modifies this
      ensures handled == Drained(old(fed))
    {
      if Trim(buf) != "" {
        handled := handled + [buf];
        buf := "";
      }
    }
  }

  // ---- chunks do not matter ----

  /** However a stream is cut into chunks, the socket reader handles exactly the lines of its text that are not blank,
      in order, and holds the text after the last newline. */
  lemma {:induction false} ChunksDoNotMatter(chunks: seq<string>)
    ensures Feed(chunks, None) == (Rest(Concat(chunks)), NonBlank(Lines(Concat(chunks))))
    decreases |chunks|
  {
    if chunks != [] {
      var init, d := chunks[..|chunks| - 1], chunks[|chunks| - 1];
      ChunksDoNotMatter(init);
      LinesOfConcat(Concat(init), d);
      NonBlankConcat(Lines(Concat(init)), Lines(Rest(Concat(init)) + d));
    }
  }

  /** No partial line has been over the cap when a chunk ended. */
  ghost predicate Fits(chunks: seq<string>, cap: nat) {
    forall n :: 0 <= n <= |chunks| ==> |Rest(Concat(chunks[..n]))| <= cap
  }

  lemma FitsPrefix(chunks: seq<string>, cap: nat)
    requires Fits(chunks, cap) && chunks != []
    ensures Fits(chunks[..|chunks| - 1], cap)
  {
    var init := chunks[..|chunks| - 1];
    assert forall n :: 0 <= n <= |init| ==> init[..n] == chunks[..n];
  }

  lemma {:induction false} CappedAgrees(chunks: seq<string>, cap: nat)
    requires Fits(chunks, cap)
    ensures Feed(chunks, Some(cap)) == Feed(chunks, None)
    decreases |chunks|
  {
    if chunks != [] {
      FitsPrefix(chunks, cap);
      CappedAgrees(chunks[..|chunks| - 1], cap);
      ChunksDoNotMatter(chunks);
      assert chunks[..|chunks|] == chunks;
    }
  }

  /** The capped reader keeps in step with the uncapped one exactly while no partial line is over the cap. */
  lemma CapIsExact(chunks: seq<string>, cap: nat)
    ensures Fits(chunks, cap) <==> forall n :: 0 <= n <= |chunks| ==> Feed(chunks[..n], Some(cap)).0 == Rest(Concat(chunks[..n]))
  {
    if Fits(chunks, cap) {
      forall n | 0 <= n <= |chunks| ensures Feed(chunks[..n], Some(cap)).0 == Rest(Concat(chunks[..n])) {
        assert forall m :: 0 <= m <= n ==> chunks[..n][..m] == chunks[..m];
        CappedAgrees(chunks[..n], cap);
        ChunksDoNotMatter(chunks[..n]);
      }
    } else {
      var n :| 0 <= n <= |chunks| && |Rest(Concat(chunks[..n]))| > cap;
      assert |Feed(chunks[..n], Some(cap)).0| <= cap;
    }
  }

  predicate LinesFit(text: string, cap: nat) {
    |Rest(text)| <= cap && forall i :: 0 <= i < |Lines(text)| ==> |Lines(text)[i]| <= cap
  }

  /** If the whole text has only lines within the cap, so has every prefix. */
  lemma PrefixFits(a: string, b: string, cap: nat)
    requires LinesFit(a + b, cap)
    ensures LinesFit(a, cap)
  {
    LinesOfConcat(a, b);
    LinesCut(a);
    var rest := Rest(a);
    assert forall i :: 0 <= i < |Lines(a)| ==> Lines(a + b)[i] == Lines(a)[i];
    RestGrows(rest, b);
    hide Lines, Rest;
    if Lines(rest + b) != [] {
      assert Lines(a + b)[|Lines(a)|] == Lines(rest + b)[0];
    }
  }

  /** Text appended to a partial line ends up behind it, in its first line or in the rest. */
  lemma RestGrows(rest: string, b: string)
    requires '\n' !in rest
    ensures if Lines(rest + b) == [] then |Rest(rest + b)| >= |rest| else |Lines(rest + b)[0]| >= |rest|
  {
    var nl := NewlineIn(b);
    if nl.None? {
      assert '\n' !in rest + b;
      NoMoreLines(rest + b);
    } else {
      var line := rest + b[..nl.value];
      assert rest + b == line + "\n" + b[nl.value + 1..];
      hide Lines, Rest, NewlineIn;
      LinesOfLine(line, b[nl.value + 1..]);
    }
  }

  lemma {:induction false} ConcatPrefix(chunks: seq<string>, n: nat)
    requires n <= |chunks|
    ensures exists b :: Concat(chunks) == Concat(chunks[..n]) + b
    decreases |chunks|
  {
    if n == |chunks| {
      assert chunks[..n] == chunks && Concat(chunks) == Concat(chunks[..n]) + "";
    } else {
      var init := chunks[..|chunks| - 1];
      ConcatPrefix(init, n);
      assert init[..n] == chunks[..n];
      var b :| Concat(init) == Concat(chunks[..n]) + b;
      assert Concat(chunks) == Concat(chunks[..n]) + (b + chunks[|chunks| - 1]);
    }
  }

  /** A Codex stream none of whose lines, the unterminated last one included, is over the cap is read alike in every
      chunking: when it closes, exactly its non-blank lines have been handled, in order, the last one included. */
  lemma CodexChunksDoNotMatter(chunks: seq<string>)
    requires LinesFit(Concat(chunks), CAP)
    ensures Drained(chunks) == NonBlank(Lines(Concat(chunks)) + [Rest(Concat(chunks))])
  {
    forall n | 0 <= n <= |chunks| ensures |Rest(Concat(chunks[..n]))| <= CAP {
      ConcatPrefix(chunks, n);
      var b :| Concat(chunks) == Concat(chunks[..n]) + b;
      PrefixFits(Concat(chunks[..n]), b, CAP);
    }
    CappedAgrees(chunks, CAP);
    ChunksDoNotMatter(chunks);
    var rest := Rest(Concat(chunks));
    NonBlankConcat(Lines(Concat(chunks)), [rest]);
    assert [rest][..0] == [];
  }

  /** Past the cap chunks do matter: a line one character too long is handled whole if its newline arrives in the same
      chunk, and without its first character if the newline arrives in the next. */
  lemma LongLinesDependOnChunks(line: string)
    requires |line| == CAP + 1 && '\n' !in line && Trim(line) != "" && Trim(line[1..]) != ""
    ensures Concat([line + "\n"]) == Concat([line, "\n"])
    ensures Drained([line + "\n"]) == [line] && Drained([line, "\n"]) == [line[1..]]
  {
    OneLine(line);
    OneLine(line[1..]);
    NoMoreLines(line);
    NonBlankOfOne("");
    assert Last(line, CAP) == line[1..] && Last("", CAP) == "";
    hide Lines, Rest, NonBlank, Last, Trim;
    FeedOne(line + "\n");
    FeedOne(line);
    FeedTwo(line, "\n");
    assert Trim("") == "" by { TrimOfNothing(); }
    assert "" + (line + "\n") == line + "\n";
  }

  lemma TrimOfNothing()
    ensures Trim("") == ""
  {
  }

  lemma FeedOne(d: string)
    ensures Feed([d], Some(CAP)) == (Last(Rest(d), CAP), NonBlank(Lines(d))) && Concat([d]) == d
  {
    assert [d][..0] == [] && "" + d == d && [] + NonBlank(Lines(d)) == NonBlank(Lines(d));
    hide Lines, Rest, NonBlank, Last;
  }

  lemma FeedTwo(d: string, e: string)
    ensures var (buf, handled) := Feed([d], Some(CAP));
      Feed([d, e], Some(CAP)) == (Last(Rest(buf + e), CAP), handled + NonBlank(Lines(buf + e))) && Concat([d, e]) == d + e
  {
    assert [d, e][..1] == [d];
    FeedOne(d);
    hide Lines, Rest, NonBlank, Last;
  }

  lemma OneLine(line: string)
    requires '\n' !in line && Trim(line) != ""
    ensures Lines(line + "\n") == [line] && Rest(line + "\n") == "" && NonBlank([line]) == [line]
  {
    assert line + "\n" == line + "\n" + "";
    FirstNewline(line, "");
    assert Lines("") == [] && [line] + [] == [line];
    assert [line][..0] == [];
  }
}
