/** What the cap on partial lines costs: exactly the texts that the capped reader handles alike in every chunking. */
module LineCap {
  import opened Options
  import opened LineFraming

  // ---- blank text ----

  predicate Blank(s: string) {
    Trim(s) == ""
  }

  predicate AllSpaces(s: string) {
    forall i :: 0 <= i < |s| ==> IsSpace(s[i])
  }

  lemma {:induction false} TrimLeftOf(s: string)
    ensures AllSpaces(s) ==> TrimLeft(s) == ""
    ensures !AllSpaces(s) ==> TrimLeft(s) != "" && !IsSpace(TrimLeft(s)[0])
    decreases |s|
  {
    if s != "" && IsSpace(s[0]) {
      TrimLeftOf(s[1..]);
      assert AllSpaces(s) <==> AllSpaces(s[1..]) by {
        assert forall i :: 0 < i < |s| ==> s[i] == s[1..][i - 1];
      }
    }
  }

  lemma {:induction false} TrimRightOf(s: string)
    requires s != "" && !IsSpace(s[0])
    ensures TrimRight(s) != ""
    decreases |s|
  {
    if IsSpace(s[|s| - 1]) { TrimRightOf(s[..|s| - 1]); }
  }

  lemma BlankIsSpaces(s: string)
    ensures Blank(s) <==> AllSpaces(s)
  {
    TrimLeftOf(s);
    if !AllSpaces(s) { TrimRightOf(TrimLeft(s)); }
  }

  lemma BlankOfConcat(a: string, b: string)
    ensures Blank(a + b) <==> Blank(a) && Blank(b)
  {
    hide Blank, AllSpaces;
    BlankIsSpaces(a);
    BlankIsSpaces(b);
    BlankIsSpaces(a + b);
    SpacesOfConcat(a, b);
  }

  lemma SpacesOfConcat(a: string, b: string)
    ensures AllSpaces(a + b) <==> AllSpaces(a) && AllSpaces(b)
  {
    hide IsSpace;
    assert forall i :: 0 <= i < |a| ==> (a + b)[i] == a[i];
    assert forall i :: 0 <= i < |b| ==> (a + b)[|a| + i] == b[i];
    assert forall i :: |a| <= i < |a + b| ==> (a + b)[i] == b[i - |a|];
  }

  lemma LastOfBlank(s: string, n: nat)
    requires Blank(s)
    ensures Blank(Last(s, n))
  {
    BlankIsSpaces(s);
    BlankIsSpaces(Last(s, n));
    hide Blank, IsSpace;
  }

  // ---- the lines of a text, the last one included ----

  function Pieces(text: string): seq<string> {
    Lines(text) + [Rest(text)]
  }

  /** Every line that is not blank, the unterminated last one included, is within the cap. */
  ghost predicate SolidLinesFit(text: string, cap: nat) {
    forall line :: line in Pieces(text) && !Blank(line) ==> |line| <= cap
  }

  /** The line that the partial line `r` becomes with the text to come. */
  function Whole(r: string, rem: string): string {
    if Lines(r + rem) == [] then Rest(r + rem) else Lines(r + rem)[0]
  }

  lemma WholeIsALine(a: string, rem: string)
    ensures Whole(Rest(a), rem) in Pieces(a + rem)
  {
    LinesOfConcat(a, rem);
    var lines := Lines(Rest(a) + rem);
    hide Lines, Rest;
    if lines != [] { assert Lines(a + rem)[|Lines(a)|] == lines[0]; }
  }

  /** The text up to its first newline, and after it. */
  lemma FirstLineOf(d: string)
    requires NewlineIn(d).Some?
    ensures var n := NewlineIn(d).value; '\n' !in d[..n] && d == d[..n] + "\n" + d[n + 1..]
  {
  }

  lemma NewlineBehind(r: string, d: string)
    requires '\n' !in r
    ensures NewlineIn(d).None? ==> '\n' !in r + d && Lines(r + d) == [] && Rest(r + d) == r + d
    ensures NewlineIn(d).Some? ==>
      var line, tail := d[..NewlineIn(d).value], d[NewlineIn(d).value + 1..];
      d == line + "\n" + tail && Lines(r + d) == [r + line] + Lines(tail) && Rest(r + d) == Rest(tail)
  {
    hide Lines, Rest;
    if NewlineIn(d).None? {
      assert '\n' !in r + d;
      NoMoreLines(r + d);
    } else {
      FirstLineOf(d);
      var line, tail := d[..NewlineIn(d).value], d[NewlineIn(d).value + 1..];
      hide NewlineIn;
      assert r + (line + "\n" + tail) == (r + line) + "\n" + tail;
      LinesOfLine(r + line, tail);
    }
  }

  lemma WholeIsLonger(r: string, rem: string)
    requires '\n' !in r
    ensures |Whole(r, rem)| >= |r|
    ensures Whole(r, rem) == r + if NewlineIn(rem).None? then rem else rem[..NewlineIn(rem).value]
  {
    NewlineBehind(r, rem);
    hide Lines, Rest, NewlineIn;
  }

  /** The whole line starts with the partial one, and continues as the text to come says. */
  lemma WholeExtends(r: string, d: string, rem: string)
    requires '\n' !in r
    ensures NewlineIn(d).None? ==> '\n' !in r + d && Whole(r, d + rem) == Whole(r + d, rem)
    ensures NewlineIn(d).Some? ==> Whole(r, d + rem) == r + d[..NewlineIn(d).value]
  {
    hide Lines, Rest, Whole, NewlineIn;
    if NewlineIn(d).None? {
      NewlineBehind(r, d);
      assert (r + d) + rem == r + (d + rem);
      SameWhole(r, d, rem);
    } else {
      var n := NewlineIn(d).value;
      FirstLineOf(d);
      assert d + rem == d[..n] + "\n" + (d[n + 1..] + rem);
      FirstNewline(d[..n], d[n + 1..] + rem);
      WholeIsLonger(r, d + rem);
    }
  }

  lemma SameWhole(r: string, d: string, rem: string)
    ensures Whole(r, d + rem) == Whole(r + d, rem)
  {
    assert (r + d) + rem == r + (d + rem);
    hide Lines, Rest;
  }

  lemma BlankPrefix(r: string, d: string, rem: string)
    requires '\n' !in r && Blank(Whole(r, d + rem))
    ensures Blank(r)
    ensures if NewlineIn(d).None? then Blank(d) else Blank(d[..NewlineIn(d).value])
  {
    hide NewlineIn, Lines, Rest, Blank, Whole;
    WholeExtends(r, d, rem);
    if NewlineIn(d).None? {
      WholeIsLonger(r + d, rem);
      BlankOfConcat(r + d, if NewlineIn(rem).None? then rem else rem[..NewlineIn(rem).value]);
      BlankOfConcat(r, d);
    } else {
      BlankOfConcat(r, d[..NewlineIn(d).value]);
    }
  }

  // ---- texts whose solid lines fit are handled alike ----

  /** The reader holds the partial line `r`, or has lost some of a line that is blank as a whole. */
  ghost predicate Holds(buf: string, r: string, rem: string) {
    '\n' !in r && '\n' !in buf && (buf == r || (Blank(buf) && Blank(Whole(r, rem))))
  }

  lemma LinesAreLines(r: string)
    ensures '\n' !in Rest(r)
  {
    LinesCut(r);
  }

  lemma NonBlankHeads(a: string, b: string, tail: seq<string>)
    requires Blank(a) && Blank(b)
    ensures NonBlank([a] + tail) == NonBlank([b] + tail)
  {
    NonBlankOfOne(a);
    NonBlankOfOne(b);
    hide NonBlank;
    NonBlankConcat([a], tail);
    NonBlankConcat([b], tail);
  }

  /** The chunk `d` arrives: the same lines are handled, whether or not blanks were lost. */
  lemma SameLines(buf: string, r: string, d: string, rem: string)
    requires Holds(buf, r, d + rem)
    ensures NonBlank(Lines(buf + d)) == NonBlank(Lines(r + d)) && '\n' !in Rest(buf + d)
    ensures buf != r ==> if NewlineIn(d).None? then Blank(Rest(buf + d)) && Blank(Whole(Rest(r + d), rem)) else Rest(buf + d) == Rest(r + d)
  {
    LinesAreLines(buf + d);
    if buf != r {
      NewlineBehind(buf, d);
      NewlineBehind(r, d);
      BlankPrefix(r, d, rem);
      WholeExtends(r, d, rem);
      hide Lines, Rest, NewlineIn, Blank, Whole;
      if NewlineIn(d).None? {
        BlankOfConcat(buf, d);
      } else {
        var line := d[..NewlineIn(d).value];
        BlankOfConcat(buf, line);
        BlankOfConcat(r, line);
        NonBlankHeads(buf + line, r + line, Lines(d[NewlineIn(d).value + 1..]));
      }
    }
  }

  /** What is then kept of the partial line. */
  lemma StillHolds(text: string, next: string, r: string, rem: string, cap: nat)
    requires SolidLinesFit(text, cap) && Whole(r, rem) in Pieces(text) && '\n' !in r && '\n' !in next
    requires next == r || (Blank(next) && Blank(Whole(r, rem)))
    ensures Holds(Last(next, cap), r, rem)
  {
    WholeIsLonger(r, rem);
    assert '\n' !in Last(next, cap);
    hide Lines, Rest, Whole, Blank;
    if next != r {
      LastOfBlank(next, cap);
    } else if |r| > cap {
      assert Blank(Whole(r, rem));
      PartOfBlank(r, rem);
      LastOfBlank(r, cap);
    }
  }

  lemma PartOfBlank(r: string, rem: string)
    requires '\n' !in r && Blank(Whole(r, rem))
    ensures Blank(r)
  {
    assert "" + rem == rem;
    hide Blank, Whole;
    BlankPrefix(r, "", rem);
  }

  lemma {:induction false} FeedsAlike(chunks: seq<string>, rem: string, cap: nat)
    requires SolidLinesFit(Concat(chunks) + rem, cap)
    ensures var (buf, handled) := Feed(chunks, Some(cap));
      handled == NonBlank(Lines(Concat(chunks))) && Holds(buf, Rest(Concat(chunks)), rem)
    decreases |chunks|
  {
    hide Lines, Rest, NonBlank, SolidLinesFit, Last, Whole, Blank;
    if chunks == [] {
      NoMoreLines("");
      NonBlankOfOne("");
    } else {
      var init, d := chunks[..|chunks| - 1], chunks[|chunks| - 1];
      var a := Concat(init);
      assert a + (d + rem) == (a + d) + rem;
      FeedsAlike(init, d + rem, cap);
      hide Holds;
      OneMoreChunk(Feed(init, Some(cap)).0, a, d, rem, cap);
    }
  }

  lemma OneMoreChunk(buf: string, a: string, d: string, rem: string, cap: nat)
    requires SolidLinesFit((a + d) + rem, cap) && Holds(buf, Rest(a), d + rem)
    ensures NonBlank(Lines(a)) + NonBlank(Lines(buf + d)) == NonBlank(Lines(a + d))
    ensures Holds(Last(Rest(buf + d), cap), Rest(a + d), rem)
  {
    hide Lines, Rest, NonBlank, SolidLinesFit, Last, Whole, Blank;
    LinesOfConcat(a, d);
    NonBlankConcat(Lines(a), Lines(Rest(a) + d));
    LinesAreLines(a + d);
    SameLines(buf, Rest(a), d, rem);
    WholeIsALine(a + d, rem);
    StillHolds((a + d) + rem, Rest(buf + d), Rest(a + d), rem, cap);
  }

  lemma DrainsAlike(chunks: seq<string>)
    requires SolidLinesFit(Concat(chunks), CAP)
    ensures Drained(chunks) == NonBlank(Pieces(Concat(chunks)))
  {
    var text := Concat(chunks);
    assert text + "" == text;
    FeedsAlike(chunks, "", CAP);
    var (buf, handled) := Feed(chunks, Some(CAP));
    LinesAreLines(text);
    WholeOfRest(Rest(text));
    NonBlankOfOne(Rest(text));
    hide Lines, Rest, NonBlank, Feed, SolidLinesFit, Whole;
    NonBlankConcat(Lines(text), [Rest(text)]);
  }

  lemma WholeOfRest(r: string)
    requires '\n' !in r
    ensures Whole(r, "") == r
  {
    assert r + "" == r;
    NoMoreLines(r);
  }

  // ---- and no others ----

  /** `line` is the one that `a` leads up to and `tail` follows. */
  ghost predicate Splits(text: string, a: string, line: string, tail: string) {
    && text == a + line + "\n" + tail && Rest(a) == "" && '\n' !in line
    && Lines(text) == Lines(a) + [line] + Lines(tail) && Rest(text) == Rest(tail)
  }

  lemma SplitLater(first: string, text: string, a: string, line: string, tail: string)
    requires '\n' !in first && Splits(text, a, line, tail)
    ensures Splits(first + "\n" + text, first + "\n" + a, line, tail)
  {
    hide Lines, Rest;
    LinesOfLine(first, text);
    LinesOfLine(first, a);
    assert first + "\n" + (a + line + "\n" + tail) == (first + "\n" + a) + line + "\n" + tail;
    assert [first] + (Lines(a) + [line] + Lines(tail)) == ([first] + Lines(a)) + [line] + Lines(tail);
  }

  lemma SplitFirst(line: string, tail: string)
    requires '\n' !in line
    ensures Splits(line + "\n" + tail, "", line, tail)
  {
    hide Lines, Rest;
    LinesOfLine(line, tail);
    NoMoreLines("");
    assert "" + line == line && [] + [line] + Lines(tail) == [line] + Lines(tail);
  }

  lemma LinesMeanNewline(text: string)
    ensures Lines(text) != [] <==> NewlineIn(text).Some?
  {
  }

  lemma {:induction false} SplitAt(text: string, k: nat) returns (a: string, tail: string)
    requires k < |Lines(text)|
    ensures Splits(text, a, Lines(text)[k], tail)
    decreases k
  {
    LinesMeanNewline(text);
    hide Lines, Rest, NewlineIn, Splits;
    var n := NewlineIn(text).value;
    var first, rest := text[..n], text[n + 1..];
    CutFirstLine(text);
    FirstLineOf(text);
    if k == 0 {
      a, tail := "", rest;
      SplitFirst(first, rest);
    } else {
      a, tail := SplitAt(rest, k - 1);
      SplitLater(first, rest, a, Lines(rest)[k - 1], tail);
      a := first + "\n" + a;
    }
  }

  /** A line over the cap that is cut off at its end is not handled as it is. */
  lemma LongLineIsLost(a: string, line: string, tail: string)
    requires Rest(a) == "" && '\n' !in line && !Blank(line) && |line| > CAP
    ensures Drained([a + line, "\n" + tail]) != NonBlank(Lines(a) + [line] + Lines(tail) + [Rest(tail)])
  {
    var buf, r := Last(line, CAP), Rest(tail);
    var r' := Last(r, CAP);
    var p, x := NonBlank(Lines(a)), NonBlank(Lines(tail));
    assert buf != line;
    assert "" + "" == "" && buf + "" == buf;
    hide Lines, Rest, NewlineIn, Last, Blank, NonBlank, Drained;
    PartialIsCapped(a, line, "\n" + tail);
    NewlineFirst(tail);
    NewlineBehind(buf, "\n" + tail);
    SolidParts(Lines(a), line, Lines(tail), r);
    SolidHead(buf, Lines(tail));
    if Blank(r) { LastOfBlank(r, CAP); }
    LostBehind(p, line, buf, Blank(buf), x, r, Blank(r), r', Blank(r'));
  }

  lemma SolidHead(buf: string, lines: seq<string>)
    ensures NonBlank([buf] + lines) == If(!Blank(buf), buf) + NonBlank(lines)
  {
    NonBlankOfOne(buf);
    hide NonBlank;
    NonBlankConcat([buf], lines);
  }

  lemma SolidParts(before: seq<string>, line: string, after: seq<string>, r: string)
    requires !Blank(line)
    ensures NonBlank(before + [line] + after + [r]) == NonBlank(before) + [line] + NonBlank(after) + If(!Blank(r), r)
  {
    NonBlankOfOne(line);
    NonBlankOfOne(r);
    hide NonBlank;
    NonBlankConcat(before + [line] + after, [r]);
    NonBlankConcat(before + [line], after);
    NonBlankConcat(before, [line]);
  }

  lemma NewlineFirst(tail: string)
    ensures NewlineIn("\n" + tail) == Some(0) && ("\n" + tail)[..0] == "" && ("\n" + tail)[1..] == tail
  {
  }

  function If<T>(b: bool, x: T): seq<T> {
    if b then [x] else []
  }

  /** The sequences differ at the line, or in length. */
  lemma LostBehind(p: seq<string>, line: string, buf: string, lost: bool, x: seq<string>, r: string, noR: bool, r': string, noR': bool)
    requires buf != line && (noR ==> noR')
    ensures p + (If(!lost, buf) + x) + If(!noR', r') != p + [line] + x + If(!noR, r)
  {
    var u, v := p + (If(!lost, buf) + x) + If(!noR', r'), p + [line] + x + If(!noR, r);
    if !lost {
      assert u[|p|] == buf && v[|p|] == line;
    } else {
      assert |u| < |v|;
    }
  }

  lemma PartialIsCapped(a: string, line: string, d: string)
    requires Rest(a) == "" && '\n' !in line
    ensures var buf := Last(line, CAP);
      var rest := Last(Rest(buf + d), CAP);
      Drained([a + line, d]) == NonBlank(Lines(a)) + NonBlank(Lines(buf + d)) + If(!Blank(rest), rest)
  {
    LinesOfConcat(a, line);
    NoMoreLines(line);
    assert "" + line == line && Lines(a) + [] == Lines(a);
    FeedTwo(a + line, d);
    FeedOne(a + line);
    hide Lines, Rest, NonBlank, Last, Feed;
  }

  lemma LongRestIsLost(text: string)
    requires !Blank(Rest(text)) && |Rest(text)| > CAP
    ensures Drained([text]) != NonBlank(Pieces(text))
  {
    FeedOne(text);
    var buf := Last(Rest(text), CAP);
    NonBlankOfOne(Rest(text));
    hide Lines, Rest, Feed;
    NonBlankConcat(Lines(text), [Rest(text)]);
    var p := NonBlank(Lines(text));
    hide NonBlank;
    if !Blank(buf) { assert (p + [buf])[|p|] != (p + [Rest(text)])[|p|]; }
  }

  ghost predicate ReadAlike(text: string) {
    forall chunks :: Concat(chunks) == text ==> Drained(chunks) == NonBlank(Pieces(text))
  }

  lemma ConcatTwo(d: string, e: string)
    ensures Concat([d, e]) == d + e && Concat([d]) == d
  {
    assert [d, e][..1] == [d] && [d][..0] == [] && "" + d == d;
    assert Concat([]) == "";
  }

  lemma LongLineIsReadTwice(text: string, line: string)
    requires line in Pieces(text) && !Blank(line) && |line| > CAP
    ensures !ReadAlike(text)
  {
    hide Drained, Lines, Rest, NonBlank, Blank;
    if line in Lines(text) {
      var k :| 0 <= k < |Lines(text)| && Lines(text)[k] == line;
      var a, tail := SplitAt(text, k);
      ConcatTwo(a + line, "\n" + tail);
      assert Splits(text, a, line, tail) && (a + line) + ("\n" + tail) == text;
      LongLineIsLost(a, line, tail);
      assert Concat([a + line, "\n" + tail]) == text;
    } else {
      ConcatTwo(text, "");
      LongRestIsLost(text);
      assert Concat([text]) == text;
    }
  }

  /** A Codex stream is read alike in every chunking, all its lines that are not blank handled as they are, if and only if
      each of them, the unterminated last one included, is within the cap. */
  lemma CapCostsExactlyLongLines(text: string)
    ensures ReadAlike(text) <==> SolidLinesFit(text, CAP)
  {
    hide Drained, Blank, Pieces;
    if SolidLinesFit(text, CAP) {
      forall chunks | Concat(chunks) == text ensures Drained(chunks) == NonBlank(Pieces(text)) { DrainsAlike(chunks); }
    } else {
      var line :| line in Pieces(text) && !Blank(line) && |line| > CAP;
      LongLineIsReadTwice(text, line);
    }
  }
}
