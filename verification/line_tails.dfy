/** What the readers take for blank, and what the capped reader still handles of a line that is too long. */
module LineTails {
  import opened Options
  import opened LineFraming
  import opened LineCap

  // ---- blank lines ----

  /** The white space of ECMAScript and its line terminators. */
  const WHITE: string :=
    "\t\n\U{000b}\U{000c}\r \U{00a0}\U{1680}\U{2000}\U{2001}\U{2002}\U{2003}\U{2004}\U{2005}\U{2006}\U{2007}\U{2008}\U{2009}\U{200a}\U{2028}\U{2029}\U{202f}\U{205f}\U{3000}\U{feff}"

  lemma SpaceIsWhite(c: char)
    ensures IsSpace(c) <==> c in WHITE
  {
    assert forall i :: 0 <= i < |WHITE| ==> IsSpace(WHITE[i]);
    if IsSpace(c) { WhiteAt(c); }
  }

  /** Where in the list a white character stands. */
  lemma WhiteAt(c: char)
    requires IsSpace(c)
    ensures c in WHITE
  {
    var n := c as int;
    var i := if n <= 13 then n - 9 else if n == 0x20 then 5 else if n == 0xa0 then 6 else if n == 0x1680 then 7
             else if n <= 0x200a then n - 0x2000 + 8 else if n <= 0x2029 then n - 0x2028 + 19 else if n == 0x202f then 21
             else if n == 0x205f then 22 else if n == 0x3000 then 23 else 24;
    assert WHITE[i] as int == n;
  }

  /** A line is dropped as blank exactly if it holds nothing but white space. */
  lemma BlankIsWhite(line: string)
    ensures NonBlank([line]) == (if forall c :: c in line ==> c in WHITE then [] else [line])
  {
    NonBlankOfOne(line);
    BlankIsSpaces(line);
    forall c ensures IsSpace(c) <==> c in WHITE { SpaceIsWhite(c); }
    hide Trim, IsSpace, NonBlank;
    assert AllSpaces(line) <==> forall c :: c in line ==> c in WHITE;
  }

  // ---- lines past the cap ----

  /** `tail` is the end of `line`, all of it if that fits the cap, and no less than the cap otherwise. */
  predicate IsTail(tail: string, line: string, cap: nat) {
    && |tail| <= |line| && line[|line| - |tail|..] == tail
    && (|tail| < cap ==> tail == line)
  }

  predicate AreTails(tails: seq<string>, lines: seq<string>, cap: nat) {
    |tails| == |lines| && forall i :: 0 <= i < |lines| ==> IsTail(tails[i], lines[i], cap)
  }

  lemma TailGrows(tail: string, line: string, more: string, cap: nat)
    requires IsTail(tail, line, cap)
    ensures IsTail(tail + more, line + more, cap)
  {
    assert (line + more)[|line| - |tail|..] == line[|line| - |tail|..] + more;
  }

  lemma LastIsTail(tail: string, line: string, cap: nat)
    requires IsTail(tail, line, cap)
    ensures IsTail(Last(tail, cap), line, cap) && |Last(tail, cap)| <= cap
  {
    var last := Last(tail, cap);
    assert line[|line| - |last|..] == line[|line| - |tail|..][|tail| - |last|..];
  }

  lemma WholeIsTail(line: string, cap: nat)
    ensures IsTail(line, line, cap)
  {
  }

  lemma TailHasNoNewline(tail: string, line: string, cap: nat)
    requires IsTail(tail, line, cap) && '\n' !in line
    ensures '\n' !in tail
  {
    assert forall i :: 0 <= i < |tail| ==> tail[i] == line[|line| - |tail| + i];
  }

  lemma FirstIsTail(tail: string, line: string, lines: seq<string>, cap: nat)
    requires IsTail(tail, line, cap)
    ensures AreTails([tail] + lines, [line] + lines, cap)
  {
    forall i | 0 <= i < |lines| ensures IsTail(lines[i], lines[i], cap) { WholeIsTail(lines[i], cap); }
    hide IsTail;
  }

  lemma MoreTails(a: seq<string>, b: seq<string>, c: seq<string>, d: seq<string>, cap: nat)
    requires AreTails(a, b, cap) && AreTails(c, d, cap)
    ensures AreTails(a + c, b + d, cap)
  {
    hide IsTail;
  }

  lemma FeedAdds(chunks: seq<string>, cap: nat)
    requires chunks != []
    ensures var init, d := chunks[..|chunks| - 1], chunks[|chunks| - 1];
      var (buf, handled) := Feed(init, Some(cap));
      && Feed(chunks, Some(cap)) == (Last(Rest(buf + d), cap), handled + NonBlank(Lines(buf + d)))
      && Concat(chunks) == Concat(init) + d
  {
    hide Lines, Rest, NonBlank;
  }

  /** With the end of a partial line in place of all of it, only the first line that the text completes can differ. */
  lemma TailReads(buf: string, partial: string, d: string, cap: nat)
    requires IsTail(buf, partial, cap) && '\n' !in partial
    ensures AreTails(Lines(buf + d), Lines(partial + d), cap) && IsTail(Rest(buf + d), Rest(partial + d), cap)
  {
    TailHasNoNewline(buf, partial, cap);
    hide Lines, Rest, IsTail;
    var nl := NewlineIn(d);
    if nl.None? {
      NoMoreLines(buf + d);
      NoMoreLines(partial + d);
      TailGrows(buf, partial, d, cap);
    } else {
      var line, rest := d[..nl.value], d[nl.value + 1..];
      assert d == line + "\n" + rest;
      assert buf + d == (buf + line) + "\n" + rest && partial + d == (partial + line) + "\n" + rest;
      hide NewlineIn;
      LinesOfLine(buf + line, rest);
      LinesOfLine(partial + line, rest);
      TailGrows(buf, partial, line, cap);
      FirstIsTail(buf + line, partial + line, Lines(rest), cap);
      WholeIsTail(Rest(rest), cap);
    }
  }

  /** What a capped reader has handled: of each line the end, whole where it fits. */
  lemma {:induction false} HandledAreTails(chunks: seq<string>, cap: nat) returns (tails: seq<string>)
    ensures var text, (buf, handled) := Concat(chunks), Feed(chunks, Some(cap));
      && AreTails(tails, Lines(text), cap) && handled == NonBlank(tails)
      && IsTail(buf, Rest(text), cap) && |buf| <= cap
    decreases |chunks|
  {
    if chunks == [] {
      tails := [];
      NoMoreLines("");
    } else {
      var init, d := chunks[..|chunks| - 1], chunks[|chunks| - 1];
      var before := HandledAreTails(init, cap);
      var (buf, handled) := Feed(init, Some(cap));
      var text := Concat(init);
      hide Feed, Concat, Lines, Rest, NonBlank, IsTail, AreTails, Last;
      FeedAdds(chunks, cap);
      RestHasNoNewline(text);
      LinesOfConcat(text, d);
      TailReads(buf, Rest(text), d, cap);
      LastIsTail(Rest(buf + d), Rest(Rest(text) + d), cap);
      tails := before + Lines(buf + d);
      MoreTails(before, Lines(text), Lines(buf + d), Lines(Rest(text) + d), cap);
      NonBlankConcat(before, Lines(buf + d));
    }
  }

  lemma RestHasNoNewline(text: string)
    ensures '\n' !in Rest(text)
  {
    LinesCut(text);
  }

  /** Of a stream with lines past the cap, 1048576 characters, every chunking still handles all lines in order: those that
      fit whole, of the others an end of at least that length, and none that is blank or has a blank end. */
  lemma LongLinesKeepTheirEnds(chunks: seq<string>)
    ensures exists tails :: AreTails(tails, Lines(Concat(chunks)) + [Rest(Concat(chunks))], 1048576) && Drained(chunks) == NonBlank(tails)
  {
    var tails := HandledAreTails(chunks, CAP);
    var (buf, handled) := Feed(chunks, Some(CAP));
    NonBlankConcat(tails, [buf]);
    NonBlankOfOne(buf);
    hide Feed, Lines, Rest, IsTail, NonBlank;
    assert AreTails(tails + [buf], Lines(Concat(chunks)) + [Rest(Concat(chunks))], CAP);
    assert handled + [] == handled;
  }
}
