/**
 Binary sniffing (MacOS/brain/binary-detect.ts): the UTF-8 walker, the magic table and the verdict.

 The text side is independent of the walker: a text is a sequence of characters, each one byte sequence of
 the grammar in section 4 of RFC 3629.
 */
module BinaryDetect {

  type Byte = bv8

  // ---- the sniffer ----

  /** Allowed below 0x20 are tab, newline and carriage return. */
  predicate DisallowedControl(b: Byte) {
    b < 0x80 && b != 0x09 && b != 0x0a && b != 0x0d && (b < 0x20 || b == 0x7f)
  }

  /** Length announced by a lead byte; 0 for a byte that leads nothing. */
  function SequenceLength(b: Byte): nat {
    if b < 0x80 then 1
    else if b & 0xe0 == 0xc0 then 2
    else if b & 0xf0 == 0xe0 then 3
    else if b & 0xf8 == 0xf0 then 4
    else 0
  }

  predicate IsContinuation(b: Byte) {
    b & 0xc0 == 0x80
  }

  predicate AllContinuations(bytes: seq<Byte>) {
    forall j :: 0 <= j < |bytes| ==> IsContinuation(bytes[j])
  }

  /** What the walker counts from the start of `buf` on. */
  function Suspicious(buf: seq<Byte>): nat {
    if buf == [] then 0
    else
      var len := SequenceLength(buf[0]);
      if len == 1 then (if DisallowedControl(buf[0]) then 1 else 0) + Suspicious(buf[1..])
      else if len == 0 then 1 + Suspicious(buf[1..])
      else if len > |buf| then 0
      else if AllContinuations(buf[1..len]) then Suspicious(buf[len..])
      else 1 + Suspicious(buf[1..])
  }

  method SuspiciousCount(buf: seq<Byte>) returns (suspicious: nat)
    ensures suspicious == Suspicious(buf)
  {
    suspicious := 0;
    var i := 0;
    while i < |buf|
      invariant i <= |buf| && suspicious + Suspicious(buf[i..]) == Suspicious(buf)
    {
      var b := buf[i];
      var rest := buf[i..];
      if b < 0x80 {
        if b != 0x09 && b != 0x0a && b != 0x0d && (b < 0x20 || b == 0x7f) {
          suspicious := suspicious + 1;
        }
        assert rest[1..] == buf[i + 1..];
        i := i + 1;
        continue;
      }
      var len := 0;
      if b & 0xe0 == 0xc0 {
        len := 2;
      } else if b & 0xf0 == 0xe0 {
        len := 3;
      } else if b & 0xf8 == 0xf0 {
        len := 4;
      } else {
        assert rest[1..] == buf[i + 1..];
        suspicious, i := suspicious + 1, i + 1;
        continue;
      }
      if i + len > |buf| {
        return;
      }
      var ok := true;
      var j := 1;
      while j < len
        invariant 1 <= j <= len && ok && AllContinuations(rest[1..j])
      {
        if !IsContinuation(buf[i + j]) {
          assert !IsContinuation(rest[1..len][j - 1]);
          ok := false;
          break;
        }
        assert rest[1..j + 1] == rest[1..j] + [rest[j]];
        j := j + 1;
      }
      if ok {
        assert rest[len..] == buf[i + len..];
        i := i + len;
      } else {
        assert rest[1..] == buf[i + 1..];
        suspicious, i := suspicious + 1, i + 1;
      }
    }
  }

  datatype Magic = Magic(sig: seq<Byte>, offset: nat)

  const MAGICS: seq<Magic> := [
    Magic([0x25, 0x50, 0x44, 0x46], 0),                         // %PDF
    Magic([0x66, 0x74, 0x79, 0x70], 4),                         // ftyp
    Magic([0x89, 0x50, 0x4e, 0x47, 0x0d, 0x0a, 0x1a, 0x0a], 0), // PNG
    Magic([0xff, 0xd8, 0xff], 0),                               // JPEG
    Magic([0x47, 0x49, 0x46, 0x38], 0),                         // GIF8
    Magic([0x52, 0x49, 0x46, 0x46], 0),                         // RIFF
    Magic([0x4f, 0x67, 0x67, 0x53], 0),                         // OggS
    Magic([0x49, 0x44, 0x33], 0),                               // ID3
    Magic([0x66, 0x4c, 0x61, 0x43], 0),                         // fLaC
    Magic([0x50, 0x4b], 0),                                     // PK
    Magic([0xca, 0xfe, 0xba, 0xbe], 0),                         // Java class
    Magic([0x00, 0x61, 0x73, 0x6d], 0),                         // WebAssembly
    Magic([0x1f, 0x8b], 0),                                     // gzip
    Magic([0x42, 0x5a, 0x68], 0),                               // BZh
    Magic([0xfd, 0x37, 0x7a, 0x58, 0x5a, 0x00], 0),             // xz
    Magic([0x25, 0x21, 0x50, 0x53], 0)                          // %!PS
  ]

  predicate Starts(buf: seq<Byte>, m: Magic) {
    m.offset + |m.sig| <= |buf| && buf[m.offset..m.offset + |m.sig|] == m.sig
  }

  predicate Mp3FrameSync(buf: seq<Byte>) {
    |buf| >= 2 && buf[0] == 0xff && buf[1] & 0xe0 == 0xe0
  }

  /** More than a tenth of the sample is suspicious. */
  predicate OverThreshold(suspicious: nat, length: nat)
    requires length > 0
  {
    suspicious as real / length as real > 0.1
  }

  predicate HasMagic(buf: seq<Byte>) {
    exists m :: m in MAGICS && Starts(buf, m)
  }

  predicate LooksBinary(buf: seq<Byte>) {
    buf != [] && (0x00 in buf || HasMagic(buf) || Mp3FrameSync(buf) || OverThreshold(Suspicious(buf), |buf|))
  }

  method StartsWith(buf: seq<Byte>, sig: seq<Byte>, offset: nat) returns (found: bool)
    ensures found <==> Starts(buf, Magic(sig, offset))
  {
    if |buf| < offset + |sig| {
      return false;
    }
    var i := 0;
    while i < |sig|
      invariant i <= |sig| && forall j :: 0 <= j < i ==> buf[offset + j] == sig[j]
    {
      if buf[offset + i] != sig[i] {
        assert buf[offset..offset + |sig|][i] != sig[i];
        return false;
      }
      i := i + 1;
    }
    return true;
  }

  method IsBinarySample(buf: seq<Byte>) returns (binary: bool)
    ensures binary <==> LooksBinary(buf)
  {
    if |buf| == 0 {
      return false;
    }
    if 0x00 in buf {
      return true;
    }
    var i := 0;
    while i < |MAGICS|
      invariant i <= |MAGICS| && forall k :: 0 <= k < i ==> !Starts(buf, MAGICS[k])
    {
      var found := StartsWith(buf, MAGICS[i].sig, MAGICS[i].offset);
      if found {
        assert MAGICS[i] in MAGICS && Starts(buf, MAGICS[i]);
        return true;
      }
      i := i + 1;
    }
    if buf[0] == 0xff && |buf| >= 2 && buf[1] & 0xe0 == 0xe0 {
      return true;
    }
    var suspicious := SuspiciousCount(buf);
    return OverThreshold(suspicious, |buf|);
  }

  lemma StartsIsBinary(sig: seq<Byte>, offset: nat, head: seq<Byte>, rest: seq<Byte>, i: nat)
    requires |head| == offset && sig != [] && i < |MAGICS| && MAGICS[i] == Magic(sig, offset)
    ensures LooksBinary(head + sig + rest)
  {
    var buf := head + sig + rest;
    assert buf[offset..offset + |sig|] == sig;
    assert MAGICS[i] in MAGICS && Starts(buf, MAGICS[i]);
  }

  /** Files of the known formats read as binary whatever follows their signature, a NUL or not. */
  lemma KnownFormatsAreBinary(size: seq<Byte>, rest: seq<Byte>)
    requires |size| == 4
    ensures LooksBinary([0x25, 0x50, 0x44, 0x46] + rest)                                  // PDF
    ensures LooksBinary(size + [0x66, 0x74, 0x79, 0x70] + rest)                           // MP4
    ensures LooksBinary([0x89, 0x50, 0x4e, 0x47, 0x0d, 0x0a, 0x1a, 0x0a] + rest)          // PNG
    ensures LooksBinary([0xff, 0xd8, 0xff] + rest)                                        // JPEG
    ensures LooksBinary([0x50, 0x4b, 0x03, 0x04] + rest)                                  // ZIP
    ensures LooksBinary([0x1f, 0x8b] + rest)                                              // gzip
  {
    hide LooksBinary;
    StartsIsBinary([0x25, 0x50, 0x44, 0x46], 0, [], rest, 0);
    StartsIsBinary([0x66, 0x74, 0x79, 0x70], 4, size, rest, 1);
    StartsIsBinary([0x89, 0x50, 0x4e, 0x47, 0x0d, 0x0a, 0x1a, 0x0a], 0, [], rest, 2);
    StartsIsBinary([0xff, 0xd8, 0xff], 0, [], rest, 3);
    StartsIsBinary([0x50, 0x4b], 0, [], [0x03, 0x04] + rest, 9);
    StartsIsBinary([0x1f, 0x8b], 0, [], rest, 12);
    assert [] + [0x25, 0x50, 0x44, 0x46] + rest == [0x25, 0x50, 0x44, 0x46] + rest;
    assert [] + [0x89, 0x50, 0x4e, 0x47, 0x0d, 0x0a, 0x1a, 0x0a] + rest == [0x89, 0x50, 0x4e, 0x47, 0x0d, 0x0a, 0x1a, 0x0a] + rest;
    assert [] + [0xff, 0xd8, 0xff] + rest == [0xff, 0xd8, 0xff] + rest;
    assert [] + [0x50, 0x4b] + ([0x03, 0x04] + rest) == [0x50, 0x4b, 0x03, 0x04] + rest;
    assert [] + [0x1f, 0x8b] + rest == [0x1f, 0x8b] + rest;
  }

  // ---- well-formed text: RFC 3629, section 4 ----

  predicate Within(b: Byte, lo: Byte, hi: Byte) {
    lo <= b && b <= hi
  }

  predicate Tail(b: Byte) {
    Within(b, 0x80, 0xbf)
  }

  predicate WellFormedChar(c: seq<Byte>) {
    || (|c| == 1 && Within(c[0], 0x00, 0x7f))
    || (|c| == 2 && Within(c[0], 0xc2, 0xdf) && Tail(c[1]))
    || (|c| == 3 && Tail(c[2]) && (
          || (c[0] == 0xe0 && Within(c[1], 0xa0, 0xbf))
          || (Within(c[0], 0xe1, 0xec) && Tail(c[1]))
          || (c[0] == 0xed && Within(c[1], 0x80, 0x9f))
          || (Within(c[0], 0xee, 0xef) && Tail(c[1]))))
    || (|c| == 4 && Tail(c[2]) && Tail(c[3]) && (
          || (c[0] == 0xf0 && Within(c[1], 0x90, 0xbf))
          || (Within(c[0], 0xf1, 0xf3) && Tail(c[1]))
          || (c[0] == 0xf4 && Within(c[1], 0x80, 0x8f))))
  }

  predicate WellFormed(text: seq<seq<Byte>>) {
    forall i :: 0 <= i < |text| ==> WellFormedChar(text[i])
  }

  function Encode(text: seq<seq<Byte>>): seq<Byte> {
    if text == [] then [] else text[0] + Encode(text[1..])
  }

  function Controls(bytes: seq<Byte>): nat {
    if bytes == [] then 0 else (if DisallowedControl(bytes[0]) then 1 else 0) + Controls(bytes[1..])
  }

  // ---- the walker against the grammar ----

  lemma LeadOfWellFormedChar(c: seq<Byte>)
    requires WellFormedChar(c)
    ensures SequenceLength(c[0]) == |c| && AllContinuations(c[1..])
    ensures |c| > 1 ==> forall j :: 0 <= j < |c| ==> c[j] >= 0x80
  {
    assert forall j :: 1 <= j < |c| ==> Tail(c[j]);
  }

  lemma {:induction false} HighBytesAreNoControls(bytes: seq<Byte>)
    requires forall j :: 0 <= j < |bytes| ==> bytes[j] >= 0x80
    ensures Controls(bytes) == 0
  {
    if bytes != [] {
      HighBytesAreNoControls(bytes[1..]);
    }
  }

  lemma {:induction false} ControlsAdd(a: seq<Byte>, b: seq<Byte>)
    ensures Controls(a + b) == Controls(a) + Controls(b)
  {
    if a == [] {
      assert a + b == b;
    } else {
      assert (a + b)[1..] == a[1..] + b;
      ControlsAdd(a[1..], b);
    }
  }

  /** On a sample cut from well-formed text at any byte, in the middle of a character or not, the walker counts
      exactly the disallowed control characters. */
  lemma {:induction false} WalkerCountsControls(text: seq<seq<Byte>>, n: nat)
    requires WellFormed(text) && n <= |Encode(text)|
    ensures Suspicious(Encode(text)[..n]) == Controls(Encode(text)[..n])
  {
    var sample := Encode(text)[..n];
    if n > 0 {
      var c := text[0];
      LeadOfWellFormedChar(c);
      if n < |c| {
        assert sample == c[..n];
        assert forall j :: 0 <= j < n ==> sample[j] == c[j];
        HighBytesAreNoControls(sample);
      } else {
        var rest := Encode(text[1..])[..n - |c|];
        assert sample == c + rest && sample[..|c|] == c && sample[|c|..] == rest && sample[1..|c|] == c[1..];
        WalkerCountsControls(text[1..], n - |c|);
        ControlsAdd(c, rest);
        if |c| > 1 {
          HighBytesAreNoControls(c);
        } else {
          assert c == [c[0]] && Controls(c) == if DisallowedControl(c[0]) then 1 else 0;
        }
      }
    }
  }

  // ---- what the walker calls clean ----

  /** A character as the walker sees it: the announced number of continuations follows the lead. */
  predicate LooseChar(c: seq<Byte>) {
    c != [] && |c| == SequenceLength(c[0]) && AllContinuations(c[1..])
  }

  /** A last sequence that announces more bytes than are left. */
  predicate CutOff(bytes: seq<Byte>) {
    bytes == [] || SequenceLength(bytes[0]) > |bytes|
  }

  ghost predicate Segmented(buf: seq<Byte>, chars: seq<seq<Byte>>, cut: seq<Byte>) {
    && buf == Encode(chars) + cut && CutOff(cut)
    && forall i :: 0 <= i < |chars| ==> LooseChar(chars[i]) && !DisallowedControl(chars[i][0])
  }

  lemma {:induction false} SegmentsAreClean(buf: seq<Byte>, chars: seq<seq<Byte>>, cut: seq<Byte>)
    requires Segmented(buf, chars, cut)
    ensures Suspicious(buf) == 0
    decreases |chars|
  {
    if chars == [] {
      assert buf == cut;
    } else {
      var c, rest := chars[0], Encode(chars[1..]) + cut;
      assert buf == c + rest;
      assert buf[|c|..] == rest && buf[1..|c|] == c[1..] && buf[0] == c[0];
      SegmentsAreClean(rest, chars[1..], cut);
    }
  }

  lemma PrependSegment(c: seq<Byte>, rest: seq<Byte>, more: seq<seq<Byte>>, cut: seq<Byte>)
    requires LooseChar(c) && !DisallowedControl(c[0]) && Segmented(rest, more, cut)
    ensures Segmented(c + rest, [c] + more, cut)
  {
    assert ([c] + more)[1..] == more;
    assert c + (Encode(more) + cut) == (c + Encode(more)) + cut;
  }

  lemma {:induction false} CleanHasSegments(buf: seq<Byte>) returns (chars: seq<seq<Byte>>, cut: seq<Byte>)
    requires Suspicious(buf) == 0
    ensures Segmented(buf, chars, cut)
    decreases |buf|
  {
    if CutOff(buf) {
      chars, cut := [], buf;
    } else {
      var len := SequenceLength(buf[0]);
      var more;
      more, cut := CleanHasSegments(buf[len..]);
      chars := [buf[..len]] + more;
      assert buf[..len][1..] == buf[1..len] && buf[..len][0] == buf[0];
      assert buf == buf[..len] + buf[len..];
      PrependSegment(buf[..len], buf[len..], more, cut);
    }
  }

  /** The walker finds nothing exactly in the byte sequences that split into non-control characters, up to one
      sequence cut off at the end. It accepts more than RFC 3629 does: overlong forms and surrogates pass. */
  lemma CleanIffSegmented(buf: seq<Byte>)
    ensures Suspicious(buf) == 0 <==> exists chars, cut :: Segmented(buf, chars, cut)
  {
    if Suspicious(buf) == 0 {
      var chars, cut := CleanHasSegments(buf);
    }
    if chars, cut :| Segmented(buf, chars, cut) {
      SegmentsAreClean(buf, chars, cut);
    }
  }

  // ---- the verdict on text ----

  predicate AllAscii(m: Magic) {
    forall j :: 0 <= j < |m.sig| ==> 0x00 < m.sig[j] < 0x80
  }

  /** Begins, within two bytes, with something no NUL-free text begins with. */
  predicate NotText(sig: seq<Byte>) {
    && |sig| >= 2
    && (|| sig[0] == 0x00 || SequenceLength(sig[0]) == 0
        || (if SequenceLength(sig[0]) == 1 then SequenceLength(sig[1]) == 0 else !IsContinuation(sig[1])))
  }

  lemma OtherMagicsAreNoText(m: Magic)
    requires m in MAGICS && !AllAscii(m)
    ensures m.offset == 0 && NotText(m.sig)
  {
    var i :| 0 <= i < |MAGICS| && MAGICS[i] == m;
    if i in {0, 1, 4, 5, 6, 7, 8, 9, 13, 15} {
      AsciiMagic(i);
    } else {
      OtherMagic(i);
    }
  }

  lemma AsciiMagic(i: nat)
    requires i in {0, 1, 4, 5, 6, 7, 8, 9, 13, 15}
    ensures AllAscii(MAGICS[i])
  {
  }

  lemma OtherMagic(i: nat)
    requires i in {2, 3, 10, 11, 12, 14}
    ensures MAGICS[i].offset == 0 && NotText(MAGICS[i].sig)
  {
  }

  /** A text cannot start with a magic that holds a byte outside ASCII, nor with an MP3 frame sync. */
  lemma TextStartsWithAsciiMagicsOnly(text: seq<seq<Byte>>, n: nat, m: Magic)
    requires WellFormed(text) && n <= |Encode(text)| && 0x00 !in Encode(text)[..n]
    requires m in MAGICS && Starts(Encode(text)[..n], m)
    ensures AllAscii(m)
  {
    if !AllAscii(m) {
      OtherMagicsAreNoText(m);
      var sample := Encode(text)[..n];
      assert sample[0] == sample[0..|m.sig|][0] && sample[1] == sample[0..|m.sig|][1];
      hide AllAscii;
      SecondByte(text);
    }
  }

  /** The second byte of a text continues its first character or starts its second. */
  lemma SecondByte(text: seq<seq<Byte>>)
    requires WellFormed(text) && |Encode(text)| >= 2
    ensures SequenceLength(Encode(text)[0]) > 0
    ensures if SequenceLength(Encode(text)[0]) == 1 then SequenceLength(Encode(text)[1]) > 0 else IsContinuation(Encode(text)[1])
  {
    var c := text[0];
    LeadOfWellFormedChar(c);
    if |c| == 1 {
      LeadOfWellFormedChar(text[1]);
      assert Encode(text)[1] == Encode(text[1..])[0] == text[1][0];
    } else {
      assert Encode(text)[1] == c[1] && c[1] == c[1..][0];
    }
  }

  lemma TextHasNoFrameSync(text: seq<seq<Byte>>, n: nat)
    requires WellFormed(text) && n <= |Encode(text)|
    ensures !Mp3FrameSync(Encode(text)[..n])
  {
    if n >= 2 {
      SecondByte(text);
    }
  }

  /** A nonempty sample of a text is called binary exactly when it holds a NUL, starts with one of the magics made
      of ASCII letters, or is more than a tenth control characters. */
  lemma TextVerdict(text: seq<seq<Byte>>, n: nat)
    requires WellFormed(text) && 0 < n <= |Encode(text)|
    ensures var sample := Encode(text)[..n];
      LooksBinary(sample) <==>
        0x00 in sample || (exists m :: m in MAGICS && AllAscii(m) && Starts(sample, m)) || 10 * Controls(sample) > n
  {
    var sample := Encode(text)[..n];
    WalkerCountsControls(text, n);
    TextHasNoFrameSync(text, n);
    ThresholdIsATenth(Suspicious(sample), n);
    if 0x00 !in sample && HasMagic(sample) {
      var m :| m in MAGICS && Starts(sample, m);
      TextStartsWithAsciiMagicsOnly(text, n, m);
    }
  }

  lemma QuotientTimesDivisor(a: real, b: real)
    requires b > 0.0
    ensures a / b * b == a
  {
  }

  lemma ScalingKeepsOrder(a: real, b: real, scale: real)
    requires scale > 0.0
    ensures a > b <==> a * scale > b * scale
  {
  }

  lemma ThresholdIsATenth(suspicious: nat, length: nat)
    requires length > 0
    ensures OverThreshold(suspicious, length) <==> 10 * suspicious > length
  {
    QuotientTimesDivisor(suspicious as real, length as real);
    ScalingKeepsOrder(suspicious as real / length as real, 0.1, length as real);
  }

  /** Text without control characters reads as text, whatever its letters and wherever it is cut, unless it
      happens to start like one of the ASCII magics. */
  lemma CleanTextIsText(text: seq<seq<Byte>>, n: nat)
    requires WellFormed(text) && n <= |Encode(text)|
    requires forall i :: 0 <= i < |text| && |text[i]| == 1 ==> !DisallowedControl(text[i][0])
    requires forall m :: m in MAGICS && AllAscii(m) ==> !Starts(Encode(text)[..n], m)
    ensures !LooksBinary(Encode(text)[..n])
  {
    if n > 0 {
      var sample := Encode(text)[..n];
      NoControls(text);
      ControlsAdd(sample, Encode(text)[n..]);
      assert Encode(text) == sample + Encode(text)[n..];
      if 0x00 in sample { ControlIsCounted(sample, 0x00); }
      TextVerdict(text, n);
    }
  }

  lemma {:induction false} NoControls(text: seq<seq<Byte>>)
    requires WellFormed(text) && forall i :: 0 <= i < |text| && |text[i]| == 1 ==> !DisallowedControl(text[i][0])
    ensures Controls(Encode(text)) == 0
  {
    if text != [] {
      var c := text[0];
      LeadOfWellFormedChar(c);
      NoControls(text[1..]);
      ControlsAdd(c, Encode(text[1..]));
      if |c| > 1 {
        HighBytesAreNoControls(c);
      } else {
        assert c == [c[0]] && Controls(c) == 0;
      }
    }
  }

  lemma {:induction false} ControlIsCounted(bytes: seq<Byte>, b: Byte)
    requires b in bytes && DisallowedControl(b)
    ensures Controls(bytes) > 0
  {
    if bytes[0] != b {
      ControlIsCounted(bytes[1..], b);
    }
  }

  /** The file's own promise, that UTF-8 text never reads as binary, fails for a text that starts with "PK". */
  lemma TextCanReadAsBinary()
    ensures var text := [[0x50], [0x4b], [0x43], [0x45]]; WellFormed(text) && LooksBinary(Encode(text))
  {
    var text: seq<seq<Byte>> := [[0x50], [0x4b], [0x43], [0x45]];
    assert text[1..] == [[0x4b], [0x43], [0x45]] && text[1..][1..] == [[0x43], [0x45]];
    assert Encode(text) == [0x50, 0x4b] + Encode(text[1..][1..]);
    assert MAGICS[9] in MAGICS && Starts(Encode(text), MAGICS[9]);
  }
}
