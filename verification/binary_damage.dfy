/** Any bytes whatever: what exactly the walker counts in them, and which signatures make them binary. */
module BinaryDamage {
  import opened BinaryDetect

  // ---- what each byte is, said without bit masks ----

  /** How many bytes a lead byte announces, itself included; 0 if it leads nothing, or itself alone. */
  function Announces(b: Byte): nat {
    if 0xc0 <= b <= 0xdf then 2 else if 0xe0 <= b <= 0xef then 3 else if 0xf0 <= b <= 0xf7 then 4 else 0
  }

  predicate Continues(b: Byte) {
    0x80 <= b <= 0xbf
  }

  predicate Ascii(b: Byte) {
    b <= 0x7f
  }

  lemma BytesAre(b: Byte)
    ensures SequenceLength(b) == if Ascii(b) then 1 else Announces(b)
    ensures IsContinuation(b) <==> Continues(b)
    ensures Continues(b) ==> Announces(b) == 0 && !Ascii(b)
    ensures Announces(b) > 0 ==> !Ascii(b)
  {
  }

  // ---- positions ----

  /** A sequence of two bytes or more begins at `p`, and is all there. */
  predicate Complete(buf: seq<Byte>, p: int) {
    && 0 <= p < |buf| && Announces(buf[p]) > 0 && p + Announces(buf[p]) <= |buf|
    && forall k :: p < k < p + Announces(buf[p]) ==> Continues(buf[k])
  }

  /** A sequence begins at `p` that the sample is too short for. */
  predicate CutOffAt(buf: seq<Byte>, p: int) {
    0 <= p < |buf| && Announces(buf[p]) > 0 && p + Announces(buf[p]) > |buf|
  }

  /** The byte belongs to a sequence that began before it. */
  ghost predicate Covered(buf: seq<Byte>, i: int) {
    exists p :: p < i && Complete(buf, p) && i < p + Announces(buf[p])
  }

  /** A control other than tab, newline and carriage return, or a byte outside ASCII that is in no sequence. */
  ghost predicate Bad(buf: seq<Byte>, i: int) {
    && 0 <= i < |buf|
    && if Ascii(buf[i]) then (buf[i] < 0x20 || buf[i] == 0x7f) && buf[i] !in [0x09, 0x0a, 0x0d]
       else !Complete(buf, i) && !Covered(buf, i)
  }

  /** Where the sample first cuts a sequence off, from `i` on, or its end. */
  function Stop(buf: seq<Byte>, i: nat): (p: nat)
    requires i <= |buf|
    ensures i <= p <= |buf| && (forall k :: i <= k < p ==> !CutOffAt(buf, k)) && (p < |buf| ==> CutOffAt(buf, p))
    decreases |buf| - i
  {
    if i == |buf| || CutOffAt(buf, i) then i else Stop(buf, i + 1)
  }

  /** The bad bytes from `i` up to `n`. */
  ghost function BadBytes(buf: seq<Byte>, i: nat, n: nat): nat
    decreases n - i
  {
    if i >= n then 0 else (if Bad(buf, i) then 1 else 0) + BadBytes(buf, i + 1, n)
  }

  lemma NextIsCovered(buf: seq<Byte>, i: nat)
    requires i < |buf| && !Covered(buf, i) && Covered(buf, i + 1)
    ensures Complete(buf, i)
  {
    var p :| p < i + 1 && Complete(buf, p) && i + 1 < p + Announces(buf[p]);
    assert p < i ==> Covered(buf, i);
  }

  lemma AfterASequence(buf: seq<Byte>, i: nat)
    requires i < |buf| && !Covered(buf, i) && Complete(buf, i)
    ensures !Covered(buf, i + Announces(buf[i]))
    ensures forall k :: i < k < i + Announces(buf[i]) ==> Covered(buf, k) && !Bad(buf, k) && !CutOffAt(buf, k)
  {
    var len := Announces(buf[i]);
    forall k | i < k < i + len ensures Covered(buf, k) && !Bad(buf, k) && !CutOffAt(buf, k) {
      assert Continues(buf[k]);
      BytesAre(buf[k]);
      assert i < k && Complete(buf, i) && k < i + Announces(buf[i]);
    }
    if Covered(buf, i + len) {
      var p :| p < i + len && Complete(buf, p) && i + len < p + Announces(buf[p]);
      assert p < i ==> Covered(buf, i);
      assert i < p ==> Continues(buf[p]);
      if i < p { BytesAre(buf[p]); }
    }
  }

  lemma {:induction false} SkipGood(buf: seq<Byte>, i: nat, m: nat, n: nat)
    requires i <= m <= n && forall k :: i <= k < m ==> !Bad(buf, k)
    ensures BadBytes(buf, i, n) == BadBytes(buf, m, n)
    decreases m - i
  {
    if i < m { SkipGood(buf, i + 1, m, n); }
  }

  lemma {:induction false} StopSkips(buf: seq<Byte>, i: nat, m: nat)
    requires i <= m <= |buf| && forall k :: i <= k < m ==> !CutOffAt(buf, k)
    ensures Stop(buf, i) == Stop(buf, m)
    decreases m - i
  {
    if i < m { StopSkips(buf, i + 1, m); }
  }

  /** The walker's sight of a sequence is the same. */
  lemma AllThere(buf: seq<Byte>, i: nat)
    requires i < |buf| && !Ascii(buf[i]) && Announces(buf[i]) > 0 && i + Announces(buf[i]) <= |buf|
    ensures Complete(buf, i) <==> AllContinuations(buf[i..][1..Announces(buf[i])])
  {
    var len, rest := Announces(buf[i]), buf[i..][1..Announces(buf[i])];
    forall k | i < k < i + len ensures Continues(buf[k]) <==> IsContinuation(rest[k - i - 1]) { BytesAre(buf[k]); }
    if AllContinuations(rest) {
      forall k | i < k < i + len ensures Continues(buf[k]) { assert IsContinuation(rest[k - i - 1]); }
    } else {
      var j :| 0 <= j < |rest| && !IsContinuation(rest[j]);
      assert !Continues(buf[i + 1 + j]);
    }
  }

  lemma {:induction false} WalkerCountsFrom(buf: seq<Byte>, i: nat)
    requires i <= |buf| && !Covered(buf, i)
    ensures Suspicious(buf[i..]) == BadBytes(buf, i, Stop(buf, i))
    decreases |buf| - i
  {
    if i < |buf| {
      var rest := buf[i..];
      assert rest != [] && rest[0] == buf[i] && rest[1..] == buf[i + 1..];
      BytesAre(buf[i]);
      hide Suspicious, SequenceLength, IsContinuation, AllContinuations;
      if Ascii(buf[i]) {
        if Covered(buf, i + 1) { NextIsCovered(buf, i); }
        WalkerCountsFrom(buf, i + 1);
        AsciiStep(rest);
      } else if Announces(buf[i]) > 0 && CutOffAt(buf, i) {
        CutStep(rest);
      } else if Announces(buf[i]) > 0 && Complete(buf, i) {
        var len := Announces(buf[i]);
        AfterASequence(buf, i);
        assert rest[len..] == buf[i + len..];
        WalkerCountsFrom(buf, i + len);
        AllThere(buf, i);
        SequenceStep(rest, len);
        assert !Bad(buf, i);
        StopSkips(buf, i, i + len);
        SkipGood(buf, i, i + len, Stop(buf, i));
      } else {
        if Covered(buf, i + 1) { NextIsCovered(buf, i); }
        WalkerCountsFrom(buf, i + 1);
        if Announces(buf[i]) > 0 { AllThere(buf, i); }
        StrayStep(rest);
        assert Bad(buf, i);
      }
    } else {
      assert buf[i..] == [];
    }
  }

  lemma AsciiStep(buf: seq<Byte>)
    requires buf != [] && Ascii(buf[0])
    ensures Suspicious(buf) == (if (buf[0] < 0x20 || buf[0] == 0x7f) && buf[0] !in [0x09, 0x0a, 0x0d] then 1 else 0) + Suspicious(buf[1..])
  {
    BytesAre(buf[0]);
  }

  lemma CutStep(buf: seq<Byte>)
    requires buf != [] && Announces(buf[0]) > |buf|
    ensures Suspicious(buf) == 0
  {
    BytesAre(buf[0]);
  }

  lemma SequenceStep(buf: seq<Byte>, len: nat)
    requires buf != [] && len == Announces(buf[0]) && 0 < len <= |buf| && AllContinuations(buf[1..len])
    ensures Suspicious(buf) == Suspicious(buf[len..])
  {
    BytesAre(buf[0]);
  }

  lemma StrayStep(buf: seq<Byte>)
    requires buf != [] && !Ascii(buf[0]) && Announces(buf[0]) <= |buf|
    requires Announces(buf[0]) > 0 ==> !AllContinuations(buf[1..Announces(buf[0])])
    ensures Suspicious(buf) == 1 + Suspicious(buf[1..])
  {
    BytesAre(buf[0]);
  }

  /** For all bytes: the walker counts, up to the first sequence that the sample cuts off, the disallowed controls and the
      bytes outside ASCII that belong to no whole sequence, each once. So one broken character costs no more than its own
      bytes, and the text after it is read as text. */
  lemma WalkerCountsBadBytes(buf: seq<Byte>)
    ensures Suspicious(buf) == BadBytes(buf, 0, Stop(buf, 0))
  {
    assert buf[0..] == buf;
    WalkerCountsFrom(buf, 0);
  }

  // ---- signatures ----

  /** The bytes are the numbers of the characters. */
  predicate Spells(sig: seq<Byte>, s: string) {
    |sig| == |s| && forall k :: 0 <= k < |s| ==> sig[k] as int == s[k] as int
  }

  predicate ReadsAt(buf: seq<Byte>, offset: nat, s: string) {
    offset + |s| <= |buf| && forall k :: 0 <= k < |s| ==> buf[offset + k] as int == s[k] as int
  }

  lemma SameNumber(a: Byte, b: Byte)
    ensures a == b <==> a as int == b as int
  {
    assert (a as int) as Byte == a && (b as int) as Byte == b;
  }

  lemma StartsReads(buf: seq<Byte>, m: Magic, s: string)
    requires Spells(m.sig, s)
    ensures Starts(buf, m) <==> ReadsAt(buf, m.offset, s)
  {
    if m.offset + |s| <= |buf| {
      var part := buf[m.offset..m.offset + |s|];
      forall k | 0 <= k < |s| ensures part[k] == buf[m.offset + k] && (part[k] == m.sig[k] <==> buf[m.offset + k] as int == s[k] as int) {
        SameNumber(part[k], m.sig[k]);
      }
    }
  }

  /** The formats' signatures, each byte written as the character of that number. */
  const SIGNATURES: seq<string> := [
    "%PDF", "ftyp", "\U{0089}PNG\r\n\U{001a}\n", "\U{00ff}\U{00d8}\U{00ff}", "GIF8", "RIFF", "OggS", "ID3", "fLaC", "PK",
    "\U{00ca}\U{00fe}\U{00ba}\U{00be}", "\0asm", "\U{001f}\U{008b}", "BZh", "\U{00fd}7zXZ\0", "%!PS"
  ]

  lemma TextSignatures(i: nat)
    requires i in {0, 1, 4, 5, 6, 7, 8, 9, 13, 15}
    ensures i < |MAGICS| && Spells(MAGICS[i].sig, SIGNATURES[i]) && MAGICS[i].offset == if i == 1 then 4 else 0
  {
  }

  lemma OtherSignatures(i: nat)
    requires i in {2, 3, 10, 11, 12, 14}
    ensures i < |MAGICS| && Spells(MAGICS[i].sig, SIGNATURES[i]) && MAGICS[i].offset == 0
  {
  }

  /** A sample has a known signature exactly if it begins with one of these, or, of MP4, has it after four bytes. */
  lemma KnownSignatures(buf: seq<Byte>)
    ensures HasMagic(buf) <==> exists i :: 0 <= i < 16 && ReadsAt(buf, if i == 1 then 4 else 0, SIGNATURES[i])
  {
    forall i | 0 <= i < 16 ensures i < |MAGICS| && (Starts(buf, MAGICS[i]) <==> ReadsAt(buf, if i == 1 then 4 else 0, SIGNATURES[i])) {
      if i in {2, 3, 10, 11, 12, 14} { OtherSignatures(i); } else { TextSignatures(i); }
      StartsReads(buf, MAGICS[i], SIGNATURES[i]);
    }
    assert |MAGICS| == 16;
    hide Starts, ReadsAt;
    if HasMagic(buf) {
      var m :| m in MAGICS && Starts(buf, m);
      var i :| 0 <= i < |MAGICS| && MAGICS[i] == m;
      assert ReadsAt(buf, if i == 1 then 4 else 0, SIGNATURES[i]);
    }
    if i :| 0 <= i < 16 && ReadsAt(buf, if i == 1 then 4 else 0, SIGNATURES[i]) {
      assert MAGICS[i] in MAGICS && Starts(buf, MAGICS[i]);
    }
  }

  lemma TopThreeBits(b: Byte)
    ensures b & 0xe0 == 0xe0 <==> b >= 0xe0
  {
  }

  /** The verdict on any sample: binary if it is not empty and holds a NUL, begins with a known signature, begins as an MP3
      frame does (0xFF and a byte from 0xE0 on), or is over a tenth bad bytes; and text otherwise. */
  lemma VerdictIsExact(buf: seq<Byte>)
    ensures LooksBinary(buf) <==>
              buf != [] && (0x00 in buf
                            || (exists i :: 0 <= i < 16 && ReadsAt(buf, if i == 1 then 4 else 0, SIGNATURES[i]))
                            || (|buf| >= 2 && buf[0] == 0xff && buf[1] >= 0xe0)
                            || 10 * BadBytes(buf, 0, Stop(buf, 0)) > |buf|)
  {
    WalkerCountsBadBytes(buf);
    KnownSignatures(buf);
    if |buf| >= 2 { TopThreeBits(buf[1]); }
    if buf != [] { ThresholdIsATenth(Suspicious(buf), |buf|); }
    hide HasMagic, OverThreshold, ReadsAt, Suspicious, BadBytes;
  }
}
