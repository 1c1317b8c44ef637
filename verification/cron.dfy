/**
 Schedules (MacOS/brain/cron.ts): when a schedule is next due, and what a tick does to it.

 Instants are milliseconds of local time counted from a Thursday midnight, with days of exactly 24 hours.
 */
module Cron {
  import opened Options

  const MINUTE_MS := 60_000
  const DAY_MS := 86_400_000
  const LATE_TOLERANCE_MS := 90_000
  const MIN_SPACING_MS := 90_000

  /** A schedule record. An absent field of the source is `None`. */
  datatype Schedule = Schedule(
    time: string, cadence: string, createdAt: int, everyMinutes: Option<nat>, anchorAt: Option<int>,
    enabled: bool, paused: bool, fireAt: Option<int>, nextRun: Option<int>, lastRun: Option<int>,
    lastDueAt: Option<int>, lastFireLate: bool, catchUp: bool, catchUpWindowMs: Option<int>)

  // ---- calendar ----

  function Day(t: int): int {
    t / DAY_MS
  }

  function TimeOfDay(t: int): int {
    t % DAY_MS
  }

  /** Sunday is 0. */
  function Weekday(t: int): int {
    (Day(t) + 4) % 7
  }

  /** How long after `dueAt` its local day lasts. */
  function EndOfDayWindow(dueAt: int): int {
    var end := Day(dueAt) * DAY_MS + DAY_MS - 1;
    if end - dueAt > 0 then end - dueAt else 0
  }

  // ---- HH:MM ----

  predicate IsDigit(c: char) {
    '0' <= c <= '9'
  }

  function Digit(c: char): int {
    c as int - '0' as int
  }

  /** `time` is already trimmed: one or two digits, a colon, two digits. */
  function ParseHHMM(time: string): Option<(int, int)> {
    var w := |time| - 3;
    if 1 <= w <= 2 && IsDigit(time[0]) && IsDigit(time[w - 1]) && time[w] == ':' && IsDigit(time[w + 1]) && IsDigit(time[w + 2]) then
      var h := if w == 1 then Digit(time[0]) else 10 * Digit(time[0]) + Digit(time[1]);
      var m := 10 * Digit(time[w + 1]) + Digit(time[w + 2]);
      if h > 23 || m > 59 then None else Some((h, m))
    else None
  }

  function DigitChar(d: int): char
    requires 0 <= d <= 9
  {
    ('0' as int + d) as char
  }

  function FormatHHMM(h: int, m: int): string
    requires 0 <= h <= 23 && 0 <= m <= 59
  {
    [DigitChar(h / 10), DigitChar(h % 10), ':', DigitChar(m / 10), DigitChar(m % 10)]
  }

  lemma DigitsAreChars(c: char)
    requires IsDigit(c)
    ensures 0 <= Digit(c) <= 9 && DigitChar(Digit(c)) == c
  {
  }

  /** Of a text that parses, the digits are those of the time. */
  lemma ParsedIsFormatted(time: string)
    requires ParseHHMM(time).Some?
    ensures var (h, m) := ParseHHMM(time).value;
      && 0 <= h <= 23 && 0 <= m <= 59
      && time == (if |time| == 5 then FormatHHMM(h, m) else FormatHHMM(h, m)[1..])
      && (|time| == 5 || h <= 9)
  {
    var w := |time| - 3;
    DigitsAreChars(time[0]);
    DigitsAreChars(time[w - 1]);
    DigitsAreChars(time[w + 1]);
    DigitsAreChars(time[w + 2]);
    var (h, m) := ParseHHMM(time).value;
    assert m / 10 == Digit(time[w + 1]) && m % 10 == Digit(time[w + 2]) && (w == 2 ==> h / 10 == Digit(time[0]));
  }

  /** A text stands for a time of day if and only if it is that time's two-digit form, or, before ten, that without its
      leading zero; every other text is refused. */
  lemma ParseFormat(time: string, h: int, m: int)
    ensures ParseHHMM(time) == Some((h, m)) <==>
            0 <= h <= 23 && 0 <= m <= 59 && (time == FormatHHMM(h, m) || (h <= 9 && time == FormatHHMM(h, m)[1..]))
  {
    assert forall d: int :: 0 <= d <= 9 ==> IsDigit(DigitChar(d)) && Digit(DigitChar(d)) == d;
    if ParseHHMM(time) == Some((h, m)) { ParsedIsFormatted(time); }
  }

  // ---- the weekdays a cadence permits ----

  predicate At(s: string, i: int, sub: string) {
    0 <= i <= |s| - |sub| && s[i..i + |sub|] == sub
  }

  predicate Contains(s: string, sub: string) {
    exists i | 0 <= i <= |s| :: At(s, i, sub)
  }

  predicate Blank(s: string, i: int, j: int) {
    0 <= i <= j <= |s| && forall k :: i <= k < j ==> s[k] in " \t\n\r"
  }

  /** `a`, any white space, `b`. */
  predicate ContainsGapped(s: string, a: string, b: string) {
    exists i, j | 0 <= i <= |s| && 0 <= j <= |s| :: At(s, i, a) && At(s, j, b) && Blank(s, i + |a|, j)
  }

  /** "mon", a dash with any white space around it, "fri". */
  predicate ContainsMonFri(s: string) {
    exists i, d, j | 0 <= i <= |s| && 0 <= d <= |s| && 0 <= j <= |s| ::
      At(s, i, "mon") && At(s, d, "-") && At(s, j, "fri") && Blank(s, i + 3, d) && Blank(s, d + 1, j)
  }

  const DAY_NAMES: seq<string> := ["sun", "mon", "tue", "wed", "thu", "fri", "sat"]

  function NamedDays(c: string): set<int> {
    set d: int | 0 <= d < 7 && Contains(c, DAY_NAMES[d])
  }

  /** `c` is the cadence text, already trimmed and in lower case. None stands for every day. */
  function CadenceDays(c: string, createdAt: int): (days: Option<set<int>>)
    ensures days.Some? ==> days.value != {} && forall d :: d in days.value ==> 0 <= d < 7
  {
    if c == "" || c == "*" || c == "daily" || ContainsGapped(c, "every", "day") then None
    else if c == "weekly" then Some({Weekday(createdAt)})
    else if Contains(c, "weekday") || ContainsMonFri(c) || Contains(c, "monday to friday") then Some({1, 2, 3, 4, 5})
    else if Contains(c, "weekend") then Some({0, 6})
    else
      if NamedDays(c) == {} then None else Some(NamedDays(c))
  }

  function DayName(d: int): (name: string)
    requires 0 <= d < 7
    ensures |name| == 3 && forall c :: c in name ==> c !in ",- "
  {
    DAY_NAMES[d]
  }

  ghost predicate AreDays(days: seq<int>) {
    days != [] && forall i :: 0 <= i < |days| ==> 0 <= days[i] < 7
  }

  /** Short day names with a comma and a space between them, as the schedule sheet writes them. */
  function Joined(days: seq<int>): string
    requires AreDays(days)
  {
    if |days| == 1 then DayName(days[0]) else DayName(days[0]) + ", " + Joined(days[1..])
  }

  /** Each name takes five places, the last one three. */
  function CharAt(days: seq<int>, i: nat): (c: char)
    requires AreDays(days) && i < 5 * |days| - 2
    ensures c != '-' && (c in ", " <==> i % 5 >= 3)
  {
    if i % 5 == 3 then ',' else if i % 5 == 4 then ' ' else DayName(days[i / 5])[i % 5]
  }

  ghost predicate Spells(s: string, days: seq<int>)
    requires AreDays(days)
  {
    |s| == 5 * |days| - 2 && forall i :: 0 <= i < |s| ==> s[i] == CharAt(days, i)
  }

  lemma {:induction false} JoinedSpells(days: seq<int>)
    requires AreDays(days)
    ensures Spells(Joined(days), days)
    decreases |days|
  {
    hide DayName;
    if |days| > 1 {
      var rest := days[1..];
      JoinedSpells(rest);
      var s, head := Joined(days), DayName(days[0]);
      assert s == head + ", " + Joined(rest);
      forall i | 0 <= i < |s| ensures s[i] == CharAt(days, i) {
        if i >= 5 {
          assert s[i] == Joined(rest)[i - 5] == CharAt(rest, i - 5);
          assert (i - 5) / 5 == i / 5 - 1 && (i - 5) % 5 == i % 5;
        }
      }
    }
  }

  /** A stretch of three places or more that is not exactly a name holds a comma or a space. */
  lemma NameOrGap(s: string, days: seq<int>, i: int, n: int)
    requires AreDays(days) && Spells(s, days) && 3 <= n && 0 <= i <= |s| - n
    ensures (n == 3 && i % 5 == 0) || exists k :: i <= k < i + n && s[k] in ", "
  {
    var k := if i % 5 == 4 then i else i - i % 5 + 3;
    if n > 3 || i % 5 != 0 {
      assert k % 5 >= 3 && i <= k < i + n;
      assert s[k] == CharAt(days, k);
    }
  }

  lemma NoLongWord(s: string, days: seq<int>, sub: string)
    requires AreDays(days) && Spells(s, days) && |sub| >= 4 && forall k :: 0 <= k < 4 ==> sub[k] !in ", "
    ensures forall i :: !At(s, i, sub)
  {
    forall i ensures !At(s, i, sub) {
      if 0 <= i <= |s| - |sub| {
        NameOrGap(s, days, i, 4);
        var k :| i <= k < i + 4 && s[k] in ", ";
        assert s[i..i + |sub|][k - i] == s[k] != sub[k - i];
      }
    }
  }

  lemma NoDash(s: string, days: seq<int>)
    requires AreDays(days) && Spells(s, days)
    ensures forall i :: !At(s, i, "-")
  {
    forall i ensures !At(s, i, "-") {
      if 0 <= i < |s| { assert s[i..i + 1][0] == s[i] == CharAt(days, i); }
    }
  }

  lemma NamesDiffer(d: int, e: int)
    requires 0 <= d < 7 && 0 <= e < 7 && DayName(d)[0] == DayName(e)[0] && DayName(d)[1] == DayName(e)[1]
    ensures d == e
  {
  }

  lemma ListedIsContained(s: string, days: seq<int>, k: nat)
    requires AreDays(days) && Spells(s, days) && k < |days|
    ensures Contains(s, DayName(days[k]))
  {
    NameAt(s, days, k);
    hide DayName;
    assert At(s, 5 * k, DayName(days[k]));
  }

  lemma ContainedIsListed(s: string, days: seq<int>, d: int, i: int)
    requires AreDays(days) && Spells(s, days) && 0 <= d < 7 && At(s, i, DayName(d))
    ensures d in days
  {
    hide DayName;
    AtChars(s, i, DayName(d));
    NameOrGap(s, days, i, 3);
    assert i % 5 == 0;
    NameAt(s, days, i / 5);
    NamesDiffer(d, days[i / 5]);
  }

  lemma AtChars(s: string, i: int, sub: string)
    requires At(s, i, sub)
    ensures 0 <= i <= |s| - |sub| && forall k :: i <= k < i + |sub| ==> s[k] == sub[k - i] && s[k] in sub
  {
    assert forall k :: i <= k < i + |sub| ==> s[k] == s[i..i + |sub|][k - i];
  }

  lemma NameAt(s: string, days: seq<int>, k: nat)
    requires AreDays(days) && Spells(s, days) && k < |days|
    ensures s[5 * k..5 * k + 3] == DayName(days[k])
  {
    hide DayName;
    forall j | 0 <= j < 3 ensures s[5 * k + j] == DayName(days[k])[j] {
      assert (5 * k + j) / 5 == k && (5 * k + j) % 5 == j;
      assert s[5 * k + j] == CharAt(days, 5 * k + j);
    }
  }

  lemma ContainsItsNames(s: string, days: seq<int>, d: int)
    requires AreDays(days) && Spells(s, days) && 0 <= d < 7
    ensures Contains(s, DAY_NAMES[d]) <==> d in days
  {
    assert DAY_NAMES[d] == DayName(d);
    hide At, DayName, Spells;
    if k :| 0 <= k < |days| && days[k] == d { ListedIsContained(s, days, k); }
    if i :| 0 <= i <= |s| && At(s, i, DayName(d)) { ContainedIsListed(s, days, d, i); }
  }

  ghost predicate HasNoLabel(c: string) {
    forall i :: !At(c, i, "every") && !At(c, i, "weekday") && !At(c, i, "weekend") && !At(c, i, "monday to friday") && !At(c, i, "-")
  }

  lemma ReadAsNames(c: string, createdAt: int)
    requires |c| % 5 == 3 && HasNoLabel(c)
    ensures CadenceDays(c, createdAt) == if NamedDays(c) == {} then None else Some(NamedDays(c))
  {
    hide At, NamedDays;
  }

  lemma JoinedHasNoLabel(s: string, days: seq<int>)
    requires AreDays(days) && Spells(s, days)
    ensures HasNoLabel(s)
  {
    hide At, Spells;
    NoLongWord(s, days, "every");
    NoLongWord(s, days, "weekday");
    NoLongWord(s, days, "weekend");
    NoLongWord(s, days, "monday to friday");
    NoDash(s, days);
  }

  /** A list of day names means exactly those days. */
  lemma DayListsReadBack(days: seq<int>, createdAt: int)
    requires AreDays(days)
    ensures CadenceDays(Joined(days), createdAt) == Some(set d | d in days)
  {
    var s := Joined(days);
    JoinedSpells(days);
    assert |s| % 5 == 3;
    hide CadenceDays, Contains, Joined, Spells, HasNoLabel;
    JoinedHasNoLabel(s, days);
    ReadAsNames(s, createdAt);
    forall d | 0 <= d < 7 ensures Contains(s, DAY_NAMES[d]) <==> d in days { ContainsItsNames(s, days, d); }
    assert NamedDays(s) == set d | d in days;
    assert days[0] in NamedDays(s);
  }

  lemma LacksLetter(s: string, sub: string, c: char)
    requires c !in s && c in sub
    ensures forall i :: !At(s, i, sub)
  {
    var k :| 0 <= k < |sub| && sub[k] == c;
    forall i ensures !At(s, i, sub) {
      assert 0 <= i <= |s| - |sub| ==> s[i..i + |sub|][k] == s[i + k] != sub[k];
    }
  }

  lemma AtAfter(pre: string, sub: string, post: string)
    ensures At(pre + sub + post, |pre|, sub)
  {
  }

  /** "every" and "day" with any white space between them mean every day, wherever in the text they stand. */
  lemma EveryDayAnywhere(pre: string, gap: string, post: string, createdAt: int)
    requires forall k :: 0 <= k < |gap| ==> gap[k] in " \t\n\r"
    ensures CadenceDays(pre + "every" + gap + "day" + post, createdAt) == None
  {
    var c := pre + "every" + gap + "day" + post;
    AtAfter(pre, "every", gap + "day" + post);
    AtAfter(pre + "every" + gap, "day", post);
    assert c == pre + "every" + (gap + "day" + post) == (pre + "every" + gap) + "day" + post;
    var i, j := |pre|, |pre| + 5 + |gap|;
    assert forall k :: i + 5 <= k < j ==> c[k] == gap[k - (i + 5)];
    hide At;
    assert At(c, i, "every") && At(c, j, "day") && Blank(c, i + 5, j);
    assert ContainsGapped(c, "every", "day");
  }

  lemma WeekendLabel(text: string, createdAt: int)
    requires text in {"weekend", "weekends"}
    ensures CadenceDays(text, createdAt) == Some({0, 6})
  {
    assert At(text, 0, "weekend");
    hide At;
    LacksLetter(text, "every", 'v');
    LacksLetter(text, "weekday", 'a');
    LacksLetter(text, "-", '-');
    LacksLetter(text, "monday to friday", ' ');
  }

  lemma WeekdayLabel(text: string, createdAt: int)
    requires text in {"weekday", "weekdays", "monday to friday"}
    ensures CadenceDays(text, createdAt) == Some({1, 2, 3, 4, 5})
  {
    assert At(text, 0, if text == "monday to friday" then text else "weekday");
    hide At;
    LacksLetter(text, "every", 'v');
  }

  lemma RangeLabel(text: string, createdAt: int)
    requires text in {"mon-fri", "mon - fri"}
    ensures CadenceDays(text, createdAt) == Some({1, 2, 3, 4, 5})
  {
    var d := if text == "mon-fri" then 3 else 4;
    assert At(text, 0, "mon") && At(text, d, "-") && At(text, |text| - 3, "fri");
    assert Blank(text, 3, d) && Blank(text, d + 1, |text| - 3);
    hide At, Blank;
    LacksLetter(text, "every", 'v');
  }

  lemma WeeklyLabel(createdAt: int)
    ensures CadenceDays("weekly", createdAt) == Some({Weekday(createdAt)})
  {
    hide At;
    LacksLetter("weekly", "every", 'v');
  }

  /** The text is split as `pre`, `sub` and whatever follows. */
  predicate SplitBy(c: string, pre: string, sub: string) {
    |pre| + |sub| <= |c| && c == pre + sub + c[|pre| + |sub|..]
  }

  ghost predicate Has(c: string, sub: string) {
    exists pre :: SplitBy(c, pre, sub)
  }

  predicate White(s: string) {
    forall k :: 0 <= k < |s| ==> s[k] in " \t\n\r"
  }

  /** `a`, any white space, `b`. */
  ghost predicate HasApart(c: string, a: string, b: string) {
    exists pre, gap :: White(gap) && SplitBy(c, pre, a + gap + b)
  }

  /** "mon", a dash with any white space around it, "fri". */
  ghost predicate HasWorkweek(c: string) {
    exists pre, left, right :: White(left) && White(right) && SplitBy(c, pre, "mon" + left + "-" + right + "fri")
  }

  lemma SplitIsAt(c: string, pre: string, sub: string)
    requires SplitBy(c, pre, sub)
    ensures At(c, |pre|, sub) && c[..|pre|] == pre
  {
  }

  lemma AtIsSplit(c: string, i: int, sub: string)
    requires At(c, i, sub)
    ensures SplitBy(c, c[..i], sub)
  {
    assert c == c[..i] + c[i..i + |sub|] + c[i + |sub|..];
  }

  lemma ContainsIsHas(c: string, sub: string)
    ensures Contains(c, sub) <==> Has(c, sub)
  {
    hide At, SplitBy;
    if i :| 0 <= i <= |c| && At(c, i, sub) { AtIsSplit(c, i, sub); }
    if pre :| SplitBy(c, pre, sub) { SplitIsAt(c, pre, sub); AtIsInside(c, |pre|, sub); }
  }

  lemma AtIsInside(c: string, i: int, sub: string)
    requires At(c, i, sub)
    ensures 0 <= i <= i + |sub| <= |c|
  {
  }

  lemma AtJoined(c: string, i: int, a: string, b: string)
    ensures At(c, i, a + b) <==> At(c, i, a) && At(c, i + |a|, b)
  {
    if 0 <= i <= |c| - |a + b| {
      var all := c[i..i + |a + b|];
      assert c[i..i + |a|] == all[..|a|] && c[i + |a|..i + |a| + |b|] == all[|a|..];
      assert (a + b)[..|a|] == a && (a + b)[|a|..] == b;
      assert all == all[..|a|] + all[|a|..];
    }
  }

  lemma BlankIsAt(c: string, i: int, j: int)
    ensures Blank(c, i, j) ==> At(c, i, c[i..j]) && White(c[i..j]) && |c[i..j]| == j - i
  {
    if Blank(c, i, j) { assert forall k :: 0 <= k < j - i ==> c[i..j][k] == c[i + k]; }
  }

  lemma WhiteIsBlank(c: string, i: int, gap: string)
    requires At(c, i, gap) && White(gap)
    ensures Blank(c, i, i + |gap|)
  {
    assert forall k :: i <= k < i + |gap| ==> c[k] == c[i..i + |gap|][k - i];
  }

  lemma GappedIsApart(c: string, a: string, b: string)
    ensures ContainsGapped(c, a, b) <==> HasApart(c, a, b)
  {
    hide At, SplitBy, Blank, White;
    if i, j :| 0 <= i <= |c| && 0 <= j <= |c| && At(c, i, a) && At(c, j, b) && Blank(c, i + |a|, j) {
      BlankIsAt(c, i + |a|, j);
      var gap := c[i + |a|..j];
      AtJoined(c, i, a, gap);
      AtJoined(c, i, a + gap, b);
      AtIsSplit(c, i, a + gap + b);
    }
    if pre, gap :| White(gap) && SplitBy(c, pre, a + gap + b) {
      SplitIsAt(c, pre, a + gap + b);
      AtJoined(c, |pre|, a + gap, b);
      AtJoined(c, |pre|, a, gap);
      WhiteIsBlank(c, |pre| + |a|, gap);
      AtIsInside(c, |pre|, a);
      AtIsInside(c, |pre| + |a| + |gap|, b);
    }
  }

  lemma MonFriIsWorkweek(c: string)
    ensures ContainsMonFri(c) <==> HasWorkweek(c)
  {
    hide At, SplitBy, Blank, White;
    if i, d, j :| 0 <= i <= |c| && 0 <= d <= |c| && 0 <= j <= |c|
                  && At(c, i, "mon") && At(c, d, "-") && At(c, j, "fri") && Blank(c, i + 3, d) && Blank(c, d + 1, j) {
      BlankIsAt(c, i + 3, d);
      BlankIsAt(c, d + 1, j);
      var left, right := c[i + 3..d], c[d + 1..j];
      AtJoined(c, i, "mon", left);
      AtJoined(c, i, "mon" + left, "-");
      AtJoined(c, i, "mon" + left + "-", right);
      AtJoined(c, i, "mon" + left + "-" + right, "fri");
      AtIsSplit(c, i, "mon" + left + "-" + right + "fri");
    }
    if pre, left, right :| White(left) && White(right) && SplitBy(c, pre, "mon" + left + "-" + right + "fri") {
      var i := |pre|;
      SplitIsAt(c, pre, "mon" + left + "-" + right + "fri");
      AtJoined(c, i, "mon" + left + "-" + right, "fri");
      AtJoined(c, i, "mon" + left + "-", right);
      AtJoined(c, i, "mon" + left, "-");
      AtJoined(c, i, "mon", left);
      WhiteIsBlank(c, i + 3, left);
      WhiteIsBlank(c, i + 4 + |left|, right);
      AtIsInside(c, i, "mon");
      AtIsInside(c, i + 3 + |left|, "-");
      AtIsInside(c, i + 4 + |left| + |right|, "fri");
    }
  }

  /** What any cadence text means: the first of these readings that fits, by what stands anywhere in it. */
  lemma CadenceIsRead(c: string, createdAt: int)
    ensures CadenceDays(c, createdAt) ==
            if c in {"", "*", "daily"} || HasApart(c, "every", "day") then None
            else if c == "weekly" then Some({(createdAt / 86_400_000 + 4) % 7})
            else if Has(c, "weekday") || HasWorkweek(c) || Has(c, "monday to friday") then Some({1, 2, 3, 4, 5})
            else if Has(c, "weekend") then Some({0, 6})
            else
              var named := set d: int | 0 <= d < 7 && Has(c, ["sun", "mon", "tue", "wed", "thu", "fri", "sat"][d]);
              if named == {} then None else Some(named)
  {
    GappedIsApart(c, "every", "day");
    ContainsIsHas(c, "weekday");
    ContainsIsHas(c, "monday to friday");
    ContainsIsHas(c, "weekend");
    MonFriIsWorkweek(c);
    forall d | 0 <= d < 7 ensures Contains(c, DAY_NAMES[d]) <==> Has(c, DAY_NAMES[d]) { ContainsIsHas(c, DAY_NAMES[d]); }
    hide Contains, Has, ContainsGapped, HasApart, ContainsMonFri, HasWorkweek;
    assert NamedDays(c) == set d: int | 0 <= d < 7 && Has(c, ["sun", "mon", "tue", "wed", "thu", "fri", "sat"][d]);
  }

  /** The other labels the engine and the sheet use. */
  lemma LabelsReadBack(text: string, createdAt: int)
    ensures text in {"", "*", "daily", "every day", "everyday"} ==> CadenceDays(text, createdAt) == None
    ensures text == "weekly" ==> CadenceDays(text, createdAt) == Some({(createdAt / 86_400_000 + 4) % 7})
    ensures text in {"weekday", "weekdays", "monday to friday", "mon-fri", "mon - fri"} ==>
              CadenceDays(text, createdAt) == Some({1, 2, 3, 4, 5})
    ensures text in {"weekend", "weekends"} ==> CadenceDays(text, createdAt) == Some({0, 6})
  {
    if text in {"every day", "everyday"} {
      EveryDayAnywhere("", text[5..|text| - 3], "", createdAt);
      assert text == "" + "every" + text[5..|text| - 3] + "day" + "";
    } else if text == "weekly" {
      WeeklyLabel(createdAt);
    } else if text in {"weekday", "weekdays", "monday to friday"} {
      WeekdayLabel(text, createdAt);
    } else if text in {"mon-fri", "mon - fri"} {
      RangeLabel(text, createdAt);
    } else if text in {"weekend", "weekends"} {
      WeekendLabel(text, createdAt);
    }
  }

  predicate Allowed(days: Option<set<int>>, t: int) {
    days.None? || Weekday(t) in days.value
  }

  // ---- next occurrence ----

  predicate IsInterval(s: Schedule) {
    s.everyMinutes.Some? && s.everyMinutes.value > 0
  }

  function Every(s: Schedule): int
    requires IsInterval(s)
    ensures Every(s) > 0
  {
    s.everyMinutes.value * MINUTE_MS
  }

  function Anchor(s: Schedule): int {
    if s.anchorAt.Some? then s.anchorAt.value else s.createdAt
  }

  function ClockTime(hm: (int, int)): int {
    hm.0 * 60 * MINUTE_MS + hm.1 * MINUTE_MS
  }

  /** Today at that time if it is still ahead of `from`, else tomorrow. */
  function FirstAt(from: int, offset: int): int {
    var today := Day(from) * DAY_MS + offset;
    if today <= from then today + DAY_MS else today
  }

  /** Skips days until an allowed one, at most `left` of them. */
  function SkipDays(t: int, days: Option<set<int>>, left: nat): int
    decreases left
  {
    if left == 0 || Allowed(days, t) then t else SkipDays(t + DAY_MS, days, left - 1)
  }

  function NextOccurrence(s: Schedule, from: int): Option<int> {
    if IsInterval(s) then
      var steps := (from - Anchor(s)) / Every(s) + 1;
      Some(Anchor(s) + steps * Every(s))
    else
      match ParseHHMM(s.time)
      case None => None
      case Some(hm) => Some(SkipDays(FirstAt(from, ClockTime(hm)), CadenceDays(s.cadence, s.createdAt), 7))
  }

  method ComputeNextOccurrence(s: Schedule, from: int) returns (next: Option<int>)
    ensures next == NextOccurrence(s, from)
  {
    hide ParseHHMM, CadenceDays;
    if s.everyMinutes.Some? && s.everyMinutes.value > 0 {
      var every := s.everyMinutes.value * MINUTE_MS;
      var anchor := if s.anchorAt.Some? then s.anchorAt.value else s.createdAt;
      var steps := (from - anchor) / every + 1;
      return Some(anchor + steps * every);
    }
    var hm := ParseHHMM(s.time);
    if hm.None? {
      return None;
    }
    var days := CadenceDays(s.cadence, s.createdAt);
    var d := Day(from) * DAY_MS + ClockTime(hm.value);
    if d <= from {
      d := d + DAY_MS;
    }
    if days.Some? {
      var i := 0;
      ghost var start := d;
      while i < 7 && Weekday(d) !in days.value
        invariant i <= 7 && SkipDays(d, days, 7 - i) == SkipDays(start, days, 7)
      {
        d := d + DAY_MS;
        i := i + 1;
      }
    }
    return Some(d);
  }

  /** The instants at which a schedule is due, said without reference to how the next one is computed. */
  predicate Slot(s: Schedule, t: int) {
    if IsInterval(s) then (t - Anchor(s)) % Every(s) == 0
    else
      var hm := ParseHHMM(s.time);
      hm.Some? && TimeOfDay(t) == ClockTime(hm.value) && Allowed(CadenceDays(s.cadence, s.createdAt), t)
  }

  lemma FirstAtIsFirst(from: int, offset: int)
    requires 0 <= offset < DAY_MS
    ensures var t := FirstAt(from, offset);
      from < t <= from + DAY_MS && TimeOfDay(t) == offset && forall u :: from < u < t ==> TimeOfDay(u) != offset
  {
    var today := Day(from) * DAY_MS + offset;
    forall u | from < u < FirstAt(from, offset) ensures TimeOfDay(u) != offset {
      assert Day(from) <= Day(u) <= Day(from) + 1;
      assert u == Day(u) * DAY_MS + TimeOfDay(u);
    }
  }

  /** One day further is one weekday further. */
  lemma NextDay(t: int)
    ensures Weekday(t + DAY_MS) == (Weekday(t) + 1) % 7 && TimeOfDay(t + DAY_MS) == TimeOfDay(t)
  {
    assert Day(t + DAY_MS) == Day(t) + 1;
  }

  lemma {:induction false} SkipDaysFindsTheFirst(t: int, days: Option<set<int>>, left: nat, w: int)
    requires days.Some? ==> w in days.value && 0 <= w < 7 && (w - Weekday(t)) % 7 <= left
    ensures var r := SkipDays(t, days, left);
      && Allowed(days, r) && t <= r <= t + (if days.None? then 0 else (w - Weekday(t)) % 7 * DAY_MS)
      && TimeOfDay(r) == TimeOfDay(t) && forall u :: t <= u < r && TimeOfDay(u) == TimeOfDay(t) ==> !Allowed(days, u)
    decreases left
  {
    if left > 0 && !Allowed(days, t) {
      NextDay(t);
      SkipDaysFindsTheFirst(t + DAY_MS, days, left - 1, w);
      var r := SkipDays(t, days, left);
      forall u | t <= u < r && TimeOfDay(u) == TimeOfDay(t) ensures !Allowed(days, u) {
        if u < t + DAY_MS {
          SameTimeSameDay(t, u);
        }
      }
    }
  }

  lemma SameTimeSameDay(t: int, u: int)
    requires t <= u < t + DAY_MS && TimeOfDay(u) == TimeOfDay(t)
    ensures u == t
  {
  }

  lemma IntervalIsLeast(s: Schedule, from: int)
    requires IsInterval(s)
    ensures var t := NextOccurrence(s, from).value;
      from < t <= from + Every(s) && Slot(s, t) && forall u :: from < u < t ==> !Slot(s, u)
  {
    var every, anchor := Every(s), Anchor(s);
    var q := (from - anchor) / every;
    var t := anchor + (q + 1) * every;
    assert from - anchor == q * every + (from - anchor) % every;
    assert t == anchor + q * every + every by { assert (q + 1) * every == q * every + every; }
    MultipleHasNoRemainder(q + 1, every);
    forall u | from < u < t ensures !Slot(s, u) {
      BetweenMultiples(u - anchor, q, every);
    }
  }

  lemma MultipleHasNoRemainder(q: int, d: int)
    requires d > 0
    ensures q * d % d == 0
  {
    RemainderIsUnique(q * d, q, 0, d);
  }

  lemma QuotientIsUnique(q: int, r: int, q': int, r': int, d: int)
    requires 0 <= r < d && 0 <= r' < d && q * d + r == q' * d + r'
    ensures q == q' && r == r'
  {
    ProductOfDifference(q, q', d);
    if q > q' {
      AtLeastOnce(q - q', d);
    } else if q < q' {
      ProductOfDifference(q', q, d);
      AtLeastOnce(q' - q, d);
    }
  }

  lemma ProductOfDifference(a: int, b: int, d: int)
    ensures (a - b) * d == a * d - b * d
  {
  }

  lemma AtLeastOnce(k: int, d: int)
    requires k >= 1 && d >= 0
    ensures k * d >= d
  {
  }

  lemma RemainderIsUnique(x: int, q: int, r: int, d: int)
    requires d > 0 && x == q * d + r && 0 <= r < d
    ensures x % d == r && x / d == q
  {
    QuotientIsUnique(x / d, x % d, q, r, d);
  }

  lemma BetweenMultiples(x: int, q: int, d: int)
    requires d > 0 && q * d < x < q * d + d
    ensures x % d != 0
  {
    RemainderIsUnique(x, q, x - q * d, d);
  }

  /** The next occurrence is the least allowed instant strictly after `from`, at most one period away in interval
      mode and seven days away in clock mode; there is none exactly when there is no period and no valid time. */
  lemma NextOccurrenceIsLeast(s: Schedule, from: int)
    ensures var next := NextOccurrence(s, from);
      && (next.None? <==> !IsInterval(s) && ParseHHMM(s.time).None?)
      && (next.Some? ==>
            && from < next.value <= from + (if IsInterval(s) then Every(s) else 7 * DAY_MS)
            && Slot(s, next.value) && forall u :: from < u < next.value ==> !Slot(s, u))
  {
    if IsInterval(s) {
      IntervalIsLeast(s, from);
    } else if ParseHHMM(s.time).Some? {
      var offset, days := ClockTime(ParseHHMM(s.time).value), CadenceDays(s.cadence, s.createdAt);
      FirstAtIsFirst(from, offset);
      var w :| days.Some? ==> w in days.value;
      SkipDaysFindsTheFirst(FirstAt(from, offset), days, 7, w);
    }
  }

  /** Without a window of its own, a missed slot may be caught up exactly until its local day ends. */
  lemma DefaultWindowIsTheDay(dueAt: int, now: int)
    requires dueAt <= now
    ensures now <= dueAt + EndOfDayWindow(dueAt) <==> now / 86_400_000 == dueAt / 86_400_000
  {
  }

  // ---- the slots, read off a clock ----

  /** `t` is a full minute at which a clock shows `h` hours and `m` minutes. */
  predicate Shows(t: int, h: int, m: int) {
    t % 86_400_000 / 3_600_000 == h && t % 3_600_000 / 60_000 == m && t % 60_000 == 0
  }

  /** Of the week that begins on Sunday, counted from a Thursday. */
  predicate OnOneOf(t: int, days: Option<set<int>>) {
    days.Some? ==> (t / 86_400_000 + 4) % 7 in days.value
  }

  lemma ClockReads(t: int, h: int, m: int)
    requires 0 <= h <= 23 && 0 <= m <= 59
    ensures Shows(t, h, m) <==> t % 86_400_000 == h * 3_600_000 + m * 60_000
  {
    var d, r := t / 86_400_000, t % 86_400_000;
    var hours, x := r / 3_600_000, r % 3_600_000;
    var minutes, y := x / 60_000, x % 60_000;
    RemainderIsUnique(t, 24 * d + hours, x, 3_600_000);
    RemainderIsUnique(t, 1440 * d + 60 * hours + minutes, y, 60_000);
    assert r == 3_600_000 * hours + 60_000 * minutes + y;
  }

  ghost predicate Digits(a: char, b: char, c: char, d: char) {
    '0' <= a <= '9' && '0' <= b <= '9' && '0' <= c <= '9' && '0' <= d <= '9'
  }

  /** The time is written with those digits, the first of them left out if it is zero. */
  predicate Written(time: string, a: char, b: char, c: char, d: char) {
    time == [a, b, ':', c, d] || (a == '0' && time == [b, ':', c, d])
  }

  function Number(a: char, b: char): int {
    10 * (a as int - '0' as int) + (b as int - '0' as int)
  }

  lemma WrittenParses(time: string, a: char, b: char, c: char, d: char)
    requires Digits(a, b, c, d) && Written(time, a, b, c, d)
    ensures ParseHHMM(time) == if Number(a, b) <= 23 && Number(c, d) <= 59 then Some((Number(a, b), Number(c, d))) else None
  {
  }

  /** A schedule at ab:cd is due exactly at the full minutes at which the clock shows ab hours and cd minutes, on the days
      its cadence permits; one with an impossible time never is. */
  lemma SlotsAreTheTimeWritten(s: Schedule, a: char, b: char, c: char, d: char, t: int)
    requires s.everyMinutes in {None, Some(0)} && Digits(a, b, c, d) && Written(s.time, a, b, c, d)
    ensures Slot(s, t) <==> Number(a, b) <= 23 && Number(c, d) <= 59 && Shows(t, Number(a, b), Number(c, d))
                            && OnOneOf(t, CadenceDays(s.cadence, s.createdAt))
  {
    WrittenParses(s.time, a, b, c, d);
    hide ParseHHMM, CadenceDays, Shows;
    if Number(a, b) <= 23 && Number(c, d) <= 59 { ClockReads(t, Number(a, b), Number(c, d)); }
  }

  /** And every so many minutes, counted from the anchor, or from its creation without one. */
  lemma IntervalSlotsAreMultiples(s: Schedule, minutes: nat, t: int)
    requires s.everyMinutes == Some(minutes) && minutes > 0
    ensures Slot(s, t) <==> (t - if s.anchorAt.Some? then s.anchorAt.value else s.createdAt) % (minutes * 60_000) == 0
  {
  }

  /** The next occurrence is the first such minute on such a day after `from`. */
  lemma NextOccurrenceIsTheTimeWritten(s: Schedule, a: char, b: char, c: char, d: char, from: int)
    requires s.everyMinutes in {None, Some(0)} && Digits(a, b, c, d) && Written(s.time, a, b, c, d)
    requires Number(a, b) <= 23 && Number(c, d) <= 59
    ensures var next, days := NextOccurrence(s, from), CadenceDays(s.cadence, s.createdAt);
      && next.Some? && from < next.value && Shows(next.value, Number(a, b), Number(c, d)) && OnOneOf(next.value, days)
      && forall u :: from < u < next.value ==> !(Shows(u, Number(a, b), Number(c, d)) && OnOneOf(u, days))
  {
    NextOccurrenceIsLeast(s, from);
    WrittenParses(s.time, a, b, c, d);
    hide NextOccurrence, Slot, Shows, OnOneOf, ParseHHMM;
    var next := NextOccurrence(s, from).value;
    SlotsAreTheTimeWritten(s, a, b, c, d, next);
    forall u | from < u < next ensures !(Shows(u, Number(a, b), Number(c, d)) && OnOneOf(u, CadenceDays(s.cadence, s.createdAt))) {
      SlotsAreTheTimeWritten(s, a, b, c, d, u);
    }
  }
}
