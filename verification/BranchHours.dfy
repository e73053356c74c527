/**
 Branch hours: the public page prints a week as two strings
 (apps/web/components/public-branch-surface.tsx, readHours), and the branch editor reads such
 strings back with /(\d{2}:\d{2}).*?(\d{2}:\d{2})/
 (apps/web/components/branch-management-workspace.tsx, readHours). A pattern of ASCII digits and
 dots matches the same way over code points as over code units.
 */
module BranchHours {
  import opened Util

  // --------------------------------------------------- the pattern, section 22.2 of ECMA-262

  predicate Digit(c: char) { '0' <= c <= '9' }

  /** The characters that a dot does not match. */
  predicate LineEnd(c: char) { c == '\n' || c == '\r' || c == '\U{2028}' || c == '\U{2029}' }

  /** Two digits, a colon and two digits start at i. */
  predicate TimeAt(text: string, i: nat) {
    i + 5 <= |text| && Digit(text[i]) && Digit(text[i + 1]) && text[i + 2] == ':' && Digit(text[i + 3]) && Digit(text[i + 4])
  }

  /** The lazy gap, grown one character at a time until the second group matches. */
  function SecondTime(text: string, j: nat): (r: Option<nat>)
    requires j <= |text|
    ensures r.Some? ==> TimeAt(text, r.value)
    decreases |text| - j
  {
    if TimeAt(text, j) then Some(j)
    else if j == |text| || LineEnd(text[j]) then None
    else SecondTime(text, j + 1)
  }

  datatype Match = NoMatch | Match(first: string, second: string)

  /** The attempts from the left: the first start with a second group behind it wins. */
  function FindPair(text: string, i: nat): (r: Option<(nat, nat)>)
    requires i <= |text|
    ensures r.Some? ==> i <= r.value.0 <= |text| - 5 && r.value.1 <= |text| - 5
    decreases |text| - i
  {
    if TimeAt(text, i) && SecondTime(text, i + 5).Some? then Some((i, SecondTime(text, i + 5).value))
    else if i == |text| then None
    else FindPair(text, i + 1)
  }

  function MatchHours(text: string): Match {
    var r := FindPair(text, 0);
    if r.None? then NoMatch
    else Match(text[r.value.0..r.value.0 + 5], text[r.value.1..r.value.1 + 5])
  }

  /** The two groups could stand at i and j. */
  predicate Pair(text: string, i: nat, j: nat) {
    TimeAt(text, i) && i + 5 <= j && TimeAt(text, j) && forall k :: i + 5 <= k < j ==> !LineEnd(text[k])
  }

  lemma {:induction false} SecondInText(text: string, j: nat)
    requires j <= |text|
    ensures var r := SecondTime(text, j);
      && (r.Some? ==> j <= r.value && TimeAt(text, r.value) && (forall k :: j <= k < r.value ==> !LineEnd(text[k])))
      && (forall m: nat :: j <= m && TimeAt(text, m) && (forall k :: j <= k < m ==> !LineEnd(text[k])) ==>
            r.Some? && r.value <= m)
    decreases |text| - j
  {
    if !TimeAt(text, j) && j < |text| && !LineEnd(text[j]) {
      SecondInText(text, j + 1);
    }
  }

  /** i and j stand no further right than any other pair: the start first, then the length of the gap. */
  ghost predicate Leftmost(text: string, from: nat, i: nat, j: nat) {
    && from <= i && Pair(text, i, j)
    && forall i': nat, j': nat :: from <= i' && Pair(text, i', j') ==> i < i' || (i == i' && j <= j')
  }

  /** The search finds the leftmost, laziest pair, and nothing exactly when there is none. */
  lemma {:induction false} PairIsLeftmost(text: string, from: nat)
    requires from <= |text|
    ensures var r := FindPair(text, from);
      && (r.None? <==> forall i: nat, j: nat :: from <= i ==> !Pair(text, i, j))
      && (r.Some? ==> Leftmost(text, from, r.value.0, r.value.1))
    decreases |text| - from
  {
    if TimeAt(text, from) {
      SecondInText(text, from + 5);
    }
    if TimeAt(text, from) && SecondTime(text, from + 5).Some? {
      assert Pair(text, from, SecondTime(text, from + 5).value);
    } else if from < |text| {
      PairIsLeftmost(text, from + 1);
      NoPairHere(text, from);
    }
  }

  lemma NoPairHere(text: string, from: nat)
    requires from < |text| && !(TimeAt(text, from) && SecondTime(text, from + 5).Some?)
    ensures forall j: nat :: !Pair(text, from, j)
  {
    if TimeAt(text, from) {
      SecondInText(text, from + 5);
    }
  }

  // ------------------------------------------------------------------------ the week

  datatype Day = Day(name: string, closed: bool, opensAt: Option<string>, closesAt: Option<string>)

  /** The stored value: a week, of which an entry may be no day at all, or the strings of the older shape. */
  datatype Entry = Junk | Entry(day: Day)
  datatype Stored =
    | Weekly(entries: seq<Entry>, legacy: Legacy)
    | Older(legacy: Legacy)
  datatype Legacy = Legacy(regular: Option<string>, saturdayToThursday: Option<string>, friday: Option<string>)

  const NAMES: seq<string> := ["SATURDAY", "SUNDAY", "MONDAY", "TUESDAY", "WEDNESDAY", "THURSDAY", "FRIDAY"]

  // ---------------------------------------------------------------- the editor's reader

  function ReadDay(name: string, regular: Match, friday: Match): Day {
    if name == "FRIDAY" then
      (if friday.Match? then Day(name, false, Some(friday.first), Some(friday.second)) else Day(name, true, None, None))
    else if regular.Match? then Day(name, false, Some(regular.first), Some(regular.second))
    else Day(name, true, Some("09:00"), Some("21:00"))
  }

  function OrEmpty(s: Option<string>): string { if s.Some? then s.value else "" }

  function RegularText(l: Legacy): string {
    if l.regular.Some? then l.regular.value else OrEmpty(l.saturdayToThursday)
  }

  function ReadLegacy(l: Legacy): (week: seq<Day>)
    ensures |week| == 7
    ensures forall k :: 0 <= k < 7 ==>
      week[k] == ReadDay(NAMES[k], MatchHours(RegularText(l)), MatchHours(OrEmpty(l.friday)))
  {
    var regular, friday := MatchHours(RegularText(l)), MatchHours(OrEmpty(l.friday));
    seq(7, k requires 0 <= k < 7 => ReadDay(NAMES[k], regular, friday))
  }

  /** A stored week of seven entries is taken as it is; anything else goes through the pattern. */
  function EditorReads(s: Stored): seq<Entry> {
    if s.Weekly? && |s.entries| == 7 then s.entries else Entries(ReadLegacy(s.legacy))
  }

  function Entries(week: seq<Day>): (r: seq<Entry>)
    ensures |r| == |week| && forall k :: 0 <= k < |r| ==> r[k] == Entry(week[k])
  {
    seq(|week|, k requires 0 <= k < |week| => Entry(week[k]))
  }

  // ----------------------------------------------------------------- the public printer

  datatype Printed = Printed(regular: string, friday: string)

  const DASH: string := "\U{2013}"
  const CLOSED_TEXT: string := "Closed / \U{645}\U{63A}\U{644}\U{642}"

  /** A missing time prints as the word null. */
  function TimeText(t: Option<string>): string { if t.Some? then t.value else "null" }

  function Span(d: Day): string { TimeText(d.opensAt) + DASH + TimeText(d.closesAt) }

  function DaysOf(entries: seq<Entry>): seq<Day> {
    if entries == [] then []
    else (if entries[0].Junk? then [] else [entries[0].day]) + DaysOf(entries[1..])
  }

  function FirstOpenRegular(week: seq<Day>): (r: Option<Day>)
    ensures r.Some? ==> r.value in week && r.value.name != "FRIDAY" && !r.value.closed
    ensures r.None? <==> forall d :: d in week ==> d.name == "FRIDAY" || d.closed
  {
    if week == [] then None
    else if week[0].name != "FRIDAY" && !week[0].closed then Some(week[0])
    else FirstOpenRegular(week[1..])
  }

  function FindFriday(week: seq<Day>): (r: Option<Day>)
    ensures r.Some? ==> r.value in week && r.value.name == "FRIDAY"
    ensures r.None? <==> forall d :: d in week ==> d.name != "FRIDAY"
  {
    if week == [] then None
    else if week[0].name == "FRIDAY" then Some(week[0])
    else FindFriday(week[1..])
  }

  function PublicReads(s: Stored): Printed {
    match s
    case Weekly(entries, _) =>
      var regular, friday := FirstOpenRegular(DaysOf(entries)), FindFriday(DaysOf(entries));
      Printed(if regular.None? then "" else Span(regular.value),
              if friday.None? then "" else if friday.value.closed then CLOSED_TEXT else Span(friday.value))
    case Older(l) => Printed(OrEmpty(l.regular), OrEmpty(l.friday))
  }

  // ------------------------------------------------------------------- printing, then reading

  /** HH:MM, the form the editor's inputs give. */
  predicate IsTime(s: string) { |s| == 5 && TimeAt(s, 0) }

  predicate OpenDaysTimed(week: seq<Day>) {
    forall k :: 0 <= k < |week| && !week[k].closed ==>
      week[k].opensAt.Some? && IsTime(week[k].opensAt.value) && week[k].closesAt.Some? && IsTime(week[k].closesAt.value)
  }

  /** A week in the editor's fixed order, whose open days have both times. */
  predicate ProperWeek(week: seq<Day>) {
    |week| == 7 && (forall k :: 0 <= k < 7 ==> week[k].name == NAMES[k]) && OpenDaysTimed(week)
  }

  /** Same closed flag, and the same times where it is open. */
  predicate SameHours(a: Day, b: Day) {
    a.closed == b.closed && (!a.closed ==> a.opensAt == b.opensAt && a.closesAt == b.closesAt)
  }

  predicate SameWeek(a: seq<Day>, b: seq<Day>)
    requires |a| == |b| == 7
  {
    forall k :: 0 <= k < 7 ==> SameHours(a[k], b[k])
  }

  /** The six regular days keep the same hours. */
  predicate RegularAgree(week: seq<Day>)
    requires |week| == 7
  {
    forall k :: 0 <= k < 6 ==> SameHours(week[k], week[0])
  }

  lemma SpanMatches(opens: string, closes: string)
    requires IsTime(opens) && IsTime(closes)
    ensures MatchHours(opens + DASH + closes) == Match(opens, closes)
  {
    var text := opens + DASH + closes;
    assert text[0..5] == opens && text[6..11] == closes;
    assert TimeAt(text, 0) && !TimeAt(text, 5) && TimeAt(text, 6);
    assert SecondTime(text, 5) == SecondTime(text, 6) == Some(6);
  }

  lemma NoDigitsNoMatch(text: string)
    requires forall k :: 0 <= k < |text| ==> !Digit(text[k])
    ensures MatchHours(text) == NoMatch
  {
    PairIsLeftmost(text, 0);
  }

  lemma ClosedTextNoMatch()
    ensures MatchHours(CLOSED_TEXT) == NoMatch && MatchHours("") == NoMatch
  {
    NoDigitsNoMatch(CLOSED_TEXT);
    NoDigitsNoMatch("");
  }

  lemma {:induction false} DaysOfEntries(week: seq<Day>)
    ensures DaysOf(Entries(week)) == week
  {
    if week != [] {
      DaysOfEntries(week[1..]);
      assert Entries(week)[1..] == Entries(week[1..]);
      assert [week[0]] + week[1..] == week;
    }
  }

  /** The older shape with the strings that the public page shows. */
  function AsLegacy(p: Printed): Legacy { Legacy(Some(p.regular), None, Some(p.friday)) }

  function Reread(week: seq<Day>): seq<Day> {
    ReadLegacy(AsLegacy(PublicReads(Weekly(Entries(week), Legacy(None, None, None)))))
  }

  lemma FridayRereads(week: seq<Day>)
    requires ProperWeek(week)
    ensures SameHours(Reread(week)[6], week[6])
  {
    DaysOfEntries(week);
    assert week[6].name == NAMES[6] == "FRIDAY";
    OnlyFriday(week);
    ClosedTextNoMatch();
    if !week[6].closed {
      SpanMatches(week[6].opensAt.value, week[6].closesAt.value);
    }
  }

  lemma OnlyFriday(week: seq<Day>)
    requires ProperWeek(week)
    ensures FindFriday(week) == Some(week[6])
    ensures forall k :: 0 <= k < 6 ==> week[k].name != "FRIDAY"
  {
    assert |NAMES[0]| == 8 && |NAMES[1]| == 6 && NAMES[1][0] == 'S' && NAMES[2][0] == 'M' && NAMES[3][0] == 'T'
           && NAMES[4][0] == 'W' && NAMES[5][0] == 'T';
    assert "FRIDAY"[0] == 'F' && |"FRIDAY"| == 6;
    assert week[6] in week;
    var d := FindFriday(week).value;
    var k :| 0 <= k < 7 && week[k] == d;
  }

  /** The first open regular day is one of the first six, and has both times. */
  lemma FirstOpenTimed(week: seq<Day>)
    requires ProperWeek(week) && FirstOpenRegular(week).Some?
    ensures var d := FirstOpenRegular(week).value;
      d.opensAt.Some? && IsTime(d.opensAt.value) && d.closesAt.Some? && IsTime(d.closesAt.value)
    ensures exists k :: 0 <= k < 6 && week[k] == FirstOpenRegular(week).value
  {
    OnlyFriday(week);
    var k :| 0 <= k < 7 && week[k] == FirstOpenRegular(week).value;
  }

  /** What the pattern finds in the printed regular hours: the first open regular day, or nothing. */
  lemma RegularMatch(week: seq<Day>)
    requires ProperWeek(week)
    ensures var first := FirstOpenRegular(week);
      MatchHours(PublicReads(Weekly(Entries(week), Legacy(None, None, None))).regular) ==
        if first.None? then NoMatch else Match(TimeText(first.value.opensAt), TimeText(first.value.closesAt))
  {
    DaysOfEntries(week);
    if FirstOpenRegular(week).None? {
      ClosedTextNoMatch();
    } else {
      FirstOpenTimed(week);
      SpanMatches(FirstOpenRegular(week).value.opensAt.value, FirstOpenRegular(week).value.closesAt.value);
    }
  }

  lemma RegularRereads(week: seq<Day>, k: nat)
    requires ProperWeek(week) && k < 6
    ensures var first, day := FirstOpenRegular(week), Reread(week)[k];
      if first.None? then day.closed
      else !day.closed && day.opensAt == first.value.opensAt && day.closesAt == first.value.closesAt
  {
    RegularMatch(week);
    OnlyFriday(week);
    if FirstOpenRegular(week).Some? {
      FirstOpenTimed(week);
    }
  }

  /**
   Printing a week on the public page and reading the strings in the editor brings back every
   closed flag and the times of every open day exactly when the six regular days keep the same
   hours. (The hours of a closed day are not printed; the editor fills in its defaults.)
   */
  lemma PrintedWeekRereads(week: seq<Day>)
    requires ProperWeek(week)
    ensures SameWeek(Reread(week), week) <==> RegularAgree(week)
  {
    FridayRereads(week);
    forall k: nat | k < 6
      ensures var first, day := FirstOpenRegular(week), Reread(week)[k];
        if first.None? then day.closed
        else !day.closed && day.opensAt == first.value.opensAt && day.closesAt == first.value.closesAt
    {
      RegularRereads(week, k);
    }
    OnlyFriday(week);
    if FirstOpenRegular(week).Some? {
      FirstOpenTimed(week);
    } else {
      assert forall k :: 0 <= k < 6 ==> week[k] in week;
    }
  }

  /** Whatever the older strings are, the editor gets a proper week whose regular days agree. */
  lemma EditorWeekIsProper(l: Legacy)
    ensures ProperWeek(ReadLegacy(l)) && RegularAgree(ReadLegacy(l))
  {
    GroupsAreTimes(RegularText(l));
    GroupsAreTimes(OrEmpty(l.friday));
    var week := ReadLegacy(l);
    assert NAMES[0] != "FRIDAY" && NAMES[1] != "FRIDAY" && NAMES[2] != "FRIDAY" && NAMES[3] != "FRIDAY"
           && NAMES[4] != "FRIDAY" && NAMES[5] != "FRIDAY" by {
      assert |NAMES[0]| == 8 && NAMES[1][0] == 'S' && NAMES[2][0] == 'M' && NAMES[3][0] == 'T'
             && NAMES[4][0] == 'W' && NAMES[5][0] == 'T' && "FRIDAY"[0] == 'F' && |"FRIDAY"| == 6;
    }
    assert IsTime("09:00") && IsTime("21:00");
    assert forall k :: 0 <= k < 6 ==> week[k].closed == week[0].closed;
  }

  lemma GroupsAreTimes(text: string)
    ensures var m := MatchHours(text); m.Match? ==> IsTime(m.first) && IsTime(m.second)
  {
    PairIsLeftmost(text, 0);
  }

  /** Reading its own result again changes nothing, whatever was stored; so does showing it in public in between. */
  lemma EditorIsStable(s: Stored, l: Legacy)
    ensures EditorReads(Weekly(EditorReads(s), l)) == EditorReads(s)
    ensures Reread(ReadLegacy(s.legacy)) == ReadLegacy(s.legacy)
  {
    var week := ReadLegacy(s.legacy);
    EditorWeekIsProper(s.legacy);
    PrintedWeekRereads(week);
    forall k | 0 <= k < 7 ensures Reread(week)[k] == week[k] {
      assert SameHours(Reread(week)[k], week[k]);
    }
  }
}
