/**
 The fleet calendar (apps/web/components/fleet-calendar-workspace.tsx): a window of days that
 Previous and Next move by fourteen, and the projection of an event onto it. Times are integer
 milliseconds, before or after 1970; a day is a UTC day.
 */
module FleetCalendar {
  import opened Util

  const DAY: int := 86_400_000
  const VIEW: int := 14

  datatype Event = Event(startsAt: int, endsAt: int)

  /** In percent of the track. */
  datatype Position = Position(left: real, width: real)

  /** The number of the UTC day of a moment. */
  function DayOf(time: int): int { time / DAY }

  function StartOfUtcDay(time: int): int { DayOf(time) * DAY }

  function Max(a: int, b: int): int { if a < b then b else a }

  function Min(a: int, b: int): int { if a < b then a else b }

  function RealMax(a: real, b: real): real { if a < b then b else a }

  function RawWidth(from: int, to: int, totalDays: int): real
    requires totalDays > 0
  {
    (to - from) as real / DAY as real / totalDays as real * 100.0
  }

  function EventPosition(event: Event, anchor: int, totalDays: int): Option<Position>
    requires totalDays > 0
  {
    var start := StartOfUtcDay(event.startsAt);
    var end := Max(start + DAY, StartOfUtcDay(event.endsAt));
    var rangeEnd := anchor + totalDays * DAY;
    if end <= anchor || start >= rangeEnd then None
    else
      var from, to := Max(start, anchor), Min(end, rangeEnd);
      Some(Position(RawWidth(anchor, from, totalDays),
                    RealMax(RawWidth(from, to, totalDays), 100.0 / totalDays as real)))
  }

  // ----------------------------------------------------------------- the anchor

  predicate Aligned(anchor: int) { anchor % DAY == 0 }

  datatype Move = Previous | Next | Today(now: int)

  function Moved(anchor: int, move: Move): int {
    match move
    case Previous => anchor - VIEW * DAY
    case Next => anchor + VIEW * DAY
    case Today(now) => StartOfUtcDay(now)
  }

  function Navigate(anchor: int, moves: seq<Move>): int
    decreases |moves|
  {
    if moves == [] then anchor else Navigate(Moved(anchor, moves[0]), moves[1..])
  }

  class Workspace {
    var anchor: int

    constructor (now: int)
      ensures anchor == StartOfUtcDay(now) && Aligned(anchor)
    {
      anchor := DayOf(now) * DAY;
    }

    method Press(move: Move)
      requires Aligned(anchor)
      modifies this
      ensures anchor == Moved(old(anchor), move) && Aligned(anchor)
    {
      match move {
        case Previous => anchor := anchor - 14 * DAY;
        case Next => anchor := anchor + 14 * DAY;
        case Today(now) => anchor := DayOf(now) * DAY;
      }
    }
  }

  /** Every anchor the buttons reach is the start of a day. */
  lemma {:induction false} NavigationAligned(anchor: int, moves: seq<Move>)
    requires Aligned(anchor)
    ensures Aligned(Navigate(anchor, moves))
    decreases |moves|
  {
    if moves != [] {
      NavigationAligned(Moved(anchor, moves[0]), moves[1..]);
    }
  }

  // ------------------------------------------------------------- days and windows

  function FirstDay(event: Event): int { DayOf(event.startsAt) }

  /** The day after the last one: at least one day, and otherwise up to the day the event ends on. */
  function EndDay(event: Event): int { Max(DayOf(event.startsAt) + 1, DayOf(event.endsAt)) }

  predicate OnDay(event: Event, d: int) { FirstDay(event) <= d < EndDay(event) }

  predicate InWindow(first: int, count: int, d: int) { first <= d < first + count }

  /** How many days of the event fall into the window of count days from first. */
  function SharedDays(event: Event, first: int, count: int): (n: nat)
    requires count >= 0
  {
    Max(0, Min(EndDay(event), first + count) - Max(FirstDay(event), first))
  }

  lemma WholeDays(from: int, to: int, totalDays: int)
    requires totalDays > 0
    ensures RawWidth(from * DAY, to * DAY, totalDays) == (to - from) as real / totalDays as real * 100.0
  {
    assert to * DAY - from * DAY == (to - from) * DAY;
    assert ((to - from) * DAY) as real == (to - from) as real * DAY as real;
  }

  lemma Scaled(k: int, l: int, totalDays: int)
    requires totalDays > 0 && k <= l
    ensures k as real / totalDays as real * 100.0 <= l as real / totalDays as real * 100.0
    ensures 1.0 / totalDays as real * 100.0 == 100.0 / totalDays as real
    ensures totalDays as real / totalDays as real * 100.0 == 100.0
  {
    var n := totalDays as real;
    assert k as real / n <= l as real / n;
  }

  /** Day numbers in place of milliseconds: with an aligned anchor every edge is the start of a day. */
  lemma InDays(event: Event, anchor: int, totalDays: int)
    requires totalDays > 0 && Aligned(anchor)
    ensures var w, n := DayOf(anchor), SharedDays(event, DayOf(anchor), totalDays);
      EventPosition(event, anchor, totalDays) ==
        if n == 0 then None
        else Some(Position((Max(FirstDay(event), w) - w) as real / totalDays as real * 100.0,
                           n as real / totalDays as real * 100.0))
  {
    var w := DayOf(anchor);
    var from, to := Max(FirstDay(event), w), Min(EndDay(event), w + totalDays);
    assert anchor == w * DAY;
    WholeDays(w, from, totalDays);
    WholeDays(from, to, totalDays);
    if from < to {
      Scaled(1, to - from, totalDays);
    }
  }

  /** No position exactly when the event and the window have no day in common. */
  lemma NoSharedDay(event: Event, anchor: int, totalDays: int)
    requires totalDays > 0 && Aligned(anchor)
    ensures EventPosition(event, anchor, totalDays).None? <==>
      forall d :: !(OnDay(event, d) && InWindow(DayOf(anchor), totalDays, d))
  {
    InDays(event, anchor, totalDays);
    var w := DayOf(anchor);
    if SharedDays(event, w, totalDays) > 0 {
      assert OnDay(event, Max(FirstDay(event), w)) && InWindow(w, totalDays, Max(FirstDay(event), w));
    }
  }

  ghost predicate WholeParts(x: real, totalDays: int)
    requires totalDays > 0
  {
    exists k: nat :: x == Part(k, totalDays)
  }

  function Part(k: nat, totalDays: int): real
    requires totalDays > 0
  {
    k as real / totalDays as real * 100.0
  }

  /** A bar starts and ends on the track, and on the lines between days. */
  lemma OnTheTrack(event: Event, anchor: int, totalDays: int)
    requires totalDays > 0 && Aligned(anchor) && EventPosition(event, anchor, totalDays).Some?
    ensures var p := EventPosition(event, anchor, totalDays).value;
      && 0.0 <= p.left && p.left + p.width <= 100.0 && 100.0 / totalDays as real <= p.width
      && WholeParts(p.left, totalDays) && WholeParts(p.width, totalDays)
  {
    InDays(event, anchor, totalDays);
    var w, n := DayOf(anchor), SharedDays(event, DayOf(anchor), totalDays);
    var k := Max(FirstDay(event), w) - w;
    Scaled(0, k, totalDays);
    Scaled(1, n, totalDays);
    Scaled(k + n, totalDays, totalDays);
    assert Part(k, totalDays) + Part(n, totalDays) == (k + n) as real / totalDays as real * 100.0 by {
      SplitParts(k, n, totalDays);
    }
  }

  lemma SplitParts(k: nat, n: nat, totalDays: int)
    requires totalDays > 0
    ensures Part(k, totalDays) + Part(n, totalDays) == Part(k + n, totalDays)
  {
    assert (k + n) as real / totalDays as real == k as real / totalDays as real + n as real / totalDays as real;
  }

  /** The first and the last moment of the event that the window shows. */
  function Visible(event: Event, anchor: int, totalDays: int): (int, int) {
    var start := StartOfUtcDay(event.startsAt);
    (Max(start, anchor), Min(Max(start + DAY, StartOfUtcDay(event.endsAt)), anchor + totalDays * DAY))
  }

  /** A width below one day's share is a length below one day. */
  lemma LessThanADay(from: int, to: int, totalDays: int)
    requires totalDays > 0
    ensures RealMax(RawWidth(from, to, totalDays), 100.0 / totalDays as real) != RawWidth(from, to, totalDays)
      <==> to - from < DAY
  {
    var n, x := totalDays as real, (to - from) as real / DAY as real;
    ShareOrdered(x, 1.0, n);
    ShareOrdered(1.0, x, n);
    assert RawWidth(from, to, totalDays) == x / n * 100.0;
    assert to - from < DAY <==> x < 1.0;
  }

  lemma ShareOrdered(x: real, y: real, n: real)
    requires n > 0.0
    ensures 1.0 / n * 100.0 == 100.0 / n
    ensures x < y ==> x / n * 100.0 < y / n * 100.0
  {
    assert (y - x) / n == y / n - x / n;
  }

  lemma AlignedShowsADay(event: Event, anchor: int, totalDays: int)
    requires totalDays > 0 && Aligned(anchor) && EventPosition(event, anchor, totalDays).Some?
    ensures Visible(event, anchor, totalDays).1 - Visible(event, anchor, totalDays).0 >= DAY
  {
    InDays(event, anchor, totalDays);
    var (from, to) := Visible(event, anchor, totalDays);
    assert from == Max(FirstDay(event), DayOf(anchor)) * DAY;
    assert to == Min(EndDay(event), DayOf(anchor) + totalDays) * DAY;
  }

  /** The minimum width only ever matters for an anchor within a day, which no button reaches. */
  lemma MinimumWidthMatters(event: Event, anchor: int, totalDays: int)
    requires totalDays > 0 && EventPosition(event, anchor, totalDays).Some?
    ensures var (from, to) := Visible(event, anchor, totalDays);
      && (EventPosition(event, anchor, totalDays).value.width != RawWidth(from, to, totalDays) <==> to - from < DAY)
      && (Aligned(anchor) ==> to - from >= DAY)
  {
    var (from, to) := Visible(event, anchor, totalDays);
    LessThanADay(from, to, totalDays);
    if Aligned(anchor) {
      AlignedShowsADay(event, anchor, totalDays);
    }
  }

  // --------------------------------------------------------------- conservation

  function WidthIn(event: Event, anchor: int): real {
    var p := EventPosition(event, anchor, VIEW);
    if p.None? then 0.0 else p.value.width
  }

  /** What the windows reached by pressing Next count - 1 times show of the event, all together. */
  function WidthOver(event: Event, anchor: int, count: nat): real
    decreases count
  {
    if count == 0 then 0.0 else WidthIn(event, anchor) + WidthOver(event, Moved(anchor, Next), count - 1)
  }

  lemma WindowsJoin(event: Event, first: int, n: nat, m: nat)
    ensures SharedDays(event, first, n) + SharedDays(event, first + n, m) == SharedDays(event, first, n + m)
  {
  }

  /** Consecutive windows together show every day of the event they cover once: no day twice, none lost. */
  lemma {:induction false} WidthsAddUp(event: Event, anchor: int, count: nat)
    requires Aligned(anchor)
    ensures WidthOver(event, anchor, count) == Part(SharedDays(event, DayOf(anchor), VIEW * count), VIEW)
    decreases count
  {
    if count > 0 {
      var next := Moved(anchor, Next);
      assert DayOf(next) == DayOf(anchor) + VIEW;
      InDays(event, anchor, VIEW);
      WidthsAddUp(event, next, count - 1);
      WindowsJoin(event, DayOf(anchor), VIEW, VIEW * (count - 1));
      SplitParts(SharedDays(event, DayOf(anchor), VIEW), SharedDays(event, DayOf(next), VIEW * (count - 1)), VIEW);
    }
  }

  /** When the windows cover the event, the widths add up to its length in days, at least one day. */
  lemma LengthConserved(event: Event, anchor: int, count: nat)
    requires Aligned(anchor)
    requires DayOf(anchor) <= FirstDay(event) && EndDay(event) <= DayOf(anchor) + VIEW * count
    ensures WidthOver(event, anchor, count) == Part(EndDay(event) - FirstDay(event), VIEW)
  {
    WidthsAddUp(event, anchor, count);
  }

  /** Each day lies in exactly one of the windows reached from an anchor by Previous and Next. */
  lemma OneWindowPerDay(anchor: int, d: int, i: int)
    requires Aligned(anchor)
    ensures InWindow(DayOf(anchor + i * VIEW * DAY), VIEW, d) <==> i == (d - DayOf(anchor)) / VIEW
  {
    assert anchor + i * VIEW * DAY == (DayOf(anchor) + i * VIEW) * DAY;
    assert DayOf(anchor + i * VIEW * DAY) == DayOf(anchor) + i * VIEW;
  }

  /** The events the server sends for a window: they overlap it in time (fleet.repository.ts, findCalendar). */
  predicate Served(event: Event, anchor: int, totalDays: int) {
    event.startsAt < anchor + totalDays * DAY && event.endsAt > anchor
  }

  lemma NotServed(event: Event, anchor: int, rangeEnd: int)
    requires Aligned(anchor) && Aligned(rangeEnd) && anchor < rangeEnd && event.startsAt < event.endsAt
    requires event.startsAt >= rangeEnd || event.endsAt <= anchor
    ensures Max(StartOfUtcDay(event.startsAt) + DAY, StartOfUtcDay(event.endsAt)) <= anchor
      || StartOfUtcDay(event.startsAt) >= rangeEnd
  {
  }

  /** Nothing the projection would draw is missing from what the server sends. */
  lemma DrawnIsServed(event: Event, anchor: int, totalDays: int)
    requires totalDays > 0 && Aligned(anchor) && event.startsAt < event.endsAt
    requires EventPosition(event, anchor, totalDays).Some?
    ensures Served(event, anchor, totalDays)
  {
    assert anchor + totalDays * DAY == (DayOf(anchor) + totalDays) * DAY;
    if !Served(event, anchor, totalDays) {
      NotServed(event, anchor, anchor + totalDays * DAY);
    }
  }
}
