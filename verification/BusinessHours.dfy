/**
 Opening hours on local wall-clock time: the settings' checks on windows, the test whether an instant is
 within hours, and the search for the next opening.

 An instant counts microseconds from a Monday midnight. A window end is None if its text is missing or is
 not a time.
 */
module BusinessHours {
  import opened Common

  const DAY: Time := 86_400 * SECOND

  type TimeOfDay = t: Time | 0 <= t < 86_400_000_000 witness 0

  datatype Window = Window(open: Option<TimeOfDay>, close: Option<TimeOfDay>)

  /** Windows by weekday, 0 for Monday; an absent day and an empty list are the same. */
  type Week = map<int, seq<Window>>

  function WindowsOn(week: Week, day: int): seq<Window> {
    if day % 7 in week then week[day % 7] else []
  }

  // ---------------------------------------------------------------- within hours

  predicate Covers(w: Window, t: Time) {
    w.open.Some? && w.close.Some? && w.open.value <= t < w.close.value
  }

  predicate IsOpen(week: Week, at: Time) {
    exists w | w in WindowsOn(week, at / DAY) :: Covers(w, at % DAY)
  }

  method IsWithinBusinessHours(week: Week, at: Time) returns (within: bool)
    ensures within == IsOpen(week, at)
  {
    var windows := WindowsOn(week, at / DAY);
    for i := 0 to |windows|
      invariant forall j :: 0 <= j < i ==> !Covers(windows[j], at % DAY)
    {
      if windows[i].open.Some? && windows[i].close.Some? {
        if windows[i].open.value <= at % DAY < windows[i].close.value {
          assert windows[i] in windows;
          return true;
        }
      }
    }
    return false;
  }

  // ---------------------------------------------------------------- sorting by opening

  /** Sort key: a window without an opening comes first. */
  function SortKey(w: Window): int {
    if w.open.Some? then w.open.value else -1
  }

  predicate SortedByOpen(windows: seq<Window>) {
    forall i, j :: 0 <= i < j < |windows| ==> SortKey(windows[i]) <= SortKey(windows[j])
  }

  function Insert(w: Window, windows: seq<Window>): (r: seq<Window>)
    requires SortedByOpen(windows)
    ensures SortedByOpen(r) && (forall x :: x in r <==> x == w || x in windows)
  {
    if windows == [] || SortKey(w) <= SortKey(windows[0]) then [w] + windows
    else
      var rest := Insert(w, windows[1..]);
      assert forall x | x in rest :: SortKey(windows[0]) <= SortKey(x) by {
        assert forall x | x in windows[1..] :: x in windows;
      }
      assert forall i :: 0 <= i < |rest| ==> rest[i] in rest;
      [windows[0]] + rest
  }

  /** The stable sort by opening. */
  function ByOpen(windows: seq<Window>): (r: seq<Window>)
    ensures SortedByOpen(r) && (forall x :: x in r <==> x in windows)
  {
    if windows == [] then [] else Insert(windows[0], ByOpen(windows[1..]))
  }

  // ---------------------------------------------------------------- what the settings accept

  /** The windows of one day that contain the time t. */
  function Cover(windows: seq<Window>, t: Time): nat {
    if windows == [] then 0 else Cover(windows[1..], t) + (if Covers(windows[0], t) then 1 else 0)
  }

  predicate CloseAfterOpen(w: Window) {
    w.open.Some? && w.close.Some? && w.open.value < w.close.value
  }

  /** The check on neighbours in the sorted list. */
  predicate NeighboursClear(windows: seq<Window>)
    requires forall w | w in windows :: CloseAfterOpen(w)
  {
    if |windows| < 2 then true
    else
      assert forall w | w in windows[1..] :: w in windows;
      assert CloseAfterOpen(windows[0]) && CloseAfterOpen(windows[1]) by {
        assert windows[0] in windows && windows[1] in windows;
      }
      !(windows[1].open.value < windows[0].close.value) && NeighboursClear(windows[1..])
  }

  predicate AcceptedDay(windows: seq<Window>) {
    (forall w | w in windows :: CloseAfterOpen(w)) && NeighboursClear(ByOpen(windows))
  }

  predicate Accepted(week: Week) {
    forall d | d in week :: AcceptedDay(week[d])
  }

  lemma {:induction false} InsertCover(w: Window, windows: seq<Window>, t: Time)
    requires SortedByOpen(windows)
    ensures Cover(Insert(w, windows), t) == Cover(windows, t) + (if Covers(w, t) then 1 else 0)
  {
    if windows == [] || SortKey(w) <= SortKey(windows[0]) {
      assert ([w] + windows)[1..] == windows;
    } else {
      InsertCover(w, windows[1..], t);
      assert ([windows[0]] + Insert(w, windows[1..]))[1..] == Insert(w, windows[1..]);
    }
  }

  lemma {:induction false} SortingKeepsCover(windows: seq<Window>, t: Time)
    ensures Cover(ByOpen(windows), t) == Cover(windows, t)
  {
    if windows == [] {
    } else {
      SortingKeepsCover(windows[1..], t);
      InsertCover(windows[0], ByOpen(windows[1..]), t);
    }
  }

  lemma {:induction false} CoveredBy(windows: seq<Window>, t: Time)
    ensures Cover(windows, t) > 0 <==> exists w | w in windows :: Covers(w, t)
  {
    if windows == [] {
    } else {
      CoveredBy(windows[1..], t);
      assert forall w :: w in windows <==> w == windows[0] || w in windows[1..];
    }
  }

  lemma ClearOpensLater(windows: seq<Window>, j: nat)
    requires (forall w | w in windows :: CloseAfterOpen(w)) && SortedByOpen(windows) && NeighboursClear(windows)
    requires 0 < j < |windows|
    ensures CloseAfterOpen(windows[0]) && CloseAfterOpen(windows[j])
    ensures windows[0].close.value <= windows[j].open.value
  {
    assert windows[0] in windows && windows[1] in windows && windows[j] in windows;
    if j > 1 {
      assert SortKey(windows[1]) <= SortKey(windows[j]);
    }
  }

  lemma {:induction false} ClearMeansAtMostOne(windows: seq<Window>, t: Time)
    requires (forall w | w in windows :: CloseAfterOpen(w)) && SortedByOpen(windows) && NeighboursClear(windows)
    ensures Cover(windows, t) <= 1
  {
    if windows == [] {
    } else {
      var rest := windows[1..];
      assert forall w | w in rest :: w in windows;
      ClearMeansAtMostOne(rest, t);
      if Covers(windows[0], t) {
        forall j | 0 <= j < |rest|
          ensures !Covers(rest[j], t)
        {
          ClearOpensLater(windows, j + 1);
        }
        CoveredBy(rest, t);
      }
    }
  }

  lemma {:induction false} OverlapCoversTwice(windows: seq<Window>) returns (t: Time)
    requires (forall w | w in windows :: CloseAfterOpen(w)) && SortedByOpen(windows) && !NeighboursClear(windows)
    ensures Cover(windows, t) >= 2
  {
    var rest := windows[1..];
    assert windows[0] in windows && windows[1] in windows;
    if windows[1].open.value < windows[0].close.value {
      t := windows[1].open.value;
      assert SortKey(windows[0]) <= SortKey(windows[1]);
      assert Covers(rest[0], t);
    } else {
      assert forall w | w in rest :: w in windows;
      t := OverlapCoversTwice(rest);
    }
  }

  /** The settings' check on sorted neighbours holds exactly if no instant lies in two windows of the day. */
  lemma NeighbourCheckIsDisjointness(windows: seq<Window>)
    requires forall w | w in windows :: CloseAfterOpen(w)
    ensures AcceptedDay(windows) <==> forall t :: Cover(windows, t) <= 1
  {
    var sorted := ByOpen(windows);
    if AcceptedDay(windows) {
      forall t
        ensures Cover(windows, t) <= 1
      {
        ClearMeansAtMostOne(sorted, t);
        SortingKeepsCover(windows, t);
      }
    } else {
      var t := OverlapCoversTwice(sorted);
      SortingKeepsCover(windows, t);
    }
  }

  // ---------------------------------------------------------------- the next opening

  predicate IsOpening(week: Week, t: Time) {
    exists w | w in WindowsOn(week, t / DAY) :: w.open == Some(t % DAY)
  }

  /** The first opening after `at`, if there is any on any later day. */
  ghost predicate IsNextOpening(week: Week, at: Time, r: Option<Time>) {
    match r
    case Some(next) => IsOpening(week, next) && next > at && (forall t | at < t < next :: !IsOpening(week, t))
    case None => forall t | t > at :: !IsOpening(week, t)
  }

  /** The instant at a time of a day, and back. */
  lemma Instant(day: int, t: TimeOfDay)
    ensures (day * DAY + t) / DAY == day && (day * DAY + t) % DAY == t
  {
  }

  lemma Split(at: Time)
    ensures at == (at / DAY) * DAY + at % DAY && 0 <= at % DAY < DAY
  {
  }

  lemma LaterDay(a: Time, b: Time)
    ensures a < b ==> a / DAY <= b / DAY
    ensures a / DAY < b / DAY ==> a < b
  {
    Split(a);
    Split(b);
  }

  /** Days without an opening after `at`, up to the day before `day`. */
  ghost predicate SearchedTo(week: Week, at: Time, day: int) {
    forall t | t > at && t / DAY < day :: !IsOpening(week, t)
  }

  /** Eight days are enough: the weekday of any opening recurs after `at` among them. */
  lemma EightDaysSuffice(week: Week, at: Time)
    requires SearchedTo(week, at, at / DAY + 8)
    ensures IsNextOpening(week, at, None)
  {
    forall t | t > at
      ensures !IsOpening(week, t)
    {
      if IsOpening(week, t) && t / DAY >= at / DAY + 8 {
        var offset := (t / DAY - at / DAY - 1) % 7 + 1;
        var day := at / DAY + offset;
        assert day % 7 == (t / DAY) % 7;
        Split(t);
        Split(at);
        Instant(day, t % DAY);
        var early := day * DAY + t % DAY;
        assert early > at by { LaterDay(at, early); }
        assert IsOpening(week, early);
      }
    }
  }

  method NextBusinessOpening(week: Week, at: Time) returns (r: Option<Time>)
    ensures IsNextOpening(week, at, r)
  {
    forall t | t > at
      ensures t / DAY >= at / DAY
    {
      LaterDay(at, t);
    }
    for offset := 0 to 8
      invariant SearchedTo(week, at, at / DAY + offset)
    {
      r := OpeningOnDay(week, at, at / DAY + offset);
      if r.Some? {
        return r;
      }
    }
    EightDaysSuffice(week, at);
    return None;
  }

  /** One day of the search: the first window, by opening, that opens after `at`. */
  method OpeningOnDay(week: Week, at: Time, day: int) returns (r: Option<Time>)
    requires SearchedTo(week, at, day)
    ensures r.Some? ==> IsNextOpening(week, at, r)
    ensures r.None? ==> SearchedTo(week, at, day + 1)
  {
    var windows := ByOpen(WindowsOn(week, day));
    for i := 0 to |windows|
      invariant forall j :: 0 <= j < i && windows[j].open.Some? ==> day * DAY + windows[j].open.value <= at
    {
      if windows[i].open.Some? {
        var candidate := day * DAY + windows[i].open.value;
        if candidate > at {
          FirstOfTheDay(week, at, day, windows, i);
          return Some(candidate);
        }
      }
    }
    NoneOnTheDay(week, at, day, windows);
    return None;
  }

  lemma NotAnOpening(week: Week, t: Time, windows: seq<Window>)
    requires windows == ByOpen(WindowsOn(week, t / DAY))
    requires forall j :: 0 <= j < |windows| ==> windows[j].open != Some(t % DAY)
    ensures !IsOpening(week, t)
  {
    assert forall w | w in WindowsOn(week, t / DAY) :: w in windows;
  }

  lemma FirstOfTheDay(week: Week, at: Time, day: int, windows: seq<Window>, i: nat)
    requires SearchedTo(week, at, day) && windows == ByOpen(WindowsOn(week, day)) && i < |windows|
    requires windows[i].open.Some? && day * DAY + windows[i].open.value > at
    requires forall j :: 0 <= j < i && windows[j].open.Some? ==> day * DAY + windows[j].open.value <= at
    ensures IsNextOpening(week, at, Some(day * DAY + windows[i].open.value))
  {
    var next := day * DAY + windows[i].open.value;
    Instant(day, windows[i].open.value);
    assert windows[i] in windows;
    forall t | at < t < next
      ensures !IsOpening(week, t)
    {
      LaterDay(t, next);
      Split(t);
      if t / DAY == day {
        forall j | 0 <= j < |windows|
          ensures windows[j].open != Some(t % DAY)
        {
          assert j > i ==> SortKey(windows[i]) <= SortKey(windows[j]);
        }
        NotAnOpening(week, t, windows);
      }
    }
  }

  lemma NoneOnTheDay(week: Week, at: Time, day: int, windows: seq<Window>)
    requires SearchedTo(week, at, day) && windows == ByOpen(WindowsOn(week, day))
    requires forall j :: 0 <= j < |windows| && windows[j].open.Some? ==> day * DAY + windows[j].open.value <= at
    ensures SearchedTo(week, at, day + 1)
  {
    forall t | t > at && t / DAY < day + 1
      ensures !IsOpening(week, t)
    {
      if t / DAY == day {
        Split(t);
        NotAnOpening(week, t, windows);
      }
    }
  }

  // ---------------------------------------------------------------- the next opening is the first open instant

  /** What the first check of the settings gives: a window that opens also closes, later on the same day. */
  predicate Sound(week: Week) {
    forall d | d in week :: forall w | w in week[d] :: w.open.Some? ==> CloseAfterOpen(w)
  }

  lemma AcceptedIsSound(week: Week)
    requires Accepted(week)
    ensures Sound(week)
  {
    forall d, w | d in week && w in week[d]
      ensures CloseAfterOpen(w)
    {
      assert AcceptedDay(week[d]);
    }
  }

  predicate CoveredIn(windows: seq<Window>, t: Time) {
    exists w | w in windows :: Covers(w, t)
  }

  /** On every weekday, each window that opens does so inside some window of the day: itself, if it closes later. */
  predicate OpeningsCovered(week: Week) {
    forall d | d in week && 0 <= d < 7 :: forall w | w in week[d] && w.open.Some? :: CoveredIn(week[d], w.open.value)
  }

  lemma SoundIsCovered(week: Week)
    requires Sound(week)
    ensures OpeningsCovered(week)
  {
    forall d, w | d in week && w in week[d] && w.open.Some?
      ensures CoveredIn(week[d], w.open.value)
    {
      assert Covers(w, w.open.value);
    }
  }

  lemma OpeningsAreOpen(week: Week, t: Time)
    requires OpeningsCovered(week) && IsOpening(week, t)
    ensures IsOpen(week, t)
  {
    var w :| w in WindowsOn(week, t / DAY) && w.open == Some(t % DAY);
    assert CoveredIn(WindowsOn(week, t / DAY), t % DAY);
  }

  /** An open instant after a closed one has an opening in between, or is one. */
  lemma OpenAfterAnOpening(week: Week, at: Time, t: Time) returns (opening: Time)
    requires !IsOpen(week, at) && t >= at && IsOpen(week, t)
    ensures at < opening <= t && IsOpening(week, opening)
  {
    var day := t / DAY;
    var w :| w in WindowsOn(week, day) && Covers(w, t % DAY);
    opening := day * DAY + w.open.value;
    Instant(day, w.open.value);
    Split(t);
    assert IsOpening(week, opening);
    if opening <= at {
      OpenSince(week, w, at, t);
    }
  }

  lemma OpenSince(week: Week, w: Window, at: Time, t: Time)
    requires w in WindowsOn(week, t / DAY) && Covers(w, t % DAY)
    requires t / DAY * DAY + w.open.value <= at <= t
    ensures IsOpen(week, at)
  {
    Instant(t / DAY, w.open.value);
    LaterDay(at, t);
    LaterDay(t / DAY * DAY + w.open.value, at);
    Split(at);
    Split(t);
    assert Covers(w, at % DAY);
  }

  /**
   From a closed instant, no instant before the answer is within hours, and with no answer none ever is; for
   every week of accepted settings the answer is within hours, so it is the first open instant.
   */
  lemma NextOpeningIsFirstOpenInstant(week: Week, at: Time, r: Option<Time>)
    requires !IsOpen(week, at) && IsNextOpening(week, at, r)
    ensures r.Some? ==> forall t | at <= t < r.value :: !IsOpen(week, t)
    ensures r.None? ==> forall t | t >= at :: !IsOpen(week, t)
    ensures r.Some? && (Accepted(week) || OpeningsCovered(week)) ==> IsOpen(week, r.value)
  {
    if Accepted(week) {
      AcceptedIsSound(week);
      SoundIsCovered(week);
    }
    if r.Some? && OpeningsCovered(week) { OpeningsAreOpen(week, r.value); }
    forall t | t >= at && (r.Some? ==> t < r.value)
      ensures !IsOpen(week, t)
    {
      if IsOpen(week, t) {
        var opening := OpenAfterAnOpening(week, at, t);
      }
    }
  }

  predicate HasOpening(week: Week) {
    exists d, w | 0 <= d < 7 && d in week && w in week[d] :: w.open.Some?
  }

  lemma OpeningInDay(week: Week, d: int, w: Window, at: Time) returns (t: Time)
    requires 0 <= d < 7 && d in week && w in week[d] && w.open.Some?
    ensures t > at && IsOpening(week, t)
  {
    var day := at / DAY + 1 + (d - at / DAY - 1) % 7;
    assert day % 7 == d;
    t := day * DAY + w.open.value;
    Instant(day, w.open.value);
    LaterDay(at, t);
  }

  /** There is no next opening exactly if no weekday has a window that opens. */
  lemma NoneExactlyWithoutWindows(week: Week, at: Time, r: Option<Time>)
    requires IsNextOpening(week, at, r)
    ensures r.None? <==> !HasOpening(week)
  {
    if HasOpening(week) {
      var d, w :| 0 <= d < 7 && d in week && w in week[d] && w.open.Some?;
      var t := OpeningInDay(week, d, w, at);
    } else if r.Some? {
      OpeningNeedsWindow(week, r.value);
    }
  }

  lemma OpeningNeedsWindow(week: Week, t: Time)
    requires IsOpening(week, t)
    ensures HasOpening(week)
  {
    var w :| w in WindowsOn(week, t / DAY) && w.open == Some(t % DAY);
    assert (t / DAY) % 7 in week;
  }

  /** The declarative answer is unique, so it is what the search returns. */
  lemma NextOpeningIsUnique(week: Week, at: Time, a: Option<Time>, b: Option<Time>)
    requires IsNextOpening(week, at, a) && IsNextOpening(week, at, b)
    ensures a == b
  {
  }

  /**
   The search asks only for an opening, the test also for a closing. The answers for a week are all within
   hours exactly if on every weekday each opening lies in some window of the day.
   */
  lemma AnswersAreOpenExactlyIfCovered(week: Week)
    ensures (forall at, r | IsNextOpening(week, at, Some(r)) :: IsOpen(week, r)) <==> OpeningsCovered(week)
  {
    if OpeningsCovered(week) {
      forall at, r | IsNextOpening(week, at, Some(r))
        ensures IsOpen(week, r)
      {
        OpeningsAreOpen(week, r);
      }
    }
    if forall at, r | IsNextOpening(week, at, Some(r)) :: IsOpen(week, r) {
      forall d, w | d in week && 0 <= d < 7 && w in week[d] && w.open.Some?
        ensures CoveredIn(week[d], w.open.value)
      {
        var t := d * DAY + w.open.value;
        Instant(d, w.open.value);
        assert IsOpening(week, t);
        assert IsNextOpening(week, t - 1, Some(t));
      }
    }
  }

  /** A Monday window with an opening and no closing: told to wait for an instant at which nothing is open. */
  lemma OpeningWithoutClosing() returns (week: Week, at: Time, r: Time)
    ensures IsNextOpening(week, at, Some(r)) && !IsOpen(week, at) && !IsOpen(week, r) && !OpeningsCovered(week)
  {
    week := map[0 := [Window(Some(0), None)]];
    at, r := -1, 0;
    assert week[0][0] in week[0];
    assert 0 in week && WindowsOn(week, 0) == week[0];
    assert IsOpening(week, 0);
  }
}
