/** Personal records of the history panel (HistorySection.tsx:19-51, 114):
    the best reaction time overall and within today, this week, this month
    and this year. Dates arrive already split into their calendar fields
    and their millisecond timestamp; parsing and locale formatting are not
    modelled. */
module History {
  import opened Options

  /** A parsed date: `getFullYear()`, `getMonth()`, `getDate()` and
      `getTime()`. */
  datatype Date = Date(year: int, month: int, day: int, time: int)

  datatype HistoryItem = HistoryItem(id: int, date: Date, reactionTime: real, tier: string)

  predicate IsSameDay(d1: Date, d2: Date)
  {
    d1.day == d2.day && d1.month == d2.month && d1.year == d2.year
  }

  predicate IsSameMonth(d1: Date, d2: Date)
  {
    d1.month == d2.month && d1.year == d2.year
  }

  predicate IsSameYear(d1: Date, d2: Date)
  {
    d1.year == d2.year
  }

  const OneDay: int := 24 * 60 * 60 * 1000

  function Abs(x: int): nat { if x < 0 then -x else x }

  /** `Math.round` on a non-negative argument: halves round up. */
  function Round(x: real): int
  {
    (x + 0.5).Floor
  }

  /** `Math.round(Math.abs((t1 - t2) / oneDay)) < 7`. */
  predicate IsSameWeek(d1: Date, d2: Date)
  {
    Round((Abs(d1.time - d2.time) as real) / (OneDay as real)) < 7
  }

  /** Rounding makes the week window six and a half days wide on either
      side: the dates are within 6.5 days of each other. */
  lemma SameWeekIff(d1: Date, d2: Date)
    ensures IsSameWeek(d1, d2) <==> 2 * Abs(d1.time - d2.time) < 13 * OneDay
  {
    var q := (Abs(d1.time - d2.time) as real) / (OneDay as real);
    assert Round(q) < 7 <==> q + 0.5 < 7.0;
    assert q * (OneDay as real) == Abs(d1.time - d2.time) as real;
  }

  lemma SameWeekSymmetric(d1: Date, d2: Date)
    ensures IsSameWeek(d1, d2) <==> IsSameWeek(d2, d1)
  {
    assert Abs(d1.time - d2.time) == Abs(d2.time - d1.time);
  }

  lemma SameDayNested(d1: Date, d2: Date)
    ensures IsSameDay(d1, d2) ==> IsSameMonth(d1, d2)
    ensures IsSameMonth(d1, d2) ==> IsSameYear(d1, d2)
  {
  }

  /** The reducer of `getBest`: keeps `prev` only when strictly faster. */
  function Pick(prev: HistoryItem, curr: HistoryItem): HistoryItem
  {
    if prev.reactionTime < curr.reactionTime then prev else curr
  }

  /** Item k is the last one with the minimum reaction time. */
  ghost predicate LastMinimum(items: seq<HistoryItem>, k: nat)
  {
    k < |items| &&
    (forall j :: 0 <= j < |items| ==> items[k].reactionTime <= items[j].reactionTime) &&
    (forall j :: k < j < |items| ==> items[k].reactionTime < items[j].reactionTime)
  }

  /** `items.reduce(Pick)` over a non-empty list: an item no other item
      beats. */
  function Fastest(items: seq<HistoryItem>): (best: HistoryItem)
    requires |items| > 0
    ensures best in items
    ensures forall j :: 0 <= j < |items| ==> best.reactionTime <= items[j].reactionTime
  {
    if |items| == 1 then items[0]
    else Pick(Fastest(items[..|items| - 1]), items[|items| - 1])
  }

  /** Ties go to the later entry: the reducer keeps the earlier record only
      when it is strictly faster, so the result is the last item attaining
      the minimum. */
  lemma {:induction false} FastestIsLastMinimum(items: seq<HistoryItem>, k: nat)
    requires LastMinimum(items, k)
    ensures Fastest(items) == items[k]
  {
    var last := |items| - 1;
    if last > 0 {
      var init := items[..last];
      var m := items[k].reactionTime;
      if k < last {
        forall j | 0 <= j < |init|
          ensures init[k].reactionTime <= init[j].reactionTime
          ensures k < j ==> init[k].reactionTime < init[j].reactionTime
        {
          assert init[j] == items[j];
        }
        assert LastMinimum(init, k);
        FastestIsLastMinimum(init, k);
        assert m < items[last].reactionTime;
      } else {
        var f := Fastest(init);
        var j :| 0 <= j < |init| && init[j] == f;
        assert items[j] == f;
      }
    }
  }

  /** `getBest`: null exactly for an empty list. */
  function GetBest(items: seq<HistoryItem>): (r: Option<HistoryItem>)
    ensures r.None? <==> |items| == 0
    ensures r.Some? ==> r.value in items
    ensures r.Some? ==> forall x :: x in items ==> r.value.reactionTime <= x.reactionTime
  {
    if |items| == 0 then None else Some(Fastest(items))
  }

  datatype Period = Day | Week | Month | Year

  predicate InPeriod(period: Period, d: Date, now: Date)
  {
    match period
    case Day => IsSameDay(d, now)
    case Week => IsSameWeek(d, now)
    case Month => IsSameMonth(d, now)
    case Year => IsSameYear(d, now)
  }

  /** `parsedHistory.filter(h => isSame...(h.dateObj, now))`. */
  function Window(history: seq<HistoryItem>, period: Period, now: Date): (w: seq<HistoryItem>)
    ensures forall x :: x in w <==> x in history && InPeriod(period, x.date, now)
  {
    if history == [] then []
    else
      var rest := Window(history[1..], period, now);
      assert forall x :: x in history <==> x == history[0] || x in history[1..];
      if InPeriod(period, history[0].date, now) then [history[0]] + rest else rest
  }

  datatype Stats = Stats(
    day: Option<HistoryItem>,
    week: Option<HistoryItem>,
    month: Option<HistoryItem>,
    year: Option<HistoryItem>,
    allTime: Option<HistoryItem>)

  /** The `stats` memo of HistorySection.tsx:19-51. */
  function ComputeStats(history: seq<HistoryItem>, now: Date): (s: Stats)
    ensures s.allTime.None? <==> history == []
    ensures s.day.Some? ==> s.day.value in history && IsSameDay(s.day.value.date, now)
    ensures s.week.Some? ==> s.week.value in history && IsSameWeek(s.week.value.date, now)
    ensures s.month.Some? ==> s.month.value in history && IsSameMonth(s.month.value.date, now)
    ensures s.year.Some? ==> s.year.value in history && IsSameYear(s.year.value.date, now)
  {
    Stats(GetBest(Window(history, Day, now)),
          GetBest(Window(history, Week, now)),
          GetBest(Window(history, Month, now)),
          GetBest(Window(history, Year, now)),
          GetBest(history))
  }

  /** Every window is a filter of the whole history, so a window's best is
      never faster than the all-time best; and since the day, month and
      year windows are nested, neither are their bests in that order. */
  lemma RecordsOrdered(history: seq<HistoryItem>, now: Date)
    ensures var s := ComputeStats(history, now);
            (s.day.Some? || s.week.Some? || s.month.Some? || s.year.Some? ==> s.allTime.Some?) &&
            (s.day.Some? ==> s.month.Some? && s.month.value.reactionTime <= s.day.value.reactionTime) &&
            (s.month.Some? ==> s.year.Some? && s.year.value.reactionTime <= s.month.value.reactionTime) &&
            (s.year.Some? ==> s.allTime.value.reactionTime <= s.year.value.reactionTime) &&
            (s.week.Some? ==> s.allTime.value.reactionTime <= s.week.value.reactionTime)
  {
    var s := ComputeStats(history, now);
    if s.day.Some? {
      SameDayNested(s.day.value.date, now);
    }
    if s.month.Some? {
      SameDayNested(s.month.value.date, now);
    }
  }

  /** `[...history].reverse()`: a reversed copy for the recent-activity list. */
  function Reversed(history: seq<HistoryItem>): (r: seq<HistoryItem>)
    ensures |r| == |history|
    ensures forall i :: 0 <= i < |history| ==> r[i] == history[|history| - 1 - i]
  {
    if history == [] then [] else Reversed(history[1..]) + [history[0]]
  }
}
