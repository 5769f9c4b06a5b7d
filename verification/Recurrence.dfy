/**
 * The occurrence arithmetic of `tasks/recurrence.py`, against a reading of the calendar.
 *
 * `IsOccurrence` never counts periods: it looks at one date and asks whether it lies on an aligned
 * day, week, month or year and on a wanted day within it.  Each routine of the source, with its own
 * loop or closed form, is proved to find the least or greatest such date.
 */
module Recurrence {
  import opened Options
  import opened Calendar
  import opened Alignment

  type Weekdays = w: int | 0 <= w <= 6
  type DayNumber = d: int | 1 <= d <= 31 witness 1
  type MonthOfYear = m: int | 1 <= m <= 12 witness 1

  datatype Frequency = Daily | Weekly | Monthly | Yearly

  /** The rule fields of a `TaskTemplate`, in the ranges its serializer admits. */
  datatype Rule = Rule(
    frequency: Frequency,
    interval: nat,
    dayOfMonth: Option<DayNumber>,
    weekdays: seq<Weekdays>,
    monthOfYear: Option<MonthOfYear>,
    startOn: int,
    endOn: Option<int>)
  {
    function N(): (n: int)
      ensures n >= 1
      ensures n == interval || (interval == 0 && n == 1)
    {
      if interval > 1 then interval else 1
    }

    /** `_weekdays`: the configured days sorted without repetition, else the anchor's weekday. */
    function WeekdaySet(): (ws: seq<int>)
      ensures |ws| > 0 && Increasing(ws)
      ensures forall w :: w in ws <==> if weekdays == [] then w == Weekday(startOn) else w in weekdays
    {
      if weekdays == [] then [Weekday(startOn)]
      else assert weekdays[0] in weekdays; SortedFrom(weekdays, 0)
    }

    function WantedDay(): (d: int)
      ensures 1 <= d
      ensures dayOfMonth in {Some(d), None} && (dayOfMonth.None? ==> d == Day(startOn))
    {
      if dayOfMonth.Some? then dayOfMonth.value else Day(startOn)
    }

    function WantedMonth(): (m: int)
      ensures 1 <= m <= 12
      ensures monthOfYear in {Some(m), None} && (monthOfYear.None? ==> m == Month(startOn))
    {
      if monthOfYear.Some? then monthOfYear.value else Month(startOn)
    }

    predicate Within(date: int) {
      endOn.None? || date <= endOn.value
    }
  }

  predicate Increasing(s: seq<int>) {
    forall i, j :: 0 <= i < j < |s| ==> s[i] < s[j]
  }

  function SortedFrom(ws: seq<Weekdays>, from: int): (s: seq<int>)
    requires 0 <= from <= 7
    ensures Increasing(s)
    ensures forall w :: w in s <==> from <= w && w in ws
    ensures (exists w :: w in ws && from <= w) ==> |s| > 0
    decreases 7 - from
  {
    if from == 7 then []
    else if from in ws then
      var rest := SortedFrom(ws, from + 1);
      assert forall k :: 0 <= k < |rest| ==> rest[k] in rest;
      [from] + rest
    else SortedFrom(ws, from + 1)
  }

  // ------------------------------------------------------------------ the occurrence set

  /** Which aligned unit a date lies in: its day, week, month or year, counted from the anchor's. */
  function Unit(rule: Rule, date: int): int {
    match rule.frequency
    case Daily => date - rule.startOn
    case Weekly => (Monday(date) - Monday(rule.startOn)) / 7
    case Monthly => MonthOf(date) - MonthOf(rule.startOn)
    case Yearly => Year(date) - Year(rule.startOn)
  }

  /** Whether a date is a wanted day of its unit. */
  predicate Wanted(rule: Rule, date: int) {
    match rule.frequency
    case Daily => true
    case Weekly => Weekday(date) in rule.WeekdaySet()
    case Monthly => date == ClampDay(MonthOf(date), rule.WantedDay())
    case Yearly => Month(date) == rule.WantedMonth() && date == ClampDay(MonthOf(date), rule.WantedDay())
  }

  predicate IsOccurrence(rule: Rule, date: int) {
    date >= rule.startOn && Unit(rule, date) % rule.N() == 0 && Wanted(rule, date)
  }


  /** `r` is the least occurrence from `target` on within the window, or `None` if the window has none. */
  ghost predicate IsNextFrom(rule: Rule, target: int, r: Option<int>) {
    match r
    case Some(d) =>
      && IsOccurrence(rule, d) && target <= d && (rule.endOn.None? || d <= rule.endOn.value)
      && forall e :: IsOccurrence(rule, e) && target <= e ==> d <= e
    case None => forall e :: IsOccurrence(rule, e) && target <= e ==> rule.endOn.Some? && rule.endOn.value < e
  }

  /** `r` is the greatest occurrence up to `cutoff`, or `None` if there is none; `endOn` plays no part. */
  ghost predicate IsLatest(rule: Rule, cutoff: int, r: Option<int>) {
    match r
    case Some(d) =>
      && IsOccurrence(rule, d) && d <= cutoff
      && forall e :: IsOccurrence(rule, e) && e <= cutoff ==> e <= d
    case None => forall e :: IsOccurrence(rule, e) ==> cutoff < e
  }

  /**
   * What an occurrence is, from the rule's own fields: a day from `start_on` on that lies a whole number
   * of intervals after it, in days, weeks from Monday on, months or years, and is a wanted one.
   */
  lemma OccurrenceMeans(rule: Rule, d: int)
    ensures var n: int := if rule.interval == 0 then 1 else rule.interval;
      var a, month := rule.startOn, MonthNumber(Year(d), Month(d));
      var day: int := if rule.dayOfMonth.Some? then rule.dayOfMonth.value else Day(a);
      var clamped := Day(d) == if day <= MonthLength(month) then day else MonthLength(month);
      IsOccurrence(rule, d) <==> d >= a && match rule.frequency
        case Daily => (d - a) % n == 0
        case Weekly =>
          && (((d - Weekday(d)) - (a - Weekday(a))) / 7) % n == 0
          && (if rule.weekdays == [] then Weekday(d) == Weekday(a) else Weekday(d) in rule.weekdays)
        case Monthly => (month - MonthNumber(Year(a), Month(a))) % n == 0 && clamped
        case Yearly =>
          && (Year(d) - Year(a)) % n == 0 && clamped
          && Month(d) == if rule.monthOfYear.Some? then rule.monthOfYear.value else Month(a)
  {
    hide MonthStart, MonthOf, Day, Weekday, MonthLength, ClampDay, Monday;
    hide Rule.WantedDay, Rule.WantedMonth, Rule.WeekdaySet;
    YearMonth(MonthOf(d));
    YearMonth(MonthOf(rule.startOn));
    SameDay(MonthOf(d), d, rule.WantedDay());
    MondayMeans(d);
    MondayMeans(rule.startOn);
  }

  lemma MondayMeans(d: int)
    ensures Monday(d) == d - Weekday(d)
  {
  }

  /** A date is the clamped one of its month exactly when its day is. */
  lemma SameDay(month: int, d: int, day: int)
    requires MonthOf(d) == month && day >= 1
    ensures d == ClampDay(month, day) <==> Day(d) == if day <= MonthLength(month) then day else MonthLength(month)
  {
    hide MonthStart, MonthOf, MonthLength, Day;
    PartsDetermineDate(d);
    PartsDetermineDate(ClampDay(month, day));
  }

  // ------------------------------------------------------------------ one unit at a time

  lemma UnitMonotone(rule: Rule, d: int, e: int)
    requires d <= e
    ensures Unit(rule, d) <= Unit(rule, e)
  {
    hide MonthStart, MonthOf;
    MonthOfMonotone(d, e);
  }

  lemma UnitOfAnchor(rule: Rule)
    ensures Unit(rule, rule.startOn) == 0
  {
  }

  /** Occurrences past an aligned unit are at least one interval past it. */
  lemma NextUnit(rule: Rule, unit: int, e: int)
    requires unit % rule.N() == 0 && IsOccurrence(rule, e) && unit < Unit(rule, e)
    ensures unit + rule.N() <= Unit(rule, e)
  {
    Apart(unit, Unit(rule, e), rule.N());
  }

  /** The one wanted date of a unit, for every frequency but the weekly one. */
  function Candidate(rule: Rule, unit: int): (date: int)
    requires !rule.frequency.Weekly?
    ensures Unit(rule, date) == unit && Wanted(rule, date)
  {
    hide MonthStart, MonthOf, Day;
    match rule.frequency
    case Daily => rule.startOn + unit
    case Monthly => ClampDay(MonthOf(rule.startOn) + unit, rule.WantedDay())
    case Yearly =>
      var month := MonthNumber(Year(rule.startOn) + unit, rule.WantedMonth());
      assert month / 12 == Year(rule.startOn) + unit && month % 12 + 1 == rule.WantedMonth();
      ClampDay(month, rule.WantedDay())
  }

  lemma OnlyCandidate(rule: Rule, e: int)
    requires !rule.frequency.Weekly? && Wanted(rule, e)
    ensures e == Candidate(rule, Unit(rule, e))
  {
    hide MonthStart, MonthOf, Day, ClampDay;
    YearMonth(MonthOf(e));
  }

  lemma CandidateOrder(rule: Rule, unit: int, e: int)
    requires !rule.frequency.Weekly? && Wanted(rule, e)
    ensures unit < Unit(rule, e) ==> Candidate(rule, unit) < e
    ensures Unit(rule, e) < unit ==> e < Candidate(rule, unit)
    ensures Unit(rule, e) == unit ==> e == Candidate(rule, unit)
  {
    hide MonthStart, MonthOf, Day, ClampDay, Wanted;
    OnlyCandidate(rule, e);
    if e <= Candidate(rule, unit) {
      UnitMonotone(rule, e, Candidate(rule, unit));
    } else {
      UnitMonotone(rule, Candidate(rule, unit), e);
    }
  }

  /** A candidate of a unit past the anchor's own lies after the anchor. */
  lemma CandidatePastAnchor(rule: Rule, unit: int)
    requires !rule.frequency.Weekly?
    ensures 0 < unit ==> rule.startOn < Candidate(rule, unit)
  {
    hide MonthStart, MonthOf, Day, ClampDay, Wanted, Unit;
    UnitOfAnchor(rule);
    if Candidate(rule, unit) <= rule.startOn {
      UnitMonotone(rule, Candidate(rule, unit), rule.startOn);
    }
  }

  /** The dates of the weekday set in the week beginning on `monday`. */
  function WeekDates(monday: int, weekdays: seq<int>): (dates: seq<int>)
    ensures forall d :: d in dates <==> d - monday in weekdays
  {
    if weekdays == [] then []
    else
      assert weekdays == [weekdays[0]] + weekdays[1..];
      [monday + weekdays[0]] + WeekDates(monday, weekdays[1..])
  }

  /** The given dates from `lo` on, and up to `hi` where there is one. */
  function Between(dates: seq<int>, lo: int, hi: Option<int>): (kept: seq<int>)
    ensures forall d :: d in kept <==> d in dates && lo <= d && (hi.None? || d <= hi.value)
    ensures Increasing(dates) ==> Increasing(kept)
  {
    if dates == [] then []
    else
      assert dates == [dates[0]] + dates[1..];
      var rest := Between(dates[1..], lo, hi);
      assert forall i :: 0 <= i < |rest| ==> rest[i] in dates[1..];
      if lo <= dates[0] && (hi.None? || dates[0] <= hi.value) then [dates[0]] + rest else rest
  }

  function Min(dates: seq<int>): (m: int)
    requires dates != []
    ensures m in dates && forall d :: d in dates ==> m <= d
  {
    if |dates| == 1 then dates[0]
    else
      assert dates == [dates[0]] + dates[1..];
      var rest := Min(dates[1..]);
      if dates[0] <= rest then dates[0] else rest
  }

  function Max(dates: seq<int>): (m: int)
    requires dates != []
    ensures m in dates && forall d :: d in dates ==> d <= m
  {
    if |dates| == 1 then dates[0]
    else
      assert dates == [dates[0]] + dates[1..];
      var rest := Max(dates[1..]);
      if dates[0] >= rest then dates[0] else rest
  }

  /** A weekly rule's wanted dates of one unit are exactly its `WeekDates`. */
  lemma WeekOfUnit(rule: Rule, unit: int, d: int)
    requires rule.frequency.Weekly?
    ensures d in WeekDates(Monday(rule.startOn) + 7 * unit, rule.WeekdaySet())
      <==> Unit(rule, d) == unit && Wanted(rule, d)
  {
    hide Rule.WeekdaySet, Weekday, Monday;
    WeekdayRange(rule);
    DayOfWeek(rule.startOn, unit, d);
  }

  /** The days of the week that lies so many weeks after a date's are those with its Monday. */
  lemma DayOfWeek(start: int, weeks: int, d: int)
    ensures var w := d - (Monday(start) + 7 * weeks);
      0 <= w <= 6 <==> (Monday(d) - Monday(start)) / 7 == weeks
    ensures var w := d - (Monday(start) + 7 * weeks);
      0 <= w <= 6 ==> Weekday(d) == w
  {
  }

  lemma WeekdayRange(rule: Rule)
    ensures forall w :: w in rule.WeekdaySet() ==> 0 <= w <= 6
  {
  }

  // ------------------------------------------------------------------ first_occurrence

  method FirstOccurrence(rule: Rule) returns (r: Option<int>, ghost passes: nat)
    ensures IsNextFrom(rule, rule.startOn, r)
    ensures passes <= 2
  {
    hide MonthStart, MonthOf, Day, ClampDay, Unit, Wanted;
    var result: int;
    match rule.frequency {
      case Daily =>
        result, passes := rule.startOn, 0;
        AnchorOfDaily(rule);
      case Weekly => result, passes := FirstWeekly(rule);
      case Monthly => result, passes := FirstMonthly(rule);
      case Yearly => result, passes := FirstYearly(rule);
    }
    r := if rule.endOn.Some? && result > rule.endOn.value then None else Some(result);
  }

  lemma AnchorOfDaily(rule: Rule)
    requires rule.frequency.Daily?
    ensures IsOccurrence(rule, rule.startOn)
  {
  }

  ghost predicate IsFirst(rule: Rule, d: int) {
    IsOccurrence(rule, d) && forall e :: IsOccurrence(rule, e) ==> d <= e
  }

  /** The dates of a unit from the anchor on: the first of them, or none, and then an earlier unit. */
  lemma FirstWeekPass(rule: Rule, unit: int, valid: seq<int>)
    requires rule.frequency.Weekly? && unit % rule.N() == 0
    requires forall e :: IsOccurrence(rule, e) ==> unit <= Unit(rule, e)
    requires valid == Between(WeekDates(Monday(rule.startOn) + 7 * unit, rule.WeekdaySet()), rule.startOn, None)
    ensures valid != [] ==> IsFirst(rule, Min(valid))
    ensures valid == [] ==> unit <= 0 && forall e :: IsOccurrence(rule, e) ==> unit + rule.N() <= Unit(rule, e)
  {
    hide Rule.WeekdaySet, Rule.N, Wanted, Between, WeekDates, Monday, Unit;
    forall d ensures d in valid <==> IsOccurrence(rule, d) && Unit(rule, d) == unit {
      WeekOfUnit(rule, unit, d);
    }
    if unit > 0 { WeekHasDates(rule, unit); }
    forall e | IsOccurrence(rule, e)
      ensures valid != [] ==> Min(valid) <= e
      ensures valid == [] ==> unit + rule.N() <= Unit(rule, e)
    {
      if valid != [] && e < Min(valid) { UnitMonotone(rule, e, Min(valid)); }
      if valid == [] {
        assert e !in valid;
        NextUnit(rule, unit, e);
      }
    }
  }

  /** A week after the anchor's has dates, all after the anchor. */
  lemma WeekHasDates(rule: Rule, unit: int)
    requires rule.frequency.Weekly? && unit > 0
    ensures Between(WeekDates(Monday(rule.startOn) + 7 * unit, rule.WeekdaySet()), rule.startOn, None) != []
  {
    hide Rule.WeekdaySet, Between, WeekDates;
    WeekdayRange(rule);
    var monday := Monday(rule.startOn) + 7 * unit;
    assert rule.WeekdaySet()[0] in rule.WeekdaySet();
    assert monday + rule.WeekdaySet()[0] in WeekDates(monday, rule.WeekdaySet());
    assert monday + rule.WeekdaySet()[0]
      in Between(WeekDates(monday, rule.WeekdaySet()), rule.startOn, None);
  }

  method FirstWeekly(rule: Rule) returns (result: int, ghost passes: nat)
    requires rule.frequency.Weekly?
    ensures IsFirst(rule, result)
    ensures passes <= 2
  {
    OccurrencesFromAnchor(rule);
    hide Rule.WeekdaySet, IsFirst, IsOccurrence, Unit, Between, WeekDates;
    var wds := rule.WeekdaySet();
    var monday := rule.startOn - Weekday(rule.startOn);
    passes := 0;
    ghost var unit := 0;
    while true
      invariant passes <= 1 && unit == passes * rule.N() && unit % rule.N() == 0
      invariant monday == Monday(rule.startOn) + 7 * unit
      invariant forall e :: IsOccurrence(rule, e) ==> unit <= Unit(rule, e)
      decreases 2 - passes
    {
      passes := passes + 1;
      var candidates := WeekDates(monday, wds);
      var valid := Between(candidates, rule.startOn, None);
      FirstWeekPass(rule, unit, valid);
      if valid != [] {
        result := Min(valid);
        return;
      }
      Shift(unit, rule.N());
      monday := monday + rule.N() * 7;
      unit := unit + rule.N();
    }
  }

  /** What one pass over a unit with a single candidate settles. */
  lemma CandidatePass(rule: Rule, unit: int)
    requires !rule.frequency.Weekly? && unit % rule.N() == 0
    requires forall e :: IsOccurrence(rule, e) ==> unit <= Unit(rule, e)
    ensures rule.startOn <= Candidate(rule, unit) ==> IsFirst(rule, Candidate(rule, unit))
    ensures Candidate(rule, unit) < rule.startOn ==>
      unit <= 0 && forall e :: IsOccurrence(rule, e) ==> unit + rule.N() <= Unit(rule, e)
  {
    hide MonthStart, MonthOf, Day, ClampDay, Candidate, Unit, Wanted;
    CandidatePastAnchor(rule, unit);
    forall e | IsOccurrence(rule, e)
      ensures Candidate(rule, unit) <= e
      ensures Candidate(rule, unit) < rule.startOn ==> unit + rule.N() <= Unit(rule, e)
    {
      CandidateOrder(rule, unit, e);
      if unit < Unit(rule, e) { NextUnit(rule, unit, e); }
    }
  }

  lemma OccurrencesFromAnchor(rule: Rule)
    ensures forall e :: IsOccurrence(rule, e) ==> 0 <= Unit(rule, e)
  {
    hide MonthStart, MonthOf, Unit, Wanted;
    UnitOfAnchor(rule);
    forall e | IsOccurrence(rule, e) ensures 0 <= Unit(rule, e) {
      UnitMonotone(rule, rule.startOn, e);
    }
  }

  method FirstMonthly(rule: Rule) returns (result: int, ghost passes: nat)
    requires rule.frequency.Monthly?
    ensures IsFirst(rule, result)
    ensures passes <= 2
  {
    hide MonthStart, MonthOf, Day, ClampDay, IsOccurrence, IsFirst;
    var day := rule.WantedDay();
    var year, month := Year(rule.startOn), Month(rule.startOn);
    YearMonth(MonthOf(rule.startOn));
    OccurrencesFromAnchor(rule);
    passes := 0;
    ghost var unit := 0;
    while true
      invariant passes <= 1 && unit == passes * rule.N() && unit % rule.N() == 0
      invariant MonthNumber(year, month) == MonthOf(rule.startOn) + unit
      invariant forall e :: IsOccurrence(rule, e) ==> unit <= Unit(rule, e)
      decreases 2 - passes
    {
      passes := passes + 1;
      var candidate := ClampDay(MonthNumber(year, month), day);
      CandidatePass(rule, unit);
      if candidate >= rule.startOn {
        return candidate, passes;
      }
      AddMonthsNumber(year, month, rule.N());
      var next := AddMonths(year, month, rule.N());
      year, month := next.0, next.1;
      Shift(unit, rule.N());
      unit := unit + rule.N();
    }
  }

  method FirstYearly(rule: Rule) returns (result: int, ghost passes: nat)
    requires rule.frequency.Yearly?
    ensures IsFirst(rule, result)
    ensures passes <= 2
  {
    hide MonthStart, MonthOf, Day, ClampDay, IsOccurrence, IsFirst;
    var month, day := rule.WantedMonth(), rule.WantedDay();
    var year := Year(rule.startOn);
    OccurrencesFromAnchor(rule);
    passes := 0;
    ghost var unit := 0;
    while true
      invariant passes <= 1 && unit == passes * rule.N() && unit % rule.N() == 0
      invariant year == Year(rule.startOn) + unit
      invariant forall e :: IsOccurrence(rule, e) ==> unit <= Unit(rule, e)
      decreases 2 - passes
    {
      passes := passes + 1;
      var candidate := ClampDay(MonthNumber(year, month), day);
      CandidatePass(rule, unit);
      if candidate >= rule.startOn {
        return candidate, passes;
      }
      Shift(unit, rule.N());
      year := year + rule.N();
      unit := unit + rule.N();
    }
  }

  // ------------------------------------------------------------------ step

  /** The next occurrence after a given one, before `step` applies `end_on`. */
  function NextDate(rule: Rule, occurrence: int): int {
    match rule.frequency
    case Daily => occurrence + rule.N()
    case Weekly =>
      var wds := rule.WeekdaySet();
      var later := Between(wds, Weekday(occurrence) + 1, None);
      if later != [] then occurrence + (later[0] - Weekday(occurrence))
      else occurrence - Weekday(occurrence) + (rule.N() * 7 + wds[0])
    case Monthly =>
      var (year, month) := AddMonths(Year(occurrence), Month(occurrence), rule.N());
      ClampDay(MonthNumber(year, month), rule.WantedDay())
    case Yearly =>
      ClampDay(MonthNumber(Year(occurrence) + rule.N(), rule.WantedMonth()), rule.WantedDay())
  }

  function Step(rule: Rule, occurrence: int): Option<int> {
    var nxt := NextDate(rule, occurrence);
    if rule.endOn.Some? && nxt > rule.endOn.value then None else Some(nxt)
  }

  /** `nxt` is the first occurrence after `d`, window aside. */
  ghost predicate Follows(rule: Rule, d: int, nxt: int) {
    IsOccurrence(rule, nxt) && d < nxt && forall e :: IsOccurrence(rule, e) && d < e ==> nxt <= e
  }

  /** With one candidate per unit, the next occurrence is the candidate one interval on. */
  lemma CandidateFollows(rule: Rule, d: int)
    requires !rule.frequency.Weekly? && IsOccurrence(rule, d)
    ensures Follows(rule, d, Candidate(rule, Unit(rule, d) + rule.N()))
  {
    hide MonthStart, MonthOf, Day, ClampDay, Candidate, Unit, Wanted;
    var unit := Unit(rule, d);
    var nxt := Candidate(rule, unit + rule.N());
    Shift(unit, rule.N());
    OccurrencesFromAnchor(rule);
    CandidatePastAnchor(rule, unit + rule.N());
    CandidateOrder(rule, unit + rule.N(), d);
    forall e | IsOccurrence(rule, e) && d < e ensures nxt <= e {
      UnitMonotone(rule, d, e);
      CandidateOrder(rule, unit, d);
      CandidateOrder(rule, unit, e);
      CandidateOrder(rule, unit + rule.N(), e);
      NextUnit(rule, unit, e);
    }
  }

  lemma WeeklyFollows(rule: Rule, d: int)
    requires rule.frequency.Weekly? && IsOccurrence(rule, d)
    ensures Follows(rule, d, NextDate(rule, d))
  {
    hide IsOccurrence, NextDate;
    WeeklyNext(rule, d);
    forall e | IsOccurrence(rule, e) && d < e ensures NextDate(rule, d) <= e {
      WeeklyGap(rule, d, e);
    }
  }

  /** A date is its week's Monday and its weekday; an occurrence's weekday is wanted and its week aligned. */
  lemma WeekOf(rule: Rule, d: int)
    requires rule.frequency.Weekly?
    ensures d == Monday(rule.startOn) + 7 * Unit(rule, d) + Weekday(d)
    ensures IsOccurrence(rule, d) ==> Weekday(d) in rule.WeekdaySet() && Unit(rule, d) % rule.N() == 0
  {
    hide Rule.WeekdaySet, Rule.N;
  }

  /** The weekday set's first weekday, and whether any comes later in the week. */
  lemma NextDateOf(rule: Rule, d: int)
    requires rule.frequency.Weekly?
    ensures var wds := rule.WeekdaySet();
      var later := Between(wds, Weekday(d) + 1, None);
      && wds != [] && (forall w :: w in wds ==> wds[0] <= w <= 6)
      && (later != [] ==> later[0] in wds && Weekday(d) < later[0] && forall w :: w in later ==> later[0] <= w)
      && NextDate(rule, d) == d - Weekday(d) + if later != [] then later[0] else 7 * rule.N() + wds[0]
  {
    hide Rule.WeekdaySet, Between, Weekday, Rule.N;
    WeekdayRange(rule);
    var wds := rule.WeekdaySet();
    var later := Between(wds, Weekday(d) + 1, None);
    assert later != [] ==> later[0] in later;
  }

  lemma WeeklyNext(rule: Rule, d: int)
    requires rule.frequency.Weekly? && IsOccurrence(rule, d)
    ensures IsOccurrence(rule, NextDate(rule, d)) && d < NextDate(rule, d)
  {
    hide IsOccurrence, Rule.WeekdaySet, Between, Unit, Monday, Weekday, Wanted, WeekDates, Rule.N, NextDate;
    WeekOf(rule, d);
    NextDateOf(rule, d);
    Shift(Unit(rule, d), rule.N());
    var later := Between(rule.WeekdaySet(), Weekday(d) + 1, None);
    var unit := Unit(rule, d) + if later != [] then 0 else rule.N();
    WeekOfUnit(rule, unit, NextDate(rule, d));
    AlignedIsOccurrence(rule, d, NextDate(rule, d));
  }

  lemma AlignedIsOccurrence(rule: Rule, d: int, e: int)
    requires IsOccurrence(rule, d) && d <= e && Wanted(rule, e) && Unit(rule, e) % rule.N() == 0
    ensures IsOccurrence(rule, e)
  {
  }

  lemma WeeklyGap(rule: Rule, d: int, e: int)
    requires rule.frequency.Weekly? && IsOccurrence(rule, d) && IsOccurrence(rule, e) && d < e
    ensures NextDate(rule, d) <= e
  {
    hide IsOccurrence, Rule.WeekdaySet, Between, Unit, Monday, Weekday, Wanted, Rule.N, NextDate;
    WeekOf(rule, d);
    WeekOf(rule, e);
    NextDateOf(rule, d);
    if Unit(rule, d) < Unit(rule, e) {
      NextUnit(rule, Unit(rule, d), e);
    } else {
      UnitMonotone(rule, d, e);
      assert Weekday(e) in Between(rule.WeekdaySet(), Weekday(d) + 1, None);
    }
  }

  lemma NextDateFollows(rule: Rule, d: int)
    requires IsOccurrence(rule, d)
    ensures Follows(rule, d, NextDate(rule, d))
  {
    hide MonthStart, MonthOf, Day, ClampDay, IsOccurrence, Rule.WantedDay, Rule.WantedMonth, Follows, Between;
    if rule.frequency.Weekly? {
      WeeklyFollows(rule, d);
    } else {
      CandidateFollows(rule, d);
      AddMonthsNumber(Year(d), Month(d), rule.N());
      YearMonth(MonthOf(d));
    }
  }

  /** `step` misses no occurrence and never drifts from the rule, after a short month or otherwise. */
  lemma StepIsNext(rule: Rule, occurrence: int)
    requires IsOccurrence(rule, occurrence)
    ensures IsNextFrom(rule, occurrence + 1, Step(rule, occurrence))
  {
    hide IsOccurrence, NextDate;
    NextDateFollows(rule, occurrence);
  }

  // ------------------------------------------------------------------ latest_occurrence_on_or_before

  method LatestOnOrBefore(rule: Rule, cutoff: int) returns (r: Option<int>, ghost passes: nat)
    ensures IsLatest(rule, cutoff, r)
    ensures passes <= 2
  {
    hide MonthStart, MonthOf, Day, ClampDay, Unit, Wanted;
    if cutoff < rule.startOn {
      return None, 0;
    }
    match rule.frequency {
      case Daily =>
        var k := (cutoff - rule.startOn) / rule.N();
        LatestDaily(rule, cutoff, k);
        return Some(rule.startOn + k * rule.N()), 1;
      case Weekly => r, passes := LatestWeekly(rule, cutoff);
      case Monthly => r, passes := LatestMonthly(rule, cutoff);
      case Yearly => r, passes := LatestYearly(rule, cutoff);
    }
  }

  lemma LatestDaily(rule: Rule, cutoff: int, k: int)
    requires rule.frequency.Daily? && rule.startOn <= cutoff && k == (cutoff - rule.startOn) / rule.N()
    ensures IsLatest(rule, cutoff, Some(rule.startOn + k * rule.N()))
  {
    Multiple(k, rule.N());
    Below(cutoff - rule.startOn, rule.N());
    var latest := rule.startOn + k * rule.N();
    if k < 0 { Scale(k, -1, rule.N()); } else { Scale(0, k, rule.N()); }
    forall e | IsOccurrence(rule, e) && e <= cutoff ensures e <= latest {
      if latest < e { Apart(latest - rule.startOn, e - rule.startOn, rule.N()); }
    }
  }

  /** Every occurrence up to the cutoff lies in the unit numbered `k` intervals from the anchor's, or earlier. */
  ghost predicate Bounds(rule: Rule, cutoff: int, k: int) {
    forall e :: IsOccurrence(rule, e) && e <= cutoff ==> Unit(rule, e) <= k * rule.N()
  }

  lemma BoundsAtCutoff(rule: Rule, cutoff: int)
    ensures Bounds(rule, cutoff, Unit(rule, cutoff) / rule.N())
  {
    hide MonthStart, MonthOf, Unit, Wanted;
    var k := Unit(rule, cutoff) / rule.N();
    Multiple(k, rule.N());
    Below(Unit(rule, cutoff), rule.N());
    forall e | IsOccurrence(rule, e) && e <= cutoff ensures Unit(rule, e) <= k * rule.N() {
      UnitMonotone(rule, e, cutoff);
      if k * rule.N() < Unit(rule, e) { Apart(k * rule.N(), Unit(rule, e), rule.N()); }
    }
  }

  /** A unit that holds no occurrence up to the cutoff lowers the bound by one interval. */
  lemma BoundsDown(rule: Rule, cutoff: int, k: int)
    requires Bounds(rule, cutoff, k)
    requires forall e :: IsOccurrence(rule, e) && e <= cutoff ==> Unit(rule, e) != k * rule.N()
    ensures Bounds(rule, cutoff, k - 1)
  {
    hide MonthStart, MonthOf, Unit, Wanted;
    Multiple(k, rule.N());
    assert (k - 1) * rule.N() == k * rule.N() - rule.N();
    forall e | IsOccurrence(rule, e) && e <= cutoff ensures Unit(rule, e) <= (k - 1) * rule.N() {
      Apart(Unit(rule, e), k * rule.N(), rule.N());
    }
  }

  lemma BoundsBelowZero(rule: Rule, cutoff: int, k: int)
    requires Bounds(rule, cutoff, k) && k < 0
    ensures IsLatest(rule, cutoff, None)
  {
    hide MonthStart, MonthOf, Unit, Wanted;
    Scale(k, -1, rule.N());
    OccurrencesFromAnchor(rule);
  }

  /** What one pass of the downward loop over units with one candidate settles. */
  lemma LatestPass(rule: Rule, cutoff: int, k: int)
    requires !rule.frequency.Weekly? && k >= 0 && Bounds(rule, cutoff, k)
    ensures var c := Candidate(rule, k * rule.N());
      if rule.startOn <= c <= cutoff then IsLatest(rule, cutoff, Some(c)) else Bounds(rule, cutoff, k - 1)
    ensures k >= 1 ==> rule.startOn < Candidate(rule, k * rule.N())
    ensures k * rule.N() < Unit(rule, cutoff) ==> Candidate(rule, k * rule.N()) < cutoff
  {
    hide MonthStart, MonthOf, Day, ClampDay, Candidate, Unit, Wanted;
    var unit := k * rule.N();
    var c := Candidate(rule, unit);
    Multiple(k, rule.N());
    if k >= 1 { Scale(1, k, rule.N()); }
    CandidatePastAnchor(rule, unit);
    if cutoff <= c { UnitMonotone(rule, cutoff, c); }
    forall e | IsOccurrence(rule, e) && e <= cutoff
      ensures e <= c
      ensures Unit(rule, e) == unit ==> e == c
    {
      CandidateOrder(rule, unit, e);
    }
    if !(rule.startOn <= c <= cutoff) { BoundsDown(rule, cutoff, k); }
  }

  /** Going down one interval from the cutoff's own unit is going strictly below the cutoff's unit. */
  lemma IntervalDown(rule: Rule, cutoff: int, k: int)
    requires k == Unit(rule, cutoff) / rule.N() && rule.startOn <= cutoff
    ensures 0 <= k && (k - 1) * rule.N() == k * rule.N() - rule.N() < Unit(rule, cutoff)
  {
    hide MonthStart, MonthOf, Unit;
    UnitOfAnchor(rule);
    UnitMonotone(rule, rule.startOn, cutoff);
    Below(Unit(rule, cutoff), rule.N());
    if k < 0 { Scale(k, -1, rule.N()); }
  }

  /** The candidate of the month so many months after the anchor's. */
  method MonthlyCandidate(rule: Rule, months: int) returns (candidate: int)
    requires rule.frequency.Monthly?
    ensures candidate == Candidate(rule, months)
  {
    hide MonthStart, MonthOf, Day, ClampDay, Rule.WantedDay;
    YearMonth(MonthOf(rule.startOn));
    AddMonthsNumber(Year(rule.startOn), Month(rule.startOn), months);
    var (year, month) := AddMonths(Year(rule.startOn), Month(rule.startOn), months);
    candidate := ClampDay(MonthNumber(year, month), rule.WantedDay());
  }

  method LatestMonthly(rule: Rule, cutoff: int) returns (r: Option<int>, ghost passes: nat)
    requires rule.frequency.Monthly? && rule.startOn <= cutoff
    ensures IsLatest(rule, cutoff, r)
    ensures passes <= 2
  {
    hide MonthStart, MonthOf, Day, ClampDay, Rule.WantedDay, IsOccurrence, IsLatest, Bounds, Candidate;
    YearMonth(MonthOf(cutoff));
    YearMonth(MonthOf(rule.startOn));
    var anchorIndex := MonthNumber(Year(rule.startOn), Month(rule.startOn));
    var cutoffIndex := MonthNumber(Year(cutoff), Month(cutoff));
    var k := (cutoffIndex - anchorIndex) / rule.N();
    BoundsAtCutoff(rule, cutoff);
    IntervalDown(rule, cutoff, k);
    passes := 0;
    while k >= 0
      invariant Bounds(rule, cutoff, k)
      invariant passes == 1 ==> k * rule.N() < Unit(rule, cutoff)
      invariant passes == 0 ==> (k - 1) * rule.N() < Unit(rule, cutoff)
      invariant passes <= 2 && (passes == 2 ==> k < 0)
    {
      passes := passes + 1;
      var candidate := MonthlyCandidate(rule, k * rule.N());
      LatestPass(rule, cutoff, k);
      if rule.startOn <= candidate <= cutoff {
        return Some(candidate), passes;
      }
      k := k - 1;
    }
    BoundsBelowZero(rule, cutoff, k);
    r := None;
  }

  method LatestYearly(rule: Rule, cutoff: int) returns (r: Option<int>, ghost passes: nat)
    requires rule.frequency.Yearly? && rule.startOn <= cutoff
    ensures IsLatest(rule, cutoff, r)
    ensures passes <= 2
  {
    hide MonthStart, MonthOf, Day, ClampDay, Rule.WantedDay, Rule.WantedMonth, IsOccurrence, IsLatest, Bounds;
    var month, day := rule.WantedMonth(), rule.WantedDay();
    var k := (Year(cutoff) - Year(rule.startOn)) / rule.N();
    BoundsAtCutoff(rule, cutoff);
    IntervalDown(rule, cutoff, k);
    passes := 0;
    while k >= 0
      invariant Bounds(rule, cutoff, k)
      invariant passes == 1 ==> k * rule.N() < Unit(rule, cutoff)
      invariant passes == 0 ==> (k - 1) * rule.N() < Unit(rule, cutoff)
      invariant passes <= 2 && (passes == 2 ==> k < 0)
    {
      passes := passes + 1;
      var candidate := ClampDay(MonthNumber(Year(rule.startOn) + k * rule.N(), month), day);
      LatestPass(rule, cutoff, k);
      if rule.startOn <= candidate <= cutoff {
        return Some(candidate), passes;
      }
      k := k - 1;
    }
    BoundsBelowZero(rule, cutoff, k);
    r := None;
  }

  /** What one pass of the weekly loop settles. */
  lemma WeeklyPass(rule: Rule, cutoff: int, k: int, valid: seq<int>)
    requires rule.frequency.Weekly? && k >= 0 && Bounds(rule, cutoff, k)
    requires valid == Between(WeekDates(Monday(rule.startOn) + 7 * (k * rule.N()), rule.WeekdaySet()),
        rule.startOn, Some(cutoff))
    ensures if valid != [] then IsLatest(rule, cutoff, Some(Max(valid))) else Bounds(rule, cutoff, k - 1)
    ensures k >= 1 && k * rule.N() < Unit(rule, cutoff) ==> valid != []
  {
    hide Rule.WeekdaySet, Unit, Wanted, Monday, Between, WeekDates, Max;
    var unit := k * rule.N();
    Multiple(k, rule.N());
    forall d ensures d in valid <==> IsOccurrence(rule, d) && d <= cutoff && Unit(rule, d) == unit {
      WeekOfUnit(rule, unit, d);
    }
    if k >= 1 && unit < Unit(rule, cutoff) {
      WeeklyFull(rule, cutoff, k);
      var d := Monday(rule.startOn) + 7 * unit + rule.WeekdaySet()[0];
      assert d in WeekDates(Monday(rule.startOn) + 7 * unit, rule.WeekdaySet());
      assert d in valid;
    }
    if valid != [] {
      forall e | IsOccurrence(rule, e) && e <= cutoff ensures e <= Max(valid) {
        if Max(valid) < e { UnitMonotone(rule, Max(valid), e); }
      }
    } else {
      BoundsDown(rule, cutoff, k);
    }
  }

  lemma WeeklyFull(rule: Rule, cutoff: int, k: int)
    requires rule.frequency.Weekly? && k >= 1 && k * rule.N() < Unit(rule, cutoff)
    ensures rule.startOn <= Monday(rule.startOn) + 7 * (k * rule.N()) + rule.WeekdaySet()[0] <= cutoff
  {
    hide Rule.WeekdaySet;
    WeekdayRange(rule);
    assert rule.WeekdaySet()[0] in rule.WeekdaySet();
    Scale(1, k, rule.N());
    assert Monday(rule.startOn) + 7 * (k * rule.N()) + 7 <= Monday(cutoff);
  }

  method LatestWeekly(rule: Rule, cutoff: int) returns (r: Option<int>, ghost passes: nat)
    requires rule.frequency.Weekly? && rule.startOn <= cutoff
    ensures IsLatest(rule, cutoff, r)
    ensures passes <= 2
  {
    hide Rule.WeekdaySet, IsOccurrence, IsLatest, Bounds;
    var wds := rule.WeekdaySet();
    var m0 := rule.startOn - Weekday(rule.startOn);
    var mc := cutoff - Weekday(cutoff);
    var deltaWeeks := (mc - m0) / 7;
    ghost var k := deltaWeeks / rule.N();
    BoundsAtCutoff(rule, cutoff);
    IntervalDown(rule, cutoff, k);
    var activeMonday := m0 + (deltaWeeks / rule.N()) * rule.N() * 7;
    passes := 0;
    while activeMonday >= m0
      invariant activeMonday == m0 + 7 * (k * rule.N())
      invariant Bounds(rule, cutoff, k)
      invariant passes == 1 ==> k * rule.N() < Unit(rule, cutoff)
      invariant passes == 0 ==> (k - 1) * rule.N() < Unit(rule, cutoff)
      invariant passes <= 2 && (passes == 2 ==> k < 0)
      decreases k
    {
      if k < 0 { Scale(k, -1, rule.N()); }
      passes := passes + 1;
      var valid := Between(WeekDates(activeMonday, wds), rule.startOn, Some(cutoff));
      WeeklyPass(rule, cutoff, k, valid);
      if valid != [] {
        return Some(Max(valid)), passes;
      }
      assert (k - 1) * rule.N() == k * rule.N() - rule.N();
      activeMonday := activeMonday - rule.N() * 7;
      k := k - 1;
    }
    if k >= 0 { Scale(0, k, rule.N()); }
    BoundsBelowZero(rule, cutoff, k);
    r := None;
  }

  // ------------------------------------------------------------------ occurrence_on_or_after

  method OccurrenceOnOrAfter(rule: Rule, target: int) returns (r: Option<int>)
    ensures IsNextFrom(rule, target, r)
  {
    hide IsOccurrence, Step;
    var prev, _ := LatestOnOrBefore(rule, target);
    var result: Option<int>;
    if prev == Some(target) {
      result := Some(target);
    } else if prev.None? {
      var first, _ := FirstOccurrence(rule);
      result := first;
      StartsAtAnchor(rule);
    } else {
      result := Step(rule, prev.value);
      StepIsNext(rule, prev.value);
    }
    r := if result.Some? && rule.endOn.Some? && result.value > rule.endOn.value then None else result;
  }

  lemma StartsAtAnchor(rule: Rule)
    ensures forall e :: IsOccurrence(rule, e) ==> rule.startOn <= e
  {
  }

  /** Inside the window the two searches are adjoint. */
  lemma Adjoint(rule: Rule, x: int, y: int, next: Option<int>, latest: Option<int>)
    requires rule.Within(y)
    requires IsNextFrom(rule, x, next) && IsLatest(rule, y, latest)
    ensures (next.Some? && next.value <= y) <==> (latest.Some? && x <= latest.value)
  {
    hide IsOccurrence;
    if latest.Some? && x <= latest.value { assert rule.Within(latest.value); }
    if next.Some? && next.value <= y { assert IsOccurrence(rule, next.value); }
  }

  // ------------------------------------------------------------------ the whole listing

  /** The greatest occurrence up to the cutoff, found by looking at every date. */
  function LatestOf(rule: Rule, cutoff: int): (r: Option<int>)
    ensures IsLatest(rule, cutoff, r)
    decreases cutoff - rule.startOn
  {
    hide Unit, Wanted;
    if cutoff < rule.startOn then None
    else if IsOccurrence(rule, cutoff) then Some(cutoff)
    else LatestOf(rule, cutoff - 1)
  }

  lemma LatestIsUnique(rule: Rule, cutoff: int, r: Option<int>)
    requires IsLatest(rule, cutoff, r)
    ensures r == LatestOf(rule, cutoff)
  {
    hide IsOccurrence, LatestOf;
    var l := LatestOf(rule, cutoff);
    if l.Some? { assert IsOccurrence(rule, l.value); }
    if r.Some? { assert IsOccurrence(rule, r.value); }
  }

  /** How many occurrences there are before a date. */
  function CountBefore(rule: Rule, date: int): nat
    decreases date - rule.startOn
  {
    if date <= rule.startOn then 0
    else CountBefore(rule, date - 1) + (if IsOccurrence(rule, date - 1) then 1 else 0)
  }

  /** The result of applying `step` to the first occurrence `j` times. */
  function Iterate(rule: Rule, first: Option<int>, j: nat): Option<int> {
    if j == 0 then first
    else match Iterate(rule, first, j - 1)
      case None => None
      case Some(d) => Step(rule, d)
  }

  lemma {:induction false} CountAcross(rule: Rule, d: int, e: int)
    requires d <= e && forall x :: d <= x < e ==> !IsOccurrence(rule, x)
    ensures CountBefore(rule, d) == CountBefore(rule, e)
    decreases e - d
  {
    hide IsOccurrence;
    StartsAtAnchor(rule);
    if d < e { CountAcross(rule, d, e - 1); }
  }

  lemma {:induction false} IterateIsOccurrence(rule: Rule, first: Option<int>, j: nat)
    requires IsNextFrom(rule, rule.startOn, first) && Iterate(rule, first, j).Some?
    ensures var d := Iterate(rule, first, j).value;
      IsOccurrence(rule, d) && rule.Within(d) && CountBefore(rule, d) == j
  {
    hide IsOccurrence, Step;
    StartsAtAnchor(rule);
    var d := Iterate(rule, first, j).value;
    if j == 0 {
      CountAcross(rule, rule.startOn, d);
    } else {
      IterateIsOccurrence(rule, first, j - 1);
      var p := Iterate(rule, first, j - 1).value;
      StepIsNext(rule, p);
      CountAcross(rule, p + 1, d);
    }
  }

  lemma {:induction false} OccurrenceIsIterate(rule: Rule, first: Option<int>, d: int)
    requires IsNextFrom(rule, rule.startOn, first) && IsOccurrence(rule, d) && rule.Within(d)
    ensures Iterate(rule, first, CountBefore(rule, d)) == Some(d)
    decreases d - rule.startOn
  {
    hide IsOccurrence, Step, LatestOf;
    StartsAtAnchor(rule);
    match LatestOf(rule, d - 1)
    case None =>
      CountAcross(rule, rule.startOn, d);
    case Some(p) =>
      OccurrenceIsIterate(rule, first, p);
      CountAcross(rule, p + 1, d);
      StepIsNext(rule, p);
      assert IsOccurrence(rule, d) && p + 1 <= d;
  }

  /**
   * Iterating `step` from the first occurrence lists the occurrences of the window in order: the
   * date at position `j` is the one occurrence with exactly `j` before it.
   */
  lemma Enumeration(rule: Rule, first: Option<int>, j: nat, d: int)
    requires IsNextFrom(rule, rule.startOn, first)
    ensures Iterate(rule, first, j) == Some(d)
      <==> IsOccurrence(rule, d) && rule.Within(d) && CountBefore(rule, d) == j
  {
    hide IsOccurrence, Iterate;
    if Iterate(rule, first, j) == Some(d) { IterateIsOccurrence(rule, first, j); }
    if IsOccurrence(rule, d) && rule.Within(d) { OccurrenceIsIterate(rule, first, d); }
  }

  /** From one occurrence to the next is one interval, in the rule's own unit; within a week it may be less. */
  lemma GapLaw(rule: Rule, d: int, e: int)
    requires IsOccurrence(rule, d) && Step(rule, d) == Some(e)
    ensures var n: int := if rule.interval == 0 then 1 else rule.interval;
      match rule.frequency
      case Daily => e == d + n
      case Weekly => e - Weekday(e) in {d - Weekday(d), d - Weekday(d) + 7 * n}
      case Monthly => MonthNumber(Year(e), Month(e)) == MonthNumber(Year(d), Month(d)) + n
      case Yearly => Year(e) == Year(d) + n && Month(e) == Month(d)
  {
    hide MonthStart, MonthOf, Day, ClampDay, IsOccurrence, Between, Rule.WantedDay;
    if rule.frequency.Weekly? {
      WeeklyGapLaw(rule, d);
    } else {
      AddMonthsNumber(Year(d), Month(d), rule.N());
      OccurrenceMeans(rule, d);
    }
  }

  lemma WeekdayFrom(d: int, weeks: int, w: int)
    requires 0 <= w <= 6
    ensures Weekday(d - Weekday(d) + 7 * weeks + w) == w
  {
  }

  lemma WeeklyGapLaw(rule: Rule, d: int)
    requires rule.frequency.Weekly?
    ensures var e := NextDate(rule, d);
      e - Weekday(e) in {d - Weekday(d), d - Weekday(d) + 7 * rule.N()}
  {
    hide Rule.WeekdaySet, Between, Rule.N, NextDate, Weekday;
    WeekdayRange(rule);
    NextDateOf(rule, d);
    var monday := d - Weekday(d);
    var later := Between(rule.WeekdaySet(), Weekday(d) + 1, None);
    var w := if later != [] then later[0] else rule.WeekdaySet()[0];
    assert rule.WeekdaySet()[0] in rule.WeekdaySet();
    WeekdayFrom(d, 0, w);
    WeekdayFrom(d, rule.N(), w);
  }

  /**
   * A monthly or yearly rule keeps its day of the month, and a yearly one its month: a short month, or
   * a February without its 29th, shortens one occurrence and no later one.
   */
  lemma NoDrift(rule: Rule, first: Option<int>, j: nat)
    requires rule.frequency.Monthly? || rule.frequency.Yearly?
    requires IsNextFrom(rule, rule.startOn, first) && Iterate(rule, first, j).Some?
    ensures var d := Iterate(rule, first, j).value;
      && Day(d) == (if rule.WantedDay() <= MonthLength(MonthOf(d)) then rule.WantedDay() else MonthLength(MonthOf(d)))
      && (rule.frequency.Yearly? ==> Month(d) == rule.WantedMonth())
  {
    hide MonthStart, MonthOf, Day, ClampDay, Rule.WantedDay, Rule.WantedMonth, Iterate;
    IterateIsOccurrence(rule, first, j);
  }
}
