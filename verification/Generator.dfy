/**
 * `materialize_due_tasks`: at most one task a run, for the latest eligible occurrence, remembered in
 * a persisted marker.  `TaskTemplate` is the row the method updates; `Materialized` is what one run
 * makes of it, stated with the search-free `LatestOf`; the lemmas are about whole histories of runs.
 */
module Generator {
  import opened Options
  import opened Recurrence
  import opened Sequences

  datatype Blueprint = Blueprint(
    title: string, description: Option<string>, priority: int, estimatedTime: Option<int>,
    project: Option<int>, owner: int)

  datatype Task = Task(blueprint: Blueprint, startDate: int, due: int, completed: bool)

  /** A template's persisted fields together with the tasks it has generated, in key order. */
  datatype Template = Template(
    rule: Rule,
    blueprint: Blueprint,
    leadTimeDays: nat,
    skipIfPreviousOpen: bool,
    isActive: bool,
    marker: Option<int>,
    tasks: seq<Task>)

  function Cutoff(t: Template, today: int): int {
    var cutoff := today + t.leadTimeDays;
    if t.rule.endOn.Some? && t.rule.endOn.value < cutoff then t.rule.endOn.value else cutoff
  }

  predicate PastMarker(marker: Option<int>, occurrence: int) {
    marker.None? || marker.value < occurrence
  }

  predicate Blocked(t: Template, ignoreSkip: bool) {
    t.skipIfPreviousOpen && !ignoreSkip && t.tasks != [] && !t.tasks[|t.tasks| - 1].completed
  }

  /** What one run leaves behind. */
  function Materialized(t: Template, today: int, ignoreSkip: bool): Template {
    match LatestOf(t.rule, Cutoff(t, today))
    case Some(o) =>
      if t.isActive && PastMarker(t.marker, o) && !Blocked(t, ignoreSkip)
      then t.(marker := Some(o), tasks := t.tasks + [Task(t.blueprint, today, o, false)])
      else t
    case None => t
  }

  class TaskTemplate {
    var rule: Rule
    var blueprint: Blueprint
    var leadTimeDays: nat
    var skipIfPreviousOpen: bool
    var isActive: bool
    var lastGeneratedOccurrence: Option<int>
    var generatedTasks: seq<Task>

    constructor (t: Template)
      ensures State() == t
    {
      rule, blueprint, leadTimeDays := t.rule, t.blueprint, t.leadTimeDays;
      skipIfPreviousOpen, isActive := t.skipIfPreviousOpen, t.isActive;
      lastGeneratedOccurrence, generatedTasks := t.marker, t.tasks;
    }

    function State(): Template
      reads this
    {
      Template(rule, blueprint, leadTimeDays, skipIfPreviousOpen, isActive, lastGeneratedOccurrence, generatedTasks)
    }

    method MaterializeDueTasks(today: int, ignoreSkipIfOpen: bool) returns (created: Option<Task>)
      modifies this`lastGeneratedOccurrence, this`generatedTasks
      ensures State() == Materialized(old(State()), today, ignoreSkipIfOpen)
      ensures generatedTasks == old(generatedTasks) + if created.Some? then [created.value] else []
    {
      hide LatestOf;
      if !isActive {
        return None;
      }
      var cutoff := today + leadTimeDays;
      if rule.endOn.Some? && rule.endOn.value < cutoff {
        cutoff := rule.endOn.value;
      }
      var occurrence, _ := LatestOnOrBefore(rule, cutoff);
      LatestIsUnique(rule, cutoff, occurrence);
      if occurrence.None? {
        return None;
      }
      if lastGeneratedOccurrence.Some? && occurrence.value <= lastGeneratedOccurrence.value {
        return None;
      }
      if skipIfPreviousOpen && !ignoreSkipIfOpen {
        if generatedTasks != [] && !generatedTasks[|generatedTasks| - 1].completed {
          return None;
        }
      }
      var task := Task(blueprint, today, occurrence.value, false);
      generatedTasks := generatedTasks + [task];
      lastGeneratedOccurrence := occurrence;
      created := Some(task);
    }
  }

  /** The tasks a run of each template creates, in the templates' order. */
  function CreatedBy(templates: seq<Template>, today: int): seq<Task> {
    if templates == [] then []
    else
      var n := |templates| - 1;
      var after := Materialized(templates[n], today, false).tasks;
      CreatedBy(templates[..n], today) + after[|templates[n].tasks|..]
  }

  /** The templates' states, in order. */
  function States(templates: seq<TaskTemplate>): seq<Template>
    reads templates
  {
    seq(|templates|, i requires 0 <= i < |templates| reads templates => templates[i].State())
  }

  /** `generate_all`: one run of every active template. */
  method GenerateAll(templates: seq<TaskTemplate>, today: int) returns (created: seq<Task>)
    requires forall i, j :: 0 <= i < j < |templates| ==> templates[i] != templates[j]
    modifies templates
    ensures forall i :: 0 <= i < |templates| ==>
        templates[i].State() == Materialized(old(templates[i].State()), today, false)
    ensures created == CreatedBy(old(States(templates)), today)
  {
    created := [];
    ghost var before := States(templates);
    hide Materialized;
    for n := 0 to |templates|
      invariant forall i :: 0 <= i < n ==> templates[i].State() == Materialized(before[i], today, false)
      invariant forall i :: n <= i < |templates| ==> templates[i].State() == before[i]
      invariant created == CreatedBy(before[..n], today)
    {
      assert before[..n + 1][..n] == before[..n];
      InactiveRun(before[n], today);
      if templates[n].isActive {
        var task := templates[n].MaterializeDueTasks(today, false);
        if task.Some? {
          created := created + [task.value];
        }
      }
    }
    assert before[..|templates|] == before;
  }

  lemma InactiveRun(t: Template, today: int)
    ensures !t.isActive ==> Materialized(t, today, false) == t
    ensures |Materialized(t, today, false).tasks| >= |t.tasks|
  {
  }

  // ------------------------------------------------------------------ any history

  /** What can happen to a template between and during runs. */
  datatype Event =
    | Run(today: int, ignoreSkip: bool)
    | Edit(rule: Rule, blueprint: Blueprint, leadTimeDays: nat, skipIfPreviousOpen: bool, isActive: bool)
    | SetCompleted(index: nat, completed: bool)
    | DeleteTask(index: nat)

  function Apply(t: Template, e: Event): Template {
    match e
    case Run(today, ignoreSkip) => Materialized(t, today, ignoreSkip)
    case Edit(rule, blueprint, lead, skip, active) =>
      t.(rule := rule, blueprint := blueprint, leadTimeDays := lead, skipIfPreviousOpen := skip, isActive := active)
    case SetCompleted(i, c) =>
      if i < |t.tasks| then t.(tasks := t.tasks[i := t.tasks[i].(completed := c)]) else t
    case DeleteTask(i) =>
      if i < |t.tasks| then t.(tasks := t.tasks[..i] + t.tasks[i + 1..]) else t
  }

  /** The template after a history, and the due dates of all the tasks created on the way. */
  function History(t: Template, events: seq<Event>): (Template, seq<int>) {
    if events == [] then (t, [])
    else
      var (before, created) := History(t, events[..|events| - 1]);
      var after := Apply(before, events[|events| - 1]);
      (after, created + if |after.tasks| > |before.tasks| then [after.tasks[|after.tasks| - 1].due] else [])
  }

  /** One event creates at most one task; it is the last, is new, and moves the marker to itself. */
  lemma OneEvent(t: Template, e: Event)
    ensures var after := Apply(t, e);
      if |after.tasks| > |t.tasks| then
        && |after.tasks| == |t.tasks| + 1 && after.tasks[..|t.tasks|] == t.tasks
        && e.Run? && t.isActive
        && (t.skipIfPreviousOpen && !e.ignoreSkip ==> t.tasks == [] || t.tasks[|t.tasks| - 1].completed)
        && (t.marker.None? || t.marker.value < after.tasks[|t.tasks|].due)
        && after.marker == Some(after.tasks[|t.tasks|].due)
      else after.marker == t.marker && (e.Run? ==> after == t)
  {
    hide LatestOf, IsLatest, Cutoff;
    if e.Run? && Apply(t, e) != t {
      assert (t.tasks + [Apply(t, e).tasks[|t.tasks|]])[..|t.tasks|] == t.tasks;
    }
  }

  /**
   * Whatever runs, edits of the rule, completions and deletions happen, no occurrence is generated
   * twice and none before an earlier one; the marker is the last one generated.
   */
  lemma {:induction false} CreatedIncrease(t: Template, events: seq<Event>)
    requires t.marker.None?
    ensures var (after, created) := History(t, events);
      Increasing(created) && after.marker == if created == [] then None else Some(created[|created| - 1])
  {
    hide Apply;
    if events == [] {
    } else {
      var n := |events| - 1;
      CreatedIncrease(t, events[..n]);
      OneEvent(History(t, events[..n]).0, events[n]);
    }
  }

  /** With skipping always on and no task reopened, at most the newest task is open. */
  ghost predicate Skipping(e: Event) {
    match e
    case Run(_, ignoreSkip) => !ignoreSkip
    case Edit(_, _, _, skip, _) => skip
    case SetCompleted(_, c) => c
    case DeleteTask(_) => true
  }

  ghost predicate OnlyNewestOpen(t: Template) {
    t.skipIfPreviousOpen && forall i :: 0 <= i < |t.tasks| - 1 ==> t.tasks[i].completed
  }

  lemma OneOpenStep(t: Template, e: Event)
    requires OnlyNewestOpen(t) && Skipping(e)
    ensures OnlyNewestOpen(Apply(t, e))
  {
    hide LatestOf, IsLatest, Cutoff;
  }

  lemma {:induction false} OneOpenTask(t: Template, events: seq<Event>)
    requires OnlyNewestOpen(t) && forall e :: e in events ==> Skipping(e)
    ensures OnlyNewestOpen(History(t, events).0)
  {
    hide Apply, OnlyNewestOpen;
    if events == [] {
    } else {
      var n := |events| - 1;
      OneOpenTask(t, events[..n]);
      OneOpenStep(History(t, events[..n]).0, events[n]);
    }
  }

  // ------------------------------------------------------------------ runs of one fixed rule

  function Runs(t: Template, days: seq<int>): Template {
    if days == [] then t else Materialized(Runs(t, days[..|days| - 1]), days[|days| - 1], false)
  }

  function Later(a: Option<int>, b: Option<int>): Option<int> {
    if a.None? then b else if b.None? || b.value <= a.value then a else b
  }

  function MaxDay(days: seq<int>): (m: int)
    requires days != []
    ensures m in days && forall d :: d in days ==> d <= m
  {
    Max(days)
  }

  lemma MaxDayIs(days: seq<int>, m: int)
    requires m in days && forall d :: d in days ==> d <= m
    ensures MaxDay(days) == m
  {
  }

  lemma LatestMonotone(rule: Rule, c: int, d: int)
    requires c <= d
    ensures Later(LatestOf(rule, c), LatestOf(rule, d)) == LatestOf(rule, d)
  {
    hide IsOccurrence, LatestOf;
    var l := LatestOf(rule, c);
    if l.Some? { assert IsOccurrence(rule, l.value); }
  }

  lemma {:induction false} RunsKeepRule(t: Template, days: seq<int>)
    ensures Runs(t, days).(marker := t.marker, tasks := t.tasks) == t
  {
    hide LatestOf;
    if days == [] {
    } else {
      RunsKeepRule(t, days[..|days| - 1]);
    }
  }

  /** A run with nothing in its way moves the marker to the latest eligible occurrence, never back. */
  lemma MarkerMoves(t: Template, before: Template, today: int)
    requires t.isActive && !t.skipIfPreviousOpen && before.(marker := t.marker, tasks := t.tasks) == t
    ensures Materialized(before, today, false).marker == Later(before.marker, LatestOf(t.rule, Cutoff(t, today)))
  {
    hide LatestOf;
  }

  lemma CutoffGrows(t: Template, a: int, b: int)
    ensures a <= b ==> Cutoff(t, a) <= Cutoff(t, b)
    ensures b <= a ==> Cutoff(t, b) <= Cutoff(t, a)
  {
  }

  /** In whatever order the run dates come, only the latest of them decides where the marker ends. */
  lemma {:induction false} FinalMarker(t: Template, days: seq<int>)
    requires t.isActive && !t.skipIfPreviousOpen && days != []
    ensures Runs(t, days).marker == Later(t.marker, LatestOf(t.rule, Cutoff(t, MaxDay(days))))
  {
    hide LatestOf, MaxDay, Materialized, Cutoff;
    var n := |days| - 1;
    var rest, today := days[..n], days[n];
    RunsKeepRule(t, rest);
    MarkerMoves(t, Runs(t, rest), today);
    CutoffGrows(t, if rest == [] then today else MaxDay(rest), today);
    assert days == rest + [today];
    if rest == [] {
      MaxDayIs(days, today);
    } else {
      FinalMarker(t, rest);
      var m := MaxDay(rest);
      MaxDayIs(days, if m <= today then today else m);
      if m <= today {
        LatestMonotone(t.rule, Cutoff(t, m), Cutoff(t, today));
      } else {
        LatestMonotone(t.rule, Cutoff(t, today), Cutoff(t, m));
      }
    }
  }

  /** The occurrences after `lo` up to `hi`, in order. */
  function OccurrencesIn(rule: Rule, lo: int, hi: int): (dues: seq<int>)
    ensures Increasing(dues)
    ensures forall o :: o in dues <==> lo < o <= hi && IsOccurrence(rule, o)
    decreases hi - lo
  {
    hide IsOccurrence;
    if hi <= lo then []
    else
      var earlier := OccurrencesIn(rule, lo, hi - 1);
      assert forall i :: 0 <= i < |earlier| ==> earlier[i] in earlier;
      earlier + if IsOccurrence(rule, hi) then [hi] else []
  }

  /** The tasks for some due dates, each created on the first day its lead time allows. */
  function TasksFor(t: Template, dues: seq<int>): seq<Task> {
    seq(|dues|, i requires 0 <= i < |dues| => Task(t.blueprint, dues[i] - t.leadTimeDays, dues[i], false))
  }

  function DaysFrom(first: int, n: nat): seq<int> {
    seq(n, i => first + i)
  }

  /** The marker below which a first run leaves nothing to do. */
  function Settled(t: Template, first: int): int {
    var marker := Materialized(t, first, false).marker;
    if marker.Some? && marker.value > Cutoff(t, first) then marker.value else Cutoff(t, first)
  }

  /**
   * One day later the cutoff has moved by at most a day, so at most one occurrence is newly due:
   * `before` stands for the template after the runs up to the day before.
   */
  lemma DailyStep(t: Template, before: Template, done: int, today: int)
    requires t.isActive && !t.skipIfPreviousOpen && before.(marker := t.marker, tasks := t.tasks) == t
    requires var c := Cutoff(t, today - 1);
      Later(before.marker, LatestOf(t.rule, c)) == before.marker && Cutoff(t, today) <= c + 1
      && PastMarker(before.marker, c + 1) == (done < c + 1)
    ensures Materialized(before, today, false).tasks == before.tasks +
      if Cutoff(t, today - 1) < Cutoff(t, today) && done < Cutoff(t, today) && IsOccurrence(t.rule, Cutoff(t, today))
      then [Task(t.blueprint, Cutoff(t, today) - t.leadTimeDays, Cutoff(t, today), false)] else []
  {
    hide IsOccurrence, IsLatest;
    var c, d := Cutoff(t, today - 1), Cutoff(t, today);
    assert Cutoff(before, today) == d;
    if d == c + 1 {
      StartsAtAnchor(t.rule);
      assert LatestOf(t.rule, d) == if IsOccurrence(t.rule, d) then Some(d) else LatestOf(t.rule, c);
    }
  }

  lemma MarkerBeforeDay(t: Template, first: int, n: nat)
    requires t.isActive && !t.skipIfPreviousOpen && n >= 1
    ensures var before := Runs(t, DaysFrom(first, n));
      var c := Cutoff(t, first + n - 1);
      && before.(marker := t.marker, tasks := t.tasks) == t
      && Later(before.marker, LatestOf(t.rule, c)) == before.marker
      && PastMarker(before.marker, c + 1) == (Settled(t, first) < c + 1)
  {
    hide IsOccurrence, LatestOf, Runs, Materialized, MaxDay;
    var days := DaysFrom(first, n);
    RunsKeepRule(t, days);
    FinalMarker(t, days);
    assert days[n - 1] in days;
    MaxDayIs(days, first + n - 1);
    FinalMarker(t, [first]);
    assert Runs(t, [first]) == Materialized(t, first, false) by { OneRun(t, first); }
    MaxDayIs([first], first);
  }

  lemma OneRun(t: Template, day: int)
    ensures Runs(t, [day]) == Materialized(t, day, false)
  {
    hide Materialized;
    assert [day][..0] == [];
  }

  /**
   * After a first run, daily runs miss nothing and repeat nothing: they create exactly one task for
   * every occurrence that becomes eligible, on the day it does.
   */
  lemma {:induction false} DailyRuns(t: Template, first: int, n: nat)
    requires t.isActive && !t.skipIfPreviousOpen
    ensures Runs(t, DaysFrom(first, n + 1)).tasks == Materialized(t, first, false).tasks
      + TasksFor(t, OccurrencesIn(t.rule, Settled(t, first), Cutoff(t, first + n)))
  {
    hide LatestOf, IsOccurrence, Materialized, Settled, Cutoff, Runs, DaysFrom, OccurrencesIn, TasksFor;
    if n == 0 {
      FirstDay(t, first);
      OneRun(t, first);
      CutoffSettled(t, first);
      NoDues(t, Settled(t, first), Cutoff(t, first));
    } else {
      DailyRuns(t, first, n - 1);
      LastRun(t, first, n);
      MarkerBeforeDay(t, first, n);
      CutoffMoves(t, first + n);
      var c, d, done := Cutoff(t, first + n - 1), Cutoff(t, first + n), Settled(t, first);
      DailyStep(t, Runs(t, DaysFrom(first, n)), done, first + n);
      OneMoreDay(t, done, c, d);
      Associate(Materialized(t, first, false).tasks, TasksFor(t, OccurrencesIn(t.rule, done, c)),
        if c < d && done < d && IsOccurrence(t.rule, d) then [Task(t.blueprint, d - t.leadTimeDays, d, false)] else []);
    }
  }

  lemma FirstDay(t: Template, first: int)
    ensures DaysFrom(first, 1) == [first]
  {
  }

  lemma NoDues(t: Template, lo: int, hi: int)
    requires hi <= lo
    ensures TasksFor(t, OccurrencesIn(t.rule, lo, hi)) == []
  {
  }

  lemma LastRun(t: Template, first: int, n: nat)
    ensures Runs(t, DaysFrom(first, n + 1)) == Materialized(Runs(t, DaysFrom(first, n)), first + n, false)
  {
    hide Materialized;
    assert DaysFrom(first, n + 1)[..n] == DaysFrom(first, n);
  }

  lemma OneMoreDay(t: Template, done: int, c: int, d: int)
    requires c <= d <= c + 1
    ensures TasksFor(t, OccurrencesIn(t.rule, done, d)) == TasksFor(t, OccurrencesIn(t.rule, done, c))
      + if c < d && done < d && IsOccurrence(t.rule, d) then [Task(t.blueprint, d - t.leadTimeDays, d, false)] else []
  {
    hide IsOccurrence;
    if c < d {
      assert OccurrencesIn(t.rule, done, d) == OccurrencesIn(t.rule, done, c)
        + if done < d && IsOccurrence(t.rule, d) then [d] else [];
    }
  }

  lemma CutoffSettled(t: Template, first: int)
    ensures Cutoff(t, first) <= Settled(t, first)
  {
    hide Materialized;
  }

  lemma CutoffMoves(t: Template, today: int)
    ensures Cutoff(t, today - 1) <= Cutoff(t, today) <= Cutoff(t, today - 1) + 1
  {
  }

  // ------------------------------------------------------------------ skipping while a task is open

  /** The template with every task completed. */
  function Completing(t: Template): Template {
    t.(tasks := Completed(t.tasks))
  }

  function Completed(tasks: seq<Task>): (r: seq<Task>)
    ensures |r| == |tasks|
    ensures forall i :: 0 <= i < |r| ==> r[i] == tasks[i].(completed := true)
  {
    seq(|tasks|, i requires 0 <= i < |tasks| => tasks[i].(completed := true))
  }

  /** Runs before each of which the user has completed what there was to do. */
  function DutifulRuns(t: Template, days: seq<int>): Template {
    if days == [] then t
    else Materialized(Completing(DutifulRuns(t, days[..|days| - 1])), days[|days| - 1], false)
  }

  /** Skipping does not matter to a run that finds no open task. */
  lemma NothingToSkip(t: Template, u: Template, day: int)
    requires u.(tasks := t.tasks, skipIfPreviousOpen := t.skipIfPreviousOpen) == t
    requires Completed(u.tasks) == Completed(t.tasks) && !u.skipIfPreviousOpen
    ensures var s, r := Materialized(Completing(t), day, false), Materialized(u, day, false);
      && r.(tasks := s.tasks, skipIfPreviousOpen := s.skipIfPreviousOpen) == s
      && Completed(r.tasks) == Completed(s.tasks)
  {
    hide LatestOf;
    assert Cutoff(Completing(t), day) == Cutoff(u, day);
    CompletedTwice(t.tasks);
    forall task: Task ensures Completed(Completed(t.tasks) + [task]) == Completed(u.tasks + [task]) {
      assert |Completed(t.tasks)| == |Completed(u.tasks)|;
    }
  }

  lemma CompletedTwice(tasks: seq<Task>)
    ensures Completed(Completed(tasks)) == Completed(tasks)
  {
  }

  /** If the user completes each task before the next run, skipping while one is open skips nothing. */
  lemma {:induction false} DutifulRunsSkipNothing(t: Template, days: seq<int>)
    ensures var s, r := DutifulRuns(t, days), Runs(t.(skipIfPreviousOpen := false), days);
      && r.(tasks := s.tasks, skipIfPreviousOpen := s.skipIfPreviousOpen) == s
      && Completed(r.tasks) == Completed(s.tasks) && !r.skipIfPreviousOpen
  {
    hide Materialized, Completing, Completed;
    if days == [] {
    } else {
      var n := |days| - 1;
      DutifulRunsSkipNothing(t, days[..n]);
      var s, r := DutifulRuns(t, days[..n]), Runs(t.(skipIfPreviousOpen := false), days[..n]);
      NothingToSkip(s, r, days[n]);
      RunsKeepRule(t.(skipIfPreviousOpen := false), days);
    }
  }

  /**
   * With skipping on, daily runs miss nothing and repeat nothing either, as long as the user completes
   * each task before the next run.
   */
  lemma DailyRunsSkipping(t: Template, first: int, n: nat)
    requires t.isActive
    ensures var u := t.(skipIfPreviousOpen := false);
      Completed(DutifulRuns(t, DaysFrom(first, n + 1)).tasks) == Completed(Materialized(u, first, false).tasks
        + TasksFor(u, OccurrencesIn(t.rule, Settled(u, first), Cutoff(t, first + n))))
  {
    hide Materialized, Settled, OccurrencesIn, TasksFor, DutifulRuns, Runs, LatestOf;
    var u := t.(skipIfPreviousOpen := false);
    DutifulRunsSkipNothing(t, DaysFrom(first, n + 1));
    DailyRuns(u, first, n);
    assert Cutoff(u, first + n) == Cutoff(t, first + n);
  }

  // ------------------------------------------------------------------ one run, from the template's own fields

  /**
   * What a run makes of a template: if it is active, the latest occurrence by the lead time, and within
   * the rule, is past the marker, and no open task is to be waited for, exactly that task and that
   * marker; else nothing.
   */
  lemma RunMeans(t: Template, today: int, ignoreSkip: bool, latest: Option<int>)
    requires var cutoff := today + t.leadTimeDays;
      IsLatest(t.rule,
        if t.rule.endOn.Some? && t.rule.endOn.value < cutoff then t.rule.endOn.value else cutoff, latest)
    ensures var due := t.isActive && latest.Some? && (t.marker.None? || t.marker.value < latest.value);
      var waits := t.skipIfPreviousOpen && !ignoreSkip && t.tasks != [] && !t.tasks[|t.tasks| - 1].completed;
      Materialized(t, today, ignoreSkip) ==
        if due && !waits then
          t.(marker := latest, tasks := t.tasks + [Task(t.blueprint, today, latest.value, false)])
        else t
  {
    hide IsLatest, LatestOf;
    LatestIsUnique(t.rule, Cutoff(t, today), latest);
  }
}
