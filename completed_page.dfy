/** `app/dashboard/completed/page.tsx`: the completed-task list, its four completion periods,
    the three stat values and the star row. The task list is an input, and so is `today`,
    the local midnight the page computes from the clock. */
module CompletedPage {
  import opened Wrappers
  import opened Types
  import Seqs

  predicate IsDone(t: Task) { Completed(t) && !Deleted(t) }

  /** `tasks.filter(task => task.is_completed && !task.is_deleted)` */
  function CompletedTasks(ts: seq<Task>): (r: seq<Task>)
    ensures forall i :: 0 <= i < |r| ==> IsDone(r[i]) && r[i] in ts
    ensures forall i :: 0 <= i < |ts| && IsDone(ts[i]) ==> ts[i] in r
  {
    Seqs.Filter(ts, IsDone)
  }

  lemma CompletedTasksKeepOrder(ts: seq<Task>)
    ensures Seqs.IsSubsequence(CompletedTasks(ts), ts)
  {
    Seqs.FilterIsSubsequence(ts, IsDone);
  }

  /** `thisWeek`: seven days before today's midnight. */
  function WeekStart(today: Millis): Millis { today - 7 * DAY }

  /** `thisMonth`: thirty days before today's midnight. */
  function MonthStart(today: Millis): Millis { today - 30 * DAY }

  predicate HasCompletedAt(t: Task) { t.completedAt.Some? }

  function InToday(today: Millis): Task -> bool {
    (t: Task) => t.completedAt.Some? && t.completedAt.value >= today
  }

  function InThisWeek(today: Millis): Task -> bool {
    (t: Task) => t.completedAt.Some? && WeekStart(today) <= t.completedAt.value < today
  }

  function InThisMonth(today: Millis): Task -> bool {
    (t: Task) => t.completedAt.Some? && MonthStart(today) <= t.completedAt.value < WeekStart(today)
  }

  function InOlder(today: Millis): Task -> bool {
    (t: Task) => t.completedAt.Some? && t.completedAt.value < MonthStart(today)
  }

  function SinceWeekStart(today: Millis): Task -> bool {
    (t: Task) => t.completedAt.Some? && t.completedAt.value >= WeekStart(today)
  }

  function BeforeWeekStart(today: Millis): Task -> bool {
    (t: Task) => t.completedAt.Some? && t.completedAt.value < WeekStart(today)
  }

  /** `taskPeriods`: the completed tasks split by completion time into half-open intervals,
      newest first. */
  datatype Periods = Periods(today: seq<Task>, thisWeek: seq<Task>, thisMonth: seq<Task>, older: seq<Task>)

  function TaskPeriods(ts: seq<Task>, today: Millis): (p: Periods)
    ensures forall i :: 0 <= i < |p.today| ==> p.today[i].completedAt.Some? && p.today[i].completedAt.value >= today
    ensures forall i :: 0 <= i < |p.thisWeek| ==>
              p.thisWeek[i].completedAt.Some? && WeekStart(today) <= p.thisWeek[i].completedAt.value < today
    ensures forall i :: 0 <= i < |p.thisMonth| ==>
              p.thisMonth[i].completedAt.Some? && MonthStart(today) <= p.thisMonth[i].completedAt.value < WeekStart(today)
    ensures forall i :: 0 <= i < |p.older| ==>
              p.older[i].completedAt.Some? && p.older[i].completedAt.value < MonthStart(today)
  {
    var c := CompletedTasks(ts);
    Periods(Seqs.Filter(c, InToday(today)), Seqs.Filter(c, InThisWeek(today)),
            Seqs.Filter(c, InThisMonth(today)), Seqs.Filter(c, InOlder(today)))
  }

  /** Today and the rest of the week split what was completed since the week began. */
  lemma RecentSplit(c: seq<Task>, today: Millis)
    ensures multiset(Seqs.Filter(c, InToday(today))) + multiset(Seqs.Filter(c, InThisWeek(today)))
            == multiset(Seqs.Filter(c, SinceWeekStart(today)))
    ensures |Seqs.Filter(c, InToday(today))| + |Seqs.Filter(c, InThisWeek(today))|
            == |Seqs.Filter(c, SinceWeekStart(today))|
  {
    Seqs.FilterUnion(c, InToday(today), InThisWeek(today), SinceWeekStart(today));
  }

  /** This month and older split what was completed before the week began. */
  lemma EarlierSplit(c: seq<Task>, today: Millis)
    ensures multiset(Seqs.Filter(c, InThisMonth(today))) + multiset(Seqs.Filter(c, InOlder(today)))
            == multiset(Seqs.Filter(c, BeforeWeekStart(today)))
    ensures |Seqs.Filter(c, InThisMonth(today))| + |Seqs.Filter(c, InOlder(today))|
            == |Seqs.Filter(c, BeforeWeekStart(today))|
  {
    Seqs.FilterUnion(c, InThisMonth(today), InOlder(today), BeforeWeekStart(today));
  }

  /** The week's start splits the dated tasks. */
  lemma DatedSplit(c: seq<Task>, today: Millis)
    ensures multiset(Seqs.Filter(c, SinceWeekStart(today))) + multiset(Seqs.Filter(c, BeforeWeekStart(today)))
            == multiset(Seqs.Filter(c, HasCompletedAt))
    ensures |Seqs.Filter(c, SinceWeekStart(today))| + |Seqs.Filter(c, BeforeWeekStart(today))|
            == |Seqs.Filter(c, HasCompletedAt)|
  {
    Seqs.FilterUnion(c, SinceWeekStart(today), BeforeWeekStart(today), HasCompletedAt);
  }

  /** The four periods partition the completed tasks that carry a completion time: together
      they hold exactly those tasks, with their multiplicities, and their sizes add up. */
  lemma PeriodsPartition(ts: seq<Task>, today: Millis)
    ensures var p := TaskPeriods(ts, today);
      var dated := Seqs.Filter(CompletedTasks(ts), HasCompletedAt);
      && multiset(p.today) + multiset(p.thisWeek) + multiset(p.thisMonth) + multiset(p.older) == multiset(dated)
      && |p.today| + |p.thisWeek| + |p.thisMonth| + |p.older| == |dated|
  {
    var c := CompletedTasks(ts);
    RecentSplit(c, today);
    EarlierSplit(c, today);
    DatedSplit(c, today);
  }

  /** No task falls in two periods, every completed task with a completion time falls in one,
      and a task without one falls in none. */
  lemma PeriodsDisjoint(t: Task, today: Millis)
    ensures var n := (if InToday(today)(t) then 1 else 0) + (if InThisWeek(today)(t) then 1 else 0)
                   + (if InThisMonth(today)(t) then 1 else 0) + (if InOlder(today)(t) then 1 else 0);
      n == if t.completedAt.Some? then 1 else 0
  {
  }

  /** Completed tasks without a completion time appear in no period. */
  lemma UndatedInNoPeriod(ts: seq<Task>, today: Millis, t: Task)
    requires t.completedAt.None?
    ensures var p := TaskPeriods(ts, today);
      t !in p.today && t !in p.thisWeek && t !in p.thisMonth && t !in p.older
  {
  }

  /** The "This Week" stat counts every completed task finished since the start of the week. */
  lemma ThisWeekStatCountsSinceWeekStart(ts: seq<Task>, today: Millis)
    ensures var p := TaskPeriods(ts, today);
      |p.today| + |p.thisWeek| == |Seqs.Filter(CompletedTasks(ts), SinceWeekStart(today))|
  {
    Seqs.FilterUnion(CompletedTasks(ts), InToday(today), InThisWeek(today), SinceWeekStart(today));
  }

  /** The productivity stat: ten points per completed task, capped at 100. */
  function Productivity(n: nat): (r: nat)
    ensures r <= 100
    ensures r == 100 <==> n >= 10
    ensures n < 10 ==> r == 10 * n
  {
    if n > 0 then (if 100 < n * 10 then 100 else n * 10) else 0
  }

  /** `Math.min(5, Math.floor(completedTasks.length / 2))`: one star per two tasks, five at most. */
  function Stars(n: nat): (r: nat)
    ensures r <= 5
    ensures r == 5 <==> n >= 10
    ensures n < 10 ==> 2 * r <= n < 2 * r + 2
  {
    if n / 2 < 5 then n / 2 else 5
  }

  /** The three stat cards and the star row, from the task list. */
  datatype Stats = Stats(totalCompleted: nat, thisWeek: nat, productivity: nat, stars: nat)

  function PageStats(ts: seq<Task>, today: Millis): (s: Stats)
    ensures s.thisWeek <= s.totalCompleted
    ensures s.productivity <= 100 && s.stars <= 5
    ensures s.totalCompleted == |CompletedTasks(ts)|
  {
    var c := CompletedTasks(ts);
    var p := TaskPeriods(ts, today);
    ThisWeekStatCountsSinceWeekStart(ts, today);
    Stats(|c|, |p.today| + |p.thisWeek|, Productivity(|c|), Stars(|c|))
  }
}
