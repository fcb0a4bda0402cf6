/** `app/dashboard/upcoming/page.tsx`: the open tasks due in the future, sorted by due time,
    split at the end of this week and the end of next week, with the three stat values. The
    task list, the current time `now`, today's local midnight `today` and its weekday are
    inputs. */
module UpcomingPage {
  import opened Wrappers
  import opened Types
  import Seqs

  /** `!task.is_completed && !task.is_deleted && task.due_at && new Date(task.due_at) > now` */
  function IsUpcoming(now: Millis): Task -> bool {
    (t: Task) => !Completed(t) && !Deleted(t) && t.dueAt.Some? && t.dueAt.value > now
  }

  /** `new Date(task.due_at!).getTime()`, on tasks the filter has shown to have a due time. */
  function Due(t: Task): int {
    match t.dueAt
    case Some(d) => d
    case None => 0
  }

  /** The filtered tasks in ascending order of due time. */
  function UpcomingTasks(ts: seq<Task>, now: Millis): (r: seq<Task>)
    ensures Seqs.SortedBy(r, Due)
    ensures multiset(r) == multiset(Seqs.Filter(ts, IsUpcoming(now)))
    ensures forall i :: 0 <= i < |r| ==> IsUpcoming(now)(r[i])
  {
    var u := Seqs.SortBy(Seqs.Filter(ts, IsUpcoming(now)), Due);
    assert forall i :: 0 <= i < |u| ==> u[i] in multiset(u);
    u
  }

  /** Tasks due at the same moment are listed in the order the server sent them. */
  lemma UpcomingKeepsOrderOfEqualDueTimes(ts: seq<Task>, now: Millis, due: int)
    ensures Seqs.Filter(UpcomingTasks(ts, now), Seqs.HasKey(Due, due))
            == Seqs.Filter(Seqs.Filter(ts, IsUpcoming(now)), Seqs.HasKey(Due, due))
  {
    Seqs.SortByIsStable(Seqs.Filter(ts, IsUpcoming(now)), Due, due);
  }

  /** Every open task due after `now` is listed, and nothing else. */
  lemma UpcomingExactly(ts: seq<Task>, now: Millis, t: Task)
    ensures t in UpcomingTasks(ts, now) <==> t in ts && IsUpcoming(now)(t)
  {
    var f := Seqs.Filter(ts, IsUpcoming(now));
    var u := UpcomingTasks(ts, now);
    assert t in u <==> t in multiset(u);
    assert t in f <==> t in multiset(f);
    if t in ts && IsUpcoming(now)(t) {
      var i :| 0 <= i < |ts| && ts[i] == t;
    }
  }

  /** `endOfThisWeek`: 23:59:59.999 on the day `7 - weekday` days after today, so a Sunday
      (weekday 0) ends the week seven days later. */
  function EndOfThisWeek(today: Millis, weekday: int): (r: Millis)
    requires 0 <= weekday < 7
    ensures today + DAY <= r - DAY + 1 <= today + 7 * DAY
    ensures (r + 1 - today) % DAY == 0
    ensures (weekday + (r + 1 - today) / DAY - 1) % 7 == 0
  {
    var end := today + (7 - weekday) * DAY + DAY - 1;
    assert end + 1 - today == (8 - weekday) * DAY;
    end
  }

  /** `endOfNextWeek`: seven days after `endOfThisWeek`. */
  function EndOfNextWeek(today: Millis, weekday: int): (r: Millis)
    requires 0 <= weekday < 7
    ensures r == EndOfThisWeek(today, weekday) + 7 * DAY
  {
    EndOfThisWeek(today, weekday) + 7 * DAY
  }

  /** On a Sunday the week ends at the last millisecond of the next Sunday; on a Saturday it
      ends tomorrow night. */
  lemma WeekEndExamples(today: Millis)
    ensures EndOfThisWeek(today, 0) == today + 8 * DAY - 1
    ensures EndOfThisWeek(today, 6) == today + 2 * DAY - 1
  {
  }

  function DueBy(end: Millis): Task -> bool {
    (t: Task) => Due(t) <= end
  }

  function DueBetween(start: Millis, end: Millis): Task -> bool {
    (t: Task) => start < Due(t) <= end
  }

  function DueAfter(start: Millis): Task -> bool {
    (t: Task) => Due(t) > start
  }

  function Always(t: Task): bool { true }

  datatype Buckets = Buckets(thisWeek: seq<Task>, nextWeek: seq<Task>, later: seq<Task>)

  /** `thisWeekTasks`, `nextWeekTasks` and `laterTasks`. */
  function Bucketed(ts: seq<Task>, now: Millis, today: Millis, weekday: int): (b: Buckets)
    requires 0 <= weekday < 7
    ensures forall i :: 0 <= i < |b.thisWeek| ==> Due(b.thisWeek[i]) <= EndOfThisWeek(today, weekday)
    ensures forall i :: 0 <= i < |b.nextWeek| ==>
              EndOfThisWeek(today, weekday) < Due(b.nextWeek[i]) <= EndOfNextWeek(today, weekday)
    ensures forall i :: 0 <= i < |b.later| ==> Due(b.later[i]) > EndOfNextWeek(today, weekday)
  {
    var u := UpcomingTasks(ts, now);
    var endThis := EndOfThisWeek(today, weekday);
    var endNext := EndOfNextWeek(today, weekday);
    Buckets(Seqs.Filter(u, DueBy(endThis)), Seqs.Filter(u, DueBetween(endThis, endNext)),
            Seqs.Filter(u, DueAfter(endNext)))
  }

  /** The three buckets partition the upcoming tasks, and each stays in due order. */
  lemma BucketsPartition(ts: seq<Task>, now: Millis, today: Millis, weekday: int)
    requires 0 <= weekday < 7
    ensures var b := Bucketed(ts, now, today, weekday);
      var u := UpcomingTasks(ts, now);
      && multiset(b.thisWeek) + multiset(b.nextWeek) + multiset(b.later) == multiset(u)
      && |b.thisWeek| + |b.nextWeek| + |b.later| == |u|
      && Seqs.SortedBy(b.thisWeek, Due) && Seqs.SortedBy(b.nextWeek, Due) && Seqs.SortedBy(b.later, Due)
  {
    var u := UpcomingTasks(ts, now);
    var endThis := EndOfThisWeek(today, weekday);
    var endNext := EndOfNextWeek(today, weekday);
    Seqs.FilterUnion(u, DueBy(endThis), DueBetween(endThis, endNext), DueBy(endNext));
    Seqs.FilterUnion(u, DueBy(endNext), DueAfter(endNext), Always);
    Seqs.FilterAll(u, Always);
    Seqs.FilterKeepsSorted(u, DueBy(endThis), Due);
    Seqs.FilterKeepsSorted(u, DueBetween(endThis, endNext), Due);
    Seqs.FilterKeepsSorted(u, DueAfter(endNext), Due);
  }

  /** The three stat cards. */
  datatype Stats = Stats(upcoming: nat, thisWeek: nat, nextWeek: nat)

  function PageStats(b: Buckets): (s: Stats)
    ensures s.thisWeek == |b.thisWeek| && s.nextWeek == |b.nextWeek|
    ensures s.thisWeek + s.nextWeek <= s.upcoming
  {
    Stats(|b.thisWeek| + |b.nextWeek| + |b.later|, |b.thisWeek|, |b.nextWeek|)
  }

  /** `hasTasks` */
  predicate HasTasks(b: Buckets): (r: bool)
    ensures r <==> PageStats(b).upcoming > 0
  {
    |b.thisWeek| > 0 || |b.nextWeek| > 0 || |b.later| > 0
  }

  /** Some task is upcoming exactly when the upcoming list is not empty. */
  lemma UpcomingNonEmptyIff(ts: seq<Task>, now: Millis)
    ensures |UpcomingTasks(ts, now)| > 0 <==> exists i :: 0 <= i < |ts| && IsUpcoming(now)(ts[i])
  {
    var u := UpcomingTasks(ts, now);
    if exists i :: 0 <= i < |ts| && IsUpcoming(now)(ts[i]) {
      var i :| 0 <= i < |ts| && IsUpcoming(now)(ts[i]);
      UpcomingExactly(ts, now, ts[i]);
    }
    if |u| > 0 {
      UpcomingExactly(ts, now, u[0]);
      var i :| 0 <= i < |ts| && ts[i] == u[0];
    }
  }

  /** The "Upcoming Tasks" stat is the number of upcoming tasks, and the page has tasks to
      show exactly when some task in the list is open and due after `now`. */
  lemma StatsCountUpcoming(ts: seq<Task>, now: Millis, today: Millis, weekday: int)
    requires 0 <= weekday < 7
    ensures var b := Bucketed(ts, now, today, weekday);
      && PageStats(b).upcoming == |UpcomingTasks(ts, now)|
      && PageStats(b).thisWeek + PageStats(b).nextWeek <= PageStats(b).upcoming
      && (HasTasks(b) <==> exists i :: 0 <= i < |ts| && IsUpcoming(now)(ts[i]))
  {
    var b := Bucketed(ts, now, today, weekday);
    assert |b.thisWeek| + |b.nextWeek| + |b.later| == |UpcomingTasks(ts, now)| by {
      BucketsPartition(ts, now, today, weekday);
    }
    UpcomingNonEmptyIff(ts, now);
  }
}
