/** `app/dashboard/page.tsx`: the page's own task fetch, its "today" and "completed today"
    lists and the progress figure. `new Date(x).toDateString()` compares local calendar days;
    the model takes that day as a parameter `dayOf` (milliseconds to a day number) together
    with today's day number, and an absent date, written as "", never equals today. */
module DashboardPage {
  import opened Wrappers
  import opened Types
  import opened Http
  import Js
  import Seqs
  import UseApi

  const FETCH_FAILED: string := "Unknown error occurred"

  /** `(x ? new Date(x).toDateString() : "") === today` */
  predicate OnDay(at: Option<Millis>, dayOf: Millis -> int, today: int) {
    at.Some? && dayOf(at.value) == today
  }

  predicate IsOpen(t: Task) { !Completed(t) && !Deleted(t) }

  function DueTodayAndOpen(dayOf: Millis -> int, today: int): Task -> bool {
    (t: Task) => OnDay(t.dueAt, dayOf, today) && IsOpen(t)
  }

  function TouchesTodayAndOpen(dayOf: Millis -> int, today: int): Task -> bool {
    (t: Task) => (OnDay(t.createdAt, dayOf, today) || OnDay(t.dueAt, dayOf, today)) && IsOpen(t)
  }

  function DoneToday(dayOf: Millis -> int, today: int): Task -> bool {
    (t: Task) => OnDay(t.completedAt, dayOf, today) && Completed(t) && !Deleted(t)
  }

  /** The filter `fetchTasks` applies to the server list: due today, not completed, not
      deleted; a task with no due time is dropped. */
  function FetchedTasks(response: seq<Task>, dayOf: Millis -> int, today: int): (r: seq<Task>)
    ensures forall i :: 0 <= i < |r| ==> OnDay(r[i].dueAt, dayOf, today) && IsOpen(r[i]) && r[i] in response
    ensures forall i :: 0 <= i < |response| && DueTodayAndOpen(dayOf, today)(response[i]) ==> response[i] in r
  {
    Seqs.Filter(response, DueTodayAndOpen(dayOf, today))
  }

  /** `todayTasks`: created today or due today, and neither completed nor deleted. */
  function TodayTasks(ts: seq<Task>, dayOf: Millis -> int, today: int): (r: seq<Task>)
    ensures forall i :: 0 <= i < |r| ==>
              (OnDay(r[i].createdAt, dayOf, today) || OnDay(r[i].dueAt, dayOf, today)) && IsOpen(r[i]) && r[i] in ts
    ensures forall i :: 0 <= i < |ts| && TouchesTodayAndOpen(dayOf, today)(ts[i]) ==> ts[i] in r
  {
    Seqs.Filter(ts, TouchesTodayAndOpen(dayOf, today))
  }

  /** `completedToday`: completed today, completed and not deleted. */
  function CompletedToday(ts: seq<Task>, dayOf: Millis -> int, today: int): (r: seq<Task>)
    ensures forall i :: 0 <= i < |r| ==> OnDay(r[i].completedAt, dayOf, today) && Completed(r[i]) && r[i] in ts
    ensures forall i :: 0 <= i < |ts| && DoneToday(dayOf, today)(ts[i]) ==> ts[i] in r
  {
    Seqs.Filter(ts, DoneToday(dayOf, today))
  }

  /** The Progress card: the completed share of today's work as a rounded percentage, 0 when
      there is nothing. */
  function Progress(open: nat, done: nat): (r: int)
    ensures 0 <= r <= 100
    ensures done == 0 ==> r == 0
    ensures open == 0 && done > 0 ==> r == 100
    ensures open + done > 0 ==>
              2 * (open + done) * r <= 200 * done + (open + done) < 2 * (open + done) * (r + 1)
  {
    if open + done > 0 then
      Js.RoundedPercentBounds(done, open + done);
      Js.RoundedPercent(done, open + done)
    else 0
  }

  /** What the fetch leaves is all due today and open, so the page lists all of it as today's
      tasks. */
  lemma FetchedAreTodayTasks(response: seq<Task>, dayOf: Millis -> int, today: int)
    ensures var f := FetchedTasks(response, dayOf, today);
      TodayTasks(f, dayOf, today) == f
  {
    var f := FetchedTasks(response, dayOf, today);
    Seqs.FilterAll(f, TouchesTodayAndOpen(dayOf, today));
  }

  /** `tasks` only ever holds open tasks, so nothing counts as completed today and the
      progress card always shows 0. */
  lemma NoProgressOnOpenTasks(ts: seq<Task>, dayOf: Millis -> int, today: int)
    requires forall i :: 0 <= i < |ts| ==> !Completed(ts[i])
    ensures CompletedToday(ts, dayOf, today) == []
    ensures Progress(|TodayTasks(ts, dayOf, today)|, |CompletedToday(ts, dayOf, today)|) == 0
  {
    Seqs.FilterNone(ts, DoneToday(dayOf, today));
  }

  /** The page state. */
  class DashboardPage {
    var tasks: seq<Task>
    var isLoading: bool
    var error: Option<string>

    /** Every task the page holds is uncompleted. */
    predicate OnlyOpenTasks()
      reads this
    {
      forall i :: 0 <= i < |tasks| ==> !Completed(tasks[i])
    }

    constructor ()
      ensures tasks == [] && isLoading && error == None
      ensures OnlyOpenTasks()
    {
      tasks := [];
      isLoading := true;
      error := None;
    }

    /** `fetchTasks()`, with `raw` the outcome of `GET /api/task/`. */
    method FetchTasks(raw: Result<seq<Task>, Thrown>, dayOf: Millis -> int, today: int)
      returns (notice: Option<Notice>)
      modifies this
      ensures notice == UseApi.Call(raw).0 && !isLoading
      ensures raw.Ok? ==> tasks == FetchedTasks(raw.value, dayOf, today) && error == None
      ensures raw.Err? ==> tasks == old(tasks)
                           && error == Some(MessageOrFallback(UseApi.Call(raw).1.error, FETCH_FAILED))
      ensures old(OnlyOpenTasks()) ==> OnlyOpenTasks()
    {
      isLoading := true;
      error := None;
      var outcome;
      notice, outcome := UseApi.Call(raw).0, UseApi.Call(raw).1;
      match outcome {
        case Ok(response) => tasks := FetchedTasks(response, dayOf, today);
        case Err(err) => error := Some(MessageOrFallback(err, FETCH_FAILED));
      }
      isLoading := false;
    }
  }
}
