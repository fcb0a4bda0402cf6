/** `components/tasks/task-card.tsx`: the task card's complete/uncomplete toggle, its delete
    action, the demo-mode guard in front of both, and the group label. */
module TaskCard {
  import opened Wrappers
  import opened Types
  import opened Http
  import Js
  import UseApi

  const COMPLETE_PREFIX: string := "/api/task/complete/"
  const UNCOMPLETE_PREFIX: string := "/api/task/uncomplete/"
  const TASK_PREFIX: string := "/api/task/"

  /** The toggle's endpoint: a completed task is marked incomplete, any other is completed. */
  function ToggleEndpoint(t: Task): (url: string)
    ensures Completed(t) ==> url == UNCOMPLETE_PREFIX + IdText(t.id)
    ensures !Completed(t) ==> url == COMPLETE_PREFIX + IdText(t.id)
  {
    (if Completed(t) then UNCOMPLETE_PREFIX else COMPLETE_PREFIX) + IdText(t.id)
  }

  /** The endpoint tells which way the toggle goes, and a numeric id reads back from it. */
  lemma ToggleEndpointNamesTask(t: Task, n: int)
    requires t.id == Some(n)
    ensures Js.StartsWith(ToggleEndpoint(t), UNCOMPLETE_PREFIX) <==> Completed(t)
    ensures var prefix := if Completed(t) then UNCOMPLETE_PREFIX else COMPLETE_PREFIX;
      Js.ParseInt(ToggleEndpoint(t)[|prefix|..]) == Some(n)
  {
    var url := ToggleEndpoint(t);
    if !Completed(t) {
      assert url[10] == 'c' && UNCOMPLETE_PREFIX[10] == 'u';
      assert !Js.StartsWith(url, UNCOMPLETE_PREFIX) by {
        if |url| >= |UNCOMPLETE_PREFIX| { assert url[..|UNCOMPLETE_PREFIX|][10] != UNCOMPLETE_PREFIX[10]; }
      }
      assert url[|COMPLETE_PREFIX|..] == Js.NumberText(n);
    } else {
      assert url[..|UNCOMPLETE_PREFIX|] == UNCOMPLETE_PREFIX;
      assert url[|UNCOMPLETE_PREFIX|..] == Js.NumberText(n);
    }
    Js.ParseIntNumberText(n);
  }

  /** What `getGroupName` returns: `null`, `undefined` or a name. */
  datatype GroupLabel = NoGroup | UnknownGroup | GroupName(name: string)

  /** `groupId ? groupNames[groupId] : null` */
  function GetGroupName(groupId: Option<int>): (r: GroupLabel)
    ensures r == NoGroup <==> !IdIsTruthy(groupId)
    ensures r == UnknownGroup <==> IdIsTruthy(groupId) && !(1 <= groupId.value <= 3)
    ensures r.GroupName? ==> 1 <= groupId.value <= 3
    ensures groupId == Some(1) ==> r == GroupName("Work Projects")
    ensures groupId == Some(2) ==> r == GroupName("Personal Goals")
    ensures groupId == Some(3) ==> r == GroupName("Learning")
  {
    if !IdIsTruthy(groupId) then NoGroup
    else if groupId.value == 1 then GroupName("Work Projects")
    else if groupId.value == 2 then GroupName("Personal Goals")
    else if groupId.value == 3 then GroupName("Learning")
    else UnknownGroup
  }

  /** The three known ids get three different names. */
  lemma KnownGroupsHaveDistinctNames()
    ensures GetGroupName(Some(1)) != GetGroupName(Some(2))
    ensures GetGroupName(Some(2)) != GetGroupName(Some(3))
    ensures GetGroupName(Some(1)) != GetGroupName(Some(3))
  {
  }

  /** What a click did: the demo notice without any request, or the URL requested with the
      notice of the wrapper and whether it succeeded. */
  datatype ClickOutcome =
    | DemoOnly
    | Sent(url: string, wrapperNotice: Option<Notice>, succeeded: bool)

  /** What a toggle click reports, as written. The `try` covers both the `PATCH` and the call
      of `onUpdate`, so a card given no `onUpdate` throws a TypeError right after a successful
      request and shows the "Failed to update task" toast instead of the success toast. */
  function ToggleOutcome(task: Task, isDemo: bool, hasOnUpdate: bool, raw: Result<(), Thrown>): (r: ClickOutcome)
    ensures r.DemoOnly? <==> isDemo
    ensures !isDemo ==> r.url == ToggleEndpoint(task) && r.wrapperNotice == UseApi.Call(raw).0
    ensures !isDemo ==> (r.succeeded <==> raw.Ok? && hasOnUpdate)
  {
    if isDemo then DemoOnly
    else Sent(ToggleEndpoint(task), UseApi.Call(raw).0, UseApi.Call(raw).1.Ok? && hasOnUpdate)
  }

  /** As written, on a page that passes no `onUpdate` a toggle the server accepted is
      reported as a failure. */
  lemma AcceptedToggleReportedAsFailure(task: Task)
    ensures ToggleOutcome(task, false, false, Ok(())) == Sent(ToggleEndpoint(task), None, false)
  {
  }

  /** The toggle as intended, calling `onUpdate` only when it is given: the card reports
      exactly what the server replied. */
  function CorrectedToggleOutcome(task: Task, isDemo: bool, raw: Result<(), Thrown>): (r: ClickOutcome)
    ensures r.DemoOnly? <==> isDemo
    ensures !isDemo ==> r.url == ToggleEndpoint(task) && r.wrapperNotice == UseApi.Call(raw).0
    ensures !isDemo ==> (r.succeeded <==> raw.Ok?)
  {
    if isDemo then DemoOnly else Sent(ToggleEndpoint(task), UseApi.Call(raw).0, raw.Ok?)
  }

  /** Where a page does pass `onUpdate`, the code as written and the corrected toggle agree. */
  lemma CorrectedToggleAgreesWithOnUpdate(task: Task, isDemo: bool, raw: Result<(), Thrown>)
    ensures ToggleOutcome(task, isDemo, true, raw) == CorrectedToggleOutcome(task, isDemo, raw)
  {
  }

  class TaskCard {
    const task: Task
    const isDemo: bool
    /** Whether the page passed an `onUpdate` callback; only the dashboard does. */
    const hasOnUpdate: bool
    var isLoading: bool
    var isDeleting: bool
    /** How many times the card has called or scheduled its parent's `onUpdate`. */
    var updates: nat

    constructor (task: Task, isDemo: bool, hasOnUpdate: bool)
      ensures this.task == task && this.isDemo == isDemo && this.hasOnUpdate == hasOnUpdate
      ensures !isLoading && !isDeleting && updates == 0
    {
      this.task := task;
      this.isDemo := isDemo;
      this.hasOnUpdate := hasOnUpdate;
      isLoading := false;
      isDeleting := false;
      updates := 0;
    }

    /** `if (isDeleting) return null` */
    predicate Renders()
      reads this
    {
      !isDeleting
    }

    /** `handleToggleComplete`, with `raw` the outcome of the `PATCH` should it be sent. The
        parent is updated only when the request succeeded and an `onUpdate` was given; without
        one the call throws and the click is reported as failed. */
    method HandleToggleComplete(raw: Result<(), Thrown>) returns (outcome: ClickOutcome)
      modifies this`isLoading, this`updates
      ensures outcome == ToggleOutcome(task, isDemo, hasOnUpdate, raw)
      ensures isDemo ==> isLoading == old(isLoading) && updates == old(updates)
      ensures !isDemo ==> !isLoading
                          && updates == old(updates) + (if raw.Ok? && hasOnUpdate then 1 else 0)
    {
      if isDemo {
        return DemoOnly;
      }
      isLoading := true;
      var endpoint := ToggleEndpoint(task);
      var notice, result := UseApi.Call(raw).0, UseApi.Call(raw).1;
      match result {
        case Ok(_) =>
          if hasOnUpdate {
            updates := updates + 1;
            outcome := Sent(endpoint, notice, true);
          } else {
            outcome := Sent(endpoint, notice, false);
          }
        case Err(_) =>
          outcome := Sent(endpoint, notice, false);
      }
      isLoading := false;
    }

    /** `handleDelete`, with `raw` the outcome of the `DELETE` should it be sent. The card hides
        itself first and comes back only when the request failed. The update is only scheduled
        with `setTimeout`, which does not throw when no `onUpdate` was given. */
    method HandleDelete(raw: Result<(), Thrown>) returns (outcome: ClickOutcome)
      modifies this`isDeleting, this`updates
      ensures outcome.DemoOnly? <==> isDemo
      ensures isDemo ==> isDeleting == old(isDeleting) && updates == old(updates)
      ensures !isDemo ==> outcome == Sent(TASK_PREFIX + IdText(task.id), UseApi.Call(raw).0, raw.Ok?)
                          && (isDeleting <==> raw.Ok?) && (Renders() <==> !raw.Ok?)
                          && updates == old(updates) + (if raw.Ok? && hasOnUpdate then 1 else 0)
    {
      if isDemo {
        return DemoOnly;
      }
      isDeleting := true;
      var url := TASK_PREFIX + IdText(task.id);
      var notice, result := UseApi.Call(raw).0, UseApi.Call(raw).1;
      match result {
        case Ok(_) =>
          if hasOnUpdate { updates := updates + 1; }
          outcome := Sent(url, notice, true);
        case Err(_) =>
          outcome := Sent(url, notice, false);
          isDeleting := false;
      }
    }
  }
}
