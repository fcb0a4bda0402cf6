/** `components/groups/group-card.tsx`: the compact group card with task counts, a progress
    figure and a delete action that calls the `del` wrapper directly. */
module ApiGroupCard {
  import opened Wrappers
  import opened Types
  import opened Http
  import Js
  import Seqs
  import UseApi

  /** `group.tasks?.length || 0` */
  function TaskCount(g: Group): (n: nat)
    ensures g.tasks.None? ==> n == 0
    ensures g.tasks.Some? ==> n == |g.tasks.value|
  {
    match g.tasks
    case None => 0
    case Some(ts) => |ts|
  }

  /** `group.tasks?.filter(task => task.is_completed)?.length || 0`: soft-deleted tasks that
      are completed are counted too. */
  function CompletedCount(g: Group): (n: nat)
    ensures g.tasks.None? ==> n == 0
    ensures g.tasks.Some? ==> n == |Seqs.Filter(g.tasks.value, Completed)|
    ensures n <= TaskCount(g)
  {
    match g.tasks
    case None => 0
    case Some(ts) => Seqs.Count(ts, Completed)
  }

  /** `Math.round(progressPercentage)` as shown, with `progressPercentage` 0 for a group with no
      tasks and `completedCount / taskCount * 100` otherwise. */
  function ShownProgress(g: Group): (r: int)
    ensures 0 <= r <= 100
    ensures CompletedCount(g) == 0 ==> r == 0
    ensures TaskCount(g) > 0 && CompletedCount(g) == TaskCount(g) ==> r == 100
    ensures TaskCount(g) > 0 ==>
              2 * TaskCount(g) * r <= 200 * CompletedCount(g) + TaskCount(g) < 2 * TaskCount(g) * (r + 1)
  {
    if TaskCount(g) > 0 then
      Js.RoundedPercentBounds(CompletedCount(g), TaskCount(g));
      Js.RoundedPercent(CompletedCount(g), TaskCount(g))
    else 0
  }

  /** A completed task in the trash still counts, so a group whose only task is completed and
      deleted shows full progress. */
  lemma DeletedCompletedTaskCounts(t: Task, g: Group)
    requires Completed(t) && Deleted(t) && g.tasks == Some([t])
    ensures CompletedCount(g) == 1 && ShownProgress(g) == 100
  {
    assert Seqs.Filter([t], Completed) == [t] by {
      Seqs.FilterAll([t], Completed);
    }
  }

  /** `/api/group/${group.id}` */
  function DeleteUrl(g: Group): string {
    "/api/group/" + IdText(g.id)
  }

  /** What a click on "Delete" did: the URL it sent to, the notice the `del` wrapper showed,
      and whether the card's own toast was the success one. */
  datatype DeleteOutcome = DeleteOutcome(url: string, wrapperNotice: Option<Notice>, succeeded: bool)

  class GroupCard {
    const group: Group
    var isDeleting: bool
    /** Whether `onUpdate` has been scheduled (`setTimeout(onUpdate, 300)`). */
    var updateScheduled: bool

    constructor (group: Group)
      ensures this.group == group && !isDeleting && !updateScheduled
    {
      this.group := group;
      isDeleting := false;
      updateScheduled := false;
    }

    /** `handleDelete`, with `raw` the outcome of the request. The card hides itself first and
        shows itself again only when the request failed; the parent is refreshed only after a
        success. */
    method HandleDelete(raw: Result<(), Thrown>) returns (outcome: DeleteOutcome)
      modifies this`isDeleting, this`updateScheduled
      ensures outcome.url == DeleteUrl(group)
      ensures outcome.wrapperNotice == UseApi.Call(raw).0
      ensures outcome.succeeded <==> raw.Ok?
      ensures isDeleting <==> raw.Ok?
      ensures updateScheduled <==> old(updateScheduled) || raw.Ok?
    {
      isDeleting := true;
      var notice, result := UseApi.Call(raw).0, UseApi.Call(raw).1;
      match result {
        case Ok(_) =>
          updateScheduled := true;
          outcome := DeleteOutcome(DeleteUrl(group), notice, true);
        case Err(_) =>
          outcome := DeleteOutcome(DeleteUrl(group), notice, false);
          isDeleting := false;
      }
    }
  }
}
