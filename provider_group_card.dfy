/** `components/groups/GroupCard.tsx`: the card the groups page shows for each group, with
    its active and completed task lists and a delete action that goes through the group
    store. */
module ProviderGroupCard {
  import opened Wrappers
  import opened Types
  import opened Http
  import Seqs
  import GroupProvider
  import UseApi

  predicate IsActive(t: Task) { !Completed(t) && !Deleted(t) }
  predicate IsDoneAndKept(t: Task) { Completed(t) && !Deleted(t) }
  predicate IsKept(t: Task) { !Deleted(t) }

  /** `group.tasks?.filter(...) || []`: an absent list gives the empty list. */
  function TasksOr(g: Group): seq<Task> {
    match g.tasks
    case None => []
    case Some(ts) => ts
  }

  /** `activeTasks`: neither completed nor deleted. */
  function ActiveTasks(g: Group): (r: seq<Task>)
    ensures forall i :: 0 <= i < |r| ==> IsActive(r[i]) && r[i] in TasksOr(g)
    ensures forall i :: 0 <= i < |TasksOr(g)| && IsActive(TasksOr(g)[i]) ==> TasksOr(g)[i] in r
  {
    Seqs.Filter(TasksOr(g), IsActive)
  }

  /** `completedTasks`: completed and not deleted. */
  function CompletedTasks(g: Group): (r: seq<Task>)
    ensures forall i :: 0 <= i < |r| ==> IsDoneAndKept(r[i]) && r[i] in TasksOr(g)
    ensures forall i :: 0 <= i < |TasksOr(g)| && IsDoneAndKept(TasksOr(g)[i]) ==> TasksOr(g)[i] in r
  {
    Seqs.Filter(TasksOr(g), IsDoneAndKept)
  }

  /** The two lists never share a task, a group with no task list shows two empty lists, and
      the total is the number of tasks that are not deleted. */
  lemma ListsPartitionKeptTasks(g: Group)
    ensures forall t :: t in ActiveTasks(g) ==> t !in CompletedTasks(g)
    ensures g.tasks.None? ==> ActiveTasks(g) == [] && CompletedTasks(g) == []
    ensures |ActiveTasks(g)| + |CompletedTasks(g)| == |Seqs.Filter(TasksOr(g), IsKept)|
    ensures multiset(ActiveTasks(g)) + multiset(CompletedTasks(g)) == multiset(Seqs.Filter(TasksOr(g), IsKept))
  {
    Seqs.FilterUnion(TasksOr(g), IsActive, IsDoneAndKept, IsKept);
    forall t | t in ActiveTasks(g) ensures t !in CompletedTasks(g) {
      var i :| 0 <= i < |ActiveTasks(g)| && ActiveTasks(g)[i] == t;
    }
  }

  /** What a click on "Delete" did: no request when the group has no truthy id, otherwise the
      store's call with the notice its `del` wrapper showed; the card's "Group deleted
      successfully" toast follows every request. */
  datatype DeleteOutcome = NoRequest | Requested(wrapperNotice: Option<Notice>)

  class GroupCard {
    const group: Group
    var isDeleting: bool

    constructor (group: Group)
      ensures this.group == group && !isDeleting
    {
      this.group := group;
      isDeleting := false;
    }

    /** `if (isDeleting) return null` */
    predicate Renders()
      reads this
    {
      !isDeleting
    }

    /** `handleDelete`, with `raw` the outcome of `DELETE /api/group/{id}` should it be sent.
        The store does not rethrow, so the branch that would clear `isDeleting` never runs:
        once clicked, the card stays hidden whatever the server said. */
    method HandleDelete(store: GroupProvider.GroupProvider, raw: Result<(), Thrown>)
      returns (outcome: DeleteOutcome)
      modifies this`isDeleting, store
      ensures isDeleting && !Renders()
      ensures outcome.Requested? <==> IdIsTruthy(group.id)
      ensures outcome.NoRequest? ==>
                store.groups == old(store.groups) && store.error == old(store.error)
                && store.isLoading == old(store.isLoading)
      ensures outcome.Requested? ==>
                && outcome.wrapperNotice == UseApi.Call(raw).0
                && store.groups == (if raw.Ok? then GroupProvider.RemoveById(old(store.groups), group.id.value)
                                    else old(store.groups))
                && store.error == (if raw.Ok? then None
                                   else Some(MessageOrFallback(UseApi.Call(raw).1.error, GroupProvider.DELETE_FAILED)))
                && !store.isLoading
    {
      isDeleting := true;
      if IdIsTruthy(group.id) {
        var notice := store.DeleteGroup(group.id.value, raw);
        outcome := Requested(notice);
      } else {
        outcome := NoRequest;
      }
    }
  }
}
