/** `app/dashboard/trash/page.tsx`: which tasks and groups the trash lists, the days left
    before a deleted task is purged, the three urgency sections, and the two bulk buttons.
    The task and group lists are inputs, and so is the current time `now`. */
module TrashPage {
  import opened Wrappers
  import opened Types
  import Js
  import Seqs

  const RETENTION_DAYS: int := 30
  const CRITICAL_DAYS: int := 7
  const WARNING_DAYS: int := 14

  predicate GroupDeleted(g: Group) { g.isDeleted }

  /** `tasks.filter(task => task.is_deleted)` */
  function DeletedTasks(ts: seq<Task>): (r: seq<Task>)
    ensures forall i :: 0 <= i < |r| ==> Deleted(r[i]) && r[i] in ts
    ensures forall i :: 0 <= i < |ts| && Deleted(ts[i]) ==> ts[i] in r
  {
    Seqs.Filter(ts, Deleted)
  }

  /** `groups.filter(group => group.is_deleted)` */
  function DeletedGroups(gs: seq<Group>): (r: seq<Group>)
    ensures forall i :: 0 <= i < |r| ==> r[i].isDeleted && r[i] in gs
    ensures forall i :: 0 <= i < |gs| && gs[i].isDeleted ==> gs[i] in r
  {
    Seqs.Filter(gs, GroupDeleted)
  }

  /** Both lists keep the original order. */
  lemma DeletedListsKeepOrder(ts: seq<Task>, gs: seq<Group>)
    ensures Seqs.IsSubsequence(DeletedTasks(ts), ts)
    ensures Seqs.IsSubsequence(DeletedGroups(gs), gs)
  {
    Seqs.FilterIsSubsequence(ts, Deleted);
    Seqs.FilterIsSubsequence(gs, GroupDeleted);
  }

  /** `getDaysUntilDeletion(deleted_at)`: 30 with no deletion time, otherwise 30 less the whole
      days since deletion, never below 0. `Math.floor` of a quotient by a positive divisor is
      Dafny's `/`. */
  function DaysUntilDeletion(deletedAt: Option<Millis>, now: Millis): (r: int)
    ensures r >= 0
    ensures deletedAt.None? ==> r == RETENTION_DAYS
  {
    match deletedAt
    case None => RETENTION_DAYS
    case Some(d) =>
      var daysSinceDeleted := (now - d) / DAY;
      if RETENTION_DAYS - daysSinceDeleted > 0 then RETENTION_DAYS - daysSinceDeleted else 0
  }

  lemma DivMonotone(a: int, b: int, d: int)
    requires a <= b && d > 0
    ensures a / d <= b / d
  {
    assert d * (a / d) <= a;
    assert b < d * (b / d + 1);
    Js.CancelFactor(d, a / d, b / d + 1);
  }

  /** The count is never negative, is at most 30 once the deletion is in the past, and reaches
      0 exactly when 30 whole days have gone by. */
  lemma DaysUntilDeletionBounds(deletedAt: Option<Millis>, now: Millis)
    ensures DaysUntilDeletion(deletedAt, now) >= 0
    ensures deletedAt.None? ==> DaysUntilDeletion(deletedAt, now) == RETENTION_DAYS
    ensures deletedAt.Some? && deletedAt.value <= now ==> DaysUntilDeletion(deletedAt, now) <= RETENTION_DAYS
    ensures deletedAt.Some? ==>
              (DaysUntilDeletion(deletedAt, now) == 0 <==> now - deletedAt.value >= RETENTION_DAYS * DAY)
  {
    if deletedAt.Some? {
      var x := now - deletedAt.value;
      if x >= 0 {
        DivMonotone(0, x, DAY);
      }
      if x >= RETENTION_DAYS * DAY {
        DivMonotone(RETENTION_DAYS * DAY, x, DAY);
      } else {
        DivMonotone(x, RETENTION_DAYS * DAY - 1, DAY);
      }
    }
  }

  /** Time only counts down: a later `now` never shows more days. */
  lemma DaysUntilDeletionNonIncreasing(deletedAt: Option<Millis>, now: Millis, later: Millis)
    requires now <= later
    ensures DaysUntilDeletion(deletedAt, later) <= DaysUntilDeletion(deletedAt, now)
  {
    if deletedAt.Some? {
      DivMonotone(now - deletedAt.value, later - deletedAt.value, DAY);
    }
  }

  function DaysLeft(t: Task, now: Millis): int {
    DaysUntilDeletion(t.deletedAt, now)
  }

  function IsCritical(now: Millis): Task -> bool {
    (t: Task) => DaysLeft(t, now) <= CRITICAL_DAYS
  }

  function IsWarning(now: Millis): Task -> bool {
    (t: Task) => CRITICAL_DAYS < DaysLeft(t, now) <= WARNING_DAYS
  }

  function IsSafe(now: Millis): Task -> bool {
    (t: Task) => DaysLeft(t, now) > WARNING_DAYS
  }

  function NotSafe(now: Millis): Task -> bool {
    (t: Task) => DaysLeft(t, now) <= WARNING_DAYS
  }

  function Always(t: Task): bool { true }

  /** `tasksByUrgency`: the deleted tasks with at most 7 days left, with 8 to 14, and with more. */
  datatype Urgency = Urgency(critical: seq<Task>, warning: seq<Task>, safe: seq<Task>)

  function TasksByUrgency(ts: seq<Task>, now: Millis): (u: Urgency)
    ensures forall i :: 0 <= i < |u.critical| ==> DaysLeft(u.critical[i], now) <= CRITICAL_DAYS
    ensures forall i :: 0 <= i < |u.warning| ==> CRITICAL_DAYS < DaysLeft(u.warning[i], now) <= WARNING_DAYS
    ensures forall i :: 0 <= i < |u.safe| ==> DaysLeft(u.safe[i], now) > WARNING_DAYS
  {
    var deleted := DeletedTasks(ts);
    Urgency(Seqs.Filter(deleted, IsCritical(now)), Seqs.Filter(deleted, IsWarning(now)),
            Seqs.Filter(deleted, IsSafe(now)))
  }

  /** The three sections partition the deleted tasks: every deleted task is in exactly one,
      the sections together hold the deleted tasks with their multiplicities, and each keeps
      the original order. */
  lemma UrgencyPartitions(ts: seq<Task>, now: Millis)
    ensures var u := TasksByUrgency(ts, now);
      && multiset(u.critical) + multiset(u.warning) + multiset(u.safe) == multiset(DeletedTasks(ts))
      && |u.critical| + |u.warning| + |u.safe| == |DeletedTasks(ts)|
      && Seqs.IsSubsequence(u.critical, DeletedTasks(ts))
      && Seqs.IsSubsequence(u.warning, DeletedTasks(ts))
      && Seqs.IsSubsequence(u.safe, DeletedTasks(ts))
  {
    var deleted := DeletedTasks(ts);
    Seqs.FilterUnion(deleted, IsCritical(now), IsWarning(now), NotSafe(now));
    Seqs.FilterUnion(deleted, NotSafe(now), IsSafe(now), Always);
    Seqs.FilterAll(deleted, Always);
    Seqs.FilterIsSubsequence(deleted, IsCritical(now));
    Seqs.FilterIsSubsequence(deleted, IsWarning(now));
    Seqs.FilterIsSubsequence(deleted, IsSafe(now));
  }

  /** A deleted task is listed in exactly one section. */
  lemma ExactlyOneSection(ts: seq<Task>, now: Millis, t: Task)
    requires t in DeletedTasks(ts)
    ensures var u := TasksByUrgency(ts, now);
      && (t in u.critical || t in u.warning || t in u.safe)
      && !(t in u.critical && t in u.warning)
      && !(t in u.critical && t in u.safe)
      && !(t in u.warning && t in u.safe)
  {
    var u := TasksByUrgency(ts, now);
    var deleted := DeletedTasks(ts);
    var i :| 0 <= i < |deleted| && deleted[i] == t;
    if t in u.critical {
      var j :| 0 <= j < |u.critical| && u.critical[j] == t;
    }
    if t in u.warning {
      var j :| 0 <= j < |u.warning| && u.warning[j] == t;
    }
    if t in u.safe {
      var j :| 0 <= j < |u.safe| && u.safe[j] == t;
    }
  }

  /** What a bulk button does: a success toast and a task refetch, with no request to restore
      or delete anything. */
  datatype BulkEffect = BulkEffect(toast: string, requests: seq<string>, refetchTasks: bool)

  /** `handleRestoreAll` */
  function RestoreAll(ts: seq<Task>): (e: BulkEffect)
    ensures e.requests == [] && e.refetchTasks
    ensures e.toast == "Restored " + Js.NumberText(|DeletedTasks(ts)|) + " tasks successfully!"
  {
    BulkEffect("Restored " + Js.NumberText(|DeletedTasks(ts)|) + " tasks successfully!", [], true)
  }

  /** `handleEmptyTrash` */
  function EmptyTrash(): (e: BulkEffect)
    ensures e.requests == [] && e.refetchTasks
    ensures e.toast == "Trash emptied successfully"
  {
    BulkEffect("Trash emptied successfully", [], true)
  }

  /** The page shows its empty state exactly when neither list has anything. */
  predicate ShowsEmptyTrash(ts: seq<Task>, gs: seq<Group>) {
    |DeletedTasks(ts)| == 0 && |DeletedGroups(gs)| == 0
  }

  lemma EmptyTrashIffNothingDeleted(ts: seq<Task>, gs: seq<Group>)
    ensures ShowsEmptyTrash(ts, gs) <==>
              (forall i :: 0 <= i < |ts| ==> !Deleted(ts[i])) && (forall i :: 0 <= i < |gs| ==> !gs[i].isDeleted)
  {
    if !(forall i :: 0 <= i < |ts| ==> !Deleted(ts[i])) {
      var i :| 0 <= i < |ts| && Deleted(ts[i]);
      assert ts[i] in DeletedTasks(ts);
    }
    if !(forall i :: 0 <= i < |gs| ==> !gs[i].isDeleted) {
      var i :| 0 <= i < |gs| && gs[i].isDeleted;
      assert gs[i] in DeletedGroups(gs);
    }
    if (forall i :: 0 <= i < |ts| ==> !Deleted(ts[i])) {
      Seqs.FilterNone(ts, Deleted);
    }
    if (forall i :: 0 <= i < |gs| ==> !gs[i].isDeleted) {
      Seqs.FilterNone(gs, GroupDeleted);
    }
  }
}
