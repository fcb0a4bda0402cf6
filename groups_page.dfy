/** `app/dashboard/groups/page.tsx`: the groups page lists the store's groups that are not
    deleted, shows an empty state when there are none, and retries by refetching. */
module GroupsPage {
  import opened Wrappers
  import opened Types
  import opened Http
  import Seqs
  import GroupProvider
  import UseApi

  predicate IsLive(g: Group) { !g.isDeleted }

  /** `groups.filter(group => !group.is_deleted)` */
  function FilteredGroups(gs: seq<Group>): (r: seq<Group>)
    ensures forall i :: 0 <= i < |r| ==> !r[i].isDeleted && r[i] in gs
    ensures forall i :: 0 <= i < |gs| && !gs[i].isDeleted ==> gs[i] in r
  {
    Seqs.Filter(gs, IsLive)
  }

  /** The filtered list keeps the store's order, and filtering again changes nothing. */
  lemma FilteredGroupsKeepOrder(gs: seq<Group>)
    ensures Seqs.IsSubsequence(FilteredGroups(gs), gs)
    ensures FilteredGroups(FilteredGroups(gs)) == FilteredGroups(gs)
  {
    Seqs.FilterIsSubsequence(gs, IsLive);
    Seqs.FilterAll(FilteredGroups(gs), IsLive);
  }

  /** What the page body shows. */
  datatype View = Spinner | EmptyState | Cards(groups: seq<Group>)

  /** The page body: the spinner while loading, then the empty state or the live groups' cards. */
  function PageView(isLoading: bool, gs: seq<Group>): (v: View)
    ensures isLoading <==> v == Spinner
    ensures v.Cards? ==> v.groups == FilteredGroups(gs) && v.groups != []
  {
    if isLoading then Spinner
    else if |FilteredGroups(gs)| == 0 then EmptyState
    else Cards(FilteredGroups(gs))
  }

  /** Once loading is over, the empty state appears exactly when every group is deleted, and
      otherwise one card per live group is shown. */
  lemma EmptyStateIffNoLiveGroup(gs: seq<Group>)
    ensures PageView(false, gs) == EmptyState <==> forall i :: 0 <= i < |gs| ==> gs[i].isDeleted
    ensures PageView(false, gs).Cards? ==> PageView(false, gs).groups == FilteredGroups(gs)
  {
    if exists i :: 0 <= i < |gs| && !gs[i].isDeleted {
      var i :| 0 <= i < |gs| && !gs[i].isDeleted;
      assert gs[i] in FilteredGroups(gs);
    } else {
      Seqs.FilterNone(gs, IsLive);
    }
  }

  /** `handleRetry`: it calls `fetch_groups` and does nothing else. */
  method HandleRetry(store: GroupProvider.GroupProvider, raw: Result<seq<Group>, Thrown>)
    returns (notice: Option<Notice>)
    modifies store
    ensures notice == UseApi.Call(raw).0
    ensures raw.Ok? ==> store.groups == raw.value && store.error == None
    ensures raw.Err? ==> store.groups == old(store.groups)
                         && store.error == Some(MessageOrFallback(UseApi.Call(raw).1.error, GroupProvider.FETCH_FAILED))
    ensures !store.isLoading
  {
    notice := store.FetchGroups(raw);
  }
}
