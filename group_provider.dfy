/** `components/providers/group-provider.tsx`: the group store. The list updates are pure
    functions on `seq<Group>`; the provider object sequences its `isLoading`, `error` and
    `groups` state around each awaited call, whose outcome is a parameter. */
module GroupProvider {
  import opened Wrappers
  import opened Types
  import opened Http
  import Seqs
  import UseApi

  const FETCH_FAILED: string := "Failed to fetch groups"
  const CREATE_FAILED: string := "Failed to create group"
  const DELETE_FAILED: string := "Failed to delete group"
  const UPDATE_FAILED: string := "Failed to update group"

  /** `group.id === groupId` */
  function HasId(id: int): Group -> bool {
    (g: Group) => g.id == Some(id)
  }

  /** `group.id !== groupId` */
  function LacksId(id: int): Group -> bool {
    (g: Group) => g.id != Some(id)
  }

  /** `[...prev, newGroup]` */
  function Appended(gs: seq<Group>, g: Group): (r: seq<Group>)
    ensures |r| == |gs| + 1 && r[..|gs|] == gs && r[|gs|] == g
  {
    gs + [g]
  }

  /** `prev.filter(group => group.id !== groupId)` */
  function RemoveById(gs: seq<Group>, id: int): (r: seq<Group>)
    ensures forall i :: 0 <= i < |r| ==> r[i].id != Some(id)
    ensures forall i :: 0 <= i < |gs| && gs[i].id != Some(id) ==> gs[i] in r
    ensures forall i :: 0 <= i < |r| ==> r[i] in gs
  {
    Seqs.Filter(gs, LacksId(id))
  }

  /** Removing keeps the remaining groups in their original order. */
  lemma RemoveByIdKeepsOrder(gs: seq<Group>, id: int)
    ensures Seqs.IsSubsequence(RemoveById(gs, id), gs)
  {
    Seqs.FilterIsSubsequence(gs, LacksId(id));
  }

  /** Removing an id that no group has changes nothing. */
  lemma RemoveUnknownId(gs: seq<Group>, id: int)
    requires forall i :: 0 <= i < |gs| ==> gs[i].id != Some(id)
    ensures RemoveById(gs, id) == gs
  {
    Seqs.FilterAll(gs, LacksId(id));
  }

  /** The fields a server reply to `PATCH /api/group/{id}` may carry; a `Some` is a key that is
      present in the reply, holding that value. */
  datatype GroupPatch = GroupPatch(
    id: Option<Option<int>>,
    name: Option<Option<string>>,
    description: Option<Option<string>>,
    isDeleted: Option<bool>,
    deletedAt: Option<Option<Millis>>,
    createdAt: Option<Option<Millis>>,
    updatedAt: Option<Option<Millis>>,
    tasks: Option<Option<seq<Task>>>)

  const NO_FIELDS: GroupPatch := GroupPatch(None, None, None, None, None, None, None, None)

  /** `{ ...group, ...updatedGroup }`: each key present in the reply wins, every other field
      keeps its value. */
  function Overlay(g: Group, p: GroupPatch): (r: Group)
    ensures r.id == p.id.GetOr(g.id) && r.name == p.name.GetOr(g.name)
    ensures r.description == p.description.GetOr(g.description) && r.isDeleted == p.isDeleted.GetOr(g.isDeleted)
    ensures r.deletedAt == p.deletedAt.GetOr(g.deletedAt) && r.createdAt == p.createdAt.GetOr(g.createdAt)
    ensures r.updatedAt == p.updatedAt.GetOr(g.updatedAt) && r.tasks == p.tasks.GetOr(g.tasks)
  {
    Group(p.id.GetOr(g.id), p.name.GetOr(g.name), p.description.GetOr(g.description),
          p.isDeleted.GetOr(g.isDeleted), p.deletedAt.GetOr(g.deletedAt), p.createdAt.GetOr(g.createdAt),
          p.updatedAt.GetOr(g.updatedAt), p.tasks.GetOr(g.tasks))
  }

  /** A reply with no keys changes nothing, and overlaying the same reply twice is overlaying it once. */
  lemma OverlayLaws(g: Group, p: GroupPatch)
    ensures Overlay(g, NO_FIELDS) == g
    ensures Overlay(Overlay(g, p), p) == Overlay(g, p)
  {
  }

  /** `prev.map(group => group.id === groupId ? { ...group, ...updatedGroup } : group)` */
  function MergeById(gs: seq<Group>, id: int, p: GroupPatch): (r: seq<Group>)
    ensures |r| == |gs|
    ensures forall i :: 0 <= i < |gs| && gs[i].id == Some(id) ==> r[i] == Overlay(gs[i], p)
    ensures forall i :: 0 <= i < |gs| && gs[i].id != Some(id) ==> r[i] == gs[i]
  {
    seq(|gs|, i requires 0 <= i < |gs| => if gs[i].id == Some(id) then Overlay(gs[i], p) else gs[i])
  }

  /** `groups.find(group => group.id === groupId)`: the first group with that id. */
  function FindById(gs: seq<Group>, id: int): (r: Option<Group>)
    ensures r.None? <==> forall i :: 0 <= i < |gs| ==> gs[i].id != Some(id)
    ensures r.Some? ==> exists i :: 0 <= i < |gs| && gs[i] == r.value && r.value.id == Some(id)
                                    && forall j :: 0 <= j < i ==> gs[j].id != Some(id)
  {
    Seqs.Find(gs, HasId(id))
  }

  /** After a merge whose reply keeps the id, looking the id up finds the overlaid first match. */
  lemma FindAfterMerge(gs: seq<Group>, id: int, p: GroupPatch)
    requires p.id.None? || p.id == Some(Some(id))
    ensures FindById(MergeById(gs, id, p), id) ==
              match FindById(gs, id) case None => None case Some(g) => Some(Overlay(g, p))
  {
    var ms := MergeById(gs, id, p);
    match Seqs.FindIndex(gs, HasId(id)) {
      case None =>
        assert forall i :: 0 <= i < |ms| ==> ms[i] == gs[i];
      case Some(k) =>
        assert ms[k].id == Some(id);
        assert forall j :: 0 <= j < k ==> ms[j] == gs[j];
        assert Seqs.FindIndex(ms, HasId(id)) == Some(k) by {
          Seqs.FindIndexAt(ms, HasId(id), k);
        }
    }
  }

  /** After a delete no group with that id is found. */
  lemma FindAfterRemove(gs: seq<Group>, id: int)
    ensures FindById(RemoveById(gs, id), id).None?
  {
  }

  /** The group store of `GroupProvider`. */
  class GroupProvider {
    var groups: seq<Group>
    var isLoading: bool
    var error: Option<string>

    constructor ()
      ensures groups == [] && isLoading && error == None
    {
      groups := [];
      isLoading := true;
      error := None;
    }

    /** `fetch_groups()`, with `raw` the outcome of `GET /api/group/`. */
    method FetchGroups(raw: Result<seq<Group>, Thrown>) returns (notice: Option<Notice>)
      modifies this
      ensures notice == UseApi.Call(raw).0 && !isLoading
      ensures raw.Ok? ==> groups == raw.value && error == None
      ensures raw.Err? ==> groups == old(groups)
                           && error == Some(MessageOrFallback(UseApi.Call(raw).1.error, FETCH_FAILED))
    {
      isLoading := true;
      error := None;
      var outcome;
      notice, outcome := UseApi.Call(raw).0, UseApi.Call(raw).1;
      match outcome {
        case Ok(response) => groups := response;
        case Err(err) => error := Some(MessageOrFallback(err, FETCH_FAILED));
      }
      isLoading := false;
    }

    /** `create_group(group)`, with `raw` the outcome of `POST /api/group/`. */
    method CreateGroup(raw: Result<Group, Thrown>) returns (notice: Option<Notice>)
      modifies this
      ensures notice == UseApi.Call(raw).0 && !isLoading
      ensures raw.Ok? ==> groups == Appended(old(groups), raw.value) && error == None
      ensures raw.Err? ==> groups == old(groups)
                           && error == Some(MessageOrFallback(UseApi.Call(raw).1.error, CREATE_FAILED))
    {
      isLoading := true;
      error := None;
      var outcome;
      notice, outcome := UseApi.Call(raw).0, UseApi.Call(raw).1;
      match outcome {
        case Ok(newGroup) => groups := Appended(groups, newGroup);
        case Err(err) => error := Some(MessageOrFallback(err, CREATE_FAILED));
      }
      isLoading := false;
    }

    /** `delete_group(groupId)`, with `raw` the outcome of `DELETE /api/group/{groupId}`. */
    method DeleteGroup(groupId: int, raw: Result<(), Thrown>) returns (notice: Option<Notice>)
      modifies this
      ensures notice == UseApi.Call(raw).0 && !isLoading
      ensures raw.Ok? ==> groups == RemoveById(old(groups), groupId) && error == None
      ensures raw.Err? ==> groups == old(groups)
                           && error == Some(MessageOrFallback(UseApi.Call(raw).1.error, DELETE_FAILED))
    {
      isLoading := true;
      error := None;
      var outcome;
      notice, outcome := UseApi.Call(raw).0, UseApi.Call(raw).1;
      match outcome {
        case Ok(_) => groups := RemoveById(groups, groupId);
        case Err(err) => error := Some(MessageOrFallback(err, DELETE_FAILED));
      }
      isLoading := false;
    }

    /** `update_group(groupId, updates)`, with `raw` the outcome of `PATCH /api/group/{groupId}`. */
    method UpdateGroup(groupId: int, raw: Result<GroupPatch, Thrown>) returns (notice: Option<Notice>)
      modifies this
      ensures notice == UseApi.Call(raw).0 && !isLoading
      ensures raw.Ok? ==> groups == MergeById(old(groups), groupId, raw.value) && error == None
      ensures raw.Err? ==> groups == old(groups)
                           && error == Some(MessageOrFallback(UseApi.Call(raw).1.error, UPDATE_FAILED))
    {
      isLoading := true;
      error := None;
      var outcome;
      notice, outcome := UseApi.Call(raw).0, UseApi.Call(raw).1;
      match outcome {
        case Ok(updatedGroup) => groups := MergeById(groups, groupId, updatedGroup);
        case Err(err) => error := Some(MessageOrFallback(err, UPDATE_FAILED));
      }
      isLoading := false;
    }

    /** `get_group_by_id(groupId)` */
    function GetGroupById(groupId: int): (r: Option<Group>)
      reads this
      ensures r.None? <==> forall i :: 0 <= i < |groups| ==> groups[i].id != Some(groupId)
      ensures r.Some? ==> r.value in groups && r.value.id == Some(groupId)
    {
      FindById(groups, groupId)
    }
  }
}
