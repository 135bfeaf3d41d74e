/**
 * The workspaces hook and the list updates it shares with the dashboard's
 * workspace list: prepend a created workspace, swap in a renamed one by id,
 * drop a deleted one by id.
 */
module UseWorkspaces {
  import opened Types
  import opened Lists

  /** A created workspace goes in front. */
  function Prepended(workspaces: seq<Workspace>, w: Workspace): (r: seq<Workspace>)
    ensures |r| == |workspaces| + 1 && r[0] == w && r[1..] == workspaces
  {
    [w] + workspaces
  }

  /** Every entry with the id becomes the updated workspace. */
  function Renamed(workspaces: seq<Workspace>, id: Id, updated: Workspace): (r: seq<Workspace>)
    ensures |r| == |workspaces|
  {
    ReplaceWhere(workspaces, (w: Workspace) => w.id == id, updated)
  }

  /** Every entry with the id is dropped. */
  function WithoutWorkspace(workspaces: seq<Workspace>, id: Id): (r: seq<Workspace>)
    ensures forall w :: w in r <==> w in workspaces && w.id != id
  {
    Filter(workspaces, (w: Workspace) => w.id != id)
  }

  /** Renaming replaces exactly the entries with the id and leaves the rest. */
  lemma RenamedAt(workspaces: seq<Workspace>, id: Id, updated: Workspace)
    ensures forall i :: 0 <= i < |workspaces| ==>
      Renamed(workspaces, id, updated)[i] == if workspaces[i].id == id then updated else workspaces[i]
  {
    forall i | 0 <= i < |workspaces|
      ensures Renamed(workspaces, id, updated)[i] == if workspaces[i].id == id then updated else workspaces[i]
    {
      ReplaceWhereAt(workspaces, (w: Workspace) => w.id == id, updated, i);
    }
  }

  /** Deleting keeps the other entries in order, each as often as before. */
  lemma WithoutKeepsOthers(workspaces: seq<Workspace>, id: Id)
    ensures SubsequenceOf(WithoutWorkspace(workspaces, id), workspaces)
    ensures forall w: Workspace :: w.id != id ==> multiset(WithoutWorkspace(workspaces, id))[w] == multiset(workspaces)[w]
  {
    FilterKeepsOrder(workspaces, (w: Workspace) => w.id != id);
    FilterCounts(workspaces, (w: Workspace) => w.id != id);
  }

  /** Deleting a workspace that was just created, with an id new to the list, gives back the list. */
  lemma {:induction false} DeleteUndoesCreate(workspaces: seq<Workspace>, w: Workspace)
    requires forall v :: v in workspaces ==> v.id != w.id
    ensures WithoutWorkspace(Prepended(workspaces, w), w.id) == workspaces
  {
    FilterAll(workspaces, (v: Workspace) => v.id != w.id);
    assert Prepended(workspaces, w) == [w] + workspaces;
    assert ([w] + workspaces)[1..] == workspaces;
  }

  /** A rename keeps the id: deleting afterwards removes the same entries as deleting at once. */
  lemma DeleteAfterRename(workspaces: seq<Workspace>, id: Id, updated: Workspace)
    requires updated.id == id
    ensures WithoutWorkspace(Renamed(workspaces, id, updated), id) == WithoutWorkspace(workspaces, id)
  {
    RenamedAt(workspaces, id, updated);
    RenamedDeleted(workspaces, Renamed(workspaces, id, updated), id);
  }

  /** Two lists that agree except on entries with the id agree once those are dropped. */
  lemma {:induction false} RenamedDeleted(a: seq<Workspace>, b: seq<Workspace>, id: Id)
    requires |a| == |b|
    requires forall i :: 0 <= i < |a| ==> (a[i].id == id <==> b[i].id == id) && (a[i].id != id ==> a[i] == b[i])
    ensures WithoutWorkspace(a, id) == WithoutWorkspace(b, id)
  {
    if a != [] {
      RenamedDeleted(a[1..], b[1..], id);
      assert a == [a[0]] + a[1..] && b == [b[0]] + b[1..];
    }
  }

  /** The hook's state. */
  class WorkspacesHook {
    var workspaces: seq<Workspace>
    var loading: bool

    /** The list starts empty and loading. */
    constructor ()
      ensures workspaces == [] && loading
    {
      workspaces := [];
      loading := true;
    }

    /** `fetchWorkspaces` starts. */
    method StartFetch()
      modifies this`loading
      ensures loading
    {
      loading := true;
    }

    /** The answer replaces the list wholesale. */
    method FinishFetch(data: seq<Workspace>)
      modifies this`workspaces, this`loading
      ensures workspaces == data && !loading
    {
      workspaces := data;
      loading := false;
    }

    /** `createWorkspace`, once the endpoint has answered `w`. */
    method CreateWorkspace(w: Workspace) returns (r: Workspace)
      modifies this`workspaces
      ensures workspaces == Prepended(old(workspaces), w) && r == w
    {
      workspaces := Prepended(workspaces, w);
      r := w;
    }

    /** `updateWorkspace`, once the endpoint has answered `updated`. */
    method UpdateWorkspace(id: Id, updated: Workspace) returns (r: Workspace)
      modifies this`workspaces
      ensures workspaces == Renamed(old(workspaces), id, updated) && r == updated
    {
      workspaces := Renamed(workspaces, id, updated);
      r := updated;
    }

    /** `deleteWorkspace`, once the endpoint has answered. */
    method DeleteWorkspace(id: Id)
      modifies this`workspaces
      ensures workspaces == WithoutWorkspace(old(workspaces), id)
    {
      workspaces := WithoutWorkspace(workspaces, id);
    }
  }
}
