/** The dashboard's workspace list: the cards, the empty state and the create modal's visibility. */
module WorkspaceList {
  import opened Types
  import opened UseWorkspaces

  /** The "No workspaces yet" block is shown exactly for an empty list. */
  predicate ShowsEmptyState(workspaces: seq<Workspace>) {
    |workspaces| == 0
  }

  class WorkspaceListView {
    var workspaces: seq<Workspace>
    var showModal: bool

    constructor (initialWorkspaces: seq<Workspace>)
      ensures workspaces == initialWorkspaces && !showModal
    {
      workspaces := initialWorkspaces;
      showModal := false;
    }

    /** `handleCreate`, once the endpoint has answered `w`: afterwards the empty state is gone. */
    method HandleCreate(w: Workspace)
      modifies this`workspaces
      ensures workspaces == Prepended(old(workspaces), w)
      ensures !ShowsEmptyState(workspaces)
    {
      workspaces := Prepended(workspaces, w);
    }

    /** `handleRename`, once the endpoint has answered `updated`. */
    method HandleRename(id: Id, updated: Workspace)
      modifies this`workspaces
      ensures workspaces == Renamed(old(workspaces), id, updated)
      ensures ShowsEmptyState(workspaces) <==> ShowsEmptyState(old(workspaces))
    {
      workspaces := Renamed(workspaces, id, updated);
    }

    /** `handleDelete`, once the endpoint has answered. */
    method HandleDelete(id: Id)
      modifies this`workspaces
      ensures workspaces == WithoutWorkspace(old(workspaces), id)
    {
      workspaces := WithoutWorkspace(workspaces, id);
    }

    /** The floating button opens the modal. */
    method OpenModal()
      modifies this`showModal
      ensures showModal
    {
      showModal := true;
    }

    /** The modal's `onClose`. */
    method CloseModal()
      modifies this`showModal
      ensures !showModal
    {
      showModal := false;
    }
  }
}
