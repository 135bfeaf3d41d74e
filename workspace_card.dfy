/**
 * A workspace's card on the dashboard: its monogram and post count, the
 * rename form, and the two-click delete button.
 */
module WorkspaceCard {
  import opened Wrappers
  import opened Types
  import opened Text
  import opened Calendar
  import opened Database
  import opened PostsRoute
  import opened WorkspacesRoute

  /** `_count?.posts ?? 0`. */
  function PostCount(w: Workspace): (n: nat)
    ensures w.postCount.Some? ==> n == w.postCount.value
    ensures w.postCount.None? ==> n == 0
  {
    w.postCount.GetOr(0)
  }

  /** The count's caption. */
  function CountCaption(n: nat): string {
    "post" + PluralSuffix(n) + " this month"
  }

  lemma CountCaptionSingular(n: nat)
    ensures CountCaption(n) == "post this month" <==> n == 1
  {
    if n != 1 {
      assert CountCaption(n)[4] == 's';
    }
  }

  /**
   * The caption says "this month", but the count is the listing's `_count.posts`,
   * which counts the workspace's posts of every month: one post in January
   * shows as "1 post this month" in March.
   */
  lemma CaptionCountsEveryMonth()
    ensures var w := Workspace(3, "Q1", "Acme", None, 0, 0, None);
      var posts := [PostRow(8, 3, MonthStart(2024, 1), "", 0, 0)];
      && PostCount(Annotated(w, posts)) == 1
      && RowsInMonth(posts, 3, 2024, 3) == []
  {
    var posts := [PostRow(8, 3, MonthStart(2024, 1), "", 0, 0)];
    assert CountPostsOf(posts, 3) == 1 by {
      assert posts[1..] == [];
    }
    assert MonthStart(2024, 1) < MonthStart(2024, 3);
  }

  /** The monogram: the name's first character, upper-cased; nothing for an empty name. */
  function Initial(name: string): (r: string)
    ensures name == "" <==> r == ""
    ensures name != "" ==> r == [UpperAscii(name[0])]
  {
    if name == "" then "" else [UpperAscii(name[0])]
  }

  /** What a click on the delete button or its losing focus does to the confirmation flag. */
  datatype DeleteEvent = Click | Blur

  /** The flag afterwards, and whether `onDelete` is called. */
  function ConfirmStep(confirming: bool, ev: DeleteEvent): (bool, bool) {
    match ev
    case Blur => (false, false)
    case Click => (true, confirming)
  }

  /** Which events of a run call `onDelete`, from the given confirmation flag on. */
  function DeleteCalls(confirming: bool, events: seq<DeleteEvent>): (r: seq<bool>)
    ensures |r| == |events|
    decreases |events|
  {
    if events == [] then []
    else
      var (next, calls) := ConfirmStep(confirming, events[0]);
      [calls] + DeleteCalls(next, events[1..])
  }

  /**
   * An event calls `onDelete` exactly when it is a click and the event just
   * before it was a click too (for the first event: the button was armed): a
   * click only arms a disarmed button, and losing focus disarms it.
   */
  lemma {:induction false} DeleteNeedsTwoClicks(confirming: bool, events: seq<DeleteEvent>, i: nat)
    requires i < |events|
    ensures DeleteCalls(confirming, events)[i]
      <==> events[i] == Click && (if i == 0 then confirming else events[i - 1] == Click)
    decreases i
  {
    var (next, calls) := ConfirmStep(confirming, events[0]);
    assert DeleteCalls(confirming, events) == [calls] + DeleteCalls(next, events[1..]);
    if i > 0 {
      DeleteNeedsTwoClicks(next, events[1..], i - 1);
      assert events[1..][i - 1] == events[i];
      if i > 1 {
        assert events[1..][i - 2] == events[i - 1];
      }
    }
  }

  /**
   * The card's state. The list keys each card by the workspace's id, so a
   * card stays mounted while its workspace prop is replaced.
   */
  class Card {
    var workspace: Workspace
    var editing: bool
    var name: string
    var clientName: string
    var saving: bool
    var confirming: bool

    constructor (workspace: Workspace)
      ensures this.workspace == workspace
      ensures !editing && name == workspace.name && clientName == workspace.clientName
      ensures !saving && !confirming
    {
      this.workspace := workspace;
      editing := false;
      name := workspace.name;
      clientName := workspace.clientName;
      saving := false;
      confirming := false;
    }

    /**
     * The list re-renders the card with a new prop for the same id (the
     * server's answer to a rename); the local state keeps its values.
     */
    method Rerender(w: Workspace)
      requires w.id == workspace.id
      modifies this`workspace
      ensures workspace == w
    {
      workspace := w;
    }

    method BeginEdit()
      modifies this`editing
      ensures editing
    {
      editing := true;
    }

    method SetFields(name: string, clientName: string)
      modifies this`name, this`clientName
      ensures this.name == name && this.clientName == clientName
    {
      this.name := name;
      this.clientName := clientName;
    }

    /**
     * `handleSave` up to the rename: nothing when either trimmed field is
     * empty, otherwise the rename with the trimmed fields.
     */
    method HandleSave() returns (rename: Option<(Id, string, string)>)
      modifies this`saving
      ensures rename.None? <==> TrimmedFields(name, clientName).None?
      ensures rename.None? ==> saving == old(saving)
      ensures rename.Some? ==>
        && saving
        && rename.value == (workspace.id, Trim(name), Trim(clientName))
    {
      match TrimmedFields(name, clientName)
      case None =>
        rename := None;
      case Some((n, c)) =>
        saving := true;
        rename := Some((workspace.id, n, c));
    }

    /** The rename was answered: saving ends and so does editing. */
    method RenameDone()
      modifies this`saving, this`editing
      ensures !saving && !editing
    {
      saving := false;
      editing := false;
    }

    /** `handleDelete`: the first click arms; a click while armed calls `onDelete`. */
    method HandleDelete() returns (delete: Option<Id>)
      modifies this`confirming
      ensures (confirming, delete.Some?) == ConfirmStep(old(confirming), Click)
      ensures delete.Some? ==> delete.value == workspace.id
    {
      if !confirming {
        confirming := true;
        delete := None;
      } else {
        delete := Some(workspace.id);
      }
    }

    /** The delete button loses focus. */
    method HandleBlur()
      modifies this`confirming
      ensures (confirming, false) == ConfirmStep(old(confirming), Blur)
    {
      confirming := false;
    }

    /** Cancel: editing ends and both fields go back to the workspace's values. */
    method Cancel()
      modifies this`editing, this`name, this`clientName
      ensures !editing && name == workspace.name && clientName == workspace.clientName
    {
      editing := false;
      name := workspace.name;
      clientName := workspace.clientName;
    }
  }
}
