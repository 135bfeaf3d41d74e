/**
 * The posts hook: a client-side list of one workspace's posts of a month,
 * merged with what the posts endpoint answers. A post's `date` is compared as
 * a string there; the endpoint writes one string per instant, so string
 * equality is instant equality.
 */
module UsePosts {
  import opened Wrappers
  import opened Types
  import opened Lists
  import opened Calendar
  import opened Database
  import opened CalendarGrid

  /** Whether a listed post is the one a save answered: the same id or the same date. */
  predicate SameSave(p: Post, saved: Post) {
    p.id == saved.id || p.date == saved.date
  }

  /**
   * `savePost`'s update: the first post with the saved post's id or date names
   * an id, and every entry with that id becomes the saved post; with no such
   * post the saved post is appended.
   */
  function SaveMerge(posts: seq<Post>, saved: Post): seq<Post> {
    match FindFirst(posts, (p: Post) => SameSave(p, saved))
    case Some(k) => ReplaceWhere(posts, (p: Post) => p.id == posts[k].id, saved)
    case None => posts + [saved]
  }

  /**
   * When post `k` is the first one with the saved id or date, the length is kept,
   * the entries with `k`'s id become the saved post and the others stay.
   */
  lemma SaveMergeReplaces(posts: seq<Post>, saved: Post, k: nat)
    requires k < |posts| && SameSave(posts[k], saved)
    requires forall j :: 0 <= j < k ==> !SameSave(posts[j], saved)
    ensures |SaveMerge(posts, saved)| == |posts|
    ensures forall i :: 0 <= i < |posts| ==>
      SaveMerge(posts, saved)[i] == if posts[i].id == posts[k].id then saved else posts[i]
  {
    var hit := (p: Post) => SameSave(p, saved);
    var f := FindFirst(posts, hit);
    assert hit(posts[k]);
    assert f == Some(k);
    forall i | 0 <= i < |posts| ensures SaveMerge(posts, saved)[i] == if posts[i].id == posts[k].id then saved else posts[i] {
      ReplaceWhereAt(posts, (p: Post) => p.id == posts[k].id, saved, i);
    }
  }

  /** With no post of the saved id or date, the saved post is appended. */
  lemma SaveMergeAppends(posts: seq<Post>, saved: Post)
    requires forall p :: p in posts ==> !SameSave(p, saved)
    ensures SaveMerge(posts, saved) == posts + [saved]
  {
    assert forall j :: 0 <= j < |posts| ==> posts[j] in posts;
  }

  /** After a save the saved post is listed. */
  lemma SavedIsListed(posts: seq<Post>, saved: Post)
    ensures saved in SaveMerge(posts, saved)
  {
    match FindFirst(posts, (p: Post) => SameSave(p, saved))
    case Some(k) =>
      SaveMergeReplaces(posts, saved, k);
      assert SaveMerge(posts, saved)[k] == saved;
    case None =>
      assert SaveMerge(posts, saved)[|posts|] == saved;
  }

  /**
   * Saving is not idempotent when the saved post matches one entry by date and
   * another by id: the first save replaces the dated entry, the second then
   * overwrites the other entry too, and the list holds the saved post twice.
   */
  lemma SaveMergeTwiceDiffers()
    ensures var a := Post(1, 0, 0, "a", [], 0, 0);
      var b := Post(2, 0, 5, "b", [], 0, 0);
      var s := Post(2, 0, 0, "s", [], 0, 0);
      && SaveMerge([a, b], s) == [s, b]
      && SaveMerge(SaveMerge([a, b], s), s) == [s, s]
  {
    var a := Post(1, 0, 0, "a", [], 0, 0);
    var b := Post(2, 0, 5, "b", [], 0, 0);
    var s := Post(2, 0, 0, "s", [], 0, 0);
    SaveMergeReplaces([a, b], s, 0);
    SaveMergeReplaces([s, b], s, 0);
  }

  /**
   * The three keyings disagree for two instants of one day: the endpoint finds
   * no post at the later instant and creates a second one, the grid replaces
   * the listed post of that day, and the hook (ids and dates differing)
   * appends.
   */
  lemma KeyingsDiffer()
    ensures var row := PostRow(1, 7, 0, "a", 0, 0);
      var listed := Post(1, 7, 0, "a", [], 0, 0);
      var saved := Post(2, 7, 1, "b", [], 1, 1);
      && Day(listed.date) == Day(saved.date) && listed.date != saved.date
      && FindPost([row], 7, 1).None?
      && SaveByDay([listed], saved) == [saved]
      && SaveMerge([listed], saved) == [listed, saved]
  {
    var listed := Post(1, 7, 0, "a", [], 0, 0);
    var saved := Post(2, 7, 1, "b", [], 1, 1);
    SaveByDayReplaces([listed], saved, listed);
    SaveMergeAppends([listed], saved);
  }

  /** For dates at midnight, as the grid's cells give them, same day and same instant coincide. */
  lemma MidnightKeysAgree(a: Instant, b: Instant)
    requires a % MsPerDay == 0 && b % MsPerDay == 0
    ensures Day(a) == Day(b) <==> a == b
  {
    assert a == Day(a) * MsPerDay;
    assert b == Day(b) * MsPerDay;
  }

  /** The body `savePost` sends: the hook's workspace and the dialog's fields. */
  function SaveBody(workspaceId: Id, date: Instant, description: string, platforms: seq<PlatformInput>): (r: PostBody)
    ensures r.workspaceId == Some(workspaceId) && r.date == Some(date)
    ensures r.description.GetOr("") == description && r.platforms.GetOr([]) == platforms
  {
    PostBody(Some(workspaceId), Some(date), Some(description), Some(platforms))
  }

  /** The hook's state. */
  class PostsHook {
    var posts: seq<Post>
    var loading: bool
    const workspaceId: Id

    /** The list starts empty and loading. */
    constructor (workspaceId: Id)
      ensures posts == [] && loading && this.workspaceId == workspaceId
    {
      posts := [];
      loading := true;
      this.workspaceId := workspaceId;
    }

    /** `fetchPosts(m, y)` starts: loading, and the request for that month goes out. */
    method StartFetch(m: int, y: int) returns (req: FetchRequest)
      modifies this`loading
      ensures loading && req == PostsFetch(workspaceId, m, y)
    {
      loading := true;
      req := PostsFetch(workspaceId, m, y);
    }

    /** The answer replaces the list wholesale. */
    method FinishFetch(data: seq<Post>)
      modifies this`posts, this`loading
      ensures posts == data && !loading
    {
      posts := data;
      loading := false;
    }

    /** `savePost`, once the endpoint has answered `saved`; returns the saved post. */
    method SavePost(saved: Post) returns (r: Post)
      modifies this`posts
      ensures posts == SaveMerge(old(posts), saved)
      ensures r == saved && saved in posts
    {
      SavedIsListed(posts, saved);
      posts := SaveMerge(posts, saved);
      r := saved;
    }

    /** `deletePost`, once the endpoint has answered. */
    method DeletePost(id: Id)
      modifies this`posts
      ensures posts == RemovePost(old(posts), id)
    {
      posts := RemovePost(posts, id);
    }
  }
}
