/**
 * The posts endpoint: GET lists one workspace's posts of a month in date order;
 * POST saves the post of a (workspace, date) key, replacing the platform entries
 * of an existing post wholesale or creating the post. The signed-in user is the
 * boolean `hasUser`; the current time is the parameter `now`.
 */
module PostsRoute {
  import opened Wrappers
  import opened Types
  import opened Lists
  import opened Calendar
  import opened Database

  datatype PostResponse = Unauthorized | MissingFields | Created(post: Post) | StoreFailure

  datatype ListResponse = ListUnauthorized | ListMissingFields | Listed(posts: seq<Post>)

  /** The HTTP status each answer is sent with. */
  function PostStatus(r: PostResponse): int {
    match r
    case Unauthorized => 401
    case MissingFields => 400
    case Created(_) => 201
    case StoreFailure => 500
  }

  function ListStatus(r: ListResponse): int {
    match r
    case ListUnauthorized => 401
    case ListMissingFields => 400
    case Listed(_) => 200
  }

  /** The post rows of `workspaceId` dated within month `m` of year `y` (both bounds inclusive). */
  function RowsInMonth(posts: seq<PostRow>, workspaceId: Id, y: int, m: int): (r: seq<PostRow>)
    requires 1 <= m <= 12
    ensures forall x :: x in r <==> x in posts && x.workspaceId == workspaceId && MonthStart(y, m) <= x.date <= MonthEnd(y, m)
  {
    Filter(posts, (x: PostRow) => x.workspaceId == workspaceId && MonthStart(y, m) <= x.date <= MonthEnd(y, m))
  }

  function ViewsOf(rows: seq<PostRow>, platforms: seq<PlatformRow>): (r: seq<Post>)
    ensures |r| == |rows|
    ensures forall i :: 0 <= i < |rows| ==> r[i] == ViewOf(rows[i], platforms)
  {
    seq(|rows|, i requires 0 <= i < |rows| => ViewOf(rows[i], platforms))
  }

  function PostDate(p: Post): int {
    p.date
  }

  /** A post row read back with its platforms determines the row. */
  lemma ViewOfInjective(x: PostRow, y: PostRow, platforms: seq<PlatformRow>)
    requires ViewOf(x, platforms) == ViewOf(y, platforms)
    ensures x == y
  {
  }

  /** The views of some rows are the views of exactly those rows. */
  lemma ViewsOfMembers(rows: seq<PostRow>, platforms: seq<PlatformRow>)
    ensures forall x :: ViewOf(x, platforms) in ViewsOf(rows, platforms) <==> x in rows
    ensures forall p :: p in ViewsOf(rows, platforms) ==> exists x :: x in rows && p == ViewOf(x, platforms)
  {
    var views := ViewsOf(rows, platforms);
    forall x ensures ViewOf(x, platforms) in views <==> x in rows {
      if ViewOf(x, platforms) in views {
        var i :| 0 <= i < |views| && views[i] == ViewOf(x, platforms);
        ViewOfInjective(rows[i], x, platforms);
      }
      if x in rows {
        var i :| 0 <= i < |rows| && rows[i] == x;
        assert views[i] == ViewOf(x, platforms);
      }
    }
    forall p | p in views ensures exists x :: x in rows && p == ViewOf(x, platforms) {
      var i :| 0 <= i < |views| && views[i] == p;
      assert rows[i] in rows;
    }
  }

  /** Sorting keeps exactly the elements it is given. */
  lemma SortedMembers<T>(s: seq<T>, key: T -> int)
    ensures forall p :: p in SortBy(s, key) <==> p in s
  {
    var r := SortBy(s, key);
    assert forall p :: p in r <==> p in multiset(r);
    assert forall p :: p in s <==> p in multiset(s);
  }

  /** The month listing: the month's rows of the workspace with their platforms, ascending by date. */
  function MonthListing(posts: seq<PostRow>, platforms: seq<PlatformRow>, workspaceId: Id, y: int, m: int)
    : (r: seq<Post>)
    requires 1 <= m <= 12
    ensures SortedBy(r, PostDate)
  {
    SortBy(ViewsOf(RowsInMonth(posts, workspaceId, y, m), platforms), PostDate)
  }

  /**
   * The listing holds a row's post exactly when the row is the workspace's and
   * dated within the month bounds, and holds nothing else.
   */
  lemma MonthListingExact(posts: seq<PostRow>, platforms: seq<PlatformRow>, workspaceId: Id, y: int, m: int)
    requires 1 <= m <= 12
    ensures var r := MonthListing(posts, platforms, workspaceId, y, m);
      && (forall x :: x in posts ==>
           (ViewOf(x, platforms) in r <==> x.workspaceId == workspaceId && MonthStart(y, m) <= x.date <= MonthEnd(y, m)))
      && (forall p :: p in r ==> exists x :: x in posts && p == ViewOf(x, platforms))
  {
    var rows := RowsInMonth(posts, workspaceId, y, m);
    ViewsOfMembers(rows, platforms);
    SortedMembers(ViewsOf(rows, platforms), PostDate);
  }

  /**
   * GET /api/posts?workspaceId&month&year. Month and year are the parsed query
   * numbers (`None` when absent or empty); the month is only tested for presence
   * and is then read the way `new Date(year, month - 1, 1)` reads it.
   */
  function HandleGet(db: Store, hasUser: bool, workspaceId: Option<Id>, month: Option<int>, year: Option<int>)
    : (r: ListResponse)
    reads db
    ensures !hasUser ==> r == ListUnauthorized
    ensures hasUser && (workspaceId.None? || month.None? || year.None?) ==> r == ListMissingFields
    ensures r.Listed? <==> hasUser && workspaceId.Some? && month.Some? && year.Some?
    ensures r.Listed? ==> SortedBy(r.posts, PostDate)
    ensures r.Listed? ==> var (y, m) := DateFields(year.value, month.value - 1);
      r.posts == MonthListing(db.posts, db.platforms, workspaceId.value, y, m)
  {
    if !hasUser then ListUnauthorized
    else if workspaceId.None? || month.None? || year.None? then ListMissingFields
    else
      var (y, m) := DateFields(year.value, month.value - 1);
      Listed(MonthListing(db.posts, db.platforms, workspaceId.value, y, m))
  }

  /** In the month listing, "within the bounds" means "on one of the month's calendar days". */
  lemma ListedAreMonthDays(posts: seq<PostRow>, platforms: seq<PlatformRow>, workspaceId: Id, y: int, m: int, x: PostRow)
    requires 1 <= m <= 12 && x in posts
    ensures (ViewOf(x, platforms) in MonthListing(posts, platforms, workspaceId, y, m))
      <==> (x.workspaceId == workspaceId && exists d :: 1 <= d <= DaysInMonth(y, m) && Day(x.date) == DayNumber(y, m, d))
  {
    MonthListingExact(posts, platforms, workspaceId, y, m);
    MonthBoundsAreDays(y, m, x.date);
  }

  /**
   * The month listing of March 2024 takes in its first and last millisecond and
   * leaves out 29 February and 1 April 2024.
   */
  lemma March2024Bounds()
    ensures DateFields(2024, 2) == (2024, 3)
    ensures MonthStart(2024, 3) == DayNumber(2024, 3, 1) * MsPerDay
    ensures MonthEnd(2024, 3) == DayNumber(2024, 4, 1) * MsPerDay - 1
    ensures DayNumber(2024, 2, 29) * MsPerDay + MsPerDay - 1 < MonthStart(2024, 3)
    ensures MonthEnd(2024, 3) < DayNumber(2024, 4, 1) * MsPerDay
  {
    MonthsAbut(2024, 2);
    MonthsAbut(2024, 3);
  }

  /** No new platform row and no deleted one is seen by a post other than `pid`. */
  lemma OtherRowsKept(platforms: seq<PlatformRow>, pid: Id, inputs: seq<PlatformInput>, firstId: nat, q: Id)
    requires q != pid
    ensures RowsOf(DropRowsOf(platforms, pid) + NewRows(pid, inputs, firstId), q) == RowsOf(platforms, q)
    ensures RowsOf(platforms + NewRows(pid, inputs, firstId), q) == RowsOf(platforms, q)
  {
    RowsOfConcat(DropRowsOf(platforms, pid), NewRows(pid, inputs, firstId), q);
    RowsOfConcat(platforms, NewRows(pid, inputs, firstId), q);
    RowsOfDropped(platforms, pid, q);
    RowsOfNew(pid, inputs, firstId, q);
  }

  /** After the replacement the post's rows are exactly the new ones. */
  lemma OwnRowsReplaced(platforms: seq<PlatformRow>, pid: Id, inputs: seq<PlatformInput>, firstId: nat)
    ensures RowsOf(DropRowsOf(platforms, pid) + NewRows(pid, inputs, firstId), pid) == NewRows(pid, inputs, firstId)
  {
    RowsOfConcat(DropRowsOf(platforms, pid), NewRows(pid, inputs, firstId), pid);
    RowsOfDropped(platforms, pid, pid);
    RowsOfNew(pid, inputs, firstId, pid);
  }

  /** A post id the store never handed out has no platform rows. */
  lemma FreshIdHasNoRows(db: Store)
    requires db.Valid()
    ensures RowsOf(db.platforms, db.nextId) == []
  {
    forall x | x in db.platforms ensures x.postId != db.nextId {
      var i :| 0 <= i < |db.platforms| && db.platforms[i] == x;
      var r :| r in db.posts && r.id == x.postId;
      var j :| 0 <= j < |db.posts| && db.posts[j] == r;
    }
    RowsOfAbsent(db.platforms, db.nextId);
  }

  /** Every post except the one at `k` (or, with `k` = |old|, every old post) reads back as before. */
  ghost predicate OthersUnchanged(oldPosts: seq<PostRow>, oldPlatforms: seq<PlatformRow>,
                                  posts: seq<PostRow>, platforms: seq<PlatformRow>, k: nat)
  {
    forall i :: 0 <= i < |oldPosts| && i != k ==>
      i < |posts| && posts[i] == oldPosts[i] && ViewOf(posts[i], platforms) == ViewOf(oldPosts[i], oldPlatforms)
  }

  /** Changing a post's description and update time keeps every key. */
  lemma KeysAfterUpdate(posts: seq<PostRow>, k: nat, description: string, now: Instant)
    requires k < |posts| && OnePostPerKey(posts)
    ensures OnePostPerKey(posts[k := posts[k].(description := description, updatedAt := now)])
  {
    var posts' := posts[k := posts[k].(description := description, updatedAt := now)];
    assert forall i :: 0 <= i < |posts| ==> posts'[i].workspaceId == posts[i].workspaceId && posts'[i].date == posts[i].date;
  }

  /** A new post whose key no post has keeps the keys distinct. */
  lemma KeysAfterAppend(posts: seq<PostRow>, row: PostRow)
    requires OnePostPerKey(posts) && FindPost(posts, row.workspaceId, row.date).None?
    ensures OnePostPerKey(posts + [row])
  {
  }

  /** The update path: platform rows of post `k` deleted, then description and new rows written. */
  method SaveExisting(db: Store, k: nat, description: string, inputs: seq<PlatformInput>, now: Instant)
    returns (post: Post)
    requires db.Valid() && k < |db.posts|
    modifies db
    ensures db.Valid()
    ensures db.workspaces == old(db.workspaces)
    ensures db.posts == old(db.posts)[k := old(db.posts)[k].(description := description, updatedAt := now)]
    ensures post == ViewOf(db.posts[k], db.platforms)
    ensures InputsOf(post.platforms) == inputs
    ensures OthersUnchanged(old(db.posts), old(db.platforms), db.posts, db.platforms, k)
  {
    var pid := db.posts[k].id;
    db.DeletePlatformsOf(pid);
    var firstId := db.nextId;
    post := db.UpdatePost(k, description, inputs, now);
    OwnRowsReplaced(old(db.platforms), pid, inputs, firstId);
    NewRowsRoundTrip(pid, inputs, firstId);
    forall i | 0 <= i < |old(db.posts)| && i != k
      ensures ViewOf(db.posts[i], db.platforms) == ViewOf(old(db.posts)[i], old(db.platforms))
    {
      OtherRowsKept(old(db.platforms), pid, inputs, firstId, old(db.posts)[i].id);
    }
  }

  /** The create path: a new post with fresh platform rows, refused for an unknown workspace. */
  method SaveNew(db: Store, workspaceId: Id, date: Instant, description: string, inputs: seq<PlatformInput>, now: Instant)
    returns (post: Option<Post>)
    requires db.Valid()
    modifies db
    ensures db.Valid()
    ensures db.workspaces == old(db.workspaces)
    ensures post.None? <==> workspaceId !in WorkspaceIds(db.workspaces)
    ensures post.None? ==> db.posts == old(db.posts) && db.platforms == old(db.platforms)
    ensures post.Some? ==>
      && db.posts == old(db.posts) + [PostRow(old(db.nextId), workspaceId, date, description, now, now)]
      && post.value == ViewOf(db.posts[|db.posts| - 1], db.platforms)
      && InputsOf(post.value.platforms) == inputs
      && OthersUnchanged(old(db.posts), old(db.platforms), db.posts, db.platforms, |old(db.posts)|)
  {
    var newId := db.nextId;
    FreshIdHasNoRows(db);
    post := db.CreatePost(workspaceId, date, description, inputs, now);
    if post.Some? {
      NewPostReadBack(old(db.posts), old(db.platforms), db.posts[|db.posts| - 1], inputs);
    }
  }

  /** What the create path's tables read back as: the new post has the sent entries, old posts are as before. */
  lemma NewPostReadBack(oldPosts: seq<PostRow>, oldPlatforms: seq<PlatformRow>, row: PostRow, inputs: seq<PlatformInput>)
    requires forall i :: 0 <= i < |oldPosts| ==> oldPosts[i].id < row.id
    requires RowsOf(oldPlatforms, row.id) == []
    ensures var platforms := oldPlatforms + NewRows(row.id, inputs, row.id + 1);
      && InputsOf(ViewOf(row, platforms).platforms) == inputs
      && OthersUnchanged(oldPosts, oldPlatforms, oldPosts + [row], platforms, |oldPosts|)
  {
    NewPostEntries(oldPlatforms, row, inputs);
    OldPostsKept(oldPosts, oldPlatforms, row, inputs);
  }

  lemma {:induction false} NewPostEntries(oldPlatforms: seq<PlatformRow>, row: PostRow, inputs: seq<PlatformInput>)
    requires RowsOf(oldPlatforms, row.id) == []
    ensures InputsOf(ViewOf(row, oldPlatforms + NewRows(row.id, inputs, row.id + 1)).platforms) == inputs
  {
    var created := NewRows(row.id, inputs, row.id + 1);
    RowsOfConcat(oldPlatforms, created, row.id);
    RowsOfNew(row.id, inputs, row.id + 1, row.id);
    NewRowsRoundTrip(row.id, inputs, row.id + 1);
  }

  lemma {:induction false} OldPostsKept(oldPosts: seq<PostRow>, oldPlatforms: seq<PlatformRow>, row: PostRow, inputs: seq<PlatformInput>)
    requires forall i :: 0 <= i < |oldPosts| ==> oldPosts[i].id < row.id
    ensures OthersUnchanged(oldPosts, oldPlatforms, oldPosts + [row],
                            oldPlatforms + NewRows(row.id, inputs, row.id + 1), |oldPosts|)
  {
    var platforms := oldPlatforms + NewRows(row.id, inputs, row.id + 1);
    forall i | 0 <= i < |oldPosts|
      ensures (oldPosts + [row])[i] == oldPosts[i]
      ensures ViewOf(oldPosts[i], platforms) == ViewOf(oldPosts[i], oldPlatforms)
    {
      OtherRowsKept(oldPlatforms, row.id, inputs, row.id + 1, oldPosts[i].id);
    }
  }

  /**
   * POST /api/posts. Without a user: 401 and no change. Without workspaceId or
   * date: 400 and no change. Otherwise the post with exactly that workspace and
   * date gets the description (default "") and exactly the sent platform
   * entries (default none), or a new post is created with them; either way 201.
   */
  method HandlePost(db: Store, hasUser: bool, body: PostBody, now: Instant) returns (resp: PostResponse)
    requires db.Valid()
    modifies db
    ensures db.Valid()
    ensures !hasUser ==> resp == Unauthorized
    ensures hasUser && (body.workspaceId.None? || body.date.None?) ==> resp == MissingFields
    ensures resp.Unauthorized? || resp.MissingFields? || resp.StoreFailure? ==>
      db.posts == old(db.posts) && db.platforms == old(db.platforms)
    ensures old(OnePostPerKey(db.posts)) ==> OnePostPerKey(db.posts)
    ensures db.workspaces == old(db.workspaces)
    ensures hasUser && body.workspaceId.Some? && body.date.Some? ==>
      var ws, date := body.workspaceId.value, body.date.value;
      var description, inputs := body.description.GetOr(""), body.platforms.GetOr([]);
      match FindPost(old(db.posts), ws, date)
      case Some(k) =>
        && resp.Created?
        && |db.posts| == |old(db.posts)|
        && db.posts[k] == old(db.posts)[k].(description := description, updatedAt := now)
        && resp.post == ViewOf(db.posts[k], db.platforms)
        && InputsOf(resp.post.platforms) == inputs
        && OthersUnchanged(old(db.posts), old(db.platforms), db.posts, db.platforms, k)
      case None =>
        if ws in WorkspaceIds(old(db.workspaces)) then
          && resp.Created?
          && db.posts == old(db.posts) + [PostRow(old(db.nextId), ws, date, description, now, now)]
          && resp.post == ViewOf(db.posts[|db.posts| - 1], db.platforms)
          && InputsOf(resp.post.platforms) == inputs
          && OthersUnchanged(old(db.posts), old(db.platforms), db.posts, db.platforms, |old(db.posts)|)
        else
          resp == StoreFailure
  {
    if !hasUser {
      return Unauthorized;
    }
    if body.workspaceId.None? || body.date.None? {
      return MissingFields;
    }
    var ws, date := body.workspaceId.value, body.date.value;
    var description, inputs := body.description.GetOr(""), body.platforms.GetOr([]);
    var existing := FindPost(db.posts, ws, date);
    if existing.Some? {
      if OnePostPerKey(db.posts) {
        KeysAfterUpdate(db.posts, existing.value, description, now);
      }
      var post := SaveExisting(db, existing.value, description, inputs, now);
      resp := Created(post);
    } else {
      if OnePostPerKey(db.posts) {
        KeysAfterAppend(db.posts, PostRow(db.nextId, ws, date, description, now, now));
      }
      var post := SaveNew(db, ws, date, description, inputs, now);
      resp := if post.Some? then Created(post.value) else StoreFailure;
    }
  }
}
