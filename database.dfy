/**
 * The relational store behind the route handlers, as in-memory tables: the
 * Workspace table, the Post table and the Platform table (one row per platform
 * entry, pointing at its post). Row ids come from one counter, so every id the
 * store hands out is fresh.
 */
module Database {
  import opened Wrappers
  import opened Types
  import opened Lists

  datatype PostRow = PostRow(
    id: Id,
    workspaceId: Id,
    date: Instant,
    description: string,
    createdAt: Instant,
    updatedAt: Instant)

  datatype PlatformRow = PlatformRow(id: Id, postId: Id, name: string, url: string)

  /** The platform rows of one post, in table order. */
  function RowsOf(rows: seq<PlatformRow>, postId: Id): seq<PlatformRow>
  {
    if rows == [] then []
    else (if rows[0].postId == postId then [rows[0]] else []) + RowsOf(rows[1..], postId)
  }

  /** The table after `platform.deleteMany({ where: { postId } })`. */
  function DropRowsOf(rows: seq<PlatformRow>, postId: Id): seq<PlatformRow>
  {
    if rows == [] then []
    else (if rows[0].postId != postId then [rows[0]] else []) + DropRowsOf(rows[1..], postId)
  }

  /** The rows created for `inputs` under post `postId`, with ids from `firstId` on. */
  function NewRows(postId: Id, inputs: seq<PlatformInput>, firstId: nat): (r: seq<PlatformRow>)
    ensures |r| == |inputs|
    ensures forall i :: 0 <= i < |r| ==> r[i] == PlatformRow(firstId + i, postId, inputs[i].name, inputs[i].url)
  {
    seq(|inputs|, i requires 0 <= i < |inputs| => PlatformRow(firstId + i, postId, inputs[i].name, inputs[i].url))
  }

  function EntryOf(row: PlatformRow): PlatformData {
    PlatformData(Some(row.id), row.name, row.url)
  }

  function EntriesOf(rows: seq<PlatformRow>): (r: seq<PlatformData>)
    ensures |r| == |rows|
    ensures forall i :: 0 <= i < |rows| ==> r[i] == EntryOf(rows[i])
  {
    seq(|rows|, i requires 0 <= i < |rows| => EntryOf(rows[i]))
  }

  /** A post row with its platforms attached (`include: { platforms: true }`). */
  function ViewOf(row: PostRow, platforms: seq<PlatformRow>): Post {
    Post(row.id, row.workspaceId, row.date, row.description,
         EntriesOf(RowsOf(platforms, row.id)), row.createdAt, row.updatedAt)
  }

  /** Number of posts of a workspace (`_count.posts`). */
  function CountPostsOf(posts: seq<PostRow>, workspaceId: Id): (n: nat)
    ensures n <= |posts|
    ensures n == 0 <==> forall r :: r in posts ==> r.workspaceId != workspaceId
  {
    if posts == [] then 0
    else (if posts[0].workspaceId == workspaceId then 1 else 0) + CountPostsOf(posts[1..], workspaceId)
  }

  function WorkspaceIds(workspaces: seq<Workspace>): set<Id> {
    set w | w in workspaces :: w.id
  }

  function PostIds(posts: seq<PostRow>): set<Id> {
    set r | r in posts :: r.id
  }

  /** `post.findFirst({ where: { workspaceId, date } })`: the first row with exactly that key. */
  function FindPost(posts: seq<PostRow>, workspaceId: Id, date: Instant): (r: Option<nat>)
    ensures r.Some? ==> r.value < |posts| && posts[r.value].workspaceId == workspaceId && posts[r.value].date == date
    ensures r.None? <==> forall i :: 0 <= i < |posts| ==> posts[i].workspaceId != workspaceId || posts[i].date != date
  {
    FindFirst(posts, (r: PostRow) => r.workspaceId == workspaceId && r.date == date)
  }

  /** The one-post-per-day invariant: no two posts share a (workspaceId, date) key. */
  ghost predicate OnePostPerKey(posts: seq<PostRow>) {
    forall i, j :: 0 <= i < j < |posts| ==>
      posts[i].workspaceId != posts[j].workspaceId || posts[i].date != posts[j].date
  }

  lemma {:induction false} RowsOfConcat(a: seq<PlatformRow>, b: seq<PlatformRow>, postId: Id)
    ensures RowsOf(a + b, postId) == RowsOf(a, postId) + RowsOf(b, postId)
  {
    if a == [] {
      assert a + b == b;
    } else {
      assert (a + b)[1..] == a[1..] + b;
      RowsOfConcat(a[1..], b, postId);
    }
  }

  /** After deleting a post's platform rows it has none; every other post keeps its own. */
  lemma {:induction false} RowsOfDropped(rows: seq<PlatformRow>, dropped: Id, postId: Id)
    ensures RowsOf(DropRowsOf(rows, dropped), postId) == if postId == dropped then [] else RowsOf(rows, postId)
  {
    if rows != [] {
      RowsOfDropped(rows[1..], dropped, postId);
      var head := if rows[0].postId != dropped then [rows[0]] else [];
      RowsOfConcat(head, DropRowsOf(rows[1..], dropped), postId);
    }
  }

  /** A table whose rows all point elsewhere has no rows for `postId`. */
  lemma {:induction false} RowsOfAbsent(rows: seq<PlatformRow>, postId: Id)
    requires forall x :: x in rows ==> x.postId != postId
    ensures RowsOf(rows, postId) == []
  {
    if rows != [] {
      RowsOfAbsent(rows[1..], postId);
    }
  }

  /** Deleting a post's rows keeps exactly the rows of the other posts. */
  lemma {:induction false} DropRowsOfMembers(rows: seq<PlatformRow>, postId: Id)
    ensures forall x :: x in DropRowsOf(rows, postId) <==> x in rows && x.postId != postId
  {
    if rows != [] {
      DropRowsOfMembers(rows[1..], postId);
      assert rows == [rows[0]] + rows[1..];
    }
  }

  /** Freshly created rows belong to their post only, in the order given. */
  lemma {:induction false} RowsOfNew(owner: Id, inputs: seq<PlatformInput>, firstId: nat, postId: Id)
    ensures RowsOf(NewRows(owner, inputs, firstId), postId) == if postId == owner then NewRows(owner, inputs, firstId) else []
  {
    var rows := NewRows(owner, inputs, firstId);
    if inputs != [] {
      RowsOfNew(owner, inputs[1..], firstId + 1, postId);
      assert rows[1..] == NewRows(owner, inputs[1..], firstId + 1);
    }
  }

  /** Reading created rows back gives exactly the entries that were sent. */
  lemma NewRowsRoundTrip(owner: Id, inputs: seq<PlatformInput>, firstId: nat)
    ensures InputsOf(EntriesOf(NewRows(owner, inputs, firstId))) == inputs
  {
  }

  lemma PostIdsSame(a: seq<PostRow>, b: seq<PostRow>)
    requires |a| == |b| && forall i :: 0 <= i < |a| ==> a[i].id == b[i].id
    ensures PostIds(a) == PostIds(b)
  {
    forall x | x in PostIds(a) ensures x in PostIds(b) {
      var i :| 0 <= i < |a| && a[i].id == x;
      assert b[i] in b;
    }
    forall x | x in PostIds(b) ensures x in PostIds(a) {
      var i :| 0 <= i < |b| && b[i].id == x;
      assert a[i] in a;
    }
  }

  lemma PostIdsAppend(a: seq<PostRow>, x: PostRow)
    ensures PostIds(a + [x]) == PostIds(a) + {x.id}
  {
    assert forall r :: r in a + [x] <==> r in a || r == x;
  }

  lemma WorkspaceIdsAppend(a: seq<Workspace>, x: Workspace)
    ensures WorkspaceIds(a + [x]) == WorkspaceIds(a) + {x.id}
  {
    assert forall r :: r in a + [x] <==> r in a || r == x;
  }

  /** Workspace ids are below the counter and distinct; the table holds no count projection. */
  ghost predicate WorkspacesValid(workspaces: seq<Workspace>, nextId: nat) {
    && (forall i :: 0 <= i < |workspaces| ==> workspaces[i].id < nextId && workspaces[i].postCount.None?)
    && (forall i, j :: 0 <= i < j < |workspaces| ==> workspaces[i].id != workspaces[j].id)
  }

  /** Post ids are below the counter and distinct; every post belongs to an existing workspace. */
  ghost predicate PostsValid(posts: seq<PostRow>, wsIds: set<Id>, nextId: nat) {
    && (forall i :: 0 <= i < |posts| ==> posts[i].id < nextId && posts[i].workspaceId in wsIds)
    && (forall i, j :: 0 <= i < j < |posts| ==> posts[i].id != posts[j].id)
  }

  /** Platform row ids are below the counter; every row belongs to an existing post. */
  ghost predicate PlatformsValid(platforms: seq<PlatformRow>, postIds: set<Id>, nextId: nat) {
    forall i :: 0 <= i < |platforms| ==> platforms[i].id < nextId && platforms[i].postId in postIds
  }

  lemma PostsValidAppend(posts: seq<PostRow>, wsIds: set<Id>, nextId: nat, row: PostRow, nextId': nat)
    requires PostsValid(posts, wsIds, nextId)
    requires row.id == nextId < nextId' && row.workspaceId in wsIds
    ensures PostsValid(posts + [row], wsIds, nextId')
  {
  }

  lemma PlatformsValidAppend(platforms: seq<PlatformRow>, postIds: set<Id>, nextId: nat,
                             created: seq<PlatformRow>, postIds': set<Id>, nextId': nat)
    requires PlatformsValid(platforms, postIds, nextId)
    requires postIds <= postIds' && nextId <= nextId'
    requires PlatformsValid(created, postIds', nextId')
    ensures PlatformsValid(platforms + created, postIds', nextId')
  {
  }

  lemma NewRowsValid(owner: Id, inputs: seq<PlatformInput>, firstId: nat, postIds: set<Id>)
    requires owner in postIds
    ensures PlatformsValid(NewRows(owner, inputs, firstId), postIds, firstId + |inputs|)
  {
  }

  class Store {
    var workspaces: seq<Workspace>
    var posts: seq<PostRow>
    var platforms: seq<PlatformRow>
    var nextId: nat

    /** Primary keys are below the id counter and distinct; every post and platform row points at an existing parent. */
    ghost predicate Valid()
      reads this
    {
      && WorkspacesValid(workspaces, nextId)
      && PostsValid(posts, WorkspaceIds(workspaces), nextId)
      && PlatformsValid(platforms, PostIds(posts), nextId)
    }

    constructor ()
      ensures Valid()
      ensures workspaces == [] && posts == [] && platforms == [] && nextId == 0
    {
      workspaces, posts, platforms, nextId := [], [], [], 0;
    }

    /** `platform.deleteMany({ where: { postId } })`. */
    method DeletePlatformsOf(postId: Id)
      requires Valid()
      modifies this`platforms
      ensures Valid()
      ensures platforms == DropRowsOf(old(platforms), postId)
    {
      DropRowsOfMembers(platforms, postId);
      platforms := DropRowsOf(platforms, postId);
      assert forall i :: 0 <= i < |platforms| ==> platforms[i] in old(platforms);
    }

    /**
     * `post.update` of row `k`: a new description, a new update time, and one new
     * platform row per entry of `inputs`. Returns the row with its platforms.
     */
    method UpdatePost(k: nat, description: string, inputs: seq<PlatformInput>, now: Instant) returns (post: Post)
      requires Valid() && k < |posts|
      modifies this`posts, this`platforms, this`nextId
      ensures Valid()
      ensures posts == old(posts)[k := old(posts)[k].(description := description, updatedAt := now)]
      ensures platforms == old(platforms) + NewRows(old(posts)[k].id, inputs, old(nextId))
      ensures nextId == old(nextId) + |inputs|
      ensures post == ViewOf(posts[k], platforms)
    {
      posts := posts[k := posts[k].(description := description, updatedAt := now)];
      PostIdsSame(posts, old(posts));
      platforms := platforms + NewRows(posts[k].id, inputs, nextId);
      nextId := nextId + |inputs|;
      post := ViewOf(posts[k], platforms);
    }

    /**
     * `post.create`: a new row for `workspaceId` at `date`, with one platform row
     * per entry. The Post table's foreign key refuses a workspace that does not
     * exist; then nothing changes and the result is `None`.
     */
    method CreatePost(workspaceId: Id, date: Instant, description: string, inputs: seq<PlatformInput>, now: Instant)
      returns (post: Option<Post>)
      requires Valid()
      modifies this`posts, this`platforms, this`nextId
      ensures Valid()
      ensures post.None? <==> workspaceId !in WorkspaceIds(workspaces)
      ensures post.None? ==> posts == old(posts) && platforms == old(platforms) && nextId == old(nextId)
      ensures post.Some? ==>
        && posts == old(posts) + [PostRow(old(nextId), workspaceId, date, description, now, now)]
        && platforms == old(platforms) + NewRows(old(nextId), inputs, old(nextId) + 1)
        && nextId == old(nextId) + 1 + |inputs|
        && post.value == ViewOf(posts[|posts| - 1], platforms)
    {
      if workspaceId !in WorkspaceIds(workspaces) {
        post := None;
      } else {
        var row := PostRow(nextId, workspaceId, date, description, now, now);
        var created := NewRows(row.id, inputs, nextId + 1);
        PostIdsAppend(posts, row);
        PostsValidAppend(posts, WorkspaceIds(workspaces), nextId, row, nextId + 1 + |inputs|);
        NewRowsValid(row.id, inputs, nextId + 1, PostIds(posts + [row]));
        PlatformsValidAppend(platforms, PostIds(posts), nextId, created, PostIds(posts + [row]), nextId + 1 + |inputs|);
        posts := posts + [row];
        platforms := platforms + created;
        nextId := nextId + 1 + |inputs|;
        post := Some(ViewOf(row, platforms));
      }
    }

    /** `workspace.create`: a new workspace with no share token, created and updated `now`. */
    method CreateWorkspace(name: string, clientName: string, now: Instant) returns (w: Workspace)
      requires Valid()
      modifies this`workspaces, this`nextId
      ensures Valid()
      ensures w == Workspace(old(nextId), name, clientName, None, now, now, None)
      ensures workspaces == old(workspaces) + [w]
      ensures nextId == old(nextId) + 1
      ensures CountPostsOf(posts, w.id) == 0
    {
      w := Workspace(nextId, name, clientName, None, now, now, None);
      WorkspaceIdsAppend(workspaces, w);
      workspaces := workspaces + [w];
      nextId := nextId + 1;
      forall r | r in posts ensures r.workspaceId != w.id {
        var i :| 0 <= i < |posts| && posts[i] == r;
        var j :| 0 <= j < |old(workspaces)| && old(workspaces)[j].id == r.workspaceId;
      }
    }
  }
}
