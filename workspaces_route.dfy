/**
 * The workspaces endpoint: GET lists every workspace, newest first, each with
 * the number of its posts; POST creates a workspace from a name and a client
 * name. The signed-in user is the boolean `hasUser`; the current time is `now`.
 */
module WorkspacesRoute {
  import opened Wrappers
  import opened Types
  import opened Lists
  import opened Text
  import opened Database

  datatype CreateResponse = WsUnauthorized | WsMissingFields | WsCreated(workspace: Workspace)

  datatype WsListResponse = WsListUnauthorized | WsListed(workspaces: seq<Workspace>)

  function CreateStatus(r: CreateResponse): int {
    match r
    case WsUnauthorized => 401
    case WsMissingFields => 400
    case WsCreated(_) => 201
  }

  function WsListStatus(r: WsListResponse): int {
    match r
    case WsListUnauthorized => 401
    case WsListed(_) => 200
  }

  /** A body field passes `!x` only when it is present and not the empty string. */
  predicate Present(x: Option<string>) {
    x.Some? && x.value != ""
  }

  /** A stored workspace with its `_count.posts` projection filled in. */
  function Annotated(w: Workspace, posts: seq<PostRow>): (r: Workspace)
    ensures r.postCount == Some(CountPostsOf(posts, w.id))
    ensures r.(postCount := w.postCount) == w
  {
    w.(postCount := Some(CountPostsOf(posts, w.id)))
  }

  function AnnotateAll(workspaces: seq<Workspace>, posts: seq<PostRow>): (r: seq<Workspace>)
    ensures |r| == |workspaces|
    ensures forall i :: 0 <= i < |r| ==> r[i] == Annotated(workspaces[i], posts)
  {
    seq(|workspaces|, i requires 0 <= i < |workspaces| => Annotated(workspaces[i], posts))
  }

  /** Sort key of `orderBy: { createdAt: "desc" }`. */
  function NewestFirst(w: Workspace): int {
    -w.createdAt
  }

  /** The listing: every workspace annotated, newest first. */
  function WorkspaceListing(workspaces: seq<Workspace>, posts: seq<PostRow>): (r: seq<Workspace>)
    ensures forall i, j :: 0 <= i < j < |r| ==> r[i].createdAt >= r[j].createdAt
    ensures multiset(r) == multiset(AnnotateAll(workspaces, posts))
  {
    var r := SortBy(AnnotateAll(workspaces, posts), NewestFirst);
    assert forall i, j :: 0 <= i < j < |r| ==> NewestFirst(r[i]) <= NewestFirst(r[j]);
    r
  }

  /**
   * The listing has one entry per stored workspace: each one annotated with its
   * own post count, and nothing else.
   */
  lemma WorkspaceListingExact(workspaces: seq<Workspace>, posts: seq<PostRow>)
    ensures var r := WorkspaceListing(workspaces, posts);
      && |r| == |workspaces|
      && (forall w :: w in workspaces ==> Annotated(w, posts) in r)
      && (forall v :: v in r ==> exists w :: w in workspaces && v == Annotated(w, posts))
      && (forall v :: v in r ==> v.postCount == Some(CountPostsOf(posts, v.id)))
  {
    var a := AnnotateAll(workspaces, posts);
    var r := WorkspaceListing(workspaces, posts);
    assert |r| == |multiset(r)| == |multiset(a)| == |a|;
    forall w | w in workspaces ensures Annotated(w, posts) in r {
      var i :| 0 <= i < |workspaces| && workspaces[i] == w;
      assert a[i] in multiset(a);
    }
    forall v | v in r ensures exists w :: w in workspaces && v == Annotated(w, posts) {
      assert v in multiset(a);
      var i :| 0 <= i < |a| && a[i] == v;
      assert workspaces[i] in workspaces;
    }
  }

  /** GET /api/workspaces. */
  function HandleList(db: Store, hasUser: bool): (r: WsListResponse)
    reads db
    ensures r.WsListUnauthorized? <==> !hasUser
    ensures r.WsListed? ==>
      && (forall i, j :: 0 <= i < j < |r.workspaces| ==> r.workspaces[i].createdAt >= r.workspaces[j].createdAt)
      && multiset(r.workspaces) == multiset(AnnotateAll(db.workspaces, db.posts))
  {
    if !hasUser then WsListUnauthorized else WsListed(WorkspaceListing(db.workspaces, db.posts))
  }

  /**
   * POST /api/workspaces. Without a user: 401, and the body is not looked at.
   * Without a name or a client name (absent or ""): 400. Otherwise exactly one
   * workspace is added with those two strings as sent, and it is answered with
   * a post count of 0.
   */
  method HandleCreate(db: Store, hasUser: bool, name: Option<string>, clientName: Option<string>, now: Instant)
    returns (resp: CreateResponse)
    requires db.Valid()
    modifies db
    ensures db.Valid()
    ensures !hasUser ==> resp == WsUnauthorized
    ensures hasUser && !(Present(name) && Present(clientName)) ==> resp == WsMissingFields
    ensures resp.WsCreated? <==> hasUser && Present(name) && Present(clientName)
    ensures db.posts == old(db.posts) && db.platforms == old(db.platforms)
    ensures !resp.WsCreated? ==> db.workspaces == old(db.workspaces)
    ensures resp.WsCreated? ==>
      var w := resp.workspace;
      && w.name == name.value && w.clientName == clientName.value
      && w.shareToken.None? && w.createdAt == now && w.updatedAt == now
      && w.id !in WorkspaceIds(old(db.workspaces))
      && db.workspaces == old(db.workspaces) + [w.(postCount := None)]
      && w.postCount == Some(0)
  {
    if !hasUser {
      return WsUnauthorized;
    }
    if !(Present(name) && Present(clientName)) {
      return WsMissingFields;
    }
    ghost var oldIds := WorkspaceIds(db.workspaces);
    var w := db.CreateWorkspace(name.value, clientName.value, now);
    assert w.id !in oldIds by {
      forall v | v in old(db.workspaces) ensures v.id < w.id {
        var i :| 0 <= i < |old(db.workspaces)| && old(db.workspaces)[i] == v;
      }
    }
    resp := WsCreated(w.(postCount := Some(CountPostsOf(db.posts, w.id))));
  }

  /**
   * What the workspace forms let through, the endpoint accepts: both trimmed
   * fields are non-empty strings.
   */
  lemma FormFieldsPassServer(name: string, clientName: string)
    requires TrimmedFields(name, clientName).Some?
    ensures var (n, c) := TrimmedFields(name, clientName).value;
      Present(Some(n)) && Present(Some(c))
  {
  }

  /**
   * The endpoint itself does not trim: a name of blanks is accepted there,
   * though the forms never send one.
   */
  lemma BlankNameReachesStore()
    ensures Present(Some(" ")) && TrimmedFields(" ", "Client").None?
  {
    assert Trim(" ") == "" by {
      assert IsSpace(' ');
      assert TrimStart(" ") == TrimStart("");
    }
  }
}
