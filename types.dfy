/**
 * The shared record types of the planner: platforms, platform entries, posts,
 * workspaces and the month summary.
 *
 * Identifiers are opaque in the planner and only ever compared for equality,
 * so they are naturals here. Instants are milliseconds since 1970-01-01T00:00Z;
 * the planner's ISO date strings are the canonical spelling of one instant each,
 * so comparing the strings is comparing the instants.
 */
module Types {
  import opened Wrappers

  type Id = nat
  type Instant = int

  /** The six social networks a post can be planned for. */
  datatype PlatformName = Instagram | TikTok | YouTube | Facebook | Twitter | LinkedIn

  /** The wire name of a platform. */
  function NameOf(p: PlatformName): string {
    match p
    case Instagram => "instagram"
    case TikTok => "tiktok"
    case YouTube => "youtube"
    case Facebook => "facebook"
    case Twitter => "twitter"
    case LinkedIn => "linkedin"
  }

  /**
   * Reads a wire name back. Names travel as plain strings and the server stores
   * whatever it is sent, so a name outside the six gives `None`.
   */
  function ParsePlatform(s: string): (r: Option<PlatformName>)
    ensures r.Some? ==> NameOf(r.value) == s
    ensures r.None? <==> forall p: PlatformName :: NameOf(p) != s
  {
    if s == "instagram" then Some(Instagram)
    else if s == "tiktok" then Some(TikTok)
    else if s == "youtube" then Some(YouTube)
    else if s == "facebook" then Some(Facebook)
    else if s == "twitter" then Some(Twitter)
    else if s == "linkedin" then Some(LinkedIn)
    else None
  }

  /** The set of the six wire names. */
  const AllNames: set<string> := {"instagram", "tiktok", "youtube", "facebook", "twitter", "linkedin"}

  /** Reading back a written name gives the platform; the wire names are exactly the six. */
  lemma NameRoundTrip(p: PlatformName, s: string)
    ensures ParsePlatform(NameOf(p)) == Some(p)
    ensures ParsePlatform(s).Some? <==> s in AllNames
    ensures |AllNames| == 6
  {
    assert AllNames == {NameOf(Instagram), NameOf(TikTok), NameOf(YouTube), NameOf(Facebook), NameOf(Twitter), NameOf(LinkedIn)};
  }

  /** A platform entry of a post: its (optional) row id, a platform name and a link. */
  datatype PlatformData = PlatformData(id: Option<Id>, name: string, url: string)

  /** A platform entry as the clients send it: a name and a link, no id. */
  datatype PlatformInput = PlatformInput(name: string, url: string)

  function InputOf(e: PlatformData): PlatformInput {
    PlatformInput(e.name, e.url)
  }

  function InputsOf(es: seq<PlatformData>): (r: seq<PlatformInput>)
    ensures |r| == |es|
    ensures forall i :: 0 <= i < |es| ==> r[i] == InputOf(es[i])
  {
    seq(|es|, i requires 0 <= i < |es| => InputOf(es[i]))
  }

  /** One day's planned content in a workspace. */
  datatype Post = Post(
    id: Id,
    workspaceId: Id,
    date: Instant,
    description: string,
    platforms: seq<PlatformData>,
    createdAt: Instant,
    updatedAt: Instant)

  /** A client's content calendar; `postCount` is the optional `_count.posts` projection. */
  datatype Workspace = Workspace(
    id: Id,
    name: string,
    clientName: string,
    shareToken: Option<string>,
    createdAt: Instant,
    updatedAt: Instant,
    postCount: Option<nat>)

  /** The six counters of the month overview. */
  datatype MonthStats = MonthStats(
    totalPosts: nat,
    videos: nat,
    instagramPosts: nat,
    tiktokPosts: nat,
    platformsActive: nat,
    daysPlanned: nat)

  /**
   * The body of a post save request. A field the sender left out or sent as
   * null is `None`; so is an id or a date sent as an empty string.
   */
  datatype PostBody = PostBody(
    workspaceId: Option<Id>,
    date: Option<Instant>,
    description: Option<string>,
    platforms: Option<seq<PlatformInput>>)
}
