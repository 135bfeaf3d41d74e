/**
 * The read-only post view of one day: nothing without a date, the
 * "No content planned" message without a post, otherwise the description and
 * one link per entry with a known platform name. Its link normaliser is the
 * same function as the plan list's.
 */
module PostViewDialog {
  import opened Wrappers
  import opened Types
  import opened MonthPlanList

  /** A platform link: the normalised target and whether the "View post" hint shows. */
  datatype ViewLink = ViewLink(platform: PlatformName, href: string, showHint: bool)

  datatype ViewBody =
    | NoContent
    | Details(description: Option<string>, platformsSection: bool, links: seq<ViewLink>)

  /** The link of one entry; none for a name outside the six. */
  function LinkFor(e: PlatformData): (r: Option<ViewLink>)
    ensures r.Some? <==> ParsePlatform(e.name).Some?
    ensures r.Some? ==> r.value.platform == ParsePlatform(e.name).value
    ensures r.Some? ==> r.value.href == EnsureAbsoluteUrl(e.url)
    ensures r.Some? ==> (r.value.showHint <==> e.url != "")
  {
    match ParsePlatform(e.name)
    case None => None
    case Some(p) => Some(ViewLink(p, EnsureAbsoluteUrl(e.url), e.url != ""))
  }

  /** The entries' links in entry order, unknown names skipped. */
  function LinksOf(ps: seq<PlatformData>): (r: seq<ViewLink>)
    ensures |r| <= |ps|
    ensures forall l :: l in r <==> exists e :: e in ps && LinkFor(e) == Some(l)
  {
    if ps == [] then []
    else
      var rest := LinksOf(ps[1..]);
      assert forall e :: e in ps <==> e == ps[0] || e in ps[1..];
      match LinkFor(ps[0])
      case None => rest
      case Some(l) => [l] + rest
  }

  /** The dialog's body for the day's post. */
  function BodyFor(post: Option<Post>): (r: ViewBody)
    ensures r.NoContent? <==> post.None?
    ensures r.Details? ==>
      && (r.description.Some? <==> post.value.description != "")
      && (r.description.Some? ==> r.description.value == post.value.description)
      && (r.platformsSection <==> |post.value.platforms| > 0)
      && r.links == LinksOf(post.value.platforms)
  {
    match post
    case None => NoContent
    case Some(p) =>
      Details(if p.description != "" then Some(p.description) else None,
              |p.platforms| > 0, LinksOf(p.platforms))
  }

  /** Nothing at all is rendered without a date. */
  function ViewDialog(date: Option<Instant>, post: Option<Post>): (r: Option<ViewBody>)
    ensures r.None? <==> date.None?
    ensures r.Some? ==> r.value == BodyFor(post)
  {
    if date.None? then None else Some(BodyFor(post))
  }

  /**
   * A link with no url still points somewhere ("#") but shows no hint; a link
   * with a url never points at "#".
   */
  lemma HintIffTarget(e: PlatformData)
    requires LinkFor(e).Some?
    ensures LinkFor(e).value.showHint <==> LinkFor(e).value.href != "#"
  {
    NormaliserNonEmpty(e.url);
  }

  /**
   * The view and the plan list agree on every known entry: the plan's chip is
   * a link exactly where the view shows the hint, with the same target.
   */
  lemma ViewAgreesWithPlan(e: PlatformData)
    requires ParsePlatform(e.name).Some?
    ensures var l, c := LinkFor(e).value, ChipFor(e).value;
      && (l.showHint <==> c.LinkChip?)
      && (c.LinkChip? ==> c.href == l.href)
      && l.platform == c.platform
  {
  }
}
