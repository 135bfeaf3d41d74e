/**
 * The month's content plan under the calendar: the posts in date order, each
 * with its description and platform chips, a count label, and the link
 * normaliser the chips' targets go through.
 */
module MonthPlanList {
  import opened Wrappers
  import opened Types
  import opened Lists
  import opened Text

  /**
   * The test `/^https?:\/\//i`: the url starts with "http://" or "https://" in
   * any mix of letter case. Without the `u` flag the `i` flag folds no
   * character outside ASCII onto an ASCII one, so ASCII folding is the whole
   * of it.
   */
  predicate HasHttpPrefix(url: string) {
    || (|url| >= 7 && LowerAsciiString(url[..7]) == "http://")
    || (|url| >= 8 && LowerAsciiString(url[..8]) == "https://")
  }

  /** `ensureAbsoluteUrl`: "#" for no url, an absolute url as it is, anything else behind "https://". */
  function EnsureAbsoluteUrl(url: string): string {
    if url == "" then "#"
    else if HasHttpPrefix(url) then url
    else "https://" + url
  }

  /** The three cases of the normaliser. */
  lemma NormaliserCases(url: string)
    ensures url == "" ==> EnsureAbsoluteUrl(url) == "#"
    ensures url != "" && HasHttpPrefix(url) ==> EnsureAbsoluteUrl(url) == url
    ensures url != "" && !HasHttpPrefix(url) ==> EnsureAbsoluteUrl(url) == "https://" + url
  {
  }

  /** The normaliser never gives the empty string, and gives "#" only for the empty url. */
  lemma NormaliserNonEmpty(url: string)
    ensures EnsureAbsoluteUrl(url) != ""
    ensures EnsureAbsoluteUrl(url) == "#" <==> url == ""
  {
    if url != "" && HasHttpPrefix(url) {
      assert |url| >= 7;
    }
  }

  /** Whatever the normaliser prefixes is then absolute. */
  lemma PrefixedIsAbsolute(url: string)
    ensures HasHttpPrefix("https://" + url)
  {
    var s := "https://" + url;
    assert s[..8] == "https://";
    assert LowerAsciiString(s[..8]) == "https://";
  }

  /** On a non-empty url, normalising twice is normalising once. */
  lemma NormaliserIdempotent(url: string)
    requires url != ""
    ensures EnsureAbsoluteUrl(EnsureAbsoluteUrl(url)) == EnsureAbsoluteUrl(url)
  {
    NormaliserNonEmpty(url);
    if !HasHttpPrefix(url) {
      PrefixedIsAbsolute(url);
    }
  }

  /** The empty url is the exception: "#" is not absolute, so a second pass gives "https://#". */
  lemma NormaliserTwiceOnEmpty()
    ensures EnsureAbsoluteUrl(EnsureAbsoluteUrl("")) == "https://#"
  {
    assert !HasHttpPrefix("#");
  }

  /** Letter case in the scheme does not matter; a bare host gets the https scheme. */
  lemma NormaliserExamples()
    ensures EnsureAbsoluteUrl("HtTpS://example.com") == "HtTpS://example.com"
    ensures EnsureAbsoluteUrl("HTTP://a") == "HTTP://a"
    ensures EnsureAbsoluteUrl("www.example.com") == "https://" + "www.example.com"
  {
    MixedCaseHttps();
    NormaliserCases("HtTpS://example.com");
    UpperCaseHttp();
    NormaliserCases("HTTP://a");
    BareHost();
    NormaliserCases("www.example.com");
  }

  lemma MixedCaseHttps()
    ensures HasHttpPrefix("HtTpS://example.com")
  {
    var u := "HtTpS://example.com";
    assert u[..8] == "HtTpS://";
    var l := LowerAsciiString(u[..8]);
    assert l[0] == 'h' && l[1] == 't' && l[2] == 't' && l[3] == 'p' && l[4] == 's';
    assert l[5] == ':' && l[6] == '/' && l[7] == '/';
    assert l == "https://";
  }

  lemma UpperCaseHttp()
    ensures HasHttpPrefix("HTTP://a")
  {
    var u := "HTTP://a";
    assert u[..7] == "HTTP://";
    var l := LowerAsciiString(u[..7]);
    assert l[0] == 'h' && l[1] == 't' && l[2] == 't' && l[3] == 'p';
    assert l[4] == ':' && l[5] == '/' && l[6] == '/';
    assert l == "http://";
  }

  lemma BareHost()
    ensures !HasHttpPrefix("www.example.com")
  {
    var u := "www.example.com";
    assert LowerAsciiString(u[..7])[0] == 'w';
    assert LowerAsciiString(u[..8])[0] == 'w';
  }

  /** Sort key: the post's instant (`new Date(date).getTime()`). */
  function DateOf(p: Post): int {
    p.date
  }

  /** The list is a sorted copy: ascending by date and a permutation of the posts; the posts are values, so nothing is mutated. */
  function SortedPlan(posts: seq<Post>): (r: seq<Post>)
    ensures SortedBy(r, DateOf)
    ensures multiset(r) == multiset(posts)
  {
    SortBy(posts, DateOf)
  }

  /** The header's count label. */
  function CountLabel(n: nat): string {
    "post" + PluralSuffix(n)
  }

  lemma CountLabelSingular(n: nat)
    ensures CountLabel(n) == "post" <==> n == 1
    ensures n != 1 ==> CountLabel(n) == "posts"
  {
    assert CountLabel(n) == "post" + PluralSuffix(n);
    if CountLabel(n) == "post" {
      assert |PluralSuffix(n)| == 0;
    }
  }

  /** A platform chip: a link to the normalised url, or a plain chip without a url. */
  datatype Chip = LinkChip(platform: PlatformName, href: string) | PlainChip(platform: PlatformName)

  /** The chip of one entry; none for a name outside the six. */
  function ChipFor(e: PlatformData): (r: Option<Chip>)
    ensures r.Some? <==> ParsePlatform(e.name).Some?
    ensures r.Some? ==> r.value.platform == ParsePlatform(e.name).value
    ensures r.Some? ==> (r.value.LinkChip? <==> e.url != "")
    ensures r.Some? && r.value.LinkChip? ==> r.value.href == EnsureAbsoluteUrl(e.url) && r.value.href != "#"
  {
    match ParsePlatform(e.name)
    case None => None
    case Some(p) =>
      NormaliserNonEmpty(e.url);
      Some(if e.url != "" then LinkChip(p, EnsureAbsoluteUrl(e.url)) else PlainChip(p))
  }

  /** The entries' chips, in entry order, unknown names skipped. */
  function PlanChips(ps: seq<PlatformData>): (r: seq<Chip>)
    ensures |r| <= |ps|
    ensures forall c :: c in r <==> exists e :: e in ps && ChipFor(e) == Some(c)
  {
    if ps == [] then []
    else
      var rest := PlanChips(ps[1..]);
      assert forall e :: e in ps <==> e == ps[0] || e in ps[1..];
      match ChipFor(ps[0])
      case None => rest
      case Some(c) => [c] + rest
  }

  /** Only known names make chips: a list of unknown names has none. */
  lemma {:induction false} UnknownNamesNoChips(ps: seq<PlatformData>)
    requires forall e :: e in ps ==> ParsePlatform(e.name).None?
    ensures PlanChips(ps) == []
  {
    if ps != [] {
      assert ps[0] in ps;
      assert forall e :: e in ps[1..] ==> e in ps;
      UnknownNamesNoChips(ps[1..]);
    }
  }

  /** One row of the plan. */
  datatype PlanRow = PlanRow(
    post: Post,
    showDescription: bool,
    showPlatforms: bool,
    chips: seq<Chip>,
    hint: string)

  /** A row: the description only when non-empty, the chip strip only when the post has entries. */
  function RowOf(p: Post, readonly: bool): (r: PlanRow)
    ensures r.post == p
    ensures r.showDescription <==> p.description != ""
    ensures r.showPlatforms <==> |p.platforms| > 0
    ensures r.chips == PlanChips(p.platforms)
    ensures r.hint == if readonly then "View →" else "Edit →"
  {
    PlanRow(p, p.description != "", |p.platforms| > 0, PlanChips(p.platforms),
            if readonly then "View →" else "Edit →")
  }

  /** What the plan shows: an empty state (with the "click a date" hint outside the read-only view) or the rows. */
  datatype PlanView = EmptyPlan(countLabel: string, showAddHint: bool) | PlanRows(countLabel: string, rows: seq<PlanRow>)

  function Plan(posts: seq<Post>, readonly: bool): (r: PlanView)
    ensures r.EmptyPlan? <==> posts == []
    ensures r.countLabel == CountLabel(|posts|)
    ensures r.EmptyPlan? ==> (r.showAddHint <==> !readonly)
    ensures r.PlanRows? ==>
      && |r.rows| == |posts|
      && (forall i :: 0 <= i < |r.rows| ==> r.rows[i] == RowOf(SortedPlan(posts)[i], readonly))
      && (forall i, j :: 0 <= i < j < |r.rows| ==> r.rows[i].post.date <= r.rows[j].post.date)
  {
    var sorted := SortedPlan(posts);
    SortedPlanLength(posts);
    if sorted == [] then EmptyPlan(CountLabel(0), !readonly)
    else
      var rows := seq(|sorted|, i requires 0 <= i < |sorted| => RowOf(sorted[i], readonly));
      RowsInDateOrder(sorted, rows, readonly);
      PlanRows(CountLabel(|sorted|), rows)
  }

  lemma SortedPlanLength(posts: seq<Post>)
    ensures |SortedPlan(posts)| == |posts|
  {
    var sorted := SortedPlan(posts);
    assert |sorted| == |multiset(sorted)| == |multiset(posts)| == |posts|;
  }

  /** Rows made from date-sorted posts are in date order. */
  lemma RowsInDateOrder(sorted: seq<Post>, rows: seq<PlanRow>, readonly: bool)
    requires SortedBy(sorted, DateOf)
    requires |rows| == |sorted| && forall i :: 0 <= i < |rows| ==> rows[i] == RowOf(sorted[i], readonly)
    ensures forall i, j :: 0 <= i < j < |rows| ==> rows[i].post.date <= rows[j].post.date
  {
    forall i, j | 0 <= i < j < |rows| ensures rows[i].post.date <= rows[j].post.date {
      assert DateOf(sorted[i]) <= DateOf(sorted[j]);
    }
  }
}
