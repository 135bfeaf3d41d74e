/**
 * The post editor of one calendar day: its initial platform flags and links
 * taken from the day's post, the platform toggle, the platform list it saves
 * and the clear action. Flags and links are records keyed by the entries' raw
 * names, as the editor writes `init[p.name]` without checking the name.
 */
module PostDialog {
  import opened Wrappers
  import opened Types

  /** The editor's platform buttons, in display order. */
  const PlatformOrder: seq<PlatformName> := [Instagram, TikTok, YouTube, Facebook, Twitter, LinkedIn]

  /** Position of a platform in the editor's order. */
  function Rank(p: PlatformName): (r: nat)
    ensures r < |PlatformOrder| && PlatformOrder[r] == p
  {
    match p
    case Instagram => 0
    case TikTok => 1
    case YouTube => 2
    case Facebook => 3
    case Twitter => 4
    case LinkedIn => 5
  }

  /** Position of a wire name in the editor's order; 6 for a name outside the six. */
  function NameRank(s: string): nat {
    match ParsePlatform(s)
    case Some(p) => Rank(p)
    case None => 6
  }

  /** The platform entries of the edited post; none without a post. */
  function Entries(post: Option<Post>): seq<PlatformData> {
    if post.Some? then post.value.platforms else []
  }

  function NamesOf(ps: seq<PlatformData>): set<string> {
    set e | e in ps :: e.name
  }

  lemma {:induction false} NamesOfSnoc(ps: seq<PlatformData>, x: PlatformData)
    ensures NamesOf(ps + [x]) == NamesOf(ps) + {x.name}
  {
    assert forall e :: e in ps + [x] <==> e in ps || e == x;
  }

  predicate IsActive(active: map<string, bool>, name: string) {
    name in active && active[name]
  }

  /** The initial flags: the six names and every entry's name, true exactly for the names with an entry. */
  function ActiveSpec(ps: seq<PlatformData>): map<string, bool> {
    map k | k in AllNames + NamesOf(ps) :: k in NamesOf(ps)
  }

  /**
   * The url of the last entry named `name`, or "" without one (the initialiser
   * writes every entry's url in turn, so later entries win).
   */
  function LastUrl(ps: seq<PlatformData>, name: string): string {
    if ps == [] then ""
    else if ps[|ps| - 1].name == name then ps[|ps| - 1].url
    else LastUrl(ps[..|ps| - 1], name)
  }

  /** The url found is the one of the last entry with the name, or "" when no entry has it. */
  lemma {:induction false} LastUrlMeaning(ps: seq<PlatformData>, name: string)
    ensures (forall j :: 0 <= j < |ps| ==> ps[j].name != name) ==> LastUrl(ps, name) == ""
    ensures (exists j :: 0 <= j < |ps| && ps[j].name == name) ==>
      exists j :: 0 <= j < |ps| && ps[j].name == name && LastUrl(ps, name) == ps[j].url
        && forall k :: j < k < |ps| ==> ps[k].name != name
  {
    if ps == [] {
    } else if ps[|ps| - 1].name == name {
      var j := |ps| - 1;
      assert ps[j].name == name && LastUrl(ps, name) == ps[j].url;
    } else {
      var init := ps[..|ps| - 1];
      LastUrlMeaning(init, name);
      assert forall j :: 0 <= j < |init| ==> init[j] == ps[j];
      if exists j :: 0 <= j < |ps| && ps[j].name == name {
        var j0 :| 0 <= j0 < |ps| && ps[j0].name == name;
        assert init[j0].name == name;
        var j :| 0 <= j < |init| && init[j].name == name && LastUrl(init, name) == init[j].url
          && forall k :: j < k < |init| ==> init[k].name != name;
        assert ps[j].name == name && LastUrl(ps, name) == ps[j].url;
      }
    }
  }

  lemma {:induction false} LastUrlSnoc(ps: seq<PlatformData>, x: PlatformData, k: string)
    ensures LastUrl(ps + [x], k) == if k == x.name then x.url else LastUrl(ps, k)
  {
    assert (ps + [x])[..|ps|] == ps;
  }

  /** The initial links: the six names and every entry's name, each with its last url. */
  function UrlSpec(ps: seq<PlatformData>): map<string, string> {
    map k | k in AllNames + NamesOf(ps) :: LastUrl(ps, k)
  }

  /** One more entry sets its name's flag. */
  lemma {:induction false} ActiveSpecSnoc(ps: seq<PlatformData>, x: PlatformData)
    ensures ActiveSpec(ps + [x]) == ActiveSpec(ps)[x.name := true]
  {
    NamesOfSnoc(ps, x);
  }

  /** One more entry writes its url under its name. */
  lemma {:induction false} UrlSpecSnoc(ps: seq<PlatformData>, x: PlatformData)
    ensures UrlSpec(ps + [x]) == UrlSpec(ps)[x.name := x.url]
  {
    NamesOfSnoc(ps, x);
    forall k | k in AllNames + NamesOf(ps + [x])
      ensures LastUrl(ps + [x], k) == if k == x.name then x.url else LastUrl(ps, k)
    {
      LastUrlSnoc(ps, x, k);
    }
  }

  /** The `activePlatforms` initialiser: six false flags, then `true` for each entry's name. */
  method InitialActive(post: Option<Post>) returns (active: map<string, bool>)
    ensures active == ActiveSpec(Entries(post))
  {
    var ps := Entries(post);
    active := map["instagram" := false, "tiktok" := false, "youtube" := false,
                  "facebook" := false, "twitter" := false, "linkedin" := false];
    assert active == ActiveSpec(ps[..0]);
    for i := 0 to |ps|
      invariant active == ActiveSpec(ps[..i])
    {
      assert ps[..i + 1] == ps[..i] + [ps[i]];
      ActiveSpecSnoc(ps[..i], ps[i]);
      active := active[ps[i].name := true];
    }
    assert ps[..|ps|] == ps;
  }

  /** The `urls` initialiser: six empty links, then each entry's url under its name. */
  method InitialUrls(post: Option<Post>) returns (urls: map<string, string>)
    ensures urls == UrlSpec(Entries(post))
  {
    var ps := Entries(post);
    urls := map["instagram" := "", "tiktok" := "", "youtube" := "",
                "facebook" := "", "twitter" := "", "linkedin" := ""];
    assert urls == UrlSpec(ps[..0]);
    for i := 0 to |ps|
      invariant urls == UrlSpec(ps[..i])
    {
      assert ps[..i + 1] == ps[..i] + [ps[i]];
      UrlSpecSnoc(ps[..i], ps[i]);
      urls := urls[ps[i].name := ps[i].url];
    }
    assert ps[..|ps|] == ps;
  }

  /**
   * A platform starts active exactly when the post has an entry with its name,
   * and starts with the url of the last such entry, or "" without one. With no
   * post every platform starts inactive with "".
   */
  lemma InitialStateMeaning(post: Option<Post>, p: PlatformName)
    ensures var ps := Entries(post);
      && NameOf(p) in ActiveSpec(ps) && NameOf(p) in UrlSpec(ps)
      && (ActiveSpec(ps)[NameOf(p)] <==> exists e :: e in ps && e.name == NameOf(p))
      && (post.None? ==> !ActiveSpec(ps)[NameOf(p)] && UrlSpec(ps)[NameOf(p)] == "")
  {
    assert NameOf(p) in AllNames;
  }

  /** `togglePlatform`: the named flag negated (an absent flag reads as false). */
  function Toggled(active: map<string, bool>, p: PlatformName): (r: map<string, bool>)
    ensures IsActive(r, NameOf(p)) <==> !IsActive(active, NameOf(p))
    ensures forall k :: k != NameOf(p) ==> (k in r <==> k in active) && (k in active ==> r[k] == active[k])
  {
    active[NameOf(p) := !IsActive(active, NameOf(p))]
  }

  /** Toggling a platform twice restores the flags. */
  lemma ToggleTwice(active: map<string, bool>, p: PlatformName)
    requires NameOf(p) in active
    ensures Toggled(Toggled(active, p), p) == active
  {
  }

  /** Toggles of different platforms do not interfere. */
  lemma TogglesCommute(active: map<string, bool>, p: PlatformName, q: PlatformName)
    ensures Toggled(Toggled(active, p), q) == Toggled(Toggled(active, q), p)
  {
  }

  /** The link sent for a name (absent reads as ""). */
  function UrlFor(urls: map<string, string>, name: string): string {
    if name in urls then urls[name] else ""
  }

  /** Platforms listed in strictly increasing rank. */
  predicate Increasing(s: seq<PlatformName>) {
    forall i, j :: 0 <= i < j < |s| ==> Rank(s[i]) < Rank(s[j])
  }

  lemma {:induction false} IncreasingTail(s: seq<PlatformName>)
    requires s != []
    ensures Increasing(s) ==> Increasing(s[1..])
  {
    if Increasing(s) {
      forall i, j | 0 <= i < j < |s[1..]| ensures Rank(s[1..][i]) < Rank(s[1..][j]) {
        assert s[1..][i] == s[i + 1] && s[1..][j] == s[j + 1];
      }
    }
  }

  lemma {:induction false} RankBelowRest(order: seq<PlatformName>, rest: seq<PlatformName>)
    requires order != []
    requires forall p :: p in rest ==> p in order[1..]
    ensures Increasing(order) ==> forall p :: p in rest ==> Rank(order[0]) < Rank(p)
  {
    if Increasing(order) {
      forall p | p in rest ensures Rank(order[0]) < Rank(p) {
        var j :| 0 <= j < |order[1..]| && order[1..][j] == p;
        assert order[j + 1] == p;
      }
    }
  }

  lemma {:induction false} ConsIncreasing(h: PlatformName, rest: seq<PlatformName>)
    ensures Increasing(rest) && (forall p :: p in rest ==> Rank(h) < Rank(p)) ==> Increasing([h] + rest)
  {
    if Increasing(rest) && forall p :: p in rest ==> Rank(h) < Rank(p) {
      var s := [h] + rest;
      forall i, j | 0 <= i < j < |s| ensures Rank(s[i]) < Rank(s[j]) {
        assert s[j] == rest[j - 1];
        if i == 0 {
          assert rest[j - 1] in rest;
        } else {
          assert s[i] == rest[i - 1];
        }
      }
    }
  }

  /** The platforms of `order` whose flag is set, in that order. */
  function ActiveInOrder(order: seq<PlatformName>, active: map<string, bool>): (r: seq<PlatformName>)
    ensures forall p :: p in r <==> p in order && IsActive(active, NameOf(p))
    ensures Increasing(order) ==> Increasing(r)
  {
    if order == [] then []
    else
      var rest := ActiveInOrder(order[1..], active);
      assert forall p :: p in order[1..] ==> p in order;
      IncreasingTail(order);
      if IsActive(active, NameOf(order[0])) then
        RankBelowRest(order, rest);
        ConsIncreasing(order[0], rest);
        [order[0]] + rest
      else rest
  }

  /** The entry sent for an active platform: its wire name and its link. */
  function InputFor(p: PlatformName, urls: map<string, string>): PlatformInput {
    PlatformInput(NameOf(p), UrlFor(urls, NameOf(p)))
  }

  /** The platform list `handleSave` sends: the active platforms in the editor's order, each with its link. */
  function BuildPlatforms(active: map<string, bool>, urls: map<string, string>): (r: seq<PlatformInput>)
    ensures var chosen := ActiveInOrder(PlatformOrder, active);
      |r| == |chosen| && forall i :: 0 <= i < |r| ==> r[i] == InputFor(chosen[i], urls)
  {
    var chosen := ActiveInOrder(PlatformOrder, active);
    seq(|chosen|, i requires 0 <= i < |chosen| => InputFor(chosen[i], urls))
  }

  lemma NameOfInjective(p: PlatformName, q: PlatformName)
    requires NameOf(p) == NameOf(q)
    ensures p == q
  {
    NameRoundTrip(p, "");
    NameRoundTrip(q, "");
  }

  lemma NameRankOf(p: PlatformName)
    ensures NameRank(NameOf(p)) == Rank(p)
  {
    NameRoundTrip(p, "");
  }

  /** The editor's order lists every platform, in increasing rank. */
  lemma OrderIsComplete()
    ensures forall p: PlatformName :: p in PlatformOrder
    ensures Increasing(PlatformOrder)
  {
    forall p: PlatformName ensures p in PlatformOrder {
      assert PlatformOrder[Rank(p)] == p;
    }
    forall i | 0 <= i < |PlatformOrder| ensures Rank(PlatformOrder[i]) == i {
      if i == 0 {} else if i == 1 {} else if i == 2 {} else if i == 3 {} else if i == 4 {} else {}
    }
  }

  /**
   * The sent list holds exactly the active platforms, each with its current
   * link, once each and in the editor's order, and no other name.
   */
  lemma {:induction false} BuiltEntriesKnown(active: map<string, bool>, urls: map<string, string>, i: nat)
    requires i < |BuildPlatforms(active, urls)|
    ensures var r := BuildPlatforms(active, urls);
      && ParsePlatform(r[i].name).Some? && IsActive(active, r[i].name) && r[i].url == UrlFor(urls, r[i].name)
      && NameRank(r[i].name) == Rank(ActiveInOrder(PlatformOrder, active)[i])
  {
    var chosen := ActiveInOrder(PlatformOrder, active);
    assert chosen[i] in chosen;
    NameRoundTrip(chosen[i], "");
    NameRankOf(chosen[i]);
  }

  lemma {:induction false} BuiltCoversActive(active: map<string, bool>, urls: map<string, string>, p: PlatformName)
    ensures var r := BuildPlatforms(active, urls);
      IsActive(active, NameOf(p)) <==> exists i :: 0 <= i < |r| && r[i].name == NameOf(p)
  {
    var chosen := ActiveInOrder(PlatformOrder, active);
    var r := BuildPlatforms(active, urls);
    if IsActive(active, NameOf(p)) {
      OrderIsComplete();
      var i :| 0 <= i < |chosen| && chosen[i] == p;
      assert r[i].name == NameOf(p);
    }
    if exists i :: 0 <= i < |r| && r[i].name == NameOf(p) {
      var i :| 0 <= i < |r| && r[i].name == NameOf(p);
      assert chosen[i] in chosen;
      NameOfInjective(chosen[i], p);
    }
  }

  lemma {:induction false} BuiltInOrder(active: map<string, bool>, urls: map<string, string>)
    ensures var r := BuildPlatforms(active, urls);
      forall i, j :: 0 <= i < j < |r| ==> NameRank(r[i].name) < NameRank(r[j].name)
  {
    var chosen := ActiveInOrder(PlatformOrder, active);
    var r := BuildPlatforms(active, urls);
    OrderIsComplete();
    forall i, j | 0 <= i < j < |r| ensures NameRank(r[i].name) < NameRank(r[j].name) {
      BuiltEntriesKnown(active, urls, i);
      BuiltEntriesKnown(active, urls, j);
    }
  }

  lemma BuildPlatformsExact(active: map<string, bool>, urls: map<string, string>)
    ensures var r := BuildPlatforms(active, urls);
      && (forall i :: 0 <= i < |r| ==>
           ParsePlatform(r[i].name).Some? && IsActive(active, r[i].name) && r[i].url == UrlFor(urls, r[i].name))
      && (forall p: PlatformName :: IsActive(active, NameOf(p)) <==> exists i :: 0 <= i < |r| && r[i].name == NameOf(p))
      && (forall i, j :: 0 <= i < j < |r| ==> NameRank(r[i].name) < NameRank(r[j].name))
  {
    var r := BuildPlatforms(active, urls);
    forall i | 0 <= i < |r|
      ensures ParsePlatform(r[i].name).Some? && IsActive(active, r[i].name) && r[i].url == UrlFor(urls, r[i].name)
    {
      BuiltEntriesKnown(active, urls, i);
    }
    forall p: PlatformName
      ensures IsActive(active, NameOf(p)) <==> exists i :: 0 <= i < |r| && r[i].name == NameOf(p)
    {
      BuiltCoversActive(active, urls, p);
    }
    BuiltInOrder(active, urls);
  }

  /** Each platform is sent at most once. */
  lemma BuildPlatformsDistinct(active: map<string, bool>, urls: map<string, string>)
    ensures var r := BuildPlatforms(active, urls);
      forall i, j :: 0 <= i < j < |r| ==> r[i].name != r[j].name
  {
    BuildPlatformsExact(active, urls);
  }

  /** `handleSave`'s request: nothing without a date, otherwise the workspace, the date, the text and the platforms. */
  function SaveRequest(workspaceId: Id, date: Option<Instant>, description: string,
                       active: map<string, bool>, urls: map<string, string>): (r: Option<PostBody>)
    ensures r.None? <==> date.None?
    ensures r.Some? ==>
      && r.value.workspaceId == Some(workspaceId) && r.value.date == date
      && r.value.description == Some(description)
      && r.value.platforms == Some(BuildPlatforms(active, urls))
  {
    if date.None? then None
    else Some(PostBody(Some(workspaceId), date, Some(description), Some(BuildPlatforms(active, urls))))
  }

  /** What `handleClear` does: close only, or delete the post and then close. */
  datatype ClearAction = CloseOnly | DeleteAndClose(postId: Id)

  function ClearFor(post: Option<Post>): (r: ClearAction)
    ensures r.CloseOnly? <==> post.None?
    ensures r.DeleteAndClose? ==> r.postId == post.value.id
  {
    if post.None? then CloseOnly else DeleteAndClose(post.value.id)
  }

  /** The editor's state. */
  class PostEditor {
    const date: Option<Instant>
    const post: Option<Post>
    const workspaceId: Id
    var description: string
    var active: map<string, bool>
    var urls: map<string, string>
    var saving: bool
    var deleting: bool

    constructor (date: Option<Instant>, post: Option<Post>, workspaceId: Id)
      ensures this.date == date && this.post == post && this.workspaceId == workspaceId
      ensures description == (if post.Some? then post.value.description else "")
      ensures active == ActiveSpec(Entries(post)) && urls == UrlSpec(Entries(post))
      ensures !saving && !deleting
    {
      this.date := date;
      this.post := post;
      this.workspaceId := workspaceId;
      description := if post.Some? then post.value.description else "";
      var a := InitialActive(post);
      var u := InitialUrls(post);
      active := a;
      urls := u;
      saving := false;
      deleting := false;
    }

    method TogglePlatform(p: PlatformName)
      modifies this`active
      ensures active == Toggled(old(active), p)
    {
      active := Toggled(active, p);
    }

    /** Typing into a platform's link field. */
    method SetUrl(p: PlatformName, url: string)
      modifies this`urls
      ensures urls == old(urls)[NameOf(p) := url]
    {
      urls := urls[NameOf(p) := url];
    }

    method SetDescription(text: string)
      modifies this`description
      ensures description == text
    {
      description := text;
    }

    /** `handleSave` up to the request: without a date nothing happens. */
    method HandleSave() returns (req: Option<PostBody>)
      modifies this`saving
      ensures req == SaveRequest(workspaceId, date, description, active, urls)
      ensures saving == (old(saving) || date.Some?)
    {
      req := SaveRequest(workspaceId, date, description, active, urls);
      if req.Some? {
        saving := true;
      }
    }

    /** The save was answered: the answer goes to `onSave`, and the editor closes. */
    method SaveDone(saved: Post) returns (forParent: Post)
      modifies this`saving
      ensures !saving && forParent == saved
    {
      saving := false;
      forParent := saved;
    }

    /** `handleClear` up to the request. */
    method HandleClear() returns (act: ClearAction)
      modifies this`deleting
      ensures act == ClearFor(post)
      ensures deleting == (old(deleting) || post.Some?)
    {
      act := ClearFor(post);
      if act.DeleteAndClose? {
        deleting := true;
      }
    }

    method ClearDone()
      modifies this`deleting
      ensures !deleting
    {
      deleting := false;
    }
  }
}
