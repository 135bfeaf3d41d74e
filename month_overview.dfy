/** The month overview: six counters over the posts of the shown month. */
module MonthOverview {
  import opened Types

  /** The post has an entry with this wire name. */
  predicate HasPlatform(p: Post, name: string) {
    exists e :: e in p.platforms && e.name == name
  }

  /** A video post: one with a youtube or a tiktok entry. */
  predicate IsVideo(p: Post) {
    HasPlatform(p, "youtube") || HasPlatform(p, "tiktok")
  }

  predicate OnInstagram(p: Post) {
    HasPlatform(p, "instagram")
  }

  predicate OnTikTok(p: Post) {
    HasPlatform(p, "tiktok")
  }

  /** `posts.filter(keep).length`: the number of posts satisfying `keep`. */
  function CountWhere(posts: seq<Post>, keep: Post -> bool): (n: nat)
    ensures n <= |posts|
  {
    if posts == [] then 0
    else (if keep(posts[0]) then 1 else 0) + CountWhere(posts[1..], keep)
  }

  /** The distinct wire names over all entries of all posts. */
  function NamesUsed(posts: seq<Post>): set<string> {
    set p, e | p in posts && e in p.platforms :: e.name
  }

  /** The six counters. */
  function Summarize(posts: seq<Post>): (r: MonthStats)
    ensures r.totalPosts == |posts| && r.daysPlanned == |posts|
    ensures r.platformsActive == |NamesUsed(posts)|
    ensures r.videos == CountWhere(posts, IsVideo)
    ensures r.instagramPosts == CountWhere(posts, OnInstagram)
    ensures r.tiktokPosts == CountWhere(posts, OnTikTok)
  {
    MonthStats(|posts|, CountWhere(posts, IsVideo), CountWhere(posts, OnInstagram),
               CountWhere(posts, OnTikTok), |NamesUsed(posts)|, |posts|)
  }

  /** The positions of `s` satisfying `keep`. */
  function Positions(s: seq<Post>, keep: Post -> bool): set<int> {
    set i | 0 <= i < |s| && keep(s[i])
  }

  /** Counting over a concatenation adds the counts of the parts. */
  lemma {:induction false} CountConcat(a: seq<Post>, b: seq<Post>, keep: Post -> bool)
    ensures CountWhere(a + b, keep) == CountWhere(a, keep) + CountWhere(b, keep)
  {
    if a == [] {
      assert a + b == b;
    } else {
      CountConcat(a[1..], b, keep);
      assert (a + b)[1..] == a[1..] + b;
    }
  }

  /** The qualifying positions among the first `n`. */
  function PositionsBelow(s: seq<Post>, keep: Post -> bool, n: int): set<int>
    requires 0 <= n <= |s|
  {
    set i | 0 <= i < n && keep(s[i])
  }

  lemma {:induction false} CountPrefix(s: seq<Post>, keep: Post -> bool, n: nat)
    requires n <= |s|
    ensures CountWhere(s[..n], keep) == |PositionsBelow(s, keep, n)|
  {
    if n == 0 {
      assert PositionsBelow(s, keep, 0) == {};
    } else {
      CountPrefix(s, keep, n - 1);
      assert s[..n] == s[..n - 1] + [s[n - 1]];
      CountConcat(s[..n - 1], [s[n - 1]], keep);
      CountSingle(s[n - 1], keep);
      PositionsBelowStep(s, keep, n);
    }
  }

  lemma CountSingle(x: Post, keep: Post -> bool)
    ensures CountWhere([x], keep) == if keep(x) then 1 else 0
  {
    assert [x][1..] == [];
  }

  /** One more position adds at most that position. */
  lemma PositionsBelowStep(s: seq<Post>, keep: Post -> bool, n: nat)
    requires 0 < n <= |s|
    ensures |PositionsBelow(s, keep, n)| == |PositionsBelow(s, keep, n - 1)| + (if keep(s[n - 1]) then 1 else 0)
  {
    var below := PositionsBelow(s, keep, n - 1);
    assert n - 1 !in below;
    if keep(s[n - 1]) {
      assert PositionsBelow(s, keep, n) == below + {n - 1};
    } else {
      assert PositionsBelow(s, keep, n) == below;
    }
  }

  /** A counter counts positions: every post that qualifies once, however many entries make it qualify. */
  lemma CountIsPositions(s: seq<Post>, keep: Post -> bool)
    ensures CountWhere(s, keep) == |Positions(s, keep)|
  {
    CountPrefix(s, keep, |s|);
    assert s[..|s|] == s;
    assert PositionsBelow(s, keep, |s|) == Positions(s, keep);
  }

  /** A weaker condition counts at least as many posts. */
  lemma {:induction false} CountMonotone(s: seq<Post>, p: Post -> bool, q: Post -> bool)
    requires forall x :: p(x) ==> q(x)
    ensures CountWhere(s, p) <= CountWhere(s, q)
  {
    if s != [] {
      CountMonotone(s[1..], p, q);
    }
  }

  /** Instagram and TikTok counts are at most the total, and every TikTok post is a video. */
  lemma CountersBounded(posts: seq<Post>)
    ensures var r := Summarize(posts);
      r.instagramPosts <= r.totalPosts && r.videos <= r.totalPosts && r.tiktokPosts <= r.videos
  {
    CountMonotone(posts, OnTikTok, IsVideo);
  }

  /** No platform is active exactly when no post has an entry. */
  lemma NoneActiveIff(posts: seq<Post>)
    ensures Summarize(posts).platformsActive == 0 <==> forall p :: p in posts ==> p.platforms == []
  {
    if exists p :: p in posts && p.platforms != [] {
      var p :| p in posts && p.platforms != [];
      assert p.platforms[0] in p.platforms;
      assert p.platforms[0].name in NamesUsed(posts);
    }
  }

  /** With names from the six platforms only, at most six platforms are active. */
  lemma AtMostSixActive(posts: seq<Post>)
    requires forall p, e :: p in posts && e in p.platforms ==> e.name in AllNames
    ensures Summarize(posts).platformsActive <= 6
  {
    assert NamesUsed(posts) <= AllNames;
    NameRoundTrip(Instagram, "");
    assert |NamesUsed(posts)| <= |AllNames| by {
      SubsetSize(NamesUsed(posts), AllNames);
    }
  }

  lemma SubsetSize(a: set<string>, b: set<string>)
    requires a <= b
    ensures |a| <= |b|
  {
    assert b == a + (b - a);
  }
}
