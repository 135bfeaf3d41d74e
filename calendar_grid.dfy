/**
 * The month calendar: its list of posts keyed by calendar day, the
 * Monday-to-Sunday grid of day cells, the fetch it issues, and the month it
 * shows. `isSameDay` is `Day` equality; a grid cell is its day number.
 */
module CalendarGrid {
  import opened Wrappers
  import opened Types
  import opened Lists
  import opened Calendar

  /** `getPostForDate`: the first post dated on calendar day `day`. */
  function PostForDay(posts: seq<Post>, day: int): (r: Option<Post>)
    ensures r.Some? ==> r.value in posts && Day(r.value.date) == day
    ensures r.Some? ==> exists k :: 0 <= k < |posts| && posts[k] == r.value && forall j :: 0 <= j < k ==> Day(posts[j].date) != day
    ensures r.None? <==> forall p :: p in posts ==> Day(p.date) != day
  {
    match FindFirst(posts, (p: Post) => Day(p.date) == day)
    case Some(k) => Some(posts[k])
    case None => None
  }

  /**
   * `handleSave`: when a post of the saved post's day is listed, every entry
   * with that post's id becomes the saved post; otherwise the saved post is
   * appended.
   */
  function SaveByDay(posts: seq<Post>, saved: Post): seq<Post> {
    match PostForDay(posts, Day(saved.date))
    case Some(e) => ReplaceWhere(posts, (p: Post) => p.id == e.id, saved)
    case None => posts + [saved]
  }

  /** With a same-day post listed, the length is kept and exactly its id's entries are replaced. */
  lemma SaveByDayReplaces(posts: seq<Post>, saved: Post, e: Post)
    requires PostForDay(posts, Day(saved.date)) == Some(e)
    ensures |SaveByDay(posts, saved)| == |posts|
    ensures forall i :: 0 <= i < |posts| ==>
      SaveByDay(posts, saved)[i] == if posts[i].id == e.id then saved else posts[i]
  {
    var r := SaveByDay(posts, saved);
    forall i | 0 <= i < |posts| ensures r[i] == if posts[i].id == e.id then saved else posts[i] {
      ReplaceWhereAt(posts, (p: Post) => p.id == e.id, saved, i);
    }
  }

  /** With no same-day post listed, the saved post is appended and the list grows by one. */
  lemma SaveByDayAppends(posts: seq<Post>, saved: Post)
    requires forall p :: p in posts ==> Day(p.date) != Day(saved.date)
    ensures SaveByDay(posts, saved) == posts + [saved]
    ensures |SaveByDay(posts, saved)| == |posts| + 1
  {
  }

  /** The cell of a day shows the saved post when it is listed and every entry before it is the saved post or another day's. */
  lemma {:induction false} FoundIsSaved(r: seq<Post>, saved: Post, k: nat)
    requires k < |r| && r[k] == saved
    requires forall j :: 0 <= j < k ==> r[j] == saved || Day(r[j].date) != Day(saved.date)
    ensures PostForDay(r, Day(saved.date)) == Some(saved)
  {
    var day := Day(saved.date);
    assert r[k] in r;
    var f := PostForDay(r, day);
    var k' :| 0 <= k' < |r| && r[k'] == f.value && forall j :: 0 <= j < k' ==> Day(r[j].date) != day;
    assert k' <= k;
  }

  /** After saving, the cell of the saved post's day shows the saved post. */
  lemma SavedIsShown(posts: seq<Post>, saved: Post)
    ensures PostForDay(SaveByDay(posts, saved), Day(saved.date)) == Some(saved)
  {
    var day := Day(saved.date);
    var r := SaveByDay(posts, saved);
    match PostForDay(posts, day)
    case None =>
      assert forall j :: 0 <= j < |posts| ==> r[j] == posts[j] && posts[j] in posts;
      FoundIsSaved(r, saved, |posts|);
    case Some(e) =>
      SaveByDayReplaces(posts, saved, e);
      var k :| 0 <= k < |posts| && posts[k] == e && forall j :: 0 <= j < k ==> Day(posts[j].date) != day;
      FoundIsSaved(r, saved, k);
  }

  /** `handleDelete`: every post with the id is dropped. */
  function RemovePost(posts: seq<Post>, id: Id): (r: seq<Post>)
    ensures forall p :: p in r <==> p in posts && p.id != id
  {
    Filter(posts, (p: Post) => p.id != id)
  }

  /** Deleting keeps the other posts in their order, each as often as before. */
  lemma RemoveKeepsOthers(posts: seq<Post>, id: Id)
    ensures SubsequenceOf(RemovePost(posts, id), posts)
    ensures forall p: Post :: p.id != id ==> multiset(RemovePost(posts, id))[p] == multiset(posts)[p]
  {
    FilterKeepsOrder(posts, (p: Post) => p.id != id);
    FilterCounts(posts, (p: Post) => p.id != id);
  }

  /** `startOfWeek(startOfMonth(..), weekStartsOn: 1)`: the Monday on or before the 1st. */
  function GridStart(y: int, m: int): int
    requires 1 <= m <= 12
  {
    var first := DayNumber(y, m, 1);
    first - Weekday(first)
  }

  /** `endOfWeek(endOfMonth(..), weekStartsOn: 1)`: the Sunday on or after the last day. */
  function GridEnd(y: int, m: int): int
    requires 1 <= m <= 12
  {
    var last := DayNumber(y, m, DaysInMonth(y, m));
    last + 6 - Weekday(last)
  }

  /** `eachDayOfInterval`: the day numbers from the grid's start to its end, one per cell. */
  function GridDays(y: int, m: int): (r: seq<int>)
    requires 1 <= m <= 12
    ensures |r| == GridEnd(y, m) - GridStart(y, m) + 1
    ensures forall i :: 0 <= i < |r| ==> r[i] == GridStart(y, m) + i
  {
    var start := GridStart(y, m);
    seq(GridEnd(y, m) - start + 1, i => start + i)
  }

  /** The weekday of a day is its distance from any Monday, modulo 7. */
  lemma WeekdayFromMonday(monday: int, i: int)
    requires Weekday(monday) == 0 && i >= 0
    ensures Weekday(monday + i) == i % 7
  {
    var q := (monday + 3) / 7;
    assert monday + 3 == 7 * q;
    assert monday + i + 3 == 7 * q + i;
  }

  /**
   * Widening the days `first`..`last` to whole weeks: from the Monday on or
   * before `first` to the Sunday on or after `last`, a multiple of 7 days.
   */
  lemma WholeWeeks(first: int, last: int)
    requires first <= last
    ensures var start, end := first - Weekday(first), last + 6 - Weekday(last);
      && Weekday(start) == 0 && Weekday(end) == 6
      && first - 6 <= start <= first && last <= end <= last + 6
      && (end - start + 1) % 7 == 0
  {
    var start, end := first - Weekday(first), last + 6 - Weekday(last);
    assert first + 3 == 7 * ((first + 3) / 7) + Weekday(first);
    assert start + 3 == 7 * ((first + 3) / 7);
    assert last + 3 == 7 * ((last + 3) / 7) + Weekday(last);
    assert end + 4 == 7 * ((last + 3) / 7 + 1);
    assert end - start + 1 == 7 * ((last + 3) / 7 + 1 - (first + 3) / 7);
  }

  /**
   * The grid starts on a Monday at most six days before the 1st, ends on a
   * Sunday at most six days after the last day, runs over consecutive days,
   * has a multiple of 7 cells (4 to 6 weeks), and holds every day of the month.
   */
  lemma GridShape(y: int, m: int)
    requires 1 <= m <= 12
    ensures var r := GridDays(y, m);
      && Weekday(r[0]) == 0 && Weekday(r[|r| - 1]) == 6
      && DayNumber(y, m, 1) - 6 <= r[0] <= DayNumber(y, m, 1)
      && DayNumber(y, m, DaysInMonth(y, m)) <= r[|r| - 1] <= DayNumber(y, m, DaysInMonth(y, m)) + 6
      && |r| % 7 == 0 && 28 <= |r| <= 42
      && (forall i :: 0 <= i < |r| - 1 ==> r[i + 1] == r[i] + 1)
      && (forall d :: 1 <= d <= DaysInMonth(y, m) ==> DayNumber(y, m, d) in r)
  {
    var first, last := DayNumber(y, m, 1), DayNumber(y, m, DaysInMonth(y, m));
    assert last == first + DaysInMonth(y, m) - 1;
    WholeWeeks(first, last);
    var r := GridDays(y, m);
    var n := |r|;
    assert 28 <= n <= 43 && n % 7 == 0;
    assert n == 7 * (n / 7);
    forall d | 1 <= d <= DaysInMonth(y, m) ensures DayNumber(y, m, d) in r {
      assert r[DayNumber(y, m, d) - r[0]] == DayNumber(y, m, d);
    }
  }

  /** `isLastRow`: the cell is in the last seven. */
  predicate IsLastRow(i: int, n: int) {
    i >= n - 7
  }

  /** `isLastCol`: the cell is the seventh of its row. */
  predicate IsLastCol(i: int) {
    i % 7 == 6
  }

  /** A cell is in the last column exactly on Sundays, and in the last row exactly in the grid's last week. */
  lemma CellEdges(y: int, m: int, i: int)
    requires 1 <= m <= 12
    requires 0 <= i < |GridDays(y, m)|
    ensures var r := GridDays(y, m);
      && (IsLastCol(i) <==> Weekday(r[i]) == 6)
      && (IsLastRow(i, |r|) <==> i / 7 == |r| / 7 - 1)
  {
    var r := GridDays(y, m);
    GridShape(y, m);
    WeekdayFromMonday(r[0], i);
    assert r[i] == r[0] + i;
  }

  /** The request `fetchPosts` issues: the share endpoint or the posts endpoint, with a 1-based month. */
  datatype FetchRequest =
    | ShareFetch(token: string, month: int, year: int)
    | PostsFetch(workspaceId: Id, month: int, year: int)

  /** A share token is used only in the read-only view and only when it is a non-empty string. */
  function FetchFor(readonly: bool, shareToken: Option<string>, workspaceId: Id, d: CalDate): (r: FetchRequest)
    ensures r.ShareFetch? <==> readonly && shareToken.Some? && shareToken.value != ""
    ensures r.ShareFetch? ==> r.token == shareToken.value
    ensures r.PostsFetch? ==> r.workspaceId == workspaceId
    ensures r.month == d.month + 1 && r.year == d.year
  {
    if readonly && shareToken.Some? && shareToken.value != "" then ShareFetch(shareToken.value, d.month + 1, d.year)
    else PostsFetch(workspaceId, d.month + 1, d.year)
  }

  /**
   * The posts endpoint reads back the month the grid shows: its `month - 1`
   * month index with the sent year names the grid's month, for any year not in
   * 0..99 (which `new Date` would read as 19xx).
   */
  lemma FetchNamesShownMonth(readonly: bool, shareToken: Option<string>, workspaceId: Id, d: CalDate)
    requires ValidDate(d) && !(0 <= d.year <= 99)
    ensures var r := FetchFor(readonly, shareToken, workspaceId, d);
      DateFields(r.year, r.month - 1) == (d.year, d.month + 1)
  {
  }

  /** The month view's state. */
  class Grid {
    var posts: seq<Post>
    var current: CalDate
    var selectedDay: Option<int>
    var loading: bool
    const workspaceId: Id
    const shareToken: Option<string>
    const readonly: bool

    ghost predicate Valid()
      reads this
    {
      ValidDate(current)
    }

    /** `initialDate ?? new Date()`: the caller passes the date, the clock's if none was given. */
    constructor (initialPosts: seq<Post>, workspaceId: Id, shareToken: Option<string>, initialDate: CalDate, readonly: bool)
      requires ValidDate(initialDate)
      ensures Valid()
      ensures posts == initialPosts && current == initialDate && selectedDay.None? && !loading
      ensures this.workspaceId == workspaceId && this.shareToken == shareToken && this.readonly == readonly
    {
      posts := initialPosts;
      current := initialDate;
      selectedDay := None;
      loading := false;
      this.workspaceId := workspaceId;
      this.shareToken := shareToken;
      this.readonly := readonly;
    }

    /** The cells of the shown month. */
    function Days(): (r: seq<int>)
      reads this
      requires Valid()
      ensures r == GridDays(current.year, current.month + 1)
    {
      GridDays(current.year, current.month + 1)
    }

    /** The post of the selected day, if a day is selected. */
    function SelectedPost(): (r: Option<Post>)
      reads this
      ensures selectedDay.None? ==> r.None?
      ensures selectedDay.Some? ==> r == PostForDay(posts, selectedDay.value)
    {
      if selectedDay.None? then None else PostForDay(posts, selectedDay.value)
    }

    method Select(day: Option<int>)
      modifies this`selectedDay
      ensures selectedDay == day
    {
      selectedDay := day;
    }

    method HandleSave(saved: Post)
      modifies this`posts
      ensures posts == SaveByDay(old(posts), saved)
    {
      posts := SaveByDay(posts, saved);
    }

    method HandleDelete(id: Id)
      modifies this`posts
      ensures posts == RemovePost(old(posts), id)
    {
      posts := RemovePost(posts, id);
    }

    /** `handlePrev`: one month back, then the fetch for that month starts. */
    method HandlePrev() returns (req: FetchRequest)
      requires Valid()
      modifies this`current, this`loading
      ensures Valid()
      ensures current == AddMonths(old(current), -1)
      ensures MonthOrdinal(current) == MonthOrdinal(old(current)) - 1
      ensures loading
      ensures req == FetchFor(readonly, shareToken, workspaceId, current)
    {
      current := AddMonths(current, -1);
      loading := true;
      req := FetchFor(readonly, shareToken, workspaceId, current);
    }

    /** `handleNext`: one month forward, then the fetch for that month starts. */
    method HandleNext() returns (req: FetchRequest)
      requires Valid()
      modifies this`current, this`loading
      ensures Valid()
      ensures current == AddMonths(old(current), 1)
      ensures MonthOrdinal(current) == MonthOrdinal(old(current)) + 1
      ensures loading
      ensures req == FetchFor(readonly, shareToken, workspaceId, current)
    {
      current := AddMonths(current, 1);
      loading := true;
      req := FetchFor(readonly, shareToken, workspaceId, current);
    }

    /** The fetch's answer (its `posts` field in the read-only view) replaces the list. */
    method FinishFetch(data: seq<Post>)
      modifies this`posts, this`loading
      ensures posts == data && !loading
    {
      posts := data;
      loading := false;
    }
  }
}
