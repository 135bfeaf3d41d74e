# resto-planner content calendar, modelled in Dafny

resto-planner is a content calendar for a marketing agency. Each client has a
**workspace**. A workspace holds at most one **post** per calendar day. A post
has a description and a list of **platform entries**: a platform name (one of
instagram, tiktok, youtube, facebook, twitter, linkedin) and a link.

This project models the following parts of the application:

- the two HTTP endpoints over the relational store:
  - `/api/posts`: list a month of a workspace's posts, and save a post (an upsert by workspace and date that replaces the post's platform rows);
  - `/api/workspaces`: list the workspaces newest first with their post counts, and create one;
- the client-side state that mirrors the store:
  - the `usePosts` and `useWorkspaces` hooks;
  - the dashboard's workspace list, workspace card and creation dialog;
- the calendar screen:
  - the grid of whole weeks;
  - the per-day post lookup and month navigation;
  - the post editor dialog, the read-only view dialog, the month plan list with its link normaliser, and the month overview counters;
- the `.env.local` loader of the database configuration.

Modules follow the source files:

| module | source file |
|---|---|
| `Types` | `types/index.ts` |
| `Database` | the Prisma tables the routes use (workspaces, posts, platform rows) |
| `PostsRoute` | `app/api/posts/route.ts` |
| `WorkspacesRoute` | `app/api/workspaces/route.ts` |
| `CalendarGrid` | `components/calendar/CalendarGrid.tsx` |
| `PostDialog` | `components/calendar/PostDialog.tsx` |
| `PostViewDialog` | `components/calendar/PostViewDialog.tsx` |
| `MonthPlanList` | `components/calendar/MonthPlanList.tsx` |
| `MonthOverview` | `components/calendar/MonthStats.tsx` |
| `UsePosts` | `hooks/usePosts.ts` |
| `UseWorkspaces` | `hooks/useWorkspaces.ts` |
| `WorkspaceList` | `components/dashboard/WorkspaceList.tsx` |
| `WorkspaceCard` | `components/dashboard/WorkspaceCard.tsx` |
| `CreateWorkspaceModal` | `components/dashboard/CreateWorkspaceModal.tsx` |
| `EnvConfig` | `prisma.config.ts` |

Four modules are shared helpers:

- `Text`: JavaScript `trim`, `indexOf` and ASCII case mapping.
- `Lists`: find, filter, map-replace and sorting.
- `Calendar`: the proleptic Gregorian calendar, weekdays, month bounds, and `date-fns` month arithmetic.
- `Wrappers`: `Option`.

Modelling conventions:

- **Ids.** Ids are `nat`. The store hands out fresh ids from one counter; only id equality is observed.
- **Instants.** Instants are `int` milliseconds since the epoch, and a calendar day is `Day(t) = t / MsPerDay`, so local time is taken to be UTC. Equal ISO date strings are modelled as equal instants.
- **Missing fields.** A request field that is "missing" in the sense of a JavaScript `!x` test is `None`.
- **Platform names.** Platform names stay raw strings wherever the source stores or sends them, because the server stores whatever name it receives. `Types.ParsePlatform` maps a name onto the six known platforms, and the renderers skip every other name.
- **Classes and functions.** Components and hooks that hold React state are classes. Each handler is a method that changes exactly the state the handler sets. Pure computations (listings, counters, normalisers, the grid) are functions. The `.env.local` loader is a loop on a class that holds the environment.

The specification and the code agree on everything modelled here except one point, where the model follows the code. The month caption on a workspace card reads "N posts this month", but the count is the unrestricted `_count.posts` (see `WorkspaceCard.CaptionCountsEveryMonth`).

## Model

| member | source | states |
|---|---|---|
| Types.ParsePlatform | types/index.ts:1-7 | a name parses exactly when it is the wire name of one of the six platforms, and parses to that platform |
| Types.NameRoundTrip | types/index.ts:1-7 | parsing a platform's wire name gives the platform back; exactly the six names parse |
| Types.InputsOf | types/index.ts:9-13 | dropping the ids of platform entries keeps their number, order, names and links |
| Text.TrimStart | components/dashboard/WorkspaceCard.tsx:22 | the result is a suffix of the input with no leading whitespace, and everything dropped is whitespace |
| Text.TrimEnd | components/dashboard/CreateWorkspaceModal.tsx:36 | the result is a prefix of the input with no trailing whitespace, and everything dropped is whitespace |
| Text.TrimShape | components/dashboard/WorkspaceCard.tsx:22 | `trim` gives a contiguous slice of the input that starts and ends with a non-whitespace character (or is empty) |
| Text.TrimEmptyIff | components/dashboard/WorkspaceCard.tsx:22 | a string trims to empty exactly when every character is whitespace |
| Text.TrimNoOp | components/dashboard/WorkspaceCard.tsx:22 | a string with no whitespace at either end is its own trim |
| Text.TrimIdempotent | components/dashboard/WorkspaceCard.tsx:24 | trimming twice is trimming once |
| Text.IndexOf | prisma.config.ts:11-12 | `indexOf` of one character gives the first position holding it, or none exactly when it does not occur |
| Text.LowerAsciiString | components/calendar/MonthPlanList.tsx:17 | case folding keeps the length and folds every character position by position |
| Text.PluralSuffix | components/calendar/MonthPlanList.tsx:76 | the suffix is empty exactly for a count of one |
| Text.TrimmedFields | components/dashboard/WorkspaceCard.tsx:21-24 | the form submits exactly when both trimmed fields are non-empty, and then submits the trimmed fields |
| Text.TrimmedFieldsAreTrimmed | components/dashboard/CreateWorkspaceModal.tsx:36-38 | what the forms submit is non-empty and already trimmed |
| Lists.FindFirst | components/calendar/CalendarGrid.tsx:52-54 | `find` gives the first position that matches, or none exactly when no element matches |
| Lists.Filter | hooks/useWorkspaces.ts:46 | `filter` keeps exactly the elements that pass the test |
| Lists.FilterKeepsOrder | hooks/usePosts.ts:45 | the filtered list is a subsequence of the original: order is kept |
| Lists.FilterCounts | hooks/usePosts.ts:45 | each kept element keeps its multiplicity, and each dropped element occurs zero times |
| Lists.FilterAll | hooks/useWorkspaces.ts:46 | a filter that every element passes changes nothing |
| Lists.ReplaceWhere | hooks/useWorkspaces.ts:40 | the replacing `map` keeps the length |
| Lists.ReplaceWhereAt | hooks/useWorkspaces.ts:40 | each position holds the replacement where it matched and its old element elsewhere |
| Lists.InsertBy | components/calendar/MonthPlanList.tsx:47-49 | inserting into a sorted list keeps it sorted and adds exactly the one element |
| Lists.SortBy | components/calendar/MonthPlanList.tsx:47-49 | sorting gives an ascending permutation of the input |
| Calendar.DaysInMonth | components/calendar/CalendarGrid.tsx:46-47 | every month has 28 to 31 days |
| Calendar.Weekday | components/calendar/CalendarGrid.tsx:48-49 | a weekday is one of seven; WeekdayNumbering pins 0 to Monday |
| Calendar.YearLength | components/calendar/CalendarGrid.tsx:46-47 | consecutive years are as many days apart as the first one's length |
| Calendar.MonthsAbut | components/calendar/CalendarGrid.tsx:46-47 | the day after a month's last day is the first day of the next month |
| Calendar.DayNumberKnown | app/api/posts/route.ts:27-29 | the day numbering is anchored at 1 January 1970 and agrees with known dates |
| Calendar.WeekdayNumbering | components/calendar/CalendarGrid.tsx:48-49 | weekdays are numbered from Monday (0) to Sunday (6): 1 January 1970 is a Thursday, 3 and 4 March 2024 a Sunday and a Monday |
| Calendar.DayNumber | app/api/posts/route.ts:27 | defined by its body; see Calendar.DayNumberKnown, Calendar.YearLength and Calendar.MonthsAbut |
| Calendar.MonthStart | app/api/posts/route.ts:28 | defined by its body; see Calendar.MonthBoundsAreDays |
| Calendar.MonthEnd | app/api/posts/route.ts:29 | defined by its body; see Calendar.MonthBoundsAreDays |
| Calendar.DateFields | app/api/posts/route.ts:27 | `new Date(y, m, 1)` rolls an out-of-range month into the year and maps the years 0-99 to 1900-1999 |
| Calendar.MonthBoundsAreDays | app/api/posts/route.ts:28-34 | an instant is within a month's start and end exactly when it falls on one of that month's days |
| Calendar.AddMonths | components/calendar/CalendarGrid.tsx:71-81 | adding months moves the month ordinal by exactly that many, keeps the day of month or clamps it to the new month's last day, and gives a valid date |
| Calendar.NextThenPrevSameMonth | components/calendar/CalendarGrid.tsx:71-81 | "next" and then "previous" comes back to the same month and year |
| Database.NewRows | app/api/posts/route.ts:71-76 | the created platform rows are one per input, in input order, with consecutive fresh ids and the post as parent |
| Database.EntriesOf | app/api/posts/route.ts:78 | a post's included platforms are its rows, one entry per row, in order |
| Database.CountPostsOf | app/api/workspaces/route.ts:20 | the post count is at most the table's size, and zero exactly when no post belongs to the workspace |
| Database.FindPost | app/api/posts/route.ts:56-61 | `findFirst` by workspace and date finds a row with that key, or none exactly when no row has it |
| Database.RowsOfConcat | app/api/posts/route.ts:71-76 | a post's rows in two tables put together are its rows in each, in order |
| Database.RowsOfDropped | app/api/posts/route.ts:66 | after `deleteMany` for a post it has no rows, and every other post keeps its rows |
| Database.RowsOf | app/api/posts/route.ts:66 | defined by its body; see Database.RowsOfConcat, Database.RowsOfDropped and Database.RowsOfNew |
| Database.DropRowsOf | app/api/posts/route.ts:66 | defined by its body; see Database.RowsOfDropped and Database.DropRowsOfMembers |
| Database.RowsOfAbsent | app/api/posts/route.ts:66 | a post that no row points at has no rows |
| Database.DropRowsOfMembers | app/api/posts/route.ts:66 | `deleteMany` keeps exactly the rows of the other posts |
| Database.RowsOfNew | app/api/posts/route.ts:71-76 | the created rows all belong to the saved post and to no other |
| Database.NewRowsRoundTrip | app/api/posts/route.ts:71-78 | reading back the created rows gives exactly the submitted names and links |
| Database.PostIdsSame | app/api/posts/route.ts:67-79 | an update that keeps every row's id keeps the set of post ids |
| Database.PostIdsAppend | app/api/posts/route.ts:81-94 | a created post adds exactly its id to the set of post ids |
| Database.WorkspaceIdsAppend | app/api/workspaces/route.ts:38-41 | a created workspace adds exactly its id to the set of workspace ids |
| Database.PostsValidAppend | app/api/posts/route.ts:81-94 | a new post with a fresh id and an existing workspace keeps the posts table valid |
| Database.PlatformsValidAppend | app/api/posts/route.ts:86-91 | valid platform rows added to a valid table keep it valid |
| Database.NewRowsValid | app/api/posts/route.ts:71-76 | rows created for an existing post are valid under the advanced id counter |
| Database.Store.constructor | app/api/posts/route.ts:31-38 | an empty store is valid |
| Database.Store.DeletePlatformsOf | app/api/posts/route.ts:66 | `deleteMany` drops exactly the post's platform rows and keeps the store valid |
| Database.Store.UpdatePost | app/api/posts/route.ts:67-79 | `post.update` sets the description and update time of exactly that row, appends the new platform rows, and returns the row with its platforms |
| Database.Store.CreatePost | app/api/posts/route.ts:81-94 | `post.create` fails and changes nothing for an unknown workspace; otherwise it appends the row and its platform rows under fresh ids and returns them |
| Database.Store.CreateWorkspace | app/api/workspaces/route.ts:38-41 | `workspace.create` appends a workspace with a fresh id and no share token, which has no posts |
| PostsRoute.RowsInMonth | app/api/posts/route.ts:31-35 | the listed rows are exactly the workspace's rows dated within the month's first and last instant |
| PostsRoute.ViewsOf | app/api/posts/route.ts:36 | each listed row comes with its own platforms, in order |
| PostsRoute.ViewOfInjective | app/api/posts/route.ts:36 | two rows that read back alike are the same row |
| PostsRoute.ViewsOfMembers | app/api/posts/route.ts:36 | a post is in the listing exactly when its row is among the listed rows |
| PostsRoute.SortedMembers | app/api/posts/route.ts:37 | ordering the listing keeps exactly its members |
| PostsRoute.MonthListing | app/api/posts/route.ts:31-38 | the listing is in ascending date order |
| PostsRoute.MonthListingExact | app/api/posts/route.ts:31-38 | a stored post is listed exactly when it belongs to the workspace and lies within the month, and nothing else is listed |
| PostsRoute.HandleGet | app/api/posts/route.ts:14-41 | 401 without a user; 400 when the workspace, month or year is missing; otherwise, in date order, the month listing of the month `new Date(year, month - 1, 1)` names, whose members MonthListingExact gives |
| PostsRoute.ListedAreMonthDays | app/api/posts/route.ts:27-34 | a post is listed exactly when it belongs to the workspace and falls on one of the month's days |
| PostsRoute.March2024Bounds | app/api/posts/route.ts:27-29 | month 3 of 2024 runs from 1 March 00:00 to the last millisecond of 31 March, and excludes 29 February and 1 April |
| PostsRoute.OtherRowsKept | app/api/posts/route.ts:66-76 | saving one post leaves every other post's platform rows as they were |
| PostsRoute.OwnRowsReplaced | app/api/posts/route.ts:66-76 | after a save the post's platform rows are exactly the newly created ones |
| PostsRoute.FreshIdHasNoRows | app/api/posts/route.ts:81-94 | in a valid store no platform row points at the next fresh id |
| PostsRoute.KeysAfterUpdate | app/api/posts/route.ts:67-79 | updating a post keeps one post per workspace and date |
| PostsRoute.KeysAfterAppend | app/api/posts/route.ts:81-94 | creating a post whose key had no post keeps one post per workspace and date |
| PostsRoute.SaveExisting | app/api/posts/route.ts:64-79 | the update path rewrites the one post's description, replaces its platforms by the submitted ones (read back as submitted), and leaves every other post reading back as before |
| PostsRoute.SaveNew | app/api/posts/route.ts:80-94 | the create path fails without changes for an unknown workspace; otherwise it appends the post, which reads back with the submitted platforms, and every old post reads back as before |
| PostsRoute.NewPostReadBack | app/api/posts/route.ts:81-94 | a new post reads back with exactly the submitted platforms, and the old posts' platforms are unaffected |
| PostsRoute.HandlePost | app/api/posts/route.ts:43-98 | 401 without a user and 400 without a workspace or date, both with no change; an existing post for the key is updated in place; otherwise a post is created (`description ?? ""`, `platforms ?? []`); one post per key is preserved and workspaces are untouched |
| WorkspacesRoute.Annotated | app/api/workspaces/route.ts:19-21 | `_count.posts` is the workspace's number of posts, and nothing else about the workspace changes |
| WorkspacesRoute.AnnotateAll | app/api/workspaces/route.ts:17-22 | every workspace is annotated, in order |
| WorkspacesRoute.WorkspaceListing | app/api/workspaces/route.ts:17-22 | the listing is newest first and a permutation of the annotated workspaces |
| WorkspacesRoute.WorkspaceListingExact | app/api/workspaces/route.ts:17-22 | one entry per stored workspace, each carrying its own post count, and nothing else |
| WorkspacesRoute.NewestFirst | app/api/workspaces/route.ts:18 | defined by its body; see WorkspacesRoute.WorkspaceListing |
| WorkspacesRoute.HandleList | app/api/workspaces/route.ts:13-25 | 401 exactly without a user; otherwise the newest-first listing of all workspaces with their counts |
| WorkspacesRoute.HandleCreate | app/api/workspaces/route.ts:27-44 | 401 without a user; 400 when either field is missing or empty, with no change; otherwise one new workspace with a fresh id, the given fields, no share token and a post count of zero |
| WorkspacesRoute.FormFieldsPassServer | app/api/workspaces/route.ts:34-36 | what the dashboard forms submit always passes the endpoint's validation |
| WorkspacesRoute.BlankNameReachesStore | app/api/workspaces/route.ts:34-36 | the endpoint accepts a blank name that the forms would refuse |
| CalendarGrid.PostForDay | components/calendar/CalendarGrid.tsx:52-54 | the day's post is the first post on that day, or none exactly when no post is on it |
| CalendarGrid.SaveByDayReplaces | components/calendar/CalendarGrid.tsx:83-88 | a saved post whose day already shows a post takes that post's place, and everything else stays |
| CalendarGrid.SaveByDay | components/calendar/CalendarGrid.tsx:83-91 | defined by its body; see CalendarGrid.SaveByDayReplaces, CalendarGrid.SaveByDayAppends and CalendarGrid.SavedIsShown |
| CalendarGrid.SaveByDayAppends | components/calendar/CalendarGrid.tsx:89 | a saved post on an empty day is appended |
| CalendarGrid.SavedIsShown | components/calendar/CalendarGrid.tsx:83-91 | after a save the saved post is the one its day shows |
| CalendarGrid.RemovePost | components/calendar/CalendarGrid.tsx:93-95 | deleting keeps exactly the posts with other ids |
| CalendarGrid.RemoveKeepsOthers | components/calendar/CalendarGrid.tsx:93-95 | deleting keeps the order and the multiplicity of every other post |
| CalendarGrid.GridDays | components/calendar/CalendarGrid.tsx:46-50 | the grid is the consecutive days from the grid's start to its end |
| CalendarGrid.WeekdayFromMonday | components/calendar/CalendarGrid.tsx:48 | counting from a Monday, day i has weekday i mod 7 |
| CalendarGrid.WholeWeeks | components/calendar/CalendarGrid.tsx:48-49 | extending to the surrounding Monday and Sunday moves each end by at most six days and gives whole weeks |
| CalendarGrid.GridShape | components/calendar/CalendarGrid.tsx:46-50 | the grid starts on a Monday and ends on a Sunday, holds 4 to 6 whole weeks of consecutive days, and contains every day of the month |
| CalendarGrid.CellEdges | components/calendar/CalendarGrid.tsx:145-146 | the last column holds exactly the Sundays, and the last row is exactly the last week |
| CalendarGrid.FetchFor | components/calendar/CalendarGrid.tsx:58-63 | the share endpoint is used exactly for a read-only view with a non-empty token, and either request names the shown month (1-based) and year |
| CalendarGrid.FetchNamesShownMonth | components/calendar/CalendarGrid.tsx:58-63 | the month the grid requests is the month the endpoint then lists |
| CalendarGrid.Grid.constructor | components/calendar/CalendarGrid.tsx:41-44 | the grid starts with the initial posts and date, nothing selected and not loading |
| CalendarGrid.Grid.Days | components/calendar/CalendarGrid.tsx:46-50 | the shown days are the grid of the current month |
| CalendarGrid.Grid.SelectedPost | components/calendar/CalendarGrid.tsx:97 | the dialog's post is the selected day's post, or none without a selection |
| CalendarGrid.Grid.Select | components/calendar/CalendarGrid.tsx:153 | clicking a cell selects that day |
| CalendarGrid.Grid.HandleSave | components/calendar/CalendarGrid.tsx:83-91 | the posts become the by-day merge of the saved post |
| CalendarGrid.Grid.HandleDelete | components/calendar/CalendarGrid.tsx:93-95 | the posts lose exactly the deleted id |
| CalendarGrid.Grid.HandlePrev | components/calendar/CalendarGrid.tsx:71-75 | the shown month moves back by one and the new month's posts are requested |
| CalendarGrid.Grid.HandleNext | components/calendar/CalendarGrid.tsx:77-81 | the shown month moves forward by one and the new month's posts are requested |
| CalendarGrid.Grid.FinishFetch | components/calendar/CalendarGrid.tsx:65-68 | the fetched posts replace the shown ones and loading ends |
| UsePosts.SaveMergeReplaces | hooks/usePosts.ts:35-37 | a saved post matching an existing one by id or date replaces the posts with that one's id, and everything else stays |
| UsePosts.SaveMerge | hooks/usePosts.ts:35-39 | defined by its body; see UsePosts.SaveMergeReplaces, UsePosts.SaveMergeAppends and UsePosts.SavedIsListed |
| UsePosts.SaveMergeAppends | hooks/usePosts.ts:38 | a saved post matching nothing is appended |
| UsePosts.SavedIsListed | hooks/usePosts.ts:35-39 | after a save the saved post is in the list |
| UsePosts.SaveMergeTwiceDiffers | hooks/usePosts.ts:35-39 | when the first match has another id, saving the same post twice duplicates it |
| UsePosts.KeyingsDiffer | hooks/usePosts.ts:36 | the server, the grid and the hook key a save differently: same instant, same day, exact date string |
| UsePosts.MidnightKeysAgree | components/calendar/PostDialog.tsx:103 | for posts dated at midnight, "same day" and "same instant" agree |
| UsePosts.SaveBody | hooks/usePosts.ts:32 | the request body carries the hook's workspace with the caller's date, description and platforms |
| UsePosts.PostsHook.constructor | hooks/usePosts.ts:7-8 | the hook starts with no posts and loading |
| UsePosts.PostsHook.StartFetch | hooks/usePosts.ts:10-14 | fetching sets loading and requests the workspace's posts of that month |
| UsePosts.PostsHook.FinishFetch | hooks/usePosts.ts:15-17 | the fetched posts replace the list and loading ends |
| UsePosts.PostsHook.SavePost | hooks/usePosts.ts:24-41 | the list becomes the merge of the saved post, which is returned and listed |
| UsePosts.PostsHook.DeletePost | hooks/usePosts.ts:43-46 | the list loses exactly the deleted id |
| UseWorkspaces.Prepended | hooks/useWorkspaces.ts:29 | a created workspace goes first, ahead of the unchanged list |
| UseWorkspaces.Renamed | hooks/useWorkspaces.ts:40 | renaming keeps the length |
| UseWorkspaces.WithoutWorkspace | hooks/useWorkspaces.ts:46 | deleting keeps exactly the workspaces with other ids |
| UseWorkspaces.RenamedAt | hooks/useWorkspaces.ts:40 | each position holds the updated workspace where the id matched and the old one elsewhere |
| UseWorkspaces.WithoutKeepsOthers | hooks/useWorkspaces.ts:46 | deleting keeps the order of the others |
| UseWorkspaces.DeleteUndoesCreate | hooks/useWorkspaces.ts:29-46 | deleting a just-created workspace with a new id restores the list |
| UseWorkspaces.DeleteAfterRename | hooks/useWorkspaces.ts:40-46 | deleting after renaming the same workspace is the same as deleting it |
| UseWorkspaces.RenamedDeleted | hooks/useWorkspaces.ts:40-46 | two lists that differ only in the deleted workspace agree after the delete |
| UseWorkspaces.WorkspacesHook.constructor | hooks/useWorkspaces.ts:7-8 | the hook starts with no workspaces and loading |
| UseWorkspaces.WorkspacesHook.StartFetch | hooks/useWorkspaces.ts:10-12 | fetching sets loading |
| UseWorkspaces.WorkspacesHook.FinishFetch | hooks/useWorkspaces.ts:13-15 | the fetched workspaces replace the list and loading ends |
| UseWorkspaces.WorkspacesHook.CreateWorkspace | hooks/useWorkspaces.ts:22-31 | the created workspace is prepended and returned |
| UseWorkspaces.WorkspacesHook.UpdateWorkspace | hooks/useWorkspaces.ts:33-42 | the updated workspace replaces the one with its id and is returned |
| UseWorkspaces.WorkspacesHook.DeleteWorkspace | hooks/useWorkspaces.ts:44-47 | the list loses exactly the deleted id |
| WorkspaceList.WorkspaceListView.constructor | components/dashboard/WorkspaceList.tsx:14-15 | the list starts from the server's workspaces with the dialog closed |
| WorkspaceList.WorkspaceListView.HandleCreate | components/dashboard/WorkspaceList.tsx:17-25 | the created workspace is prepended |
| WorkspaceList.WorkspaceListView.HandleRename | components/dashboard/WorkspaceList.tsx:27-37 | the updated workspace replaces the one with its id |
| WorkspaceList.WorkspaceListView.HandleDelete | components/dashboard/WorkspaceList.tsx:39-42 | the list loses exactly the deleted id |
| WorkspaceList.WorkspaceListView.OpenModal | components/dashboard/WorkspaceList.tsx:68 | the add button opens the dialog |
| WorkspaceList.WorkspaceListView.CloseModal | components/dashboard/WorkspaceList.tsx:76-79 | closing hides the dialog |
| WorkspaceList.ShowsEmptyState | components/dashboard/WorkspaceList.tsx:56 | defined by its body; see WorkspaceList.WorkspaceListView.HandleCreate and WorkspaceList.WorkspaceListView.HandleRename |
| PostDialog.Rank | components/calendar/PostDialog.tsx:16-23 | every platform has its position in the dialog's fixed platform order |
| PostDialog.LastUrlMeaning | components/calendar/PostDialog.tsx:69-71 | a platform's initial link is the one of its last entry, or empty without an entry |
| PostDialog.InitialActive | components/calendar/PostDialog.tsx:43-58 | the toggle loop gives the specified initial toggles |
| PostDialog.InitialUrls | components/calendar/PostDialog.tsx:59-74 | the link loop gives the specified initial links |
| PostDialog.InitialStateMeaning | components/calendar/PostDialog.tsx:43-74 | every platform starts with a toggle and a link; a toggle is on exactly when the post has an entry for it; a new post starts with all off and empty |
| PostDialog.Toggled | components/calendar/PostDialog.tsx:86-88 | toggling flips that platform and changes no other |
| PostDialog.ToggleTwice | components/calendar/PostDialog.tsx:86-88 | toggling twice restores the toggles |
| PostDialog.TogglesCommute | components/calendar/PostDialog.tsx:86-88 | toggles of two platforms commute |
| PostDialog.ActiveInOrder | components/calendar/PostDialog.tsx:94-95 | the chosen platforms are exactly the ones switched on, in the given order |
| PostDialog.BuildPlatforms | components/calendar/PostDialog.tsx:94-96 | one entry per chosen platform, each with its current link |
| PostDialog.NameOfInjective | components/calendar/PostDialog.tsx:16-23 | distinct platforms have distinct names |
| PostDialog.NameRankOf | components/calendar/PostDialog.tsx:16-23 | a platform's name has its platform's rank |
| PostDialog.OrderIsComplete | components/calendar/PostDialog.tsx:16-23 | the fixed order holds every platform, each once |
| PostDialog.BuildPlatformsExact | components/calendar/PostDialog.tsx:94-96 | the submitted entries are known, switched on and carry their link; every switched-on platform is submitted; they follow the fixed order |
| PostDialog.BuildPlatformsDistinct | components/calendar/PostDialog.tsx:94-96 | no platform is submitted twice |
| PostDialog.SaveRequest | components/calendar/PostDialog.tsx:90-106 | no request without a date; otherwise the body carries the workspace, the date, the description and the built platforms |
| PostDialog.ClearFor | components/calendar/PostDialog.tsx:114-118 | Clear only closes for a new post, and deletes the post by its id otherwise |
| PostDialog.PostEditor.constructor | components/calendar/PostDialog.tsx:42-76 | the editor starts with the post's description (or empty), the initial toggles and links, and not saving or deleting |
| PostDialog.PostEditor.TogglePlatform | components/calendar/PostDialog.tsx:86-88 | the toggles become the toggled map |
| PostDialog.PostEditor.SetUrl | components/calendar/PostDialog.tsx:59-74 | editing a link changes only that platform's link |
| PostDialog.PostEditor.SetDescription | components/calendar/PostDialog.tsx:42 | editing the description replaces it |
| PostDialog.PostEditor.HandleSave | components/calendar/PostDialog.tsx:90-107 | the request is the specified save request, and saving starts exactly when there is a date |
| PostDialog.PostEditor.SaveDone | components/calendar/PostDialog.tsx:108-111 | the server's post goes to the parent and saving ends |
| PostDialog.PostEditor.HandleClear | components/calendar/PostDialog.tsx:114-117 | the action is the specified clear action, and deleting starts exactly for an existing post |
| PostDialog.PostEditor.ClearDone | components/calendar/PostDialog.tsx:118-120 | deleting ends |
| MonthOverview.CountWhere | components/calendar/MonthStats.tsx:11-15 | a counter never exceeds the number of posts |
| MonthOverview.Summarize | components/calendar/MonthStats.tsx:9-19 | total and days planned are the number of posts; videos, instagram and tiktok count the posts with such an entry; active platforms count the distinct names |
| MonthOverview.CountConcat | components/calendar/MonthStats.tsx:11-15 | counting over two lists put together adds the counts |
| MonthOverview.CountPrefix | components/calendar/MonthStats.tsx:11-15 | the count over a prefix is the number of matching positions below its length |
| MonthOverview.CountIsPositions | components/calendar/MonthStats.tsx:11-15 | a count is the number of matching positions |
| MonthOverview.CountMonotone | components/calendar/MonthStats.tsx:11-15 | a weaker test counts at least as many posts |
| MonthOverview.CountersBounded | components/calendar/MonthStats.tsx:9-15 | instagram and videos are at most the total, and tiktok at most the videos |
| MonthOverview.NoneActiveIff | components/calendar/MonthStats.tsx:17-18 | no platform is active exactly when no post has an entry |
| MonthOverview.AtMostSixActive | components/calendar/MonthStats.tsx:17-18 | with known names only, at most six platforms are active |
| MonthOverview.SubsetSize | components/calendar/MonthStats.tsx:17-18 | a subset has at most as many names |
| MonthPlanList.NormaliserCases | components/calendar/MonthPlanList.tsx:15-18 | "#" for no link, an http(s) link as it is, anything else behind "https://" |
| MonthPlanList.HasHttpPrefix | components/calendar/MonthPlanList.tsx:17 | defined by its body; see MonthPlanList.NormaliserCases and MonthPlanList.NormaliserExamples |
| MonthPlanList.EnsureAbsoluteUrl | components/calendar/MonthPlanList.tsx:15-18 | defined by its body; see MonthPlanList.NormaliserCases, MonthPlanList.NormaliserNonEmpty and MonthPlanList.NormaliserIdempotent |
| MonthPlanList.NormaliserNonEmpty | components/calendar/MonthPlanList.tsx:15-18 | the target is never empty, and is "#" exactly for no link |
| MonthPlanList.PrefixedIsAbsolute | components/calendar/MonthPlanList.tsx:17 | whatever the normaliser prefixes passes its own test |
| MonthPlanList.NormaliserIdempotent | components/calendar/MonthPlanList.tsx:15-18 | on a non-empty link, normalising twice is normalising once |
| MonthPlanList.NormaliserTwiceOnEmpty | components/calendar/MonthPlanList.tsx:15-18 | on the empty link, a second pass turns "#" into "https://#" |
| MonthPlanList.NormaliserExamples | components/calendar/MonthPlanList.tsx:17 | the scheme test ignores letter case; a bare host gets https |
| MonthPlanList.SortedPlan | components/calendar/MonthPlanList.tsx:47-49 | the plan is an ascending-by-date permutation of the posts |
| MonthPlanList.CountLabelSingular | components/calendar/MonthPlanList.tsx:76 | the label is "post" exactly for one post and "posts" otherwise |
| MonthPlanList.ChipFor | components/calendar/MonthPlanList.tsx:140-169 | an entry has a chip exactly when its name is known; the chip is a link exactly when it has a url, and then points at the normalised, never "#", target |
| MonthPlanList.PlanChips | components/calendar/MonthPlanList.tsx:140-170 | the chips are exactly those of the entries with known names |
| MonthPlanList.UnknownNamesNoChips | components/calendar/MonthPlanList.tsx:141-142 | entries with unknown names only give no chips |
| MonthPlanList.RowOf | components/calendar/MonthPlanList.tsx:96-181 | a row shows the description only when non-empty, the chip strip only when the post has entries, and "View" or "Edit" by mode |
| MonthPlanList.Plan | components/calendar/MonthPlanList.tsx:47-93 | the empty state exactly without posts (with the add hint outside read-only mode); otherwise one row per post in date order; the label counts the posts |
| PostViewDialog.LinkFor | components/calendar/PostViewDialog.tsx:137-166 | an entry has a link exactly when its name is known; it points at the normalised url and shows "View post" exactly when the url is non-empty |
| PostViewDialog.LinksOf | components/calendar/PostViewDialog.tsx:137-169 | the links are exactly those of the entries with known names |
| PostViewDialog.BodyFor | components/calendar/PostViewDialog.tsx:112-172 | "No content planned" exactly without a post; otherwise the description only when non-empty and the platform section only when there are entries |
| PostViewDialog.ViewDialog | components/calendar/PostViewDialog.tsx:78 | nothing is rendered exactly without a date |
| PostViewDialog.HintIffTarget | components/calendar/PostViewDialog.tsx:143-166 | a link shows the hint exactly when its target is not "#" |
| PostViewDialog.ViewAgreesWithPlan | components/calendar/PostViewDialog.tsx:64-67 | the view and the plan list agree on every known entry: same platform, a plan link exactly where the view shows the hint, and the same target |
| WorkspaceCard.PostCount | components/dashboard/WorkspaceCard.tsx:34 | the shown count is `_count.posts` when present and 0 otherwise |
| WorkspaceCard.CountCaptionSingular | components/dashboard/WorkspaceCard.tsx:95 | the caption is singular exactly for one post |
| WorkspaceCard.CaptionCountsEveryMonth | components/dashboard/WorkspaceCard.tsx:34 | a workspace with one January post shows "1 post this month" while March lists none of its posts |
| WorkspaceCard.Initial | components/dashboard/WorkspaceCard.tsx:35 | the monogram is empty exactly for an empty name, and otherwise the upper-cased first character |
| WorkspaceCard.DeleteCalls | components/dashboard/WorkspaceCard.tsx:29-32 | every click or focus loss has one outcome |
| WorkspaceCard.DeleteNeedsTwoClicks | components/dashboard/WorkspaceCard.tsx:29-32 | a click deletes exactly when the event before it was a click too (for the first event: the button was armed); focus loss in between disarms |
| WorkspaceCard.ConfirmStep | components/dashboard/WorkspaceCard.tsx:29-32 | defined by its body; see WorkspaceCard.DeleteNeedsTwoClicks |
| WorkspaceCard.Card.constructor | components/dashboard/WorkspaceCard.tsx:15-19 | the card starts out of edit mode with the workspace's fields and disarmed |
| WorkspaceCard.Card.BeginEdit | components/dashboard/WorkspaceCard.tsx:102 | Edit enters edit mode |
| WorkspaceCard.Card.SetFields | components/dashboard/WorkspaceCard.tsx:16-17 | typing replaces the two fields |
| WorkspaceCard.Card.HandleSave | components/dashboard/WorkspaceCard.tsx:21-24 | no rename exactly when a trimmed field is empty; otherwise saving starts and the trimmed fields are sent for this workspace |
| WorkspaceCard.Card.RenameDone | components/dashboard/WorkspaceCard.tsx:25-26 | saving and editing end |
| WorkspaceCard.Card.HandleDelete | components/dashboard/WorkspaceCard.tsx:29-32 | a click arms a disarmed button and deletes this workspace when armed |
| WorkspaceCard.Card.HandleBlur | components/dashboard/WorkspaceCard.tsx:111 | losing focus disarms |
| WorkspaceCard.Card.Cancel | components/dashboard/WorkspaceCard.tsx:67 | Cancel leaves edit mode and restores both fields from the current workspace prop |
| WorkspaceCard.Card.Rerender | components/dashboard/WorkspaceList.tsx:47-50 | the list keeps the card of an id mounted and passes it the replaced workspace; editing, the fields and the flags keep their values, so a later Cancel restores the new fields |
| CreateWorkspaceModal.SubmitEnabledIff | components/dashboard/CreateWorkspaceModal.tsx:112 | the button is enabled exactly when nothing is loading and a submission would go through |
| CreateWorkspaceModal.SubmitBlocked | components/dashboard/CreateWorkspaceModal.tsx:112 | defined by its body; see CreateWorkspaceModal.SubmitEnabledIff |
| CreateWorkspaceModal.Modal.constructor | components/dashboard/CreateWorkspaceModal.tsx:13-15 | the dialog starts with empty fields, not loading |
| CreateWorkspaceModal.Modal.SetOpen | components/dashboard/CreateWorkspaceModal.tsx:18-24 | opening clears both fields; any other change of `open` keeps them |
| CreateWorkspaceModal.Modal.SetFields | components/dashboard/CreateWorkspaceModal.tsx:13-14 | typing replaces the two fields |
| CreateWorkspaceModal.Modal.Close | components/dashboard/CreateWorkspaceModal.tsx:26-32 | Escape, the backdrop, the close button and Cancel all close the dialog |
| CreateWorkspaceModal.Modal.HandleSubmit | components/dashboard/CreateWorkspaceModal.tsx:34-38 | the creation sends the trimmed fields exactly when both are non-blank, and then loading starts; an enabled button always submits |
| CreateWorkspaceModal.Modal.CreateDone | components/dashboard/CreateWorkspaceModal.tsx:39-43 | loading ends and the dialog closes and renders nothing |
| EnvConfig.SplitLines | prisma.config.ts:7 | splitting always gives at least one line |
| EnvConfig.SplitHasNoNewlines | prisma.config.ts:7 | no line holds a newline |
| EnvConfig.JoinSplit | prisma.config.ts:7 | joining the lines with newlines gives the file back |
| EnvConfig.IndexAfterPrefix | prisma.config.ts:11 | `indexOf` finds the first occurrence past a prefix without it |
| EnvConfig.SplitJoin | prisma.config.ts:7 | splitting newline-free lines joined with newlines gives them back |
| EnvConfig.UnquoteQuoted | prisma.config.ts:15 | a value in quotes loses both quotes |
| EnvConfig.Unquote | prisma.config.ts:15 | defined by its body; see EnvConfig.UnquoteQuoted, EnvConfig.UnquotePlain and EnvConfig.UnquoteExamples |
| EnvConfig.UnquotePlain | prisma.config.ts:15 | a value not starting with a quote is kept |
| EnvConfig.UnquoteExamples | prisma.config.ts:15 | the slice drops the first and last character whatever they are, and a lone quote gives the empty value |
| EnvConfig.ParseLineCases | prisma.config.ts:9-14 | a line is skipped exactly when it trims to empty, starts with "#" or has no "="; otherwise its key is trimmed and holds no "=" |
| EnvConfig.ParseLine | prisma.config.ts:9-15 | defined by its body; see EnvConfig.ParseLineCases, EnvConfig.ParseAt, EnvConfig.ParsePlain and EnvConfig.ParseQuoted |
| EnvConfig.ParseAt | prisma.config.ts:11-15 | a trimmed line splits at its first "=" into the trimmed key and the trimmed, unquoted value |
| EnvConfig.LineTrimmed | prisma.config.ts:9 | a line with no whitespace at either end is kept as it is |
| EnvConfig.ParsePlain | prisma.config.ts:9-15 | `KEY=value` parses to that key and value |
| EnvConfig.ParseQuoted | prisma.config.ts:9-15 | `KEY="value"` parses to that key and the unquoted value |
| EnvConfig.QuotedTrimmed | prisma.config.ts:14 | a quoted value has no whitespace at either end |
| EnvConfig.CommentSkipped | prisma.config.ts:10 | a commented assignment is skipped |
| EnvConfig.ApplyEntry | prisma.config.ts:16 | a skipped line changes nothing, and an assignment leaves its key set |
| EnvConfig.EntryEffect | prisma.config.ts:16 | a line sets its key only when the key is unset or empty, keeps set values and touches no other key |
| EnvConfig.ApplyLinesConcat | prisma.config.ts:8-17 | processing two blocks of lines is processing one after the other |
| EnvConfig.ApplyLines | prisma.config.ts:8-17 | defined by its body; see EnvConfig.ApplyLinesConcat, EnvConfig.TruthyKept, EnvConfig.OthersUntouched and EnvConfig.FirstValueWins |
| EnvConfig.TruthyKept | prisma.config.ts:16 | a variable already set to a non-empty value is never overwritten |
| EnvConfig.OthersUntouched | prisma.config.ts:16 | a key that no line assigns keeps its presence and value |
| EnvConfig.StaysFalsy | prisma.config.ts:16 | a key assigned only empty values stays unset or empty |
| EnvConfig.FirstValueWins | prisma.config.ts:16 | for an unset or empty key, the first line that gives it a non-empty value decides it |
| EnvConfig.SetByLine | prisma.config.ts:16 | after the deciding line the key holds that line's value |
| EnvConfig.DatasourceUrl | prisma.config.ts:23 | the datasource url is present exactly when `DIRECT_URL` is set, and is its value |
| EnvConfig.Environment.constructor | prisma.config.ts:4 | the environment starts from the given variables |
| EnvConfig.Environment.LoadDotEnv | prisma.config.ts:5-18 | without the file nothing changes; with it, the loop leaves the environment that processing every line in order gives |

## Left out

- Authentication: the signed-in user is a boolean parameter. The `requireAuth` session lookup is not part of this model.
- Network, JSON and asynchrony:
  - `fetch`, response parsing and awaiting are collapsed into each handler's request value and its completion method.
  - Failed responses are not modelled: the clients use whatever the body is.
- The `CalendarGrid` fetch result `readonly ? data.posts : data` is modelled as the posts arriving directly. The share endpoint's response shape is not part of this model.
- Time zones: `Day` takes local time to be UTC.
  - `isToday` and `format` (badges, headings) are presentation and are not modelled.
- Query parsing:
  - `Number()` parsing of month and year is not modelled, and neither are `NaN` or non-numeric query values. Month and year arrive as optional integers.
  - The month is not range-checked by the source. An out-of-range month rolls over, as `Calendar.DateFields` states.
- PostsRoute.HandlePost: the JavaScript truthiness of non-string bodies (numbers, arrays) is not modelled. A field is either absent/empty or a value of its type.
- WorkspacesRoute.HandleCreate: the same holds for the `!name || !clientName` test; a field is either absent/empty or a string.
- PostsRoute.HandlePost: the body's date string is not parsed; `date` arrives as an instant or absent. A non-empty string that `new Date(date)` cannot read passes the `!date` test, and the source then fails with an unhandled 500 and no change; the model cannot represent that input.
- PostsRoute.HandlePost: `deleteMany` and `update` are separate statements. The model runs them back to back, with no concurrent request between them.
- Database.Store.CreatePost: an unknown workspace is modelled as a failed create (the foreign key). The source's unhandled 500 response is modelled as `StoreFailure`.
- Routes other than the two collection routes (`/api/posts/[id]`, `/api/workspaces/[id]`, the share routes) are not part of this model. The rename and delete requests the clients send there are modelled as their results arriving.
- WorkspaceCard.Initial: upper-cases ASCII letters only. JavaScript's `toUpperCase` maps all of Unicode, and `charAt(0)` takes one UTF-16 code unit.
- MonthPlanList.ChipFor / PostViewDialog.LinkFor: a name is known only when it is one of the six platforms. Inherited object keys such as `constructor`, which a JavaScript lookup into the platform table would also find, are treated as unknown.
- MonthPlanList.SortedPlan: does not state that posts with equal dates keep their relative order, which `Array.prototype.sort` guarantees.
- PostViewDialog: its own copy of `ensureAbsoluteUrl` is the same function as the plan list's, and is modelled once (`MonthPlanList.EnsureAbsoluteUrl`). `PostViewDialog.ViewAgreesWithPlan` relates the two renderers.
- Escape-key listeners, focus management and the modal's `setTimeout` focus are presentation. They are modelled only as the close action they trigger.
- CalendarGrid.CellEdges: states the last row as "the row index is the last row" (`i / 7`). The source's `i >= days.length - 7` is shown equivalent for a grid of whole weeks.
- The `.env.local` existence check and file read are modelled as the file's contents passed as `Option<string>`. Prisma's `defineConfig` is not part of this model beyond the datasource url.
- Styling, icons, colours and labels are left out. Only the texts that carry meaning are modelled: counts, hints and captions.

## Observations

Three places where the parts of the source disagree with each other are stated as lemmas in the model. They are kept as observations rather than corrected, because the source gives no evidence of which side was intended:

- The card's "this month" caption counts posts of all months (`WorkspaceCard.CaptionCountsEveryMonth`).
- The endpoint accepts a blank workspace name that the forms refuse (`WorkspacesRoute.BlankNameReachesStore`).
- The server, the grid and the `usePosts` hook key a saved post in three different ways (`UsePosts.KeyingsDiffer`, `UsePosts.SaveMergeTwiceDiffers`).
