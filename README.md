# Happy Home CRM — SOP video tracking, modelled in Dafny

Happy Home CRM trains its staff with SOP videos. There are two of them, `web-app-usage` and `mobile-app-usage`. The watch page of each video does three things:
- It records playback progress per `(user_id, sop_id)` in a hosted store, throttled to one save per five seconds of playback.
- It counts the video as watched from 95 percent.
- It refuses "mark as complete" until then.

The member dashboard lists the two SOPs with their completion state, counts and a search. The admin page joins every progress row with the viewer's profile and the SOP's title. A middleware decides redirects, and the sidebar highlights links and shows the admin links to administrators.

The model, file by file:

- `common.dfy` (`Common`): `Option`, plus JavaScript's `filter` and `find` on sequences and the sublist relation.
- `text.dfy` (`Text`): `toLowerCase`/`toUpperCase` (ASCII letters), `includes`, `startsWith`, `split(" ")`, the shared `getInitials`, integer `toString` and `padStart`.
- `store.dfy` (`Store`): the two tables the tracker writes, `sop_video_progress` and `sop_completions`.
  - As a value, each table is a map keyed on `(user_id, sop_id)`, and an upsert is map update.
  - As an object, `RecordStore` is the store the pages share.
- `tracker.dfy` (`Tracker`): the state of one watch page (its React `useState` values) and one pure transition per event handler.
  - It also has sequences of events (`Run`), with the invariants proved over all of them.
  - The two page files are copies that differ in the SOP id and in UI-only state, so they are modelled once and parameterised by `sop`.
- `sop_page.dfy` (`SopPage`): the page as an object, `WatchPage`.
  - Its fields are the React state. Its methods update them in place and write the shared `RecordStore`.
  - Each method is proved to perform exactly one transition in `Tracker`:
    - `CheckUserAndCompletionStatus` performs `OnLoad`.
    - `HandleMetadataLoaded` performs `OnMetadataLoaded`.
    - `HandleTimeUpdate` performs `OnTimeUpdate`.
    - `HandleEnded` performs `OnEnded`.
    - `HandleMarkComplete` performs `OnMarkComplete`.
    - `ForceSaveProgress` performs `OnForceSave`.
- `admin.dfy` (`Admin`): the profile/SOP join with its fallbacks, the search, the status badge, `formatTime`, and the page object with `fetchData`.
- `dashboard.dfy` (`Dashboard`): the completion set, the counts, the rounded percentage, the search and the tabs.
- `route_guard.dfy` (`RouteGuard`): the middleware's redirect decision.
- `nav.dfy` (`Nav`): `isActive`, the visible links, and the profile/admin loading with `.single()` semantics.

Inputs stand in for the outside world:
- Authentication results are the `Auth` datatype (error, no user, or a user).
- The watch pages and the dashboard read the modelled store, with a boolean for each query's success.
- The sidebar's `profiles` and `admins` tables are passed in as sequences, each with a boolean for its query's success.
- The admin page's `sop_video_progress`, `profiles` and `sops` queries are passed in as optional sequences, with `None` for a failed query.
- Timestamps are strings passed in as `now`.
- Playback positions and durations are `real`.

Three behaviours of the code worth noting:
- `handleEnded` does not consult the in-flight flag `isSaving`. Its write is never dropped because of a save in flight, and its `finally` clears `isSaving`.
- The administrator test is `.single()` on the `admins` table. It is true only when exactly one row matches, not merely when one exists.
- The completion gate is the page's own `videoWatched` flag. `handleMarkComplete` reads no stored progress, and the client code re-checks nothing.

## Model

| member | source | states |
|---|---|---|
| `Common.Filter` | app/dashboard/page.tsx:93-97 | `filter`: the result is no longer than the input, holds only elements satisfying the predicate, and holds every element that satisfies it |
| `Common.FilterIsSublist` | app/dashboard/page.tsx:252-276 | a filter keeps the order of the elements it keeps (the result is a sublist) |
| `Common.FilterSplit` | app/dashboard/page.tsx:90-91 | filters on two complementary predicates have lengths summing to the input's length |
| `Common.Find` | app/admin/page.tsx:72-82 | `find`: `None` exactly when no element matches; otherwise a matching element of the input |
| `Common.FindIsFirst` | app/admin/page.tsx:72-82 | the element `find` returns is the first match |
| `Text.ToLower` | app/admin/page.tsx:142-147 | `toLowerCase` keeps the length and maps every character by itself, the ASCII capitals to their small letters |
| `Text.ToUpper` | components/dashboard-nav.tsx:114-120 | `toUpperCase` keeps the length and maps every character by itself, the ASCII small letters to their capitals |
| `Text.ToLowerIdempotent` | app/admin/page.tsx:142-147 | lower-casing twice equals lower-casing once |
| `Text.StartsWith` | components/dashboard-nav.tsx:106 | `startsWith` holds exactly when the prefix is no longer than the string and agrees with it character by character |
| `Text.Contains` | app/admin/page.tsx:142-147 | `includes` only holds for a substring no longer than the string (its window characterisation is `ContainsAt`) |
| `Text.ContainsAt` | app/admin/page.tsx:142-147 | `includes` holds exactly when some window of the string equals the substring |
| `Text.ContainsEmpty` | app/dashboard/page.tsx:93-97 | every string includes the empty string |
| `Text.SplitOnSpace` | components/dashboard-nav.tsx:114-120 | `split(" ")` yields at least one piece, no piece contains a space, and joining the pieces with " " gives back the input |
| `Text.Initials` | components/dashboard-nav.tsx:114-120 | `getInitials` yields at most one character per space-separated piece and never a space |
| `Text.InitialsAreWordStarts` | components/dashboard-nav.tsx:114-120 | `getInitials` (same code in app/admin/page.tsx:166-172) is the upper-cased first character of every space-separated word, in order; empty words contribute nothing; `getInitials("")` is empty and the result is never longer than the name |
| `Text.NatToString` | app/admin/page.tsx:160-164 | `toString` of a natural number is a non-empty digit string with no leading zero (only 0 itself starts with '0'), one digit below 10, two below 100 |
| `Text.IntToString` | app/admin/page.tsx:160-164 | `toString` of an integer: for a non-negative number a digit string without a leading zero that reads back as the number; for a negative one a minus sign followed by the digits of its magnitude |
| `Text.PadStart` | app/admin/page.tsx:163 | `padStart` reaches the width, ends with the original string and fills the front with the fill character |
| `Text.NatToStringRoundTrip` | app/admin/page.tsx:163 | parsing the decimal rendering of `n` gives back `n` |
| `Store.Upsert` | app/sops/web-app-usage/page.tsx:169-173 | upsert on `(user_id, sop_id)`: the key holds the new row, every other row is unchanged, at most one row is added |
| `Store.UpsertKeepsKeyed` | app/sops/web-app-usage/page.tsx:157-173 | after an upsert every row is still stored under its own `(user_id, sop_id)` |
| `Store.UpsertSameKey` | app/sops/web-app-usage/page.tsx:270-281 | a second upsert on the same key replaces the first; the row count does not grow (last write wins, no duplicates) |
| `Store.UpsertIdempotent` | app/sops/web-app-usage/page.tsx:270-281 | repeating an identical upsert changes nothing |
| `Store.Lookup` | app/sops/web-app-usage/page.tsx:62-86 | `.eq(...).eq(...).single()` on the keyed table: a row exactly when the key is present, and it is the stored row |
| `Store.RecordStore.UpsertProgressRow` | app/sops/web-app-usage/page.tsx:169-178 | a successful progress upsert changes the store exactly as `UpsertProgress`; a failed one changes nothing |
| `Store.RecordStore.UpsertCompletionRow` | app/sops/web-app-usage/page.tsx:278-286 | a successful completion upsert changes the store exactly as `UpsertCompletion`; a failed one changes nothing |
| `Tracker.Percentage` | app/sops/web-app-usage/page.tsx:143 | the percentage is the floor of `t/d*100`: within 1 below it, in 0..100 for a position inside the video, 100 at the end |
| `Tracker.PercentageMonotone` | app/sops/web-app-usage/page.tsx:143 | a later position never gives a lower percentage |
| `Tracker.ShouldSave` | app/sops/web-app-usage/page.tsx:149 | the first report at or above 95 % of an unwatched video always saves; once the video is watched, a report saves exactly when it is 5 s past the last saved position |
| `Tracker.InitialPage` | app/sops/web-app-usage/page.tsx:19-27 | a fresh page has no user, is not watched, not completed, not saving or marking complete, starts at position 0 with progress 0, and has no video metadata loaded |
| `Tracker.OnLoad` | app/sops/web-app-usage/page.tsx:36-119 | without a user nothing is seeded and only "no user" sends to `/login`; with a user, `completed` comes from the completion row, `videoWatched` from a stored percentage of at least 95, `lastReportedTime` from the stored position, and the video seeks there if it is already loaded; a failed read seeds nothing; no other field changes |
| `Tracker.LoadReadsOwnRows` | app/sops/web-app-usage/page.tsx:62-86 | on a store whose rows sit under their own `(user_id, sop_id)`, the progress and completion rows a load reads belong to the signed-in user and this SOP |
| `Tracker.OnMetadataLoaded` | app/sops/web-app-usage/page.tsx:121-135 | records the duration and seeks to the last reported position exactly when it is past 0 |
| `Tracker.OnTimeUpdate` | app/sops/web-app-usage/page.tsx:137-195 | no user or a save in flight: nothing happens; otherwise a save is attempted exactly when 5 s have passed since the last saved position or the 95 % threshold is first reached; a successful save upserts exactly the row `(user, sop, t, d, pct, now)`, moves `lastReportedTime` to `t` and sets `videoWatched` from 95 %; a failed one changes neither store nor throttle; a save below 95 % is always 5 s past the last one; no field other than the shown progress, `lastReportedTime` and `videoWatched` changes |
| `Tracker.OnEnded` | app/sops/web-app-usage/page.tsx:197-237 | with a user, a write of position = duration at 100 % is always attempted (no throttle, no in-flight check); on success the video is watched; `isSaving` ends false |
| `Tracker.OnForceSave` | app/sops/web-app-usage/page.tsx:312-372 | an unthrottled save of the current position and percentage; moves `lastReportedTime` on success and never changes `videoWatched` |
| `Tracker.OnMarkComplete` | app/sops/web-app-usage/page.tsx:239-310 | refused with no write exactly when the video is not watched; completes exactly when watched, signed in and the upsert succeeds, and then upserts `(sop, user, now)` and sets `completed`; otherwise fails with no write; progress rows are never touched |
| `Tracker.PreventsDefault` | app/sops/web-app-usage/page.tsx:396-416 | the key handler suppresses exactly ArrowRight, ArrowLeft, space, f, m and k |
| `Tracker.Apply` | app/sops/web-app-usage/page.tsx:36-372 | any single event keeps `videoWatched` and `completed` once true, writes no completion while unwatched, writes only rows of its own SOP, and a persisted progress row is exactly what was upserted |
| `Tracker.FlagsSticky` | app/sops/web-app-usage/page.tsx:183-187 | over any sequence of events, `videoWatched` and `completed` are never reset |
| `Tracker.GateHolds` | app/sops/web-app-usage/page.tsx:239-247 | over any sequence of events, if the video is not watched at the end, the completion table is unchanged |
| `Tracker.OtherSopsUntouched` | app/sops/mobile-app-usage/page.tsx:155-170 | over any sequence of events a page never changes a progress or completion row of another SOP |
| `Tracker.TimeUpdatesThrottled` | app/sops/web-app-usage/page.tsx:148-151 | over any run of time updates, each persisted row below 95 % lies at least 5 s past the previous persisted one, and `lastReportedTime` is the last persisted position |
| `Tracker.TimeUpdatesReplay` | app/sops/web-app-usage/page.tsx:148-173 | over any run of time updates, the store is the initial one with the logged rows upserted in order |
| `Tracker.ResumeFromStoredPosition` | app/sops/web-app-usage/page.tsx:101-133 | after loading a stored row the page seeks back to its position once metadata arrives (when it is past 0) |
| `Tracker.FirstSaveAfterFiveSeconds` | app/sops/web-app-usage/page.tsx:148-151 | updates at 0, 3, 6, 9 s of a 120 s video persist exactly one row, at 6 s and 5 % |
| `Tracker.EndedStoresFullWatch` | app/sops/web-app-usage/page.tsx:207-229 | after a successful end the stored row has position = duration at 100 %, the video is watched and no save is in flight |
| `Tracker.MarkCompleteTwice` | app/sops/web-app-usage/page.tsx:270-281 | marking complete twice keeps one completion row for the key, carrying the later timestamp |
| `Tracker.MarkCompleteUnwatchedRefused` | app/sops/web-app-usage/page.tsx:239-247 | marking complete before the video is watched is refused and creates no completion row |
| `Tracker.ThresholdCrossingSaves` | app/sops/web-app-usage/page.tsx:149 | a jump from 92 s to 96 s of a 100 s video saves at once, only 4 s after the last report, and marks the video watched |
| `SopPage.WatchPage.constructor` | app/sops/web-app-usage/page.tsx:19-27 | the page starts in the initial state with its SOP and the shared store |
| `SopPage.WatchPage.CheckUserAndCompletionStatus` | app/sops/web-app-usage/page.tsx:36-119 | updates the fields exactly as `OnLoad`, returns its redirect and seek, never clears the flags |
| `SopPage.WatchPage.HandleMetadataLoaded` | app/sops/web-app-usage/page.tsx:121-135 | updates the fields and seeks exactly as `OnMetadataLoaded` |
| `SopPage.WatchPage.HandleTimeUpdate` | app/sops/web-app-usage/page.tsx:137-195 | updates fields and store exactly as `OnTimeUpdate`; the shown progress stays in 0..100 |
| `SopPage.WatchPage.SaveProgress` | app/sops/web-app-usage/page.tsx:151-194 | a successful save upserts exactly the row `(user, sop, t, d, pct, now)`, moves `lastReportedTime` to `t` and raises `videoWatched` at 95 %; a failed save changes neither the store nor any field; `isSaving` is clear again afterwards |
| `SopPage.WatchPage.HandleEnded` | app/sops/web-app-usage/page.tsx:197-237 | updates fields and store exactly as `OnEnded` |
| `SopPage.WatchPage.HandleMarkComplete` | app/sops/web-app-usage/page.tsx:239-310 | updates fields and store exactly as `OnMarkComplete`; an unwatched page leaves the store untouched |
| `SopPage.WatchPage.ForceSaveProgress` | app/sops/mobile-app-usage/page.tsx:309-369 | updates fields and store exactly as `OnForceSave`; `videoWatched` is unchanged |
| `Admin.JoinRow` | app/admin/page.tsx:71-96 | one joined row: progress fields copied; profile fields from the viewer's profile, or "Unknown User" / "unknown@example.com" / no avatar when it is missing or the profile query failed; the SOP title, or the SOP id when the SOP is missing or its title is empty |
| `Admin.ProcessProgress` | app/admin/page.tsx:68-99 | the join loop yields one row per progress record, in order, each the `JoinRow` of its record; no record is dropped |
| `Admin.SearchRows` | app/admin/page.tsx:142-147 | a row is shown exactly when the lower-cased query occurs in its lower-cased name, email or SOP title |
| `Admin.SearchKeepsOrder` | app/admin/page.tsx:142-147 | the search result keeps the table's order |
| `Admin.EmptySearchKeepsAll` | app/admin/page.tsx:142-147 | an empty query shows every row |
| `Admin.BadgeFor` | app/admin/page.tsx:285-291 | "Completed" exactly from 95 % (the tracker's threshold), "In Progress" exactly above 0 and below 95, "Not Started" exactly at 0 or below |
| `Admin.BadgeMonotone` | app/admin/page.tsx:285-291 | more progress never shows a lower badge |
| `Admin.FormatTime` | app/admin/page.tsx:160-164 | `formatTime` of a non-negative time reads back through an independent `m:ss` parser, which accepts no zero-padded minutes and no seconds field above 59, as the whole seconds of the input |
| `Admin.ClockFields` | app/admin/page.tsx:161-162 | for a non-negative time the minutes are non-negative, the seconds field lies in 0..59, and minutes * 60 + seconds is the whole seconds |
| `Admin.ClockRoundTrip` | app/admin/page.tsx:163 | a rendered `m:ss` with seconds in 0..59 reads back as `m * 60 + ss` |
| `Admin.AdminDashboard.constructor` | app/admin/page.tsx:29-33 | the page starts empty, loading, with an empty query |
| `Admin.AdminDashboard.FetchData` | app/admin/page.tsx:36-110 | a failed progress query keeps the rows and refresh time; a successful one replaces the rows with the join of every record and stamps the refresh time; loading and refreshing end false |
| `Admin.AdminDashboard.HandleRefresh` | app/admin/page.tsx:137-140 | a refresh re-runs the fetch: a failed progress query keeps the rows and refresh time, a successful one replaces the rows with the join of every record and stamps the refresh time; the query is kept and loading and refreshing end false |
| `Admin.AdminDashboard.SetSearchQuery` | app/admin/page.tsx:192-197 | the query is replaced and nothing else changes |
| `Admin.AdminDashboard.FilteredVideoProgress` | app/admin/page.tsx:142-147 | a stored row is shown exactly when it matches the current query |
| `Dashboard.CompletedSopIds` | app/dashboard/page.tsx:41-49 | the set holds a SOP id exactly when the user has a completion row for it |
| `Dashboard.GoHighLevelSops` | app/dashboard/page.tsx:52-72 | exactly two SOPs, web-app-usage (web) then mobile-app-usage (mobile), each completed exactly when its id is in the completion set |
| `Dashboard.FetchSops` | app/dashboard/page.tsx:28-83 | loading ends false; with a user and a successful query the list is the two SOPs marked from the user's completions; otherwise the list is left as it was |
| `Dashboard.FetchFailureLeavesEmpty` | app/dashboard/page.tsx:36-79 | a missing user or a failed query leaves the initial empty list and ends loading |
| `Dashboard.MarkedCompleteShowsCompleted` | app/dashboard/page.tsx:49-72 | a completion recorded by a watch page shows that SOP as completed the next time the dashboard loads |
| `Dashboard.CompletedCount` | app/dashboard/page.tsx:85 | the completed count never exceeds the list length |
| `Dashboard.PendingCount` | app/dashboard/page.tsx:85-86 | completed and pending counts sum to the list length |
| `Dashboard.PendingAreNotCompleted` | app/dashboard/page.tsx:85-86 | the pending count is exactly the number of SOPs not completed |
| `Dashboard.JsRound` | app/dashboard/page.tsx:87 | `Math.round` gives the integer within half of the input, halves rounded up |
| `Dashboard.CompletionPercentage` | app/dashboard/page.tsx:87 | 0 for an empty list, otherwise the completed share of 100 rounded to nearest; always 0..100 |
| `Dashboard.PercentageExtremes` | app/dashboard/page.tsx:87 | all completed reads 100, none completed reads 0 |
| `Dashboard.GoHighLevelPercentage` | app/dashboard/page.tsx:87 | on the two fixed SOPs the percentage is 50 per completed SOP |
| `Dashboard.MobileCount` | app/dashboard/page.tsx:90 | the mobile count never exceeds the list length |
| `Dashboard.WebCount` | app/dashboard/page.tsx:91 | the web count never exceeds the list length |
| `Dashboard.TypeCountsCover` | app/dashboard/page.tsx:90-91 | mobile and web counts sum to the list length |
| `Dashboard.SearchSops` | app/dashboard/page.tsx:93-97 | a SOP is shown exactly when the lower-cased query occurs in its lower-cased title or description |
| `Dashboard.SearchKeepsOrder` | app/dashboard/page.tsx:93-97 | the search keeps the list's order |
| `Dashboard.EmptySearchKeepsAll` | app/dashboard/page.tsx:93-97 | an empty query keeps every SOP |
| `Dashboard.TabView` | app/dashboard/page.tsx:252-276 | the Mobile, Web and Completed tabs show exactly the search results of type mobile, type web, or completed; the All tab shows the whole result |
| `Dashboard.TabIsSublist` | app/dashboard/page.tsx:252-276 | every tab keeps the search result's order |
| `Dashboard.MobileAndWebTabsSplit` | app/dashboard/page.tsx:250-268 | the Mobile and Web tabs together show every search result once |
| `RouteGuard.Middleware` | middleware.ts:5-38 | a logged-in request for /login or /signup goes to /dashboard, a logged-out request for anything but those and "/" goes to /login, everything else passes; no other target is ever used |
| `RouteGuard.AdminRule` | middleware.ts:29-35 | the admin rule passes every logged-in request and every non-admin path, and can only send a logged-out request to /login |
| `RouteGuard.AdminRuleUnreachable` | middleware.ts:29-35 | once the first two rules pass a request, the admin rule passes it too |
| `RouteGuard.AdminPageNotAuthPage` | middleware.ts:15-16 | an `/admin` path is neither an authentication page nor the landing page |
| `RouteGuard.AdminPagesNeedSession` | middleware.ts:23-34 | a logged-out request for an admin page goes to /login |
| `RouteGuard.AdminPagesOnlyNeedSession` | middleware.ts:27-35 | a logged-in user passes every admin page: there is no role check |
| `RouteGuard.NoRedirectLoop` | middleware.ts:19-37 | following a redirect with the same session is never redirected again |
| `RouteGuard.LandingPagePublic` | middleware.ts:23 | "/" passes whether or not a session exists |
| `Nav.IsActive` | components/dashboard-nav.tsx:102-107 | the dashboard link is active exactly on "/dashboard"; any other link exactly on paths it prefixes |
| `Nav.VisibleNavItems` | components/dashboard-nav.tsx:143-192 | the member links come first; the admin links follow exactly for an administrator |
| `Nav.ActiveNavItems` | components/dashboard-nav.tsx:143-192 | a shown link is highlighted exactly when its `isActive` holds, and the highlighted links keep the sidebar order |
| `Nav.MemberSeesNoAdminLinks` | components/dashboard-nav.tsx:164-192 | a non-administrator is shown no `/admin` link |
| `Nav.AdminUsersHighlightsTwoLinks` | components/dashboard-nav.tsx:79-107 | on "/admin/users" both "Admin Dashboard" and "User Management" are highlighted, and nothing else |
| `Nav.DashboardLinkExact` | components/dashboard-nav.tsx:103-106 | the dashboard link is highlighted on "/dashboard" and on no path below it |
| `Nav.Single` | components/dashboard-nav.tsx:41-54 | `.single()` yields a row exactly when one row matches, and it is a matching row of the table |
| `Nav.LoadNav` | components/dashboard-nav.tsx:26-66 | a missing user, a failed profile query or a profile count other than one leaves the state unchanged; otherwise the user's own profile is stored and `isAdmin` holds exactly when the admin query succeeds with one row for the user |
| `Nav.AdminOnlyWithAdminRow` | components/dashboard-nav.tsx:35-59 | starting from the initial state, `isAdmin` implies a signed-in user, a successful profile query, and an `admins` row for that user |

## Left out

- Network and storage calls are not modelled as I/O. They are replaced by their results: an `Auth` value, success flags, and rows from the modelled store or passed in.
- The realtime subscription of the admin page (app/admin/page.tsx:112-135) is left out. Each change notification re-runs `fetchData`, which the model covers as `FetchData`.
- React's asynchronous state updates and overlapping handlers are not modelled. Each handler is one atomic transition, so `isSaving` and `markingComplete` are observed only before and after a handler, never during one.
- Playback positions are exact reals. Floating-point rounding, `NaN` and infinite durations are not modelled.
- `SopPage.WatchPage.HandleTimeUpdate` requires `0 <= currentTime <= duration`, as the video element guarantees. `Tracker.OnTimeUpdate` itself accepts any position.
- The `videoRef.current` null checks are not modelled, and neither is `preventSkipping` (the seek-back on `seeking`, which only touches the video element). The matcher regular expression of the middleware is left out as well.
- The web page's `isPlaying` flag and `handlePlayClick` only drive the play button's rendering and are not modelled.
- `formatDate` (locale date formatting) and the debug log are not modelled.
- `Text.ToLower`: maps only the ASCII letters. JavaScript's full Unicode case mapping is not modelled.
- `Text.ToUpper`: maps only the ASCII letters, for the same reason.
- `Text.Initials`: a Dafny `char` is a Unicode scalar value, while JavaScript's `n[0]` is one UTF-16 code unit. For a name starting with a character outside the Basic Multilingual Plane, JavaScript yields half a surrogate pair and the model yields the whole character.
- `Admin.FormatTime`: the `m:ss` read-back is stated for non-negative times only. `FormatTime` itself follows JavaScript's truncating `%` for negative inputs too.
- The mobile page is the same model with `sop = MobileAppUsage`. Its only other differences are UI strings.
- The `profiles`, `sops` and `admins` tables are inputs. The model does not own them and proves nothing about how they change.
- `Admin.AdminDashboard.FetchData`: the `sop_video_progress` rows arrive as an input sequence, not as a read of the modelled store. The model does not connect the admin table to the rows the watch pages wrote. The query has no ordering clause, so the row order is whatever the input gives.
