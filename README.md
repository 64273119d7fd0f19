# SRM Doctor Dashboard — a verified model of its data logic

The SRM Doctor Dashboard is a Next.js site. Doctors use it to follow how
parents engage with a catalogue of infant-development videos. Parents watch
the videos and vote on each one: "approve" means the milestone was achieved,
"disapprove" means there is a concern. The dashboard turns the stored
engagement records into per-video, per-user and site-wide figures, rankings
and an activity feed. An access code guards the whole site.

This project models the parts of the site that compute something. Every
fetch is replaced by a sequence given as a parameter. A failed fetch is a
boolean flag. The modules follow the source files:

- `Catalog` (`catalog.dfy`, with concrete cases in `catalog_examples.dfy`)
  covers the video catalogue in `src/lib/firestore.ts`:
  - the ID→name table and its fallback name;
  - the YouTube-ID extractor;
  - the age-band classifier `getVideoCategory`;
  - the skill-domain classifier `getDevelopmentalCategory`.
- `Aggregates` (`aggregates.dfy`) covers three functions of `src/lib/firestore.ts`:
  - the engagement summary, including the per-user view tally and the top-five leaderboard;
  - the dashboard statistics;
  - the per-user analytics.
- `Tallies` (`tallies.dfy`) holds the vote counts, viewer sets, rates and colour bands that several pages share.
- `UsersPage`, `VideosPage`, `AnalyticsPage` and `RecentActivity` model the per-page derivations:
  - searching, stable sorting and truncation;
  - the badges;
  - the activity feed, which is built by pushes onto a list.
- `Middleware` models the request filter and `AccessRoute` the access-code endpoint.
- The helper modules are `Types` (records of `src/lib/types.ts`), `Seqs`, `Text` and `Sorting`.
  - `Sorting` gives one stable insertion sort `SortBy` as the specification.
  - The in-place array method `SortInPlace` is proved equal to it.
  - Every JavaScript `Array.prototype.sort` call is modelled by these two. JavaScript's sort is stable, so for a consistent comparator the model gives exactly the order the page shows.

Percentages are exact `real` values. Counts are `nat`. Times are `int`
milliseconds. "Now" and local midnight are parameters.

## Model

| member | source | states |
|---|---|---|
| Catalog.Lookup | src/lib/firestore.ts:30-99 | A property lookup in the name table finds an entry carrying the key, and finds nothing exactly when no entry has the key |
| Catalog.LookupLast | src/lib/firestore.ts:30-95 | With a repeated key in an object literal, the last entry is the one found |
| Catalog.NameTableShape | src/lib/firestore.ts:30-95 | Every key of the table is 11 characters long, and no name is empty or begins with 'V' |
| Catalog.VideoName | src/lib/firestore.ts:98-100 | `getVideoName` never returns an empty string |
| Catalog.VideoNameFallback | src/lib/firestore.ts:98-100 | The name starts with "Video " exactly when the id is not in the table; then it is "Video " + the first min(8, length) characters of the id + "..." |
| Catalog.OnlyElevenCharIdsNamed | src/lib/firestore.ts:30-95 | An id whose length is not 11 is never in the table |
| Catalog.MarkerEnd | src/lib/firestore.ts:196 | A marker of the group `youtu.be/`, `v/`, `e/`, `u/\w+/`, `embed/`, `shorts/`, `v=` spans at least two characters and ends in '/' or '=' |
| Catalog.LastMarker | src/lib/firestore.ts:196 | The greedy `^.*` stops at a position where a marker matches |
| Catalog.LastMarkerIsLast | src/lib/firestore.ts:196 | No marker matches after the position the greedy prefix stops at; when it finds none, no marker matches anywhere |
| Catalog.IdAt | src/lib/firestore.ts:196-203 | The capture read at a position is accepted only when it is 11 characters other than '#', '&' and '?', and the next character is one of those or the end |
| Catalog.ExtractYouTubeId | src/lib/firestore.ts:192-204 | Empty input gives null; any result is 11 characters with no '#', '&' or '?', read right after the last marker in the URL |
| Catalog.MarkerFreeHasNoId | src/lib/firestore.ts:192-204 | Text with no '/' and no '=' never yields an ID |
| Catalog.MarkerFreeResolvesToItself | src/lib/firestore.ts:105 | A raw ID with no '/' or '=' is classified as it stands |
| Catalog.TwoCharMarkerLink | src/lib/firestore.ts:196-200 | `…v=<id>`, `…/v/<id>` and `…e/<id>` links, optionally followed by '#', '&' or '?' and text without markers, yield the ID |
| Catalog.ShortsLink | src/lib/firestore.ts:196-200 | A `…shorts/<id>` link yields the ID |
| Catalog.ResolveId | src/lib/firestore.ts:105 | `extractYouTubeId(v) \|\| v`: an extracted ID has 11 characters, and without one the input is used unchanged |
| Catalog.AgeBandLabelsDistinct | src/lib/firestore.ts:114-156 | The five age-band labels are pairwise different |
| Catalog.BandOfDefault | src/lib/firestore.ts:111-156 | For any id and name, 'Development' exactly when the id is in no list and the lower-cased name holds none of the twelve keywords |
| Catalog.ListedIdsIgnoreName | src/lib/firestore.ts:111-135 | A listed ID gets its list's band, the lists tried 0-3, 4-6, 7-9, 10-12, whatever the name says; a listed ID is never 'Development' |
| Catalog.VideoCategoryDefault | src/lib/firestore.ts:103-157 | `getVideoCategory` gives 'Development' exactly when the resolved id is unlisted and its lower-cased name holds no keyword |
| Catalog.KeywordPriority | src/lib/firestore.ts:137-141 | An unlisted id whose lower-cased name holds a 0-3 keyword is '0-3 Months', whatever else the name holds |
| Catalog.KeywordChain | src/lib/firestore.ts:137-154 | For an unlisted id the keyword rules are first match wins: each band is given exactly when the lower-cased name mentions one of its words and none of an earlier band's |
| Catalog.LinkClassifiedLikeId | src/lib/firestore.ts:103-108 | A link ending in `v=`, `v/` or `e/` plus an ID is classified like the bare ID |
| Catalog.SkillDomainLabelsDistinct | src/lib/firestore.ts:170-188 | The five skill-domain labels are pairwise different |
| Catalog.DevelopmentalCategoryIgnoresCase | src/lib/firestore.ts:160-189 | Lower-casing the name first changes nothing |
| Catalog.DevelopmentalCategoryPriority | src/lib/firestore.ts:160-189 | First match wins: each domain is chosen exactly when the name holds one of its words and none of an earlier domain's, in the order Motor > Communication > Social-Emotional > Cognitive > 'Development' |
| CatalogExamples.StartlingTamilName | src/lib/firestore.ts:88 | 'DCTcOSrQpNw' is named "Startling to loud noises (Tamil)" |
| CatalogExamples.StartlingTamilIsDevelopment | src/lib/firestore.ts:103-157 | 'DCTcOSrQpNw' is classified 'Development': it is unlisted and its name holds no keyword |
| CatalogExamples.SymmetryTamilName | src/lib/firestore.ts:92 | '_oPTLw9iyyk' is named "Symmetry of hand movements (Tamil)" |
| CatalogExamples.SymmetryTamilIsZeroToThree | src/lib/firestore.ts:137-141 | '_oPTLw9iyyk' is unlisted, but its name holds 'symmetry', so it is '0-3 Months' |
| CatalogExamples.RootingReflexName | src/lib/firestore.ts:32 | 'vmEHfOIf3M8' is named "Rooting Reflex" |
| CatalogExamples.RootingReflexIsZeroToThree | src/lib/firestore.ts:111-115 | 'vmEHfOIf3M8' is '0-3 Months' by its list |
| CatalogExamples.RootingReflexFallbackName | src/lib/firestore.ts:98-100 | The name "Rooting Reflex", taken as an id, gets the fallback name "Video Rooting ..." |
| CatalogExamples.RootingReflexNameIsDevelopment | src/lib/firestore.ts:103-157 | The name "Rooting Reflex", taken as an id, is classified 'Development' |
| CatalogExamples.TurningHeadIsMotor | src/lib/firestore.ts:161-170 | "Turning head towards sounds" is 'Motor Skills': 'head' wins over 'sound' |
| CatalogExamples.SmilingIsGeneral | src/lib/firestore.ts:160-189 | "Smiling at the mirror" holds no domain word ('smiling' is not 'smile'), so it is 'Development' |
| Tallies.OfVoteMembership | src/lib/firestore.ts:352-353 | `filter(e => e.vote === v)` keeps exactly the records carrying that vote |
| Tallies.VoteCountsPartition | src/lib/firestore.ts:352-353 | Approvals, disapprovals and non-votes add up to the number of records |
| Tallies.VotesAtMostRecords | src/lib/firestore.ts:352-353 | Approvals plus disapprovals never exceed the records |
| Tallies.ViewerIds | src/lib/firestore.ts:351 | `new Set(map(e => e.user_id))` holds exactly the user ids of the records |
| Tallies.ViewersAtMostRecords | src/lib/firestore.ts:351 | There are never more distinct viewers than records, and none exactly when there are no records |
| Tallies.TotalViewCountAppend | src/app/videos/page.tsx:43 | The view-count sum of concatenated lists is the sum of their sums |
| Tallies.ApprovalRate | src/app/users/page.tsx:66-71 | The approval rate lies in [0, 100]; it is 0 exactly when there are no approvals, and 100 exactly when there are approvals and no disapprovals |
| Tallies.ApprovalRateShare | src/app/users/page.tsx:71 | With votes cast, rate × votes = 100 × approvals |
| Tallies.EngagementRate | src/lib/firestore.ts:354 | The zero-views guard gives 0; the rate is never negative; with views recorded it is at most 100 exactly when votes do not exceed views |
| Tallies.EngagementRateShare | src/lib/firestore.ts:354 | With views recorded, rate × views = 100 × votes |
| Tallies.MeanBounds | src/app/analytics/page.tsx:71-73 | The mean of values in [lo, hi] lies in [lo, hi]; the mean of nothing is 0 |
| Tallies.MeanNonNegative | src/app/analytics/page.tsx:71-73 | The mean of non-negative values is non-negative |
| Tallies.Band | src/app/users/page.tsx:168 | `r >= high ? success : r >= low ? warning : danger`: success exactly from `high`, danger exactly below both thresholds, warning otherwise |
| Tallies.BandMonotone | src/app/users/page.tsx:168 | A higher rate never gets a worse colour |
| Aggregates.UserIndex | src/lib/firestore.ts:331-337 | The users record holds exactly the ids of the user documents, each mapped to a document with that id |
| Aggregates.UserIndexLastWins | src/lib/firestore.ts:331-337 | A later document wins: an id maps to the last user document carrying it |
| Aggregates.DisplayName | src/lib/firestore.ts:370 | `users[id]?.name \|\| 'Unknown User'`: unknown ids and empty names give 'Unknown User'; otherwise the user's own name |
| Aggregates.NonViewerHasNoViews | src/lib/firestore.ts:357-363 | A user without records has no views |
| Aggregates.TallyIsTallied | src/lib/firestore.ts:357-363 | The `reduce` into `userEngagementMap` maps every viewer, and nobody else, to the sum of their view counts, and its key order lists each viewer once |
| Aggregates.TallyViews | src/lib/firestore.ts:357-363 | The loop that fills the map computes that tally |
| Aggregates.MoreViewedTotal | src/lib/firestore.ts:366 | The comparator `b - a` is a consistent order, so the stable sort is well defined |
| Aggregates.TopFive | src/lib/firestore.ts:367-372 | `.slice(0, 5).map(...)`: min(5, n) lines, each carrying the entry's user, display name and views |
| Aggregates.SortedTallyRanks | src/lib/firestore.ts:365-366 | Sorting the entries lists every viewer once with their total, most views first |
| Aggregates.RankingLeads | src/lib/firestore.ts:365-372 | The first five of a ranking have min(5, viewers) distinct lines with their own totals and names, in non-increasing order, and nobody left off has more views than the last line |
| Aggregates.LeaderboardOfLeads | src/lib/firestore.ts:357-372 | The `topEngagedUsers` expression is a leaderboard of the video's records |
| Aggregates.TopEngagedUsers | src/lib/firestore.ts:357-372 | The method (tally loop, entries, in-place sort, cut) computes that leaderboard |
| Aggregates.SummaryBounds | src/lib/firestore.ts:349-382 | In a summary, unique viewers and votes are each at most the video's records; the leaderboard is no longer than the viewers; there are no viewers exactly when there are no records; zero views give rate 0 |
| Aggregates.SummaryOfSummarizes | src/lib/firestore.ts:349-382 | The object returned for a video has its id and views, the counts of its own records, the guarded rate and a leaderboard |
| Aggregates.SummarizeVideo | src/lib/firestore.ts:349-382 | The method computes that summary |
| Aggregates.Summaries | src/lib/firestore.ts:349 | One summary per `video_stats` document, in document order |
| Aggregates.EngagementSummary | src/lib/firestore.ts:324-387 | `getVideoEngagementSummary` gives the summaries over the users record, or an empty list when a fetch fails |
| Aggregates.SumCounterAppend | src/lib/firestore.ts:427-431 | `sum + (field \|\| 0)`: a document without the counter adds nothing; one with it adds its value |
| Aggregates.SumCounterAllMissing | src/lib/firestore.ts:427-431 | Documents without counters sum to 0 |
| Aggregates.DashboardStatsOf | src/lib/firestore.ts:406-453 | Counts are the list lengths; views sum the counters; active users ≤ users; the rating is `ApprovalRate` of the summed approval and disapproval counters, in [0, 100]; on failure all six figures are 0 |
| Aggregates.ActiveUsersCounted | src/lib/firestore.ts:421-424 | The active count covers exactly the users whose last activity is set and not before midnight |
| Aggregates.AverageRatingExtremes | src/lib/firestore.ts:429-433 | With votes cast, rating × votes = 100 × approvals over all videos; the rating is 0 exactly when nothing was approved, and 100 exactly when something was approved and nothing disapproved |
| Aggregates.BandStart | src/lib/firestore.ts:475 | `Math.floor(m / 3) * 3` is the multiple of 3 with k ≤ m < k + 3 |
| Aggregates.AgeRangeText | src/lib/firestore.ts:475 | The band text begins with a digit |
| Aggregates.AgeRangeTextInjective | src/lib/firestore.ts:475 | Equal band texts come from equal band starts |
| Aggregates.AgeGroup | src/lib/firestore.ts:475 | 'Unknown' exactly when there is no profile, no age or the age 0 |
| Aggregates.AgeGroupSameBand | src/lib/firestore.ts:475 | Two known ages get the same text exactly when they fall in the same three months |
| Aggregates.UserAnalyticsOf | src/lib/firestore.ts:457-493 | null exactly on failure or a missing user; otherwise the user, the profile, the user's records, their view total, the age group, completed milestones = the user's approvals and total milestones = the user's records |
| Aggregates.ProgressBounds | src/lib/firestore.ts:476-478 | Milestones = records; completed milestones = approvals; completed + concerns ≤ milestones; the concerns are the disapproved videos, in record order |
| Aggregates.AnalyticsRecordsAreTheUsers | src/lib/firestore.ts:459-484 | A record is in the analytics exactly when it is one of the user's records |
| Middleware.Others | src/middleware.ts:20 | The parameters kept beside `next` never carry that name |
| Middleware.Get | src/middleware.ts:20 | `searchParams.get` finds nothing exactly when no parameter has the name |
| Middleware.SetParamEffect | src/middleware.ts:20 | After `set`, `get` returns the new value, exactly one parameter has the name, and the others are kept in order |
| Middleware.OthersIdempotent | src/middleware.ts:20 | Removing a name twice removes nothing more |
| Middleware.FilterRequest | src/middleware.ts:4-24 | A redirect happens exactly when the path is not exempt and there is no `access_granted` cookie |
| Middleware.ExemptPasses | src/middleware.ts:6-15 | An exempt path passes whatever the cookie |
| Middleware.PrefixNotSegment | src/middleware.ts:6-12 | '/accessibility' is exempt and '/robots.txt/x' is not |
| Middleware.CookieValueIgnored | src/middleware.ts:16-23 | Any cookie value lets the request pass |
| Middleware.RedirectTarget | src/middleware.ts:16-21 | The redirect goes to '/access' with `next` = the original path, keeps the other parameters in order, and itself passes the filter |
| AccessRoute.Decide | src/app/api/access/route.ts:4-26 | Success exactly with status 200 and exactly when a cookie is issued; every failure carries a message |
| AccessRoute.BadBodyFirst | src/app/api/access/route.ts:5-25 | An unreadable body gives 400 'Bad request' and no cookie, whatever the secret |
| AccessRoute.UnconfiguredRefuses | src/app/api/access/route.ts:7-10 | A missing or empty secret gives 500 and no cookie, whatever the code |
| AccessRoute.GrantedExactly | src/app/api/access/route.ts:8-22 | Success exactly when the body is readable, the secret is set and the code is that string; success issues the gate cookie; any other code gives 401 'Invalid code' |
| AccessRoute.NonTextNeverGranted | src/app/api/access/route.ts:6-11 | A missing or non-string code never succeeds |
| AccessRoute.GateCookieShape | src/app/api/access/route.ts:13-19 | `access_granted=1`, path '/', max age 28800 s, httpOnly, secure, sameSite lax |
| AccessRoute.CookieJar.constructor | src/app/api/access/route.ts:12 | A new jar holds no cookie |
| AccessRoute.CookieJar.Set | src/app/api/access/route.ts:13 | `jar.set` replaces the cookie of that name and changes nothing else |
| AccessRoute.Post | src/app/api/access/route.ts:4-26 | `POST` answers as `Decide` does and sets the gate cookie in the jar only on success |
| UsersPage.WithStatsMeaning | src/app/users/page.tsx:63-73 | Engagements = records; with votes cast, rate × votes = 100 × approvals, and 0 without votes; rate in [0, 100], 0 exactly without approvals; votes ≤ records; the last video is the first record's, or 'None' |
| UsersPage.LoadUsersWithStats | src/app/users/page.tsx:56-77 | One row per user, in order, from that user's own records; no rows when a fetch fails |
| UsersPage.RowsCountOwnRecords | src/app/users/page.tsx:61-75 | Each row counts only records with its user's id; its rate lies in [0, 100], and with votes cast rate × votes = 100 × that user's approvals |
| UsersPage.EmptyTermMatchesAll | src/app/users/page.tsx:25-29 | The empty term matches every user |
| UsersPage.PhoneSearchIsCaseSensitive | src/app/users/page.tsx:27 | The phone number is searched as typed: "AB" matches and "ab" does not |
| UsersPage.ComparatorConsistent | src/app/users/page.tsx:32-43 | Each of the three comparators is a consistent order |
| UsersPage.FilterAndSortUsers | src/app/users/page.tsx:24-46 | Filter, then an in-place stable sort of the filtered array |
| UsersPage.ShownUsers | src/app/users/page.tsx:24-46 | The list holds each matching user as often as the input does and nothing else, sorted by the chosen key |
| UsersPage.EmptyTermShowsEveryone | src/app/users/page.tsx:24-46 | With the empty term the list is a reordering of all users |
| UsersPage.NeverActiveLast | src/app/users/page.tsx:37 | Sorted by activity, a user active at a positive time comes before a user never seen |
| UsersPage.RateLevel | src/app/users/page.tsx:168-172 | Success from 70, warning from 40, danger below |
| VideosPage.PerViewer | src/app/videos/page.tsx:44 | Non-negative, 0 without viewers, and otherwise views per viewer (result × viewers = total) |
| VideosPage.WithEngagementsMeaning | src/app/videos/page.tsx:41-54 | Unique viewers are the distinct user ids, at most the records, 0 exactly without records; the average is views per viewer, or 0 without records |
| VideosPage.EngagementRateOfCounters | src/app/videos/page.tsx:45-46 | The engagement rate is `EngagementRate` of the stored approvals + disapprovals over the stored views: 0 without views, otherwise rate × views = 100 × votes |
| VideosPage.LoadVideoAnalytics | src/app/videos/page.tsx:29-64 | One entry per stats document, in order, with that video's records; nothing when a fetch fails |
| VideosPage.EmptyTermMatchesAll | src/app/videos/page.tsx:67 | The empty term matches every video |
| VideosPage.ComparatorConsistent | src/app/videos/page.tsx:68-79 | Each descending comparator is a consistent order |
| VideosPage.ShownVideos | src/app/videos/page.tsx:66-79 | The list holds each video whose id contains the term (ignoring case) as often as the input does, and nothing else, with the key non-increasing |
| VideosPage.EmptyTermShowsAll | src/app/videos/page.tsx:66-79 | With the empty term the list is a reordering of all videos |
| VideosPage.ApprovalBarWidth | src/app/videos/page.tsx:239-240 | Width in [0, 100], 0 without votes, otherwise the percentage of approvals |
| VideosPage.BadgesDistinguishVotes | src/app/videos/page.tsx:366-397 | Each vote gets its own label and colour in both badges; the two badges share a colour exactly for cast votes |
| VideosPage.Panel | src/app/videos/page.tsx:417-419 | At most 5 records, all of that vote and from the input, the first ones in input order (the concern panel at lines 454-456 is the same with the other vote) |
| VideosPage.PanelEmpty | src/app/videos/page.tsx:439-441 | A panel is empty exactly when no record carries its vote |
| VideosPage.PanelsDisjoint | src/app/videos/page.tsx:417-456 | No record is in both the approval and the concern panel |
| VideosPage.FindUser | src/app/videos/page.tsx:81-89 | `users.find` gives nothing exactly when no user has the id; otherwise the first user with it |
| VideosPage.FindUserAgreesWithIndex | src/app/videos/page.tsx:81-89 | `find` succeeds exactly when the id is in the users record; with unique ids both give the same user |
| VideosPage.UserName | src/app/videos/page.tsx:81-84 | 'Unknown User' when no user has the id; otherwise the name of the first user with it |
| VideosPage.UserPhone | src/app/videos/page.tsx:86-89 | 'N/A' when no user has the id; otherwise the phone number of the first user with it |
| VideosPage.FirstMatchIsFound | src/app/videos/page.tsx:82 | Whichever index holds the first user with the id, `find` returns that user |
| VideosPage.OverviewMeaning | src/app/videos/page.tsx:121-152 | Each total is 0 exactly when every video's counter is 0; with no videos the average shows 0 |
| VideosPage.AverageEngagementBounds | src/app/videos/page.tsx:152 | When every rate is computed by the guarded formula and votes do not exceed views, the average lies in [0, 100] |
| AnalyticsPage.OverviewMeaning | src/app/analytics/page.tsx:66-73 | Counts are the list lengths; each total is 0 exactly when every entry's field is 0; the mean is 0 for an empty summary and never negative |
| AnalyticsPage.TotalsIgnoreOrder | src/app/analytics/page.tsx:68-77 | Reordering the summary changes none of the totals |
| AnalyticsPage.HigherRateConsistent | src/app/analytics/page.tsx:77 | The comparator `b.engagementRate - a.engagementRate` is a consistent order |
| AnalyticsPage.StoredCategoryDisagrees | src/app/analytics/page.tsx:82 | As written, the stored category of 'vmEHfOIf3M8' is 'Development', while its real category is '0-3 Months' |
| AnalyticsPage.TopRow | src/app/analytics/page.tsx:79-89 | A top row carries the id, name, id-based category, an 8-character short id and the summary's figures |
| AnalyticsPage.TopRowCorrectsCategoryOnly | src/app/analytics/page.tsx:82 | The corrected row differs from the written one only in the category, and a listed video is never 'Development' |
| AnalyticsPage.LoadAnalytics | src/app/analytics/page.tsx:57-119 | Totals over the fetched summary; the summary array is left sorted by rate in place; the top ten and the chart rows are read off the sorted array, the top rows with the corrected id-based category of `TopRow` |
| AnalyticsPage.RankingOrder | src/app/analytics/page.tsx:76-89 | The sort is a permutation; the top list has min(10, n) rows in non-increasing rate, and no video left off rates higher than the last row |
| AnalyticsPage.PerformanceFollowsRanking | src/app/analytics/page.tsx:76-98 | Because the sort was in place, the chart rows have the summary's length, come in non-increasing rate, and start with the top rows |
| AnalyticsPage.CardShowsBestEight | src/app/analytics/page.tsx:253 | The card shows the first min(8, n) entries of the rate-sorted summary, in rate order, none rated below an entry it leaves out |
| AnalyticsPage.TopVideosFollowSorted | src/app/analytics/page.tsx:78-89 | The ranking has min(10, n) rows, each with the id and rate of the sorted entry at its position |
| AnalyticsPage.SuccessRate | src/app/analytics/page.tsx:373-375 | In [0, 100], 0 without votes, otherwise the percentage of approvals |
| AnalyticsPage.EngagementBadge | src/app/analytics/page.tsx:402 | Success from 50, warning from 25, error below |
| AnalyticsPage.SuccessBadge | src/app/analytics/page.tsx:407 | Success from 70, warning from 40, error below |
| AnalyticsPage.NoVotesNoSuccess | src/app/analytics/page.tsx:373-408 | A row without votes gets the error badge |
| AnalyticsPage.OverallSuccessRate | src/app/analytics/page.tsx:302-309 | With votes present, the rate lies in [0, 100] and is the percentage of approvals |
| RecentActivity.PushUserItems | src/components/RecentActivity.tsx:84-94 | The `forEach` pushes exactly the registration items of the recent users |
| RecentActivity.PushRecordItems | src/components/RecentActivity.tsx:103-137 | One engagement appends exactly its items |
| RecentActivity.PushEngagementItems | src/components/RecentActivity.tsx:102-138 | The `forEach` appends exactly the items of every recent engagement, in order |
| RecentActivity.LoadRecentActivity | src/components/RecentActivity.tsx:63-152 | The loader computes the feed |
| RecentActivity.RecentUsersMeaning | src/components/RecentActivity.tsx:79-82 | At most 3 users, the first of the newest-first list of exactly the users created strictly after now − 7 days |
| RecentActivity.RecentEngagementsMeaning | src/components/RecentActivity.tsx:97-100 | At most 10 records viewed strictly after now − 24 h, newest first; none left out is newer than the last kept |
| RecentActivity.EngagementItemsShape | src/components/RecentActivity.tsx:102-138 | Unknown user: no items; otherwise one view item plus one approval or disapproval item for a cast vote, with the documented ids, the user's name and the record's time and video |
| RecentActivity.UserItemsShape | src/components/RecentActivity.tsx:84-93 | A user with a creation time gives one 'user-<id>' registration item at that time |
| RecentActivity.PendingBound | src/components/RecentActivity.tsx:76-138 | Before truncation there are at most 3 + 2 × 10 items |
| RecentActivity.FeedMeaning | src/components/RecentActivity.tsx:140-148 | Failure gives an empty feed; otherwise at most 8 items, the first of a permutation of the pushed items sorted newest first, none left out newer than the last shown |
| Sorting.SortInPlace | src/app/users/page.tsx:32 | The in-place array sort leaves the array holding the stable sort of its old contents |

## Left out

- Firestore I/O (`getDocs`, `getDoc`, `Promise.all`): the fetched collections are parameters, and any failure is the `failed` flag. A failure inside one `getUserEngagements` call, which yields an empty list for that user only, is not distinguished.
- Chats, messages and notifications (`getUserChats`, `sendMessageToUser`, `subscribeToUserChats`, `getNotifications`) are push subscriptions and writes, not computations.
- `getUserById` and `getVideoAnalyticsWithUsers` only fetch; `UserAnalyticsOf` takes the fetched user as an `Option`.
- Activity type `message_sent` is declared but never produced by the feed builder, so `MessageSent` is never built here either.
- JavaScript object records (`users[userId]`, `userMap[id]`) are modelled as maps. Ids equal to `Object.prototype` keys such as "constructor" would find an inherited member in JavaScript; the model treats them as unknown.
- Strings are sequences of code points (Unicode scalar values), while JavaScript strings are sequences of UTF-16 code units. The two differ only on characters outside the Basic Multilingual Plane, which take two code units in JavaScript and one character here. Lengths, slices and comparisons below count characters in this sense.
- `localeCompare` is modelled as lexicographic code-point order, which is a total order but not locale collation. Outside the Basic Multilingual Plane it also differs from code-unit order.
- Catalog.VideoNameFallback: the fallback keeps the first min(8, length) code points of the id, where `slice(0, 8)` keeps 8 UTF-16 code units and can cut a surrogate pair in half; ids with characters outside the Basic Multilingual Plane are not modelled faithfully.
- Catalog.IdAt: the 11-character test counts code points, where `match[2].length === 11` counts UTF-16 code units. "v=" + nine letters + one emoji is an 11-unit capture in JavaScript but 10 characters here, so it is accepted there and refused here.
- Catalog.ExtractYouTubeId: inherits the length measure of `Catalog.IdAt`. Links whose capture holds characters outside the Basic Multilingual Plane may be resolved differently.
- AnalyticsPage.TopRow: the short id keeps 8 code points, where `slice(0, 8)` keeps 8 UTF-16 code units.
- `toLowerCase` is modelled on ASCII letters only.
- The regular expression in `extractYouTubeId` is modelled by its rule (the run of characters other than '#', '&', '?' after the last marker). That `.` does not match newlines is not modelled.
- `Math.round`, `toFixed` and `toLocaleString` on displayed figures, floating-point rounding and NaN propagation: percentages are exact reals.
- `Aggregates.TallyViews` and `Aggregates.TopEngagedUsers`: the users are kept in the order each was first seen. `Object.entries` lists keys that are array indices (canonical integers below 2^32 - 1, such as "42") first, in ascending numeric order, so when such user ids occur, users with equal view totals may be listed in a different order than `LeaderboardOf` fixes.
- The mock trends table (`src/app/analytics/page.tsx:101-107`) and the fixed `favoriteCategories` list carry no behaviour.
- `formatDistanceToNow`, icons, colours of activity items and all other rendering.
- AnalyticsPage.LoadAnalytics: its top rows carry the corrected id-based category of `AnalyticsPage.TopRow`, not the name-based one the page stores at `src/app/analytics/page.tsx:82`; `AnalyticsPage.TopRowAsWritten` and the Findings row below state what is stored and how it differs.
- Aggregates.AgeGroup: the child's age is a natural number of months, while the profile field is any JavaScript number. Negative ages (-1 gives '-3-0 months') and NaN ('NaN-NaN months') are not modelled; fractional ages are left out with them (above 1 they fall in the band of their whole part, but 0.5 shows '0-3 months' where 0 shows 'Unknown').
- AnalyticsPage.OverallSuccessRate: modelled as partial (it requires votes to be present). Without votes the page divides 0 by 0 and shows NaN.
- VideosPage.WithEngagementsMeaning: states the average as `PerViewer(total, viewers)`; the product form (average × viewers = total) is stated on `VideosPage.PerViewer`. Its engagement rate is stated on `VideosPage.EngagementRateOfCounters`, which is kept apart because the two real-valued divisions together are too costly for the solver in one lemma.
- VideosPage.AverageEngagementBounds: the bound holds only when votes do not exceed views; with more votes than views the engagement rate, and so the average, exceeds 100.
- The time range selector of the analytics page does not change the computation (it only reloads), so it is not modelled.

## Findings

| source | as written | input that shows it | evidently intended | confidence | as-written member | corrected member |
|---|---|---|---|---|---|---|
| src/app/analytics/page.tsx:82 | the stored `category` is `getVideoCategory(getVideoName(video.videoId))`, which classifies the video's name as if it were an ID | videoId 'vmEHfOIf3M8': its name "Rooting Reflex" is not a listed ID and falls back to "Video Rooting ...", which holds no keyword, so the stored category is 'Development' while the video's category is '0-3 Months' | `getVideoCategory(video.videoId)`, as the card at line 261 computes it | not executed; the stored field is never rendered, so only the data differs | AnalyticsPage.StoredCategoryDisagrees | AnalyticsPage.TopRow |
