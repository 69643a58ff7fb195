# Zone01 profile dashboard — a Dafny model

This project models the core of a browser dashboard for Zone01 Athens
students. The dashboard signs a student in and keeps a JWT in
`localStorage`. It then loads a profile from the platform's GraphQL API in
two phases:
- it fetches the user row first, which also stores the current event id;
- it fetches seven metrics together: total XP, level, completed projects,
  ranking, audits done, the XP timeline and the audit ratio.

It shows the values and renders two SVG charts: a cumulative XP timeline and
a done/received audit pie.

The model has one Dafny module per concern:

| module | file | models |
|---|---|---|
| `Wrappers` | wrappers.dfy | `Option`, `Result`, and JavaScript truthiness of a stored text |
| `Config` | config.dfy | `API_CONFIG`: proxy detection, the two endpoint getters, the storage keys (public/js/config.js) |
| `Numeric` | numeric.dfy | `Math.PI`, `String(n)` of an integer, the magnitude tiers shared by every formatter |
| `Session` | session.dfy | public/js/auth.js: `localStorage` as a class over a `map`, the token and user-id helpers, JWT segment selection, the Basic credential text |
| `Transport` | transport.dfy | the response decision of `executeGraphQLQuery` |
| `Ranking` | ranking.dfy | the ranking arithmetic of `fetchUserRanking` |
| `Queries` | queries.dfy | every `fetch*` of graphql/public/js/graphql.js |
| `Timeline` | timeline.dfy | `renderXPTimelineGraph` |
| `AuditChart` | auditchart.dfy | `renderAuditRatioGraph` |
| `Profile` | profile.dfy | public/js/profile.js: display values, the two-phase load, the page's entry guards, logout and graph rendering |

Each query's answer is an abstract `Response`: an HTTP failure, or a decoded
body with an optional `errors` list and its `data`. Each fetch returns a
`Fetched` value:
- a `Result`, which is the settled promise;
- a flag `sent`, which says whether a request went out.

A fetch that reads `localStorage` takes the stored event id and the stored
token as parameters. `fetchUserInfo` writes the event id, so it is a method on
the `Session.Storage` object. Code that updates state step by step has the
same form in the model:
- the cumulative sum of the timeline is a `while` loop with invariants;
- so is the path building;
- the page is the class `Profile.ProfilePage`.

Behaviours of the code that the model keeps and that a reader may not expect:
- **`fetchAuditRatio` has no try/catch** (graphql/public/js/graphql.js:192-216), unlike the level, ranking and audits-done fetches. A failed audit query rejects the `Promise.all`, so the whole load is caught.
- **`fetchTotalXP` and `fetchXPTimeline` fall back only when no event id is stored.** Once they issue a query, its failure propagates and fails the load (`Profile.LoadFailsExactly`).
- **Only level, ranking and audits-done are caught locally** (`Profile.CaughtQueriesCannotFailLoad`).
- **The ranking total counts every positive sum.** Totals 100, 100, 50 give `total` 3 in the code (`Ranking.RankingExample`).
- **An `errors` array that is present but empty also rejects.** Reading `errors[0].message` throws a TypeError.
- **Logout leaves `zone01_event_id` in storage.** `clearAuthData` removes only the token and the user id. A later user whose row resolves no event id is queried under the stored one (`Profile.StaleEventIdIsUsed`).
- **A wedge takes the large arc whenever its share is above one half.** For a 75:25 split the done wedge is large (`AuditChart.PieExample`).
- **A caught load still renders the graphs**, from the initial `userData`, so both placeholders are shown (`Profile.CaughtLoadShowsPlaceholders`).
- **`checkIfAuthenticated` accepts an empty token, but `executeGraphQLQuery` rejects it.** Such a session passes the entry guard and then fails its load.

One comment in the code also disagrees with the code: `displayAuditRatio` is commented as showing two decimals, but `toFixed(1)` shows one. The model uses one decimal.

## Model

| member | source | states |
|---|---|---|
| Config.UseProxy | public/js/config.js:11 | the proxy is used exactly for the hostnames `localhost` and `127.0.0.1` |
| Config.ViaProxy | public/js/config.js:15-17 | the direct URL is always a suffix; with the proxy the URL starts with the CORS proxy and `/?` and is that much longer; without it, it is the direct URL |
| Config.SigninEndpoint | public/js/config.js:14-19 | `DOMAIN + /api/auth/signin` is a suffix; without proxy it is exactly the platform sign-in URL; with proxy it is the proxy, `/?`, then that URL |
| Config.GraphqlEndpoint | public/js/config.js:22-27 | the same shape for `/api/graphql-engine/v1/graphql` |
| Config.EndpointsDiffer | public/js/config.js:14-27 | the two endpoints never coincide for either proxy setting |
| Config.StorageKeysDistinct | public/js/config.js:30-31 | the token key, the user-id key and the event-id key are pairwise distinct |
| Numeric.TieredRescales | graphql/public/js/graphs.js:64-68 | a tiered label is an exact rescaling of its value by 10^6, 10^3 or 1, plain exactly below 1000; 1 ≤ shown value < 1000 in the thousands tier and ≥ 1 in the millions tier, with that tier's digits and suffix |
| Numeric.NatToString | graphql/public/js/graphql.js:75 | `String(n)` of a natural number is non-empty and all decimal digits |
| Numeric.IntToString | graphql/public/js/graphql.js:75 | `String(n)` of an integer is non-empty and starts with `-` exactly for a negative number |
| Numeric.NatToStringRoundTrip | graphql/public/js/graphql.js:110-113 | reading the stored decimal text back as digits gives the original number |
| Session.Lookup | public/js/auth.js:26 | a lookup gives a value exactly for a stored key, and then the stored text; a missing key gives null |
| Session.Storage.GetItem | public/js/auth.js:26 | `getItem` gives a value exactly for a stored key, and then the stored text |
| Session.Storage.SetItem | public/js/auth.js:20 | `setItem` writes one key and no other |
| Session.Storage.StoreAuthToken | public/js/auth.js:17-21 | after storing a token, `retrieveAuthToken` returns it and every other key is unchanged |
| Session.Storage.RetrieveAuthToken | public/js/auth.js:25-27 | a token is returned exactly when one is stored, and it is the stored text |
| Session.Storage.StoreUserID | public/js/auth.js:76-78 | after storing a user id, `retrieveUserID` returns it; the token and every other key are unchanged |
| Session.Storage.RetrieveUserID | public/js/auth.js:81-83 | a user id is returned exactly when one is stored |
| Session.Storage.ClearAuthData | public/js/auth.js:30-33 | exactly the token and user-id keys are removed; the event id and every other key keep their values |
| Session.Storage.CheckIfAuthenticated | public/js/auth.js:37-40 | true exactly when a token is stored (an empty one counts) |
| Session.Split | public/js/auth.js:48 | `split('.')` gives at least one part and no part contains the separator |
| Session.SplitJoin | public/js/auth.js:48 | joining the parts of a split restores the token: nothing is lost or moved |
| Session.SplitWithoutSeparator | public/js/auth.js:48-51 | a text without a dot splits into itself alone, so it has no segment 1 |
| Session.SplitAfterHead | public/js/auth.js:48 | a dot-free head is the first part and the rest splits on its own |
| Session.ParseJWTToken | public/js/auth.js:45-61 | a token without a dot parses to null |
| Session.ParseJWTTokenDecodesPayload | public/js/auth.js:48-54 | for `header.payload.signature` with dot-free header and payload, exactly the payload segment is decoded |
| Session.ExtractUserID | public/js/auth.js:64-73 | the result is truthy exactly when present; present means the payload decoded to an object with that `sub`; null means no decoded object had a truthy `sub` |
| Session.Credentials | public/js/auth.js:6-9 | the credential text is the username, one `:`, then the password, and nothing else |
| Session.CredentialsRoundTrip | public/js/auth.js:6-13 | the `username:password` text splits back into both at its first colon when the username has none (section 2 of RFC 7617) |
| Transport.ExecuteGraphQLQuery | graphql/public/js/graphql.js:6-43 | a request goes out exactly with a truthy token; no token rejects with nothing sent; an HTTP failure rejects with its status; an `errors` list rejects with the first message, or a TypeError when it is empty; otherwise `data` is returned unchanged, and only then does it succeed |
| Ranking.Sum | graphql/public/js/graphql.js:300-304 | a sum of non-negative amounts is non-negative |
| Ranking.SumAppend | graphql/public/js/graphql.js:300-304 | `reduce` folds from the left: one more amount adds exactly that amount |
| Ranking.Totals | graphql/public/js/graphql.js:303-304 | one total per user |
| Ranking.TotalsAt | graphql/public/js/graphql.js:303-304 | the i-th total is the sum of the i-th user's amounts |
| Ranking.Positives | graphql/public/js/graphql.js:305 | the filter keeps exactly the elements above 0 and never adds any |
| Ranking.UserXP | graphql/public/js/graphql.js:300 | 0 without a user row; otherwise the sum of the first row's amounts |
| Ranking.Insert | graphql/public/js/graphql.js:306 | inserting into a descending list keeps it descending, adds exactly the inserted value to its elements, and puts the larger of that value and the old head first |
| Ranking.SortDesc | graphql/public/js/graphql.js:306 | the sort is descending and a permutation of its input |
| Ranking.FindIndex | graphql/public/js/graphql.js:308 | `findIndex` is -1 exactly when the value is absent; otherwise it is the first index holding it |
| Ranking.CountAboveConcat | graphql/public/js/graphql.js:303-309 | counting totals above a value distributes over concatenation |
| Ranking.CountAbovePermutation | graphql/public/js/graphql.js:303-309 | counting totals above a value does not depend on their order |
| Ranking.TotalsConcat | graphql/public/js/graphql.js:303-304 | per-user sums distribute over concatenation of user lists |
| Ranking.TotalsPermutation | graphql/public/js/graphql.js:303-304 | reordering the users permutes their sums |
| Ranking.PositivesFacts | graphql/public/js/graphql.js:305 | the filter keeps exactly the positive sums: same count above any non-negative value, same number of positive elements, same membership for positive values |
| Ranking.ComputeRanking | graphql/public/js/graphql.js:300-311 | `total` is the number of positive totals; rank ≤ total; a non-zero rank names a position of the descending list that holds the user's own total |
| Ranking.NoneAbove | graphql/public/js/graphql.js:306-308 | in a descending list nothing before the first element lies above it |
| Ranking.SortedFirstIndex | graphql/public/js/graphql.js:306-308 | in a descending list the first index of a value equals the count of elements above it |
| Ranking.RankingCharacterization | graphql/public/js/graphql.js:299-311 | `total` is the number of positive sums; `rank` is 1 + the number of sums above the user's when that sum is positive and present, else 0; rank ≤ total |
| Ranking.RankingPermutationInvariant | graphql/public/js/graphql.js:303-309 | the standing does not depend on the order of `allUsers` |
| Ranking.CountAboveStrict | graphql/public/js/graphql.js:308 | a present larger value has strictly fewer totals above it |
| Ranking.CountAboveMonotone | graphql/public/js/graphql.js:308 | a larger value never has more totals above it |
| Ranking.RankingOrder | graphql/public/js/graphql.js:299-311 | a user with a larger positive total gets a strictly smaller, non-zero rank number |
| Ranking.RankingTies | graphql/public/js/graphql.js:300-311 | two users with equal totals among the same users get the same standing; for a positive, present total the shared rank is 1 + the number of totals above it |
| Ranking.RankingExample | graphql/public/js/graphql.js:299-311 | for any users whose totals are 100, 100, 50, 0: a user with 100 ranks 1, a user with 50 ranks 3, a missing user row ranks 0, and total is 3 |
| Ranking.ExampleTotals | graphql/public/js/graphql.js:303-304 | users with amounts [60, 40], [100], [50] and none total 100, 100, 50, 0 |
| Queries.Propagating | graphql/public/js/graphql.js:147-151 | a fetch without try/catch succeeds exactly when the query does, with the extracted data, and otherwise rejects with the query's error |
| Queries.Caught | graphql/public/js/graphql.js:244-253 | a fetch with try/catch always resolves: the extracted data when the query succeeds, the default otherwise |
| Queries.CohortEventIds | graphql/public/js/graphql.js:68-70 | every cohort's `eventId` of every event is in the list; if every cohort's id is null, so is every element |
| Queries.CohortIds | graphql/public/js/graphql.js:69-70 | one id per cohort, every cohort's `eventId` among them; all null when every cohort's id is null |
| Queries.CohortEventIdsConcat | graphql/public/js/graphql.js:68-70 | `flatMap`/`map` over events distributes over concatenation |
| Queries.CohortIdsAt | graphql/public/js/graphql.js:69-70 | the i-th id is the i-th cohort's `eventId` |
| Queries.FirstPresentIndex | graphql/public/js/graphql.js:71 | `find` stops at the first non-null id: every earlier id is null |
| Queries.FirstPresent | graphql/public/js/graphql.js:68-71 | no id is found exactly when every id is null; a found id sits at an index after only nulls |
| Queries.ResolveEventId | graphql/public/js/graphql.js:68-71 | no id is resolved exactly when every cohort of every event has a null id |
| Queries.FirstPresentAfterNulls | graphql/public/js/graphql.js:71 | after a run of nulls, `find` returns the first non-null id that follows |
| Queries.ResolveSkipsEmptyEvents | graphql/public/js/graphql.js:68-71 | events and cohorts without ids before the first id do not change the resolved id |
| Queries.StoredEventId | graphql/public/js/graphql.js:74-76 | a text is stored exactly for a resolved, non-zero id, and it is `String(id)` |
| Queries.AfterUserInfo | graphql/public/js/graphql.js:73-76 | fetchUserInfo's write: no key but the event id changes; a truthy resolved id is stored as its non-empty `String(id)`; otherwise the storage is as it was |
| Queries.UserInfoResult | graphql/public/js/graphql.js:63-64 | it succeeds exactly when the query succeeds with at least one user row, and returns `user[0]` |
| Queries.FetchUserInfo | graphql/public/js/graphql.js:47-79 | the result is the user-info result for the stored token, and the new storage is exactly the old one with that event-id write |
| Queries.FetchTotalXP | graphql/public/js/graphql.js:83-122 | without a stored event id, 0 and no request; otherwise it succeeds exactly when the query does, with the aggregate sum or 0 for null |
| Queries.ProjectsOnly | graphql/public/js/graphql.js:150 | the filter keeps every project row and only project rows, taken from the input, never more rows |
| Queries.ProjectsOnlyConcat | graphql/public/js/graphql.js:150 | the filter keeps order: it distributes over concatenation |
| Queries.FetchProjectsCompleted | graphql/public/js/graphql.js:126-152 | it succeeds exactly when the query does, with the project rows of `progress`, and every returned row is a project |
| Queries.FetchXPTimeline | graphql/public/js/graphql.js:156-188 | without a stored event id, `[]` and no request; otherwise it succeeds exactly when the query does, with the transaction rows unchanged |
| Queries.AuditFromUsers | graphql/public/js/graphql.js:206-215 | each of ratio, done and received is the first row's field, or 0 when missing; all zeros without a row |
| Queries.FetchAuditRatio | graphql/public/js/graphql.js:192-216 | it rejects exactly when the query does, with the query's error; otherwise it returns the record of the first row |
| Queries.LevelOf | graphql/public/js/graphql.js:249 | `transaction[0]?.amount || 0`: the first row's amount when there is a row with an amount, else 0 |
| Queries.FetchUserLevel | graphql/public/js/graphql.js:220-254 | it never rejects; 0 and no request without an event id; 0 on a failed query; with an event id and a successful query, the first row's amount or 0 (`LevelOf`); a non-zero level is the first row's amount |
| Queries.FetchUserRanking | graphql/public/js/graphql.js:258-316 | it never rejects; `{0,0}` without an event id or on a failed query; otherwise the computed standing; always rank ≤ total |
| Queries.FetchAuditsDone | graphql/public/js/graphql.js:320-342 | it never rejects; the count (null read as 0) or 0 on a failed query; a request goes out exactly with a token |
| Timeline.FrameOf | graphql/public/js/graphs.js:28-31 | `minDate` is the first point's date, `minDate + dateRange` the last point's, and `maxXP` the series maximum |
| Timeline.GetX | graphql/public/js/graphs.js:34-37 | for a positive date range, a date between the first and the last is mapped into [80, 820] |
| Timeline.GetY | graphql/public/js/graphs.js:39-41 | for a positive maxXP, an amount between 0 and maxXP is mapped into [80, 420] |
| Timeline.ScaleEndpoints | graphql/public/js/graphs.js:21-41 | getX maps the first date to 80 and the last to 820; getY maps 0 to 420 and maxXP to 80 |
| Timeline.ScalesLinear | graphql/public/js/graphs.js:34-41 | both maps are linear with slopes 740/dateRange and −340/maxXP; for positive ranges later dates lie further right and more XP higher up |
| Timeline.Cumulative | graphql/public/js/graphs.js:11-18 | the series has one point per transaction |
| Timeline.CumulativeSeries | graphql/public/js/graphs.js:11-18 | the loop produces point i = (createdAt of i, sum of amounts 0..i) for every i |
| Timeline.CumulativeEndsAtTotal | graphql/public/js/graphs.js:11-18 | the last point carries the sum of all amounts |
| Timeline.PrefixSumsGrow | graphql/public/js/graphs.js:11-18 | with non-negative amounts, a longer prefix never sums to less |
| Timeline.CumulativeNondecreasing | graphql/public/js/graphs.js:11-18 | with non-negative amounts the series is non-decreasing |
| Timeline.CumulativeExample | graphql/public/js/graphs.js:11-18 | amounts 10, 20, 30 give 10, 30, 60 |
| Timeline.MaxXP | graphql/public/js/graphs.js:28 | `Math.max` bounds every point and is attained by one |
| Timeline.MaxIsTotal | graphql/public/js/graphs.js:28 | with non-negative amounts maxXP is the total |
| Timeline.BuildPaths | graphql/public/js/graphs.js:44-61 | the line has one command per point, `M` first then `L`; the area starts at (80, 420), visits the same points in order, drops to the baseline under the last date and closes |
| Timeline.AreaClosesAtRightEdge | graphql/public/js/graphs.js:61 | the area's closing segment ends at (820, 420) |
| Timeline.FormatXP | graphql/public/js/graphs.js:64-68 | ≥ 10^6: value/10^6, one decimal, `M`; ≥ 1000: value/1000, one decimal, `k`; else the raw value |
| Timeline.FormatXPExamples | graphql/public/js/graphs.js:64-68 | 999 → 999, 1500 → 1.5k, 2,500,000 → 2.5M |
| Timeline.YLabels | graphql/public/js/graphs.js:93-102 | exactly five labels; label k is maxXP·k/4 at y = 420 − (k/4)·340 |
| Timeline.YLabelsOnScale | graphql/public/js/graphs.js:93-102 | each label's tick is where getY puts the value it shows |
| Timeline.Dots | graphql/public/js/graphs.js:111-119 | one marker per point |
| Timeline.DotsOnLine | graphql/public/js/graphs.js:111-119 | every marker sits on the line's vertex for its point, and its tooltip formats that point's cumulative XP |
| Timeline.LinePathUnique | graphql/public/js/graphs.js:44-61 | the points and the frame determine the line path |
| Timeline.AreaPathUnique | graphql/public/js/graphs.js:44-61 | the points and the frame determine the area path |
| Timeline.RendersUnique | graphql/public/js/graphs.js:5-61 | the render's description determines the graph: two graphs it admits for the same data are equal |
| Timeline.RenderXPTimelineGraph | graphql/public/js/graphs.js:5-130 | placeholder exactly for null or empty data; otherwise the cumulative series, its frame, the line and area paths, the five labels and the markers; output undefined exactly when dateRange or maxXP is 0 |
| AuditChart.FormatBytes | graphql/public/js/graphs.js:185-189 | `MB`, `kB` with one decimal at the 10^6 and 10^3 thresholds, else the amount and `B` |
| AuditChart.ArcPath | graphql/public/js/graphs.js:155-169 | a wedge keeps its two angles; its large-arc flag is 0 or 1, and 1 exactly when it spans more than π |
| AuditChart.RenderAuditRatioGraph | graphql/public/js/graphs.js:135-236 | placeholder exactly for null data or done = received = 0; otherwise both amounts are formatted as bytes, the centre shows `auditData.ratio` with two decimals and the legend shows both percentages with one |
| AuditChart.PieShares | graphql/public/js/graphs.js:140-145 | in a drawn pie each percentage is proportional to its amount, lies in 0..100, and the two sum to 100 |
| AuditChart.PieWedges | graphql/public/js/graphs.js:155-182 | in a drawn pie the done wedge starts at −π/2 and spans its share of 2π; the received wedge starts where it ends; the spans sum to 2π; a wedge is large exactly when it spans more than π, and at most one is |
| AuditChart.SharesComplete | graphql/public/js/graphs.js:141-145 | two shares of a positive total are proportional to their amounts, lie in 0..100 and sum to 100 |
| AuditChart.PieExample | graphql/public/js/graphs.js:144-182 | done 3, received 1 give 75% and 25%, a done span of 3π/2, and only the done wedge is large |
| Profile.DisplayUserInfo | public/js/profile.js:114-121 | the name is never empty: the login, or `Student` for an empty login |
| Profile.DisplayUserLevel | public/js/profile.js:124-148 | level 0 shows 0 and offset 565, which is within 0.5 of the empty ring; otherwise it shows ⌊level⌋, the offset lies in (0, C] and the drawn length is progress·C, with C = 2π·90 |
| Profile.LevelRingFills | public/js/profile.js:137-143 | within one whole level, a higher level leaves less of the ring undrawn |
| Profile.DisplayUserLevelExamples | public/js/profile.js:137-143 | 3.25 shows 3 with offset 0.75·C; 7.75 shows 7 with offset 0.25·C |
| Profile.DisplayTotalXP | public/js/profile.js:151-162 | ≥ 10^6: ` MB` with two decimals; ≥ 1000: ` kB` with one; else the amount and ` B` |
| Profile.FormatAmount | public/js/profile.js:197-201 | ` MB` and ` kB` with one decimal at the same thresholds, else ` B` |
| Profile.DisplayAuditRatio | public/js/profile.js:177-222 | missing data or ratio 0 give "0.0", "0 B", "0 B" and empty bars, whatever done and received are; otherwise the ratio with one decimal, both amounts formatted, bars 0 when done + received = 0, and bars proportional and summing to 100 when it is positive |
| Profile.Display | public/js/profile.js:93-99 | the shown name is never empty and is the login when there is one; the project count is the number of rows; level, total XP and audit ratio are shown as their display functions give them; audits done is shown as fetched |
| Profile.FanOut | public/js/profile.js:71-79 | level, ranking and audits-done always resolve, with rank ≤ total; projects, audits-done and audit ratio send a request exactly with a truthy token |
| Profile.BatchRequests | public/js/profile.js:71-79 | the second phase issues at most seven requests and never the user-info query |
| Profile.Loaded | public/js/profile.js:82-91 | the stored record carries the user row (its other fields: `LoadedRecord`) |
| Profile.FanOutSucceeds | public/js/profile.js:71-79 | the batch resolves exactly when projects and audit ratio succeed, and total XP and timeline also succeed when an event id is stored |
| Profile.FanOutRequests | public/js/profile.js:71-79 | with a token and an event id all seven requests go out in the array's order; with a token and no event id only projects, audits-done and audit ratio go out; nothing goes out without a token |
| Profile.Load | public/js/profile.js:55-111 | a successful load carries the user row |
| Profile.LoadUserInfoFirst | public/js/profile.js:67-79 | the user-info request is the first request and occurs once; no other request is issued unless fetchUserInfo succeeded; at most eight go out |
| Profile.LoadWithoutToken | public/js/profile.js:55-111 | without a token nothing is requested, the load is caught and the session is cleared |
| Profile.LoadSession | public/js/profile.js:101-110 | a caught load removes the token and the user id; a successful one changes no key but the event id |
| Profile.LoadFailsExactly | public/js/profile.js:71-110 | the load is caught exactly when fetchUserInfo rejects or one of the four fetches without try/catch rejects |
| Profile.CaughtQueriesCannotFailLoad | public/js/profile.js:71-79 | the level, ranking and audits-done answers never decide whether the load succeeds |
| Profile.LoadedRecord | public/js/profile.js:82-91 | on success `userData` holds the user row and the seven results under their named fields; rank ≤ total and every project row is a project |
| Profile.StaleEventIdIsUsed | public/js/auth.js:30-33 | an event id left in storage is used by the next load with a token whose user row resolves none: all eight requests go out |
| Profile.ProfilePage.constructor | public/js/profile.js:4-13 | the page starts with the initial `userData` and has done nothing |
| Profile.ProfilePage.LoadUserData | public/js/profile.js:55-111 | storage and requests follow `Load`; on success `userData` is reassigned and the six display values are shown; when caught, `userData` is kept, only the loading texts show, the alert is raised and the page goes to login |
| Profile.ProfilePage.Settle | public/js/profile.js:81-110 | on success `userData` becomes the loaded record, the display values are shown and storage is untouched; when caught the token and user id are removed, `userData` and the screen are kept, the alert is raised and the page goes to login |
| Profile.ProfilePage.DisplayAllGraphs | public/js/profile.js:225-239 | both graphs are the renders of the current `userData`, and nothing else changes |
| Profile.ProfilePage.Logout | public/js/profile.js:42-45 | it clears the token and the user id and goes to login |
| Profile.ProfilePage.OnPageLoaded | public/js/profile.js:16-52 | no token: go to login and change nothing else; token without a truthy user id: clear the session, go to login and load nothing; otherwise bind logout, load as `LoadUserData` does, then render both graphs |
| Profile.CaughtLoadShowsPlaceholders | public/js/profile.js:225-239 | rendering the initial `userData` gives both placeholders |

## Left out

- HTTP transport: `fetch`, headers, request bodies and `response.json()` are not modelled. The server's answer is an abstract `Response`. A `fetch` that itself rejects (a network error) is not distinguished from an HTTP failure.
- GraphQL server semantics: the `where`, `distinct_on`, `order_by`, `limit` and `grade _gte 1` clauses are evaluated by the backend. Rows are taken as the backend returns them, so `ProjectsOnly` removes no duplicate objects and the timeline is not required to be in ascending date order.
- Query variables: the `userId` argument of the fetches, `parseInt` of the user id and event id, and the query texts.
- Concurrency: `async`/`await` and `Promise.all` are a sequential two-phase step with all-or-nothing failure. Which of several rejections reaches the `catch` is not modelled, and the `catch` ignores it.
- Timers: the `setTimeout` calls of `displayAuditRatio` and `displayAllGraphs` are taken as fired at once.
- Floating point: reals are exact, and JavaScript's doubles, rounding and 2^53 integer limit are not modelled. `Math.PI` is the real 3.141592653589793: the shortest decimal that reads back as the double, not the double's exact value (3.141592653589793115997963…).
- Digit rendering: `toFixed` and `String` of a real are not modelled, and a `Label` keeps the exact value with its digit count. `String` of an integer is modelled, for the stored event id.
- Dates: `new Date(createdAt)` is an integer timestamp. `toLocaleDateString` in the marker tooltips is not modelled.
- Arc end points: `Math.cos` and `Math.sin` in `getArcPath` are not modelled. A wedge keeps its angles and large-arc flag. The SVG arc for a share of 100%, whose start and end points coincide, is not modelled.
- Timeline.RenderXPTimelineGraph: returns `Unspecified` instead of the graph that the division by a zero date range or a zero maxXP produces (NaN or infinite coordinates).
- Profile.DisplayUserLevel: only level 0 is modelled as falsy. NaN, null and undefined levels cannot occur in the real-valued model.
- Profile.DisplayUserInfo: a `null` login is not modelled, since logins are texts.
- DOM, SVG markup, CSS and `console` logging are not modelled. `window.location` is the `Location` value, `alert` is the `alerted` flag, and the screen contents are the `Screen` value.
- Browser decoding: `btoa`, `atob` and `JSON.parse` are abstract. `parseJWTToken` takes the decoder as a function argument, and `encodeLoginData` is modelled up to the text it hands to `btoa`.
- public/js/login.js (sign-in form wiring and the sign-in request) is not part of this model.
