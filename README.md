# EcoTrack and Notes_Latex client logic in Dafny

This project models the browser clients of two small web applications.

**EcoTrack** (`echo-world/client`) is a community waste-reporting app. The model covers:

- the HTTP client `lib/api.ts`. This includes:
  - request keys and the de-duplication registry of pending mutating requests;
  - header building and the error message of a failed response;
  - the endpoint table.
- the three React context stores:
  - the session (`auth-context.tsx`);
  - the waste reports (`waste-reports-context.tsx`);
  - the cleanup feed (`feed-context.tsx`).
- the page logic of the map page (`Map.tsx`, `GoogleMap.tsx`), report submission (`ReportWaste.tsx`), cleanup verification (`VerificationUpload.tsx`), the feed page (`Feed.tsx`), rewards (`Rewards.tsx`) and profile editing (`Profile.tsx`).

**Notes_Latex** (`Notes_Latex/client/src`) is a note editor with a LaTeX preview. The model covers:

- the note list and editing state of `App.js`;
- cursor insertion and the line-by-line preview of `NoteEditor.js`.

There is one Dafny module per source file, plus four shared modules:

- `Wrappers`: `Option`, and `Outcome` (the settled result of one awaited server call).
- `Seqs`: the `filter`, `find`, `findIndex` and `map` that the code uses, stated with an `IsSubsequence` order predicate and element multiplicities.
- `Text`:
  - the JavaScript string operations the code relies on: `trim`, `toLowerCase`, `includes`, `indexOf`, `slice`, `split` and `join`;
  - JavaScript truthiness (`||` on strings);
  - number-to-decimal text;
  - `JSON.stringify` of a string, with its unquoting inverse.
- `Clock`: the "time ago" buckets that two pages compute.

How the model is built:

- **Stores and components.** A context store, or a component whose state hooks are updated step by step, becomes a `class`. Its methods change the fields and state the whole new state.
- **Server calls.** Every server call becomes a step whose settled `Outcome` is a parameter. The clock (`now`), geolocation fixes, file contents, object URLs and the stored token are parameters as well.
- **Pure derivations.** Filters, labels, colours, payloads and the preview are functions. Lemmas relate them to one another.

## Model

The paths below are relative to the root of the original repository.

| member | source | states |
|---|---|---|
| Text.Trim | Users/91729/Desktop/echo-world/client/components/VerificationUpload.tsx:119 | `trim` leaves an infix of the input that neither starts nor ends with ECMAScript whitespace, and everything removed before and after it is whitespace |
| Text.BlankIffAllWhitespace | Users/91729/Desktop/Notes_Latex/client/src/App.js:38 | a string trims to empty exactly when all of its characters are whitespace |
| Text.ToLowerIdempotent | Users/91729/Desktop/echo-world/client/pages/Map.tsx:43-47 | lower-casing twice is the same as lower-casing once |
| Text.IncludesIff | Users/91729/Desktop/echo-world/client/pages/Map.tsx:43-47 | `s.includes(q)` holds exactly when `q` occurs at some index of `s` |
| Text.DecimalRoundTrip | Users/91729/Desktop/echo-world/client/lib/api.ts:80 | the decimal text of a number reads back as that number, so status codes and counts are printed faithfully |
| Text.IndexOf | Users/91729/Desktop/Notes_Latex/client/src/components/NoteEditor.js:54 | `indexOf` is -1 exactly when the character is absent; otherwise it is the first position holding it |
| Text.Slice | Users/91729/Desktop/Notes_Latex/client/src/components/NoteEditor.js:17 | `slice(start, end)` is the substring when the bounds are in order and in range, the suffix from `start` when only `end` is past the length, and empty when `end <= start` or `start` is past the length |
| Text.SliceFrom | Users/91729/Desktop/Notes_Latex/client/src/components/NoteEditor.js:18 | `slice(start)` is the suffix from `start`, and empty past the end |
| Text.JoinSplit | Users/91729/Desktop/Notes_Latex/client/src/components/NoteEditor.js:53 | joining the pieces of `split` with the separator gives back the original text |
| Text.SplitShape | Users/91729/Desktop/Notes_Latex/client/src/components/NoteEditor.js:53 | `split` yields one more piece than there are separators, and no piece contains the separator |
| Text.SplitJoin | Users/91729/Desktop/Notes_Latex/client/src/components/NoteEditor.js:53 | splitting a join of separator-free pieces gives back the pieces |
| Text.JsonQuoteRoundTrip | Users/91729/Desktop/echo-world/client/lib/api.ts:12 | unquoting the `JSON.stringify` text of a string gives back the string |
| Text.JsonQuoteInjective | Users/91729/Desktop/echo-world/client/lib/api.ts:12 | two strings with the same `JSON.stringify` text are equal |
| Seqs.Filter | Users/91729/Desktop/echo-world/client/contexts/waste-reports-context.tsx:101 | `filter` keeps exactly the elements satisfying the predicate, each as many times as it occurs in the input, in their original order |
| Seqs.FindIndex | Users/91729/Desktop/echo-world/client/pages/Rewards.tsx:130-132 | `find` picks the first element satisfying the predicate, and there is none exactly when no element satisfies it |
| Seqs.Find | Users/91729/Desktop/Notes_Latex/client/src/App.js:27 | `find` gives the first element satisfying the predicate, and nothing exactly when no element satisfies it |
| Seqs.FilterCount | Users/91729/Desktop/echo-world/client/pages/Map.tsx:184 | the length of a filtered list is the number of positions whose element satisfies the predicate |
| Seqs.WithoutIndex | Users/91729/Desktop/echo-world/client/pages/ReportWaste.tsx:95-97 | dropping position `index` leaves the elements before and after it; an out-of-range index leaves the list unchanged |
| Api.AbsentMethodKeysAsGet | Users/91729/Desktop/echo-world/client/lib/api.ts:10-14 | a request without a method gets the same de-duplication key as an explicit GET |
| Api.RequestKey | Users/91729/Desktop/echo-world/client/lib/api.ts:10-14 | the key opens with the method and the endpoint; the body can be read back from the rest of the key, which is empty without a body |
| Api.IsTracked | Users/91729/Desktop/echo-world/client/lib/api.ts:23-27 | a request is de-duplicated exactly when its effective method is not GET |
| Api.SameKeyIffSameBody | Users/91729/Desktop/echo-world/client/lib/api.ts:10-14 | for one method and endpoint, two requests share a key exactly when their bodies agree (an absent body and an empty body count as the same) |
| Api.BuildHeaders | Users/91729/Desktop/echo-world/client/lib/api.ts:36-47 | the JSON content type is always present; a bearer Authorization header is present exactly when a truthy token is stored; the caller's headers are kept and win on a clash |
| Api.BuildConfig | Users/91729/Desktop/echo-world/client/lib/api.ts:32-52 | the URL is the `/api` base followed by the endpoint; method and body pass through; the headers are the built headers |
| Api.ErrorMessage | Users/91729/Desktop/echo-world/client/lib/api.ts:79-96 | the rejection message is the body's truthy `error` field; when the body cannot be read, it is a non-empty status text; otherwise it is "HTTP error! status: N" |
| Api.ErrorMessageShape | Users/91729/Desktop/echo-world/client/lib/api.ts:79-96 | a rejection message is never empty, and the default message contains the status code |
| Api.ExecuteRequest | Users/91729/Desktop/echo-world/client/lib/api.ts:69-105 | a network failure rejects with its own message; a non-2xx response rejects with the error message; a 2xx response resolves to its JSON data, to nothing for JSON `null`, and rejects with the parse error when the body is not JSON; it resolves exactly for a 2xx response with a readable body |
| Api.FeedQueryDefaults | Users/91729/Desktop/echo-world/client/lib/api.ts:191-207 | the feed query with no arguments asks for page 1, limit 10 and filter "all" |
| Api.TrackedIffWrite | Users/91729/Desktop/echo-world/client/lib/api.ts:108-257 | the calls that de-duplication tracks are exactly the POST and PUT calls; every read is sent without a method |
| Api.Endpoint | Users/91729/Desktop/echo-world/client/lib/api.ts:108-257 | every endpoint is a path starting with '/' under the API base |
| Api.Options | Users/91729/Desktop/echo-world/client/lib/api.ts:108-257 | no call adds headers of its own; a call with a body is a tracked one; the only methods set are POST and PUT |
| Api.StatusUpdatesShareKeyIffSameStatus | Users/91729/Desktop/echo-world/client/lib/api.ts:180-188 | two status updates of one report share a request key exactly when they request the same status |
| Api.ApiClient.constructor | Users/91729/Desktop/echo-world/client/lib/api.ts:4 | the registry starts empty |
| Api.ApiClient.Request | Users/91729/Desktop/echo-world/client/lib/api.ts:16-67 | a tracked request whose key is pending joins that request and changes nothing; otherwise a new request is issued with the built config, and a tracked one is registered under its key |
| Api.ApiClient.Settle | Users/91729/Desktop/echo-world/client/lib/api.ts:61-63 | settling removes exactly that key from the registry |
| Api.DuplicateCallsScenario | Users/91729/Desktop/echo-world/client/lib/api.ts:23-30 | a second identical write joins the first one's ticket; a second identical read is sent again |
| Api.SettledCallIsResentScenario | Users/91729/Desktop/echo-world/client/lib/api.ts:57-64 | once a write settles, the same write is sent again |
| AuthContext.ProfilePayloadFor | Users/91729/Desktop/echo-world/client/contexts/auth-context.tsx:105-110 | the name and email sent are the truthy update values, falling back to the current ones; phone and location are sent exactly as given |
| AuthContext.ProfilePayloadKeepsIdentity | Users/91729/Desktop/echo-world/client/contexts/auth-context.tsx:105-110 | an update cannot blank a name or email the user already has |
| AuthContext.AuthStore.constructor | Users/91729/Desktop/echo-world/client/contexts/auth-context.tsx:27-28 | the store starts with no user, loading, and the stored token |
| AuthContext.AuthStore.CheckAuthStatus | Users/91729/Desktop/echo-world/client/contexts/auth-context.tsx:32-49 | the profile is fetched exactly when a truthy token is stored; a fetched user is kept; a failure removes the token; loading always ends |
| AuthContext.AuthStore.Authenticate | Users/91729/Desktop/echo-world/client/contexts/auth-context.tsx:54-94 | success stores the token and user of the session; failure leaves both unchanged; loading ends |
| AuthContext.AuthStore.Login | Users/91729/Desktop/echo-world/client/contexts/auth-context.tsx:54-71 | returns true exactly when the login call succeeds; success stores the session and failure keeps the state |
| AuthContext.AuthStore.Signup | Users/91729/Desktop/echo-world/client/contexts/auth-context.tsx:73-94 | the same as login, for registration |
| AuthContext.AuthStore.Logout | Users/91729/Desktop/echo-world/client/contexts/auth-context.tsx:96-99 | the user and the token are both cleared |
| AuthContext.AuthStore.UpdateProfile | Users/91729/Desktop/echo-world/client/contexts/auth-context.tsx:101-118 | without a user nothing is sent and the result is false; otherwise the merged payload is sent and the server's user replaces the current one exactly on success |
| AuthContext.RejectedTokenOnMount | Users/91729/Desktop/echo-world/client/contexts/auth-context.tsx:32-49 | a stored token the server rejects leaves no user, no token and no loading flag |
| AuthContext.NoTokenOnMount | Users/91729/Desktop/echo-world/client/contexts/auth-context.tsx:32-49 | without a token nothing is fetched, and loading ends signed out |
| WasteReportsContext.ReplaceByIdIdempotent | Users/91729/Desktop/echo-world/client/contexts/waste-reports-context.tsx:88-90 | applying the same server answer twice gives the same list as applying it once |
| WasteReportsContext.ReplaceById | Users/91729/Desktop/echo-world/client/contexts/waste-reports-context.tsx:88-90 | position by position, a report with the id becomes the server's report and every other report is kept; the length is kept |
| WasteReportsContext.WasteReportsStore.constructor | Users/91729/Desktop/echo-world/client/contexts/waste-reports-context.tsx:45 | the cache starts empty |
| WasteReportsContext.WasteReportsStore.LoadReports | Users/91729/Desktop/echo-world/client/contexts/waste-reports-context.tsx:49-57 | the server's list replaces the cache; a failure leaves it empty |
| WasteReportsContext.WasteReportsStore.AddReport | Users/91729/Desktop/echo-world/client/contexts/waste-reports-context.tsx:63-78 | success appends the server's report and passes on its points; failure changes nothing and reports no points |
| WasteReportsContext.WasteReportsStore.UpdateReportStatus | Users/91729/Desktop/echo-world/client/contexts/waste-reports-context.tsx:80-98 | on success every report with the id is replaced by the server's report and all others are kept; the length never changes |
| WasteReportsContext.WasteReportsStore.GetUserReports | Users/91729/Desktop/echo-world/client/contexts/waste-reports-context.tsx:100-102 | exactly the user's reports, each as often as in the cache, in cache order |
| WasteReportsContext.SubmissionGrowsListByOne | Users/91729/Desktop/echo-world/client/contexts/waste-reports-context.tsx:63-78 | a successful submission grows the list by one, and the last entry is the server's report |
| FeedContext.WithLikes | Users/91729/Desktop/echo-world/client/contexts/feed-context.tsx:158-164 | only the `likes` of the activities with the id change, and they become the server's count |
| FeedContext.FeedStore.constructor | Users/91729/Desktop/echo-world/client/contexts/feed-context.tsx:61-68 | empty list, no stats, not loading, more to load, page 1, filter "all" |
| FeedContext.FeedStore.LoadFeedData | Users/91729/Desktop/echo-world/client/contexts/feed-context.tsx:76-103 | the query asks for page 1 on a reset and the current page otherwise, with limit 10 and the current filter. Success replaces or appends the page and moves the cursor one page on. Failure empties the list and keeps the cursor. Loading always ends |
| FeedContext.FeedStore.LoadFeedStats | Users/91729/Desktop/echo-world/client/contexts/feed-context.tsx:105-119 | the stats become the server's, or all zeros on failure; nothing else changes |
| FeedContext.FeedStore.CreateCleanupActivity | Users/91729/Desktop/echo-world/client/contexts/feed-context.tsx:121-146 | success prepends the server's activity, reloads the stats and passes on the points; failure changes nothing |
| FeedContext.FeedStore.LoadMoreActivities | Users/91729/Desktop/echo-world/client/contexts/feed-context.tsx:148-151 | nothing is requested while loading or when there is no more; otherwise the next page is loaded without a reset |
| FeedContext.FeedStore.LikeActivity | Users/91729/Desktop/echo-world/client/contexts/feed-context.tsx:153-168 | success sets the server's like count on the activity; failure changes nothing |
| FeedContext.FeedStore.RefreshFeed | Users/91729/Desktop/echo-world/client/contexts/feed-context.tsx:170-173 | a reset load of page 1 with the current filter, then a stats load: success shows the server's page, moves the cursor to 2 and takes the server's `hasMore`; failure empties the list and keeps cursor and `hasMore`; the filter is kept and loading ends |
| FeedContext.FeedStore.FilterActivities | Users/91729/Desktop/echo-world/client/contexts/feed-context.tsx:175-180 | a new filter restarts pagination at page 1 with more to load; the list itself is kept |
| FeedContext.LikeOnMissingIdChangesNothing | Users/91729/Desktop/echo-world/client/contexts/feed-context.tsx:158-164 | a like answer for an id that is not listed leaves the list unchanged |
| FeedContext.PagingScenario | Users/91729/Desktop/echo-world/client/contexts/feed-context.tsx:76-103 | after a reset load and k more loads, pages 1 to k+1 have been requested in order, the cursor is at k+2, and the list is all the pages joined in order |
| FeedContext.SameFilterThenLoadMore | Users/91729/Desktop/echo-world/client/contexts/feed-context.tsx:71-180 | choosing the filter already active restarts the cursor without reloading, so the next load-more asks for page 1 again and appends it after the pages already shown |
| Clock.FloorDiv | Users/91729/Desktop/echo-world/client/pages/Map.tsx:61-63 | `Math.floor(n / d)` for a positive divisor: the quotient brackets `n` |
| Clock.AgeOf | Users/91729/Desktop/echo-world/client/pages/Map.tsx:58-68 | "just now" exactly below one hour; otherwise the whole hours (1 to 23) or whole days that elapsed |
| Clock.AgeMonotone | Users/91729/Desktop/echo-world/client/pages/Map.tsx:58-68 | more elapsed time never gives a younger bucket |
| MapPage.FilteredReports | Users/91729/Desktop/echo-world/client/pages/Map.tsx:30-50 | exactly the reports that are listed, each as often as in the input, in their original order |
| MapPage.StaleNeverListed | Users/91729/Desktop/echo-world/client/pages/Map.tsx:32-38 | a report completed more than 24 hours ago is never listed, whatever the filters |
| MapPage.DefaultFiltersHideOnlyStale | Users/91729/Desktop/echo-world/client/pages/Map.tsx:30-50 | with status "all" and an empty search, a report is listed exactly when it is not stale |
| MapPage.SearchIgnoresQueryCase | Users/91729/Desktop/echo-world/client/pages/Map.tsx:41-47 | the search gives the same answer for a query and its lower-cased form |
| MapPage.SelectedReport | Users/91729/Desktop/echo-world/client/pages/Map.tsx:53-56 | the selection is found exactly when a listed report has the selected id, and it is the first listed report with that id |
| MapPage.SelectedLocation | Users/91729/Desktop/echo-world/client/pages/Map.tsx:53-56 | the map centre exists exactly when the selected report is listed, and it is that report's latitude and longitude |
| MapPage.HiddenSelectionHasNoLocation | Users/91729/Desktop/echo-world/client/pages/Map.tsx:30-56 | a selected report that the filters hide gives no map centre |
| MapPage.TimeAgoLabel | Users/91729/Desktop/echo-world/client/pages/Map.tsx:58-68 | the label is "Just now" exactly when less than an hour has elapsed, otherwise "N hours ago" or "N days ago" with N the whole hours or days of the age bucket |
| MapPage.TimeAgoLabelInjective | Users/91729/Desktop/echo-world/client/pages/Map.tsx:58-68 | two times get the same label exactly when they fall in the same age bucket |
| MapPage.StatusToneIff | Users/91729/Desktop/echo-world/client/pages/Map.tsx:70-94 | the status badge is red exactly for unknown statuses, and known statuses get different colours |
| MapPage.StatusTone | Users/91729/Desktop/echo-world/client/pages/Map.tsx:70-94 | the status badge is red exactly for a status the page does not know |
| MapPage.SeverityToneIff | Users/91729/Desktop/echo-world/client/pages/Map.tsx:96-109 | the severity badge is gray exactly for unknown severities, and known severities get different colours |
| MapPage.SeverityTone | Users/91729/Desktop/echo-world/client/pages/Map.tsx:96-109 | the severity badge is gray exactly for a severity the page does not know |
| MapPage.StatusCount | Users/91729/Desktop/echo-world/client/pages/Map.tsx:184 | the count is the number of positions whose report has that status |
| MapPage.HighPriorityCount | Users/91729/Desktop/echo-world/client/pages/Map.tsx:324-330 | the count is the number of positions whose report has severity high or critical |
| MapPage.StatusCountsBounded | Users/91729/Desktop/echo-world/client/pages/Map.tsx:173-206 | the pending, in-progress and completed counts add up to at most the total, and to exactly the total when every status is known |
| GoogleMap.MarkerColorPriority | Users/91729/Desktop/echo-world/client/components/GoogleMap.tsx:247-261 | a marker is red exactly for a report of high or critical severity, whatever its status; otherwise its colour follows the status |
| GoogleMap.MarkerColor | Users/91729/Desktop/echo-world/client/components/GoogleMap.tsx:247-261 | the marker is red exactly for severity high or critical, and always one of the four marker colours |
| GoogleMap.InfoStatusIconAgreesWithBadge | Users/91729/Desktop/echo-world/client/components/GoogleMap.tsx:278-283 | the info-window icon agrees with the map page's status colour: a check for green, a cycle for blue, an hourglass otherwise |
| GoogleMap.InfoStatusIcon | Users/91729/Desktop/echo-world/client/components/GoogleMap.tsx:278-283 | a check exactly for a completed report, a cycle exactly for one in progress |
| GoogleMap.InfoActionCases | Users/91729/Desktop/echo-world/client/components/GoogleMap.tsx:311-340 | the "mark as cleaned" button shows exactly for a signed-in user and an uncompleted report; the cleaned badge shows exactly for a completed report |
| GoogleMap.InfoActionFor | Users/91729/Desktop/echo-world/client/components/GoogleMap.tsx:311-340 | the cleaned badge exactly for a completed report; the other cases are `InfoActionCases` |
| GoogleMap.InitialZoom | Users/91729/Desktop/echo-world/client/components/GoogleMap.tsx:73 | zoom 10 when there are reports; otherwise the given zoom, which defaults to 12 |
| GoogleMap.MapMarkers.constructor | Users/91729/Desktop/echo-world/client/components/GoogleMap.tsx:63-66 | nothing selected, and the modal is closed |
| GoogleMap.MapMarkers.MarkAsCleanedClick | Users/91729/Desktop/echo-world/client/components/GoogleMap.tsx:157-163 | a known id selects the first report with that id and opens the modal; an unknown id changes nothing |
| GoogleMap.MapMarkers.CloseVerification | Users/91729/Desktop/echo-world/client/components/GoogleMap.tsx:379 | the modal closes and the selection is kept |
| ReportWaste.DraftFor | Users/91729/Desktop/echo-world/client/pages/ReportWaste.tsx:159-173 | the payload carries the user's id and name, the picked coordinates, the address or "", one URL per photo in order, and the form fields |
| ReportWaste.ReportForm.constructor | Users/91729/Desktop/echo-world/client/pages/ReportWaste.tsx:39-48 | an empty form, with the contact fields prefilled from the user |
| ReportWaste.ReportForm.HandleImageUpload | Users/91729/Desktop/echo-world/client/pages/ReportWaste.tsx:86-93 | files are accepted exactly when the total stays at most 5, and are then appended; every other field is kept |
| ReportWaste.ReportForm.RemoveImage | Users/91729/Desktop/echo-world/client/pages/ReportWaste.tsx:95-97 | exactly the photo at the index is dropped; every other field is kept |
| ReportWaste.ReportForm.CaptureLocation | Users/91729/Desktop/echo-world/client/pages/ReportWaste.tsx:117-121 | the location is set and every other field is kept |
| ReportWaste.ReportForm.HandleSubmit | Users/91729/Desktop/echo-world/client/pages/ReportWaste.tsx:146-195 | without a user or a location nothing is sent. Otherwise the draft is sent; success appends the report and shows the success state, and failure changes no report. The form fields are kept and submitting ends |
| ReportWaste.ReportForm.ResetAfterSuccess | Users/91729/Desktop/echo-world/client/pages/ReportWaste.tsx:197-207 | every form field is cleared |
| ReportWaste.EnabledButtonSubmits | Users/91729/Desktop/echo-world/client/pages/ReportWaste.tsx:478 | with a signed-in user, a location and 1 to 5 photos, the enabled button sends the report with all the photos |
| ReportWaste.ReportForm.SubmitDisabled | Users/91729/Desktop/echo-world/client/pages/ReportWaste.tsx:478 | the submit button's `disabled`: no location, a submission under way, or no photo; `EnabledButtonSubmits` proves what an enabled button sends |
| ReportWaste.SixthPhotoRefused | Users/91729/Desktop/echo-world/client/pages/ReportWaste.tsx:86-93 | with five photos held, a sixth is refused and the five are kept |
| VerificationUpload.Validate | Users/91729/Desktop/echo-world/client/components/VerificationUpload.tsx:108-122 | the first missing item among verification photo, location and non-blank description is reported, and there is no error exactly when all three are present |
| VerificationUpload.InitialBeforeImage | Users/91729/Desktop/echo-world/client/components/VerificationUpload.tsx:49-51 | the "before" photo starts as the report's first image, or "" |
| VerificationUpload.InitialBeforeImageNotRemovable | Users/91729/Desktop/echo-world/client/components/VerificationUpload.tsx:251-270 | the initial "before" photo never shows a remove button |
| VerificationUpload.NonEmpty | Users/91729/Desktop/echo-world/client/components/VerificationUpload.tsx:134-135 | an empty photo is sent as absent; any other photo is sent as given |
| VerificationUpload.PayloadFor | Users/91729/Desktop/echo-world/client/components/VerificationUpload.tsx:127-137 | the payload carries the fix, the trimmed description, the photos (the optional ones absent exactly when empty) and the report's id, type and address |
| VerificationUpload.VerificationForm.constructor | Users/91729/Desktop/echo-world/client/components/VerificationUpload.tsx:43-53 | nothing entered yet; the "before" photo is prefilled |
| VerificationUpload.VerificationForm.CaptureLocation | Users/91729/Desktop/echo-world/client/components/VerificationUpload.tsx:59-81 | the fix is stored and nothing else changes |
| VerificationUpload.VerificationForm.SetDescription | Users/91729/Desktop/echo-world/client/components/VerificationUpload.tsx:219 | the description is set and nothing else changes |
| VerificationUpload.VerificationForm.HandleFileChange | Users/91729/Desktop/echo-world/client/components/VerificationUpload.tsx:83-106 | a chosen file fills exactly its own slot; no file changes nothing |
| VerificationUpload.VerificationForm.RemoveBefore | Users/91729/Desktop/echo-world/client/components/VerificationUpload.tsx:264-270 | the "before" photo goes back to the report's first image, which has no remove button; every other field is kept |
| VerificationUpload.VerificationForm.HandleSubmit | Users/91729/Desktop/echo-world/client/components/VerificationUpload.tsx:108-150 | the validation error is returned and nothing is sent. Otherwise the payload is sent; success prepends the activity, reloads the store's stats (zeros when that fails) and passes on the points; failure changes no activity and no stats. The store's loading flag, cursor, `hasMore` and filter are kept. Submitting ends |
| VerificationUpload.DisabledIffInvalid | Users/91729/Desktop/echo-world/client/components/VerificationUpload.tsx:384-389 | the submit button is disabled exactly while submitting or while validation would fail |
| VerificationUpload.VerificationForm.Disabled | Users/91729/Desktop/echo-world/client/components/VerificationUpload.tsx:384-389 | the Verify button's `disabled`; `DisabledIffInvalid` proves it agrees with validation |
| VerificationUpload.BlankDescriptionRefused | Users/91729/Desktop/echo-world/client/components/VerificationUpload.tsx:119-122 | a description made only of white space is refused with its message, and nothing is sent, even with the photo and the position in place |
| FeedPage.TimeAgoLabel | Users/91729/Desktop/echo-world/client/pages/Feed.tsx:32-42 | the label is "Just now" exactly when less than an hour has elapsed, otherwise "Nh ago" or "Nd ago" with N the whole hours or days of the age bucket |
| FeedPage.TimeAgoLabelInjective | Users/91729/Desktop/echo-world/client/pages/Feed.tsx:32-42 | two times get the same label exactly when they fall in the same age bucket |
| FeedPage.PlainStat | Users/91729/Desktop/echo-world/client/pages/Feed.tsx:70 | a present, non-zero figure is shown as is; the figure shows as 0 exactly when it is missing or zero |
| FeedPage.ScaledStat | Users/91729/Desktop/echo-world/client/pages/Feed.tsx:76-80 | a figure shows as 0 exactly when it is missing or zero, and in thousands exactly when it is at least 1000 |
| FeedPage.BannerFor | Users/91729/Desktop/echo-world/client/pages/Feed.tsx:66-98 | without stats every figure shows as 0; with stats the areas and the rate are shown as they are, and photos and points in the scaled form of their own figure |
| FeedPage.ZeroStatsShowAsMissing | Users/91729/Desktop/echo-world/client/pages/Feed.tsx:66-98 | the all-zero fallback stats show the same banner as no stats |
| FeedPage.FeedView.constructor | Users/91729/Desktop/echo-world/client/pages/Feed.tsx:30 | the page's filter starts as "all" |
| FeedPage.FeedView.HandleFilterChange | Users/91729/Desktop/echo-world/client/pages/Feed.tsx:44-47 | the page's filter and the store's filter agree afterwards, and pagination restarts; the store's list, stats and loading flag are kept |
| FeedPage.FilterClicksStayInSync | Users/91729/Desktop/echo-world/client/pages/Feed.tsx:44-47 | after any sequence of filter clicks, the page and the store agree on the filter, the last click (or "all") is highlighted, and the store is at page 1 with more to load |
| FeedPage.LoadMoreClick | Users/91729/Desktop/echo-world/client/pages/Feed.tsx:287-294 | a load-more click issues a request for the store's current page and filter exactly when the button is shown and enabled. A successful load appends the page, advances the cursor and takes the server's `hasMore`; a failed one empties the list; no request changes nothing; stats and filter are kept. After a failed load the empty state shows, after a successful one exactly when the old list and the new page are both empty |
| FeedPage.LoadMoreVisible | Users/91729/Desktop/echo-world/client/pages/Feed.tsx:287 | the button is rendered only while the store has more; `LoadMoreClick` ties it to the store |
| FeedPage.LoadMoreDisabled | Users/91729/Desktop/echo-world/client/pages/Feed.tsx:293 | the button is disabled while a load runs; `LoadMoreClick` ties it to the store |
| FeedPage.EmptyStateVisible | Users/91729/Desktop/echo-world/client/pages/Feed.tsx:308 | the empty state shows when no activity is listed and nothing is loading; `LoadMoreClick` states when a load leaves it on screen |
| Rewards.FilteredRewards | Users/91729/Desktop/echo-world/client/pages/Rewards.tsx:123-126 | exactly the rewards in the chosen category, each as often as in the catalogue, in catalogue order |
| Rewards.AllCategoryKeepsCatalog | Users/91729/Desktop/echo-world/client/pages/Rewards.tsx:123-126 | the "All" category shows the whole catalogue |
| Rewards.NextMilestone | Users/91729/Desktop/echo-world/client/pages/Rewards.tsx:130-132 | the first unachieved milestone; there is none exactly when all are achieved |
| Rewards.PointsToGo | Users/91729/Desktop/echo-world/client/pages/Rewards.tsx:171 | the user's points plus the points to go reach the milestone |
| Rewards.RedeemButtonConsistent | Users/91729/Desktop/echo-world/client/pages/Rewards.tsx:240-246 | the button is disabled exactly when its label is not "Redeem Now"; "Need N more points" shows exactly when the points fall short, with N the shortfall; "Out of Stock" shows exactly for an affordable reward with no stock |
| Rewards.RedeemLabelFor | Users/91729/Desktop/echo-world/client/pages/Rewards.tsx:240-246 | the label is "Redeem Now" exactly when the button is enabled, and a "Need" label carries the reward's cost less the balance |
| Rewards.RedeemLabelTextsDiffer | Users/91729/Desktop/echo-world/client/pages/Rewards.tsx:242-246 | a "Need" label never reads like one of the other two |
| Rewards.PageFigures | Users/91729/Desktop/echo-world/client/pages/Rewards.tsx:22-110 | with 1250 points, every catalogue reward is redeemable, the next milestone is the Platinum badge at 2000, and 750 points are to go |
| Profile.FormFromUser | Users/91729/Desktop/echo-world/client/pages/Profile.tsx:33-38 | each field is the user's truthy value, or its placeholder |
| Profile.SyncedForm | Users/91729/Desktop/echo-world/client/pages/Profile.tsx:41-50 | name and email are copied as they are; phone and location fall back to their placeholders |
| Profile.SyncAgreesWithCancel | Users/91729/Desktop/echo-world/client/pages/Profile.tsx:41-50 | the synced form and the cancelled form agree exactly when the user's name and email are both non-empty |
| Profile.WithField | Users/91729/Desktop/echo-world/client/pages/Profile.tsx:52-54 | exactly the named field takes the new value |
| Profile.WithFieldFrame | Users/91729/Desktop/echo-world/client/pages/Profile.tsx:52-54 | the edited field reads back as the value, and every other field is unchanged |
| Profile.EmptiedNameKeepsCurrent | Users/91729/Desktop/echo-world/client/pages/Profile.tsx:56-66 | saving with an emptied name sends the current name; phone and location are sent as typed |
| Profile.UpdateFor | Users/91729/Desktop/echo-world/client/pages/Profile.tsx:60-65 | the update carries all four form fields as typed; `EmptiedNameKeepsCurrent` states what the store makes of an emptied name |
| Profile.ProfilePage.constructor | Users/91729/Desktop/echo-world/client/pages/Profile.tsx:28-38 | the form is prefilled from the user and nothing is being edited or saved |
| Profile.ProfilePage.SyncFromUser | Users/91729/Desktop/echo-world/client/pages/Profile.tsx:41-50 | a present user resets the form to the synced values; an absent user keeps it |
| Profile.ProfilePage.HandleInputChange | Users/91729/Desktop/echo-world/client/pages/Profile.tsx:52-54 | one field of the form changes |
| Profile.ProfilePage.HandleSave | Users/91729/Desktop/echo-world/client/pages/Profile.tsx:56-83 | the form's update is sent; success leaves edit mode and shows the success note; failure keeps edit mode; saving ends; the form, the token and the session's loading flag are kept |
| Profile.ProfilePage.HideSaveSuccess | Users/91729/Desktop/echo-world/client/pages/Profile.tsx:73 | the success note is hidden and nothing else changes |
| Profile.ProfilePage.HandleCancel | Users/91729/Desktop/echo-world/client/pages/Profile.tsx:85-94 | the form goes back to the user's values and edit mode ends |
| Profile.ProfilePage.ToggleEditing | Users/91729/Desktop/echo-world/client/pages/Profile.tsx:189 | edit mode flips and nothing else changes |
| Profile.EditThenCancelRestores | Users/91729/Desktop/echo-world/client/pages/Profile.tsx:28-94 | after opening (first render, then the sync effect), editing a field and cancelling, the form is the one first shown exactly when there is no user or the user's name and email are both non-empty |
| NotesApp.NewNoteDraftNotSavable | Users/91729/Desktop/Notes_Latex/client/src/App.js:37-49 | a new note, whose content is a single space, cannot be saved until its content is edited |
| NotesApp.ReplaceNote | Users/91729/Desktop/Notes_Latex/client/src/App.js:43 | every note with the id is replaced by the saved note; the others and the length are kept |
| NotesApp.RemoveNote | Users/91729/Desktop/Notes_Latex/client/src/App.js:60 | exactly the notes with another id remain, each as often as before, in order |
| NotesApp.RemoveMissingNoteKeepsList | Users/91729/Desktop/Notes_Latex/client/src/App.js:60 | deleting an id that no note has keeps the list |
| NotesApp.NotesApp.constructor | Users/91729/Desktop/Notes_Latex/client/src/App.js:9-12 | no notes, no selection, nothing being edited, light mode |
| NotesApp.NotesApp.LoadNotes | Users/91729/Desktop/Notes_Latex/client/src/App.js:15-17 | the fetched list replaces the notes; a failure keeps them |
| NotesApp.NotesApp.HandleSelectNote | Users/91729/Desktop/Notes_Latex/client/src/App.js:25-29 | the id is selected; the note being edited is the first listed note with that id, and absent exactly when there is none |
| NotesApp.NotesApp.HandleChange | Users/91729/Desktop/Notes_Latex/client/src/App.js:32-34 | the edited note becomes the given one and nothing else changes |
| NotesApp.NotesApp.HandleSave | Users/91729/Desktop/Notes_Latex/client/src/App.js:37-45 | refused, with nothing sent, exactly when nothing is being edited or the title or content is blank; otherwise the note being edited is sent, and a successful save replaces the note in the list |
| NotesApp.NotesApp.HandleNewNote | Users/91729/Desktop/Notes_Latex/client/src/App.js:48-55 | the "Untitled" draft is sent; the created note goes first in the list, selected and being edited |
| NotesApp.NotesApp.HandleDeleteNote | Users/91729/Desktop/Notes_Latex/client/src/App.js:58-66 | a successful delete removes the note and clears the selection when it was selected; a failure changes nothing |
| NotesApp.NotesApp.ToggleDarkMode | Users/91729/Desktop/Notes_Latex/client/src/App.js:71 | dark mode flips and nothing else changes |
| NotesApp.NewNoteThenSave | Users/91729/Desktop/Notes_Latex/client/src/App.js:37-55 | saving a just-created note without editing it is refused and sends nothing |
| NoteEditor.SpliceShape | Users/91729/Desktop/Notes_Latex/client/src/components/NoteEditor.js:15-19 | the new content is the text before the selection, then the inserted LaTeX, then the text after the selection |
| NoteEditor.Splice | Users/91729/Desktop/Notes_Latex/client/src/components/NoteEditor.js:15-19 | for a selection inside the content, the text before the selection, then the LaTeX, then the text after the selection |
| NoteEditor.SpliceUndo | Users/91729/Desktop/Notes_Latex/client/src/components/NoteEditor.js:15-19 | deleting what was just inserted at a caret restores the content |
| NoteEditor.ScreenFor | Users/91729/Desktop/Notes_Latex/client/src/components/NoteEditor.js:9 | the placeholder shows exactly when no note is open; otherwise there is one preview row per line |
| NoteEditor.HandleInsertLatex | Users/91729/Desktop/Notes_Latex/client/src/components/NoteEditor.js:12-26 | without a textarea nothing happens; otherwise the selection is replaced by the LaTeX and the caret moves to just after it |
| NoteEditor.InsertThenCursor | Users/91729/Desktop/Notes_Latex/client/src/components/NoteEditor.js:12-26 | after an insertion, the text between the old selection start and the new caret is exactly the LaTeX |
| NoteEditor.ParseLine | Users/91729/Desktop/Notes_Latex/client/src/components/NoteEditor.js:54-65 | a line without ':' is shown as text; otherwise the label runs up to and including the first ':', and the math is the trimmed rest |
| NoteEditor.Preview | Users/91729/Desktop/Notes_Latex/client/src/components/NoteEditor.js:53-66 | one row per line, each row parsed from its line |
| NoteEditor.PreviewRowCount | Users/91729/Desktop/Notes_Latex/client/src/components/NoteEditor.js:53 | the preview has one more row than the content has newlines |
| NoteEditor.LabelRestoresLine | Users/91729/Desktop/Notes_Latex/client/src/components/NoteEditor.js:56-57 | the label followed by the untrimmed rest is the original line |

## Left out

- Network I/O is outside the model: `fetch`, `axios` and `response.json()` are replaced by their settled outcomes. The browser's `localStorage` is the token field.
- Concurrency is outside the model. The promises shared between joined requests are not modelled, nor are interleavings between an awaited call and later user input. A request settling is a separate `Settle` step.
- Browser and platform services are outside the model: Google Maps rendering and its loader, the geolocation API, `FileReader`, `URL.createObjectURL`, `alert`, `setTimeout` and `console`. Their results are parameters.
- The map camera is outside the model. This covers the centre computed from the reports' average coordinates, the `fitBounds` padding, the re-centring at zoom 20 (`GoogleMap.tsx:98-104`) and the "my location" button. All of these are floating-point view state.
- The marker loop of `GoogleMap.tsx` is outside the model. Its per-marker colour, icon and info-window content are modelled as functions.
- KaTeX rendering of the preview is outside the model; the preview is modelled as its rows.
- Floating-point formatting is outside the model: `toFixed` addresses, the one-decimal "k" figure, and the milestone progress percentage. Coordinates are carried as `real` without arithmetic.
- Timestamps are integer milliseconds. Parsing date strings is outside the model, and so is an empty `completedAt` string, which the code treats as falsy.
- Text.ToLower: only the ASCII letters A-Z are lower-cased; JavaScript's full Unicode case mapping is not modelled.
- FeedContext.FeedStats: every figure is an integer, so a fractional `verificationRate` is not represented.
- Profile.WithField: the field name is one of the four form fields; an unknown input name, which the code would add as a new key, is not modelled.
- VerificationUpload.VerificationForm.constructor: an absent `reportImages` prop is modelled as the empty list.
- ReportWaste.ReportForm: the setters of the type, severity, description and contact fields are plain assignments and are not modelled; `isGettingLocation` is not modelled.
- Status transitions are not constrained: the server decides which status a report may move to, and the client accepts any answer.
- Strings are sequences of Unicode scalar values. JavaScript's `length`, `slice`, `indexOf` and the textarea's `selectionStart` and `selectionEnd` count UTF-16 code units, so for note content with characters outside the Basic Multilingual Plane the positions in `NoteEditor.Splice` and the caret `start + |latex|` are counted differently from `NoteEditor.js:15-24`; a lone surrogate cannot be represented at all.
- Out of scope: `LocationPicker.tsx`, `CleanupVerificationModal.tsx`, `EquationToolbar.js`, `NotesList.js` and the other purely presentational files.
