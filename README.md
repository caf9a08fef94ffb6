# FlareCast admin console — a Dafny model of its core logic

FlareCast's admin console is a Next.js application. Most of it renders tables, forms and
charts. This project models the sequential logic underneath, in Dafny, and proves what the
console promises about it:

- **Dashboard aggregator** (`useDashboardSocket`): a pure state machine driven by socket
  events.
  - The five video mappings are insertion-ordered association lists, refreshed by
    remove-then-insert. Enumeration follows ECMAScript's own-property order: array-index
    keys come first, in ascending order.
  - Each subscription update is prepended and the list is cut to its first five; a list
    that arrives with initial data is taken at any length. A separate counter counts the
    "active" updates.
  - Initial-data payloads are shallow-merged into the state.
- **Dashboard readers**: the status breakdown of `ClientDashboard`, an imperative loop
  proved equal to a specification function, and the four case-sensitive counts of
  `DashboardStats`.
- **Token-refresh coordinator** of the axios instance: a pure step function over explicit
  events, plus a class with the module's `isRefreshing` flag and subscriber queue, proved
  equal to the step function.
- **Session slice and thunks**: the redux slice is a class with an in-place reducer. Each
  thunk is the fixed sequence of dispatches it makes. The server's answer is a parameter.
- **Socket hook**: the connection key, the cookie parsing of the access token, the connect
  guard, the `isConnected`/`socketError` lifecycle cells, and `emitEvent`/`onEvent`, which
  do nothing without a socket.
- **Password rules**: the required rule, the minimum-length rule and the composition regular
  expression, as predicates over strings.
- **Admin pages** (subscription plans, users, the promotional-video CMS page, its save
  action, and the grid, card and modal components): classes holding each page's state
  cells.
  - Each handler is a method that returns the request it would send and the notice it would
    show.
  - Each handler takes the server's answer as a parameter.

Requests are values (`Request`, `PlansQuery`, `UsersQuery`, `VideosQuery`), and so are
notices (`Toast`). No network, timer, router or socket is touched. Strings are `seq<char>`,
and numbers are unbounded integers.

## Model

| member | source | states |
|---|---|---|
| DashboardState.RemoveVideoFromCategory | src/hooks/useDashboardSocket.ts:12-21 | the result has no entry for the id; every other key keeps its value; the result is the record without that key; distinct keys stay distinct and the size drops by one exactly when the key was present |
| DashboardState.RemoveSpec | src/hooks/useDashboardSocket.ts:12-21 | removing an absent key returns the record unchanged; otherwise only that key disappears, and uniqueness and size behave as above |
| DashboardState.LookupWithout | src/hooks/useDashboardSocket.ts:17 | looking up in the record without `k` finds nothing at `k` and the old value everywhere else |
| DashboardState.WithoutAbsent | src/hooks/useDashboardSocket.ts:16-20 | without the key present, destructuring it away changes nothing |
| DashboardState.WithoutUnique | src/hooks/useDashboardSocket.ts:17 | dropping a key keeps keys distinct and shrinks the record by one exactly when the key was there |
| DashboardState.LookupAppend | src/hooks/useDashboardSocket.ts:84-87 | a record extended at the end answers an earlier key from its earlier entry, and the new key from the new entry |
| DashboardState.UniqueAppend | src/hooks/useDashboardSocket.ts:84-87 | appending a key that is absent keeps keys distinct |
| DashboardState.Upsert | src/hooks/useDashboardSocket.ts:84-87 | after a video event the id maps to the event; every other key keeps its entry; the new entry is last in creation order; keys stay distinct; the size grows by one exactly when the id was absent |
| DashboardState.UpsertSpec | src/hooks/useDashboardSocket.ts:84-87 | appending an entry after removing its key: the key maps to the new value, others unchanged, uniqueness kept |
| DashboardState.InsertByKeyNumber | src/hooks/useDashboardSocket.ts:84-87 | insertion into the numerically ordered array-index keys is a permutation that stays sorted |
| DashboardState.SortByKeyNumber | src/hooks/useDashboardSocket.ts:84-87 | the array-index keys in ascending numeric order: a sorted permutation of them |
| DashboardState.Enumerate | src/hooks/useDashboardSocket.ts:84-87 | the own-property enumeration order is a permutation of the record's entries |
| DashboardState.Values | src/components/global/dashboard/DashboardStats.tsx:9 | `Object.values` has one value per entry |
| DashboardState.ValuesSingleton | src/components/global/dashboard/ClientDashboard.tsx:32 | a one-entry record enumerates its one value |
| DashboardState.UpsertEnumeratesLast | src/hooks/useDashboardSocket.ts:84-87 | when the id is not an array index, the updated video is the last value enumerated |
| DashboardState.ValuesOfAppendNonIndex | src/hooks/useDashboardSocket.ts:84-87 | an appended entry whose key is not an array index supplies the last value |
| DashboardState.EnumerateAppendNonIndex | src/hooks/useDashboardSocket.ts:84-87 | an appended entry whose key is not an array index is enumerated after all others, which keep their order |
| DashboardState.ArrayIndexIdEnumeratesFirst | src/hooks/useDashboardSocket.ts:84-87 | an id that is an array index is not moved to the end: with `"b"` present, an event for `"1"` is enumerated first |
| DashboardState.IndexIdEnumeratesBeforeNamedIds | src/hooks/useDashboardSocket.ts:84-87 | in a record with no array-index keys, an event for any array-index id is enumerated first and the other values follow in their old order |
| DashboardState.InitialValid | src/hooks/useDashboardSocket.ts:24-35 | the initial state has all counters at 0, all five mappings empty and no subscriptions, and satisfies the state invariant |
| DashboardState.OnVideoInitialData | src/hooks/useDashboardSocket.ts:55-60 | the state is merged with the payload overlaid by `statusCount`, so every `statusCount` field wins over a `data` field |
| DashboardState.OnUserInitialData | src/hooks/useDashboardSocket.ts:62-68 | every field the payload has is taken from it; an empty payload leaves the state unchanged |
| DashboardState.OnActiveUsersCount | src/hooks/useDashboardSocket.ts:70-72 | only `activeUsers` changes, and it becomes the count |
| DashboardState.OnNewUserSignup | src/hooks/useDashboardSocket.ts:74-79 | only `newSignups` changes, and it becomes the payload's value |
| DashboardState.OnVideoEvent | src/hooks/useDashboardSocket.ts:81-129 | the category's mapping maps the id to the event; every other key is unchanged; the other four mappings and all counters are unchanged; the invariant is kept |
| DashboardState.WithVideosSpec | src/hooks/useDashboardSocket.ts:81-129 | replacing one category's mapping leaves the other four alone, can be undone, and keeps the invariant |
| DashboardState.OnSubscriptionUpdate | src/hooks/useDashboardSocket.ts:131-141 | the list has length min(5, old + 1), the update at its head and the older updates after it in order; the counter rises by one exactly when the status is exactly "active"; nothing else changes |
| DashboardState.MergeValid | src/hooks/useDashboardSocket.ts:58 | merging a payload whose JSON objects have one property per name keeps the invariant; the subscription list may be of any length |
| DashboardState.ApplyValid | src/hooks/useDashboardSocket.ts:55-150 | every event keeps the invariant of one entry per id in each mapping |
| DashboardState.RunValid | src/hooks/useDashboardSocket.ts:55-150 | every sequence of events keeps the invariant |
| DashboardState.ApplyNonMerge | src/hooks/useDashboardSocket.ts:70-150 | what one event other than initial data does to a mapping, to the list and to the counter |
| DashboardState.LatestEventWins | src/hooks/useDashboardSocket.ts:81-129 | without initial-data events, each mapping maps every id to the latest event for it, or to its old entry when there was none; keys stay distinct |
| DashboardState.TakeOfTake | src/hooks/useDashboardSocket.ts:134 | prepending to a list already cut to five and cutting again is cutting the whole once |
| DashboardState.NoMergeTail | src/hooks/useDashboardSocket.ts:55-150 | a run without initial-data events stays so when its first event is dropped |
| DashboardState.SubscriptionHistory | src/hooks/useDashboardSocket.ts:131-135 | without initial-data events, the list is the first five of the updates newest first followed by the old list, or the old list of any length when there were no updates |
| DashboardState.ActiveCountHistory | src/hooks/useDashboardSocket.ts:136-141 | without initial-data events, the counter rises by the number of "active" updates and never falls |
| DashboardState.RegisteredHandlersRepeat | src/hooks/useDashboardSocket.ts:50-151 | as written: with `k` registrations of the handlers, one "active" update raises the counter by `k` and fills the list's head with up to five copies of itself |
| DashboardState.DoubleRegistrationCountsTwice | src/hooks/useDashboardSocket.ts:131-141 | as written: two registrations count one "active" update twice, where one registration counts it once |
| DashboardState.ErrorsChangeNothing | src/hooks/useDashboardSocket.ts:144-150 | error events leave the state as it was |
| DashboardState.ReplaceScenario | src/hooks/useDashboardSocket.ts:81-89 | a second transcode event for a video replaces its entry rather than adding one |
| DashboardState.SubscriptionCapScenario | src/hooks/useDashboardSocket.ts:131-135 | six updates on an empty list leave the last five, newest first |
| DashboardState.SixUpdatesNewestFirst | src/hooks/useDashboardSocket.ts:134 | six updates gathered newest first, in reverse arrival order |
| ClientDashboard.Push | src/components/global/dashboard/ClientDashboard.tsx:33-43 | one video goes to the bucket its upper-cased status names, or to none |
| ClientDashboard.SeparateValues | src/components/global/dashboard/ClientDashboard.tsx:28-46 | the `forEach` loop builds exactly the specification breakdown of the values |
| ClientDashboard.SeparateByStatus | src/components/global/dashboard/ClientDashboard.tsx:25-47 | the result is the breakdown of `Object.values(videos)`; the input is not modified |
| ClientDashboard.BreakdownSnoc | src/components/global/dashboard/ClientDashboard.tsx:32-44 | one more video appends to the buckets its status names and leaves the others alone |
| ClientDashboard.BucketsExclusive | src/components/global/dashboard/ClientDashboard.tsx:33-43 | no status names two buckets |
| ClientDashboard.BucketMembership | src/components/global/dashboard/ClientDashboard.tsx:32-44 | a value of the mapping is in a bucket exactly when its upper-cased status names it, and in at most one |
| ClientDashboard.BreakdownSizes | src/components/global/dashboard/ClientDashboard.tsx:32-44 | the buckets hold at most as many videos as the mapping has, and exactly as many when every status is valid |
| ClientDashboard.CaseInsensitive | src/components/global/dashboard/ClientDashboard.tsx:33 | two statuses that differ only in letter case land in the same bucket |
| ClientDashboard.Render | src/components/global/dashboard/ClientDashboard.tsx:56-67 | the skeleton is shown exactly when either socket is not connected; otherwise the stats are those of the state |
| ClientDashboard.CountsWithinBuckets | src/components/global/dashboard/DashboardStats.tsx:9-14 | every video a stats count includes is in the matching bucket |
| ClientDashboard.CountIsCaseSensitive | src/components/global/dashboard/DashboardStats.tsx:9-11 | a video reported as "Processing" is in the breakdown's processing bucket but not in the transcoding count |
| DashboardStats.CountValues | src/components/global/dashboard/DashboardStats.tsx:9-20 | a count is at most the size of its mapping |
| DashboardStats.StatsOf | src/components/global/dashboard/DashboardStats.tsx:9-41 | each of the four counts is bounded by its mapping's size; the user counters are those of the state |
| DashboardStats.CountInCreationOrder | src/components/global/dashboard/DashboardStats.tsx:9-20 | a count does not depend on enumeration order: it equals the count over entries in creation order |
| DashboardStats.FilterMonotone | src/components/global/dashboard/DashboardStats.tsx:9-20 | a filter by a stronger predicate keeps no more elements |
| DashboardStats.TotalVideosFromPayload | src/components/global/dashboard/DashboardStats.tsx:41 | Total Videos is `totalVideos[0].total` after a payload brings it, and undefined in the initial state |
| RefreshCoordinator.IdleValid | src/lib/axios/index.ts:15-16 | the coordinator starts idle, not refreshing, with an empty queue |
| RefreshCoordinator.StepValid | src/lib/axios/index.ts:30-77 | each event keeps the invariant: queue and awaited request only while refreshing |
| RefreshCoordinator.RunValid | src/lib/axios/index.ts:30-77 | every event sequence keeps the invariant |
| RefreshCoordinator.IssueOnlyWhenIdle | src/lib/axios/index.ts:36-52 | a refresh is issued only by a 401 on a request not yet retried, only when idle, and the step leaves a refresh in flight |
| RefreshCoordinator.NoSecondRefresh | src/lib/axios/index.ts:36-48 | while a refresh is in flight and no outcome arrives, no second refresh is issued |
| RefreshCoordinator.QueueInArrivalOrder | src/lib/axios/index.ts:19-44 | while refreshing, every recoverable 401 is queued in arrival order and nothing else is |
| RefreshCoordinator.RefreshOkDrains | src/lib/axios/index.ts:24-61 | on success every queued request is re-sent once, in queue order, then the original; the coordinator is idle again |
| RefreshCoordinator.RefreshFailDropsQueue | src/lib/axios/index.ts:62-71 | on failure the queue is dropped without re-sending; the refresh error is returned; the client redirects to /signin exactly when the path is neither /signin nor /signup |
| RefreshCoordinator.PassThroughUnchanged | src/lib/axios/index.ts:31-76 | successes pass through, and non-401 errors and 401s on retried requests are rejected unchanged, with no state change |
| RefreshCoordinator.QueuedResendCanRefreshAgain | src/lib/axios/index.ts:39-47 | a queued request is re-sent without `_retry`, so a later 401 on it can start a new refresh |
| RefreshCoordinator.RunCons | src/lib/axios/index.ts:30-77 | running a sequence is one step followed by the rest |
| RefreshCoordinator.TwoRequestsOneRefresh | src/lib/axios/index.ts:36-61 | two concurrent 401s cause one refresh, and both requests are re-sent |
| RefreshCoordinator.RefreshFailsScenario | src/lib/axios/index.ts:47-71 | a failed refresh after one 401 rejects with the refresh error and redirects exactly when off the auth pages |
| RefreshCoordinator.Interceptor.constructor | src/lib/axios/index.ts:15-16 | the module state starts idle |
| RefreshCoordinator.Interceptor.OnResponse | src/lib/axios/index.ts:31 | a success passes through and the state is unchanged, as the step function says |
| RefreshCoordinator.Interceptor.OnResponseError | src/lib/axios/index.ts:32-76 | the flags, the queue and `_retry` change exactly as the step function says, with the same effects |
| RefreshCoordinator.Interceptor.OnRefreshOk | src/lib/axios/index.ts:57-61 | the queue is drained in order and cleared, as the step function says |
| RefreshCoordinator.Interceptor.OnRefreshFailed | src/lib/axios/index.ts:62-71 | the queue is cleared without running, as the step function says |
| UserSlice.MergeUser | src/redux/slices/user.ts:40-45 | the payload's keys override, every other key of the old user is kept, and no key is invented |
| UserSlice.ReduceAllSnoc | src/redux/slices/user.ts:12-55 | reducing a sequence with one more action is one more reduction |
| UserSlice.ReduceAllConcat | src/redux/slices/user.ts:12-55 | reducing two sequences in turn is reducing their concatenation |
| UserSlice.ReducerEffects | src/redux/slices/user.ts:16-53 | what each reducer sets and what it leaves unchanged: login, loginRequest, loginFailure, logout, updateUser, setLoading, clearError |
| UserSlice.ReduceIdempotent | src/redux/slices/user.ts:16-53 | applying any reducer twice with the same action is applying it once |
| UserSlice.Store.constructor | src/redux/slices/user.ts:5-10 | the store starts with no user, not authenticated, loading, no error |
| UserSlice.Store.Dispatch | src/redux/slices/user.ts:12-55 | the in-place reducer leaves the state the pure reducer gives, and records the action |
| AdminActions.SignInEffect | src/actions/adminActions.ts:26-42 | success signs in `response.data.admin`; a failure, or a `null` body whose property read throws, stores the server's message or "Sign-in failed" and leaves the session alone; loading ends false |
| AdminActions.GoogleSignInEffect | src/actions/adminActions.ts:44-59 | success signs in the whole response body; failure defaults to "Google sign-in failed" |
| AdminActions.RefreshTokenEffect | src/actions/adminActions.ts:61-76 | loading is set first and cleared last on both paths; the session is untouched; success clears the error; a failure, or a `null` body read after `clearError`, records the message |
| AdminActions.LogoutEffect | src/actions/adminActions.ts:78-91 | success ends signed out with loading false; failure keeps the user and stores the error, defaulting to "Logout failed" |
| AdminActions.ProfileEffect | src/actions/adminActions.ts:94-109 | success signs in the `admin` member; a failure or a `null` body records the server's message or "Failed to fetch profile" |
| AdminActions.AdminSignIn | src/actions/adminActions.ts:26-42 | dispatches exactly the sign-in sequence and returns success, or the same message it dispatched; a `null` body takes the failure path |
| AdminActions.AdminGoogleSignIn | src/actions/adminActions.ts:44-59 | dispatches exactly the Google sign-in sequence and returns its outcome |
| AdminActions.AdminRefreshToken | src/actions/adminActions.ts:61-76 | dispatches the refresh sequence; success returns the response's `accessToken`; a `null` body fails with "Token refresh failed" |
| AdminActions.AdminLogout | src/actions/adminActions.ts:78-91 | dispatches the logout sequence and returns its outcome |
| AdminActions.FetchAdminProfile | src/actions/adminActions.ts:94-109 | dispatches the profile sequence; success returns the `admin` member; a `null` body fails with "Failed to fetch profile" |
| UseSocket.SocketKey | src/hooks/useSocket.tsx:5 | the key is the URL followed by the path |
| UseSocket.TokenCookieSplits | src/hooks/useSocket.tsx:15 | splitting a token cookie on `=` gives at least two pieces, the second being the text between the first and second `=` |
| UseSocket.AccessTokenSpec | src/hooks/useSocket.tsx:10-16 | there is a token exactly when some cookie starts with `accessToken=`, and it comes from the first such cookie |
| UseSocket.CookieNameMustBeExact | src/hooks/useSocket.tsx:12-14 | a cookie matches exactly when its name before the first `=` is `accessToken`; a name that contains or extends it does not |
| UseSocket.SingleTokenCookie | src/hooks/useSocket.tsx:10-16 | a lone `accessToken=<value>` cookie yields the value |
| UseSocket.ConnectDecision | src/hooks/useSocket.tsx:19-29 | no connection without a URL or with a missing or empty token; otherwise a connection with that URL, path and token |
| UseSocket.RunLifecycleSnoc | src/hooks/useSocket.tsx:31-46 | running one more lifecycle event is one more step |
| UseSocket.LifecycleSpec | src/hooks/useSocket.tsx:31-46 | connected exactly when the last event was `connect`; the error is that of the last connect error since the last connect; connected implies no error |
| UseSocket.ConnectionCells.constructor | src/hooks/useSocket.tsx:6-7 | not connected, no error |
| UseSocket.ConnectionCells.OnConnect | src/hooks/useSocket.tsx:31-35 | connected, error cleared |
| UseSocket.ConnectionCells.OnConnectError | src/hooks/useSocket.tsx:37-41 | not connected, error set to the message |
| UseSocket.ConnectionCells.OnDisconnect | src/hooks/useSocket.tsx:43-46 | not connected, error left as it was |
| UseSocket.RemoveFirstAppended | src/hooks/useSocket.tsx:63-67 | removing the first occurrence of a just-appended listener restores the registrations up to order |
| UseSocket.EmitEvent | src/hooks/useSocket.tsx:53-58 | emits once when a socket exists, and does nothing otherwise |
| UseSocket.OnEvent | src/hooks/useSocket.tsx:60-64 | registers the callback once when a socket exists, and does nothing otherwise |
| UseSocket.Unsubscribe | src/hooks/useSocket.tsx:65-69 | removes one registration of the callback when a socket exists |
| UseSocket.SubscribeThenUnsubscribe | src/hooks/useSocket.tsx:60-70 | subscribing and then calling the returned unsubscriber leaves the same registrations |
| PasswordRules.ErrorsOfRules | src/lib/passwordRules.ts:1-9 | the messages a value gets, rule by rule, in order |
| PasswordRules.EmptyRejected | src/lib/passwordRules.ts:2 | an empty or missing password gets only the required message and is rejected |
| PasswordRules.ShortRejected | src/lib/passwordRules.ts:3-5 | a non-empty password shorter than 6 gets the length and pattern messages |
| PasswordRules.LookaheadOfAllowed | src/lib/passwordRules.ts:5 | over the allowed alphabet, a `(?=.*[...])` lookahead holds exactly when some character is in the class |
| PasswordRules.AcceptedIff | src/lib/passwordRules.ts:1-9 | accepted exactly when at least 6 characters, all allowed, with a lower-case letter, an upper-case letter, a digit and one of `@$!%*?&#^_.` |
| PasswordRules.DisallowedRejected | src/lib/passwordRules.ts:5 | any character outside the allowed set causes rejection |
| PasswordRules.HasPermutation | src/lib/passwordRules.ts:5 | containing a class is preserved by permutation |
| PasswordRules.AllowedPermutation | src/lib/passwordRules.ts:5 | being over the allowed alphabet is preserved by permutation |
| PasswordRules.PermutationInvariant | src/lib/passwordRules.ts:5 | acceptance does not change when the characters are permuted |
| PasswordRules.SampleAccepted | src/lib/passwordRules.ts:5 | "Abcde1!" is accepted |
| Paging.PageOfIndex | src/components/global/cms/VideoGrid.tsx:70 | with a positive size each record index is on exactly one page |
| SubscriptionPage.QueryFor | src/components/global/subscription/index.tsx:61-67 | limit is the page size; `status` is always sent, "all" included; page 1 skips nothing |
| SubscriptionPage.QueriesTile | src/components/global/subscription/index.tsx:61-65 | consecutive pages ask for consecutive slices |
| SubscriptionPage.NormalizedSpec | src/components/global/subscription/index.tsx:84-88 | a free plan gets price 0 and loses interval and period; a paid plan is untouched; no other field changes |
| SubscriptionPage.NormalizedIdempotent | src/components/global/subscription/index.tsx:84-88 | normalising twice is normalising once |
| SubscriptionPage.PlansPage.constructor | src/components/global/subscription/index.tsx:47-56 | page 1, page size 9, filter "all", no plans, total 0 |
| SubscriptionPage.PlansPage.FetchPlans | src/components/global/subscription/index.tsx:58-77 | asks for the current page under the filter; success takes the plans and total, each defaulting when missing; failure keeps both and shows `error.message` or the fallback |
| SubscriptionPage.PlansPage.AddOrUpdatePlan | src/components/global/subscription/index.tsx:79-107 | sends the normalised values; an edit replaces by id and keeps the total; a create refetches instead of inserting; success closes the modal; failure changes nothing but the notice |
| SubscriptionPage.PlansPage.SettleSave | src/components/global/subscription/index.tsx:89-103 | the effect of the save call's outcome, as above |
| SubscriptionPage.PlansPage.ToggleActive | src/components/global/subscription/index.tsx:109-126 | replaces only the plan whose id is the returned one's; the notice names the new state; failure keeps the list |
| SubscriptionPage.PlansPage.PageChange | src/components/global/subscription/index.tsx:128-134 | sets the page; a given non-zero size that differs from the current one replaces it and resets the page to 1 |
| SubscriptionPage.PlansPage.StatusFilterChange | src/components/global/subscription/index.tsx:136-139 | sets the filter and goes back to page 1 |
| SubscriptionPage.PlansPage.ShowModal | src/components/global/subscription/index.tsx:145-165 | the form opens on the plan or on the new-plan defaults |
| UsersPage.QueryFor | src/components/global/users/index.tsx:56-61 | `q` is sent exactly when the search is non-empty, and `includeBanned: "true"` exactly when the switch is on |
| UsersPage.SetBannedSpec | src/components/global/users/index.tsx:93-97 | only the matching user's flag changes; length, order and ids are kept |
| UsersPage.BanFlipsRow | src/components/global/users/index.tsx:84-97 | confirming on a row flips that row's flag and leaves every other row alone |
| UsersPage.BanThenUnban | src/components/global/users/index.tsx:84-97 | banning and then unbanning gives the list back |
| UsersPage.EmailFilterIgnoresCase | src/components/global/users/index.tsx:193-194 | the e-mail filter ignores the case of both the typed value and the address |
| UsersPage.EmailFilterTrivial | src/components/global/users/index.tsx:193-194 | an empty value keeps every user, and every user is kept by its own address |
| UsersPage.StatusFilterPartition | src/components/global/users/index.tsx:228-229 | "banned" and any other value split each page between them |
| UsersPage.UsersListPage.constructor | src/components/global/users/index.tsx:36-46 | current 1, page size 10, total 0, empty search, switch off |
| UsersPage.UsersListPage.FetchUsers | src/components/global/users/index.tsx:50-81 | sends the query for the page; success takes the users, the server's current page, the requested size and the server's total; failure changes nothing |
| UsersPage.UsersListPage.BanUser | src/components/global/users/index.tsx:84-103 | sends the opposite flag; once the call succeeds, the matching user's flag is flipped |
| UsersPage.UsersListPage.TableChange | src/components/global/users/index.tsx:120-126 | current and page size are replaced and the total is kept |
| UsersPage.UsersListPage.Search | src/components/global/users/index.tsx:129-132 | sets the query and resets current to 1 |
| UsersPage.UsersListPage.SetIncludeBanned | src/components/global/users/index.tsx:266-268 | sets the switch, nothing else |
| PromoVideos.OrNull | src/components/global/cms/index.tsx:118-119 | an empty or missing text becomes null; any other is kept |
| PromoVideos.PlayerUrlsSpec | src/components/global/cms/index.tsx:192-198 | only the two addresses change; both are derived from `videoId`; clicking twice gives the same video |
| PromoVideos.S3KeySpec | src/components/global/cms/index.tsx:102 | the key is `<videoId>/original.<ext>` with `ext` a dot-free suffix; a name without a dot is used whole |
| PromoVideos.S3KeyAfterLastDot | src/actions/cmsActions.ts:23 | whatever comes before the last dot, the key takes the extension after it |
| CmsPage.PayloadSpec | src/components/global/cms/index.tsx:112-122 | empty title and description become null; missing dates become null; `s3Key` is sent exactly when creating |
| CmsPage.EditFormRoundTrip | src/components/global/cms/index.tsx:112-122 | saving an unchanged edit form sends back the video's own fields, with no key |
| CmsPage.SaveCallsSpec | src/components/global/cms/index.tsx:81-140 | the save request is sent, last, exactly when no earlier step failed; a create without a file sends nothing; an edit is one PUT with the video's own `videoId` and no key; a create carries the upload key |
| CmsPage.VideosPage.constructor | src/components/global/cms/index.tsx:50-63 | no videos, both modals closed, nothing selected or edited, no file |
| CmsPage.VideosPage.FetchVideos | src/components/global/cms/index.tsx:65-79 | success takes the list; failure keeps it and shows the server error or the fallback |
| CmsPage.VideosPage.Prepare | src/components/global/cms/index.tsx:85-110 | the requests before the save, and the first failure: "Please upload a video file" when creating without a file, then the signed-address and upload errors |
| CmsPage.VideosPage.AddOrUpdateVideo | src/components/global/cms/index.tsx:81-155 | the requests are the specification sequence; an early failure or a failed save changes nothing but the notice; success replaces by id when editing or appends when creating, then closes the modal and clears the file |
| CmsPage.VideosPage.Settle | src/components/global/cms/index.tsx:124-151 | the effect of the save call's outcome, as above |
| CmsPage.VideosPage.ToggleHidden | src/components/global/cms/index.tsx:157-175 | sends `hidden: !hidden` and replaces the returned video by id; the notice names the old state; failure keeps the list |
| CmsPage.VideosPage.DeleteVideo | src/components/global/cms/index.tsx:177-190 | sends the delete and drops every video with the id; failure keeps the list |
| CmsPage.VideosPage.ThumbnailClick | src/components/global/cms/index.tsx:192-198 | the player opens on the video with its addresses filled in |
| CmsPage.VideosPage.ClosePlayer | src/components/global/cms/index.tsx:367-371 | the player hides; the selected video and every other field stay as they were |
| CmsPage.VideosPage.ShowModal | src/components/global/cms/index.tsx:200-220 | the form opens on the video, or on PROMOTIONAL, hidden, priority 0, no dates and empty texts |
| CmsActions.GetAfterAppend | src/actions/cmsActions.ts:6-7 | an append changes what `get` returns only for a name that was not there yet |
| CmsActions.BasePayloadSpec | src/actions/cmsActions.ts:33-42 | `hidden` holds exactly when the field is exactly "true"; priority is the base-10 parse of the field; empty texts and dates become null |
| CmsActions.UploadPathSpec | src/actions/cmsActions.ts:11-31 | the upload path is taken exactly when there is no id and a file is given, and at most three requests are sent |
| CmsActions.SaveRequestSpec | src/actions/cmsActions.ts:44-57 | on every path, a key is sent exactly when there is no id; an id gives a PUT to its address and no id a POST |
| CmsActions.UploadedCreateSpec | src/actions/cmsActions.ts:13-44 | a create after an upload carries the new `videoId` and the key `<videoId>/original.<ext>` |
| CmsActions.SaveOutcomeSpec | src/actions/cmsActions.ts:59-68 | success exactly when the save request was answered, with `response.data.data`; otherwise the server error, the message or the fallback |
| CmsActions.UploadVideo | src/actions/cmsActions.ts:11-27 | the upload leg asks for a signed address and then uploads there, stopping at the first failure with its message |
| CmsActions.AddOrUpdateVideo | src/actions/cmsActions.ts:4-69 | the requests and the result are those of the specification functions above |
| VideoModal.GetConcat | src/components/global/cms/VideoModal.tsx:48-59 | `get` on two forms one after the other reads the first one when it has the name |
| VideoModal.GetOptional | src/components/global/cms/VideoModal.tsx:54-59 | an optional entry is found by its name exactly when it was appended |
| VideoModal.GetCons | src/components/global/cms/VideoModal.tsx:49-53 | `get` on an entry followed by others |
| VideoModal.GetFixed | src/components/global/cms/VideoModal.tsx:49-53 | the five fixed entries hold category, hidden, priority, title and description, texts defaulting to "" |
| VideoModal.FormFixedField | src/components/global/cms/VideoModal.tsx:49-59 | a fixed field is read from the fixed entries whatever follows them |
| VideoModal.FormOptionalField | src/components/global/cms/VideoModal.tsx:54-59 | dates appear only when set, the file only when picked, the id only when editing |
| VideoModal.FormReadsPriorityAndFlag | src/components/global/cms/VideoModal.tsx:50-51 | the save action reads back the entered priority and `hidden` exactly when the flag was set |
| VideoModal.FormReadBack | src/components/global/cms/VideoModal.tsx:49-59 | the save action reads back the title and description, the dates, the file and the id it was given |
| VideoModal.CreateKeepsCountInStep | src/components/global/cms/VideoModal.tsx:68-71 | a create with a new id keeps ids distinct and the total in step with the list |
| VideoModal.FormData.constructor | src/components/global/cms/VideoModal.tsx:48 | the form data start empty |
| VideoModal.FormData.Append | src/components/global/cms/VideoModal.tsx:49-59 | one entry is added at the end |
| VideoModal.BuildForm | src/components/global/cms/VideoModal.tsx:48-59 | the successive appends build exactly the specification entries |
| VideoModal.Modal.constructor | src/components/global/cms/VideoModal.tsx:41-42 | no file, not loading |
| VideoModal.Modal.PickFile | src/components/global/cms/VideoModal.tsx:200-203 | the picked file replaces any earlier one |
| VideoModal.Modal.RemoveFile | src/components/global/cms/VideoModal.tsx:204 | the file list empties |
| VideoModal.Modal.Settle | src/components/global/cms/VideoModal.tsx:62-78 | an edit replaces by id and keeps the total; a create appends and adds one to the total; success closes the modal and clears the file; failure changes neither list nor total |
| VideoModal.Modal.HandleSubmit | src/components/global/cms/VideoModal.tsx:45-84 | a missing priority throws before any request; otherwise the form and the requests are the specification ones, success is applied as above, and a failure shows the save outcome's error or the fallback |
| VideoCard.AvatarInitial | src/components/global/cms/VideoCard.tsx:102 | the first character of `createdBy`, or "A" |
| VideoCard.DisplayTitle | src/components/global/cms/VideoCard.tsx:116 | the title, or "Untitled" when it is missing or empty |
| VideoCard.DeleteKeepsCountInStep | src/components/global/cms/VideoCard.tsx:64-66 | with distinct ids, a delete removes one video and one from the total, keeping them in step |
| VideoCard.ToggleKeepsList | src/components/global/cms/VideoCard.tsx:49-51 | a toggle answered with a listed video keeps the length, the ids and uniqueness, and puts the reply in the list |
| VideoCard.ThumbnailClick | src/components/global/cms/VideoCard.tsx:31-39 | the player opens on the video with addresses derived from its `videoId` |
| VideoCard.Edit | src/components/global/cms/VideoCard.tsx:146-149 | the modal opens on this video |
| VideoCard.ToggleHidden | src/components/global/cms/VideoCard.tsx:41-60 | sends `hidden: !video.hidden` and replaces the returned video by id; failure keeps the list |
| VideoCard.Delete | src/components/global/cms/VideoCard.tsx:62-73 | drops every video with the id and one from the total; failure changes neither |
| VideoGrid.SetParamSpec | src/components/global/cms/VideoGrid.tsx:67-68 | after `set`, `get` returns the value, exactly one pair has the name, and the other pairs are kept in order |
| VideoGrid.SetParamOthers | src/components/global/cms/VideoGrid.tsx:66-68 | setting one name leaves every other name's value alone |
| VideoGrid.GetOfFilterOthers | src/components/global/cms/VideoGrid.tsx:67-68 | dropping one name's pairs does not change another name's value |
| VideoGrid.EffectiveSize | src/components/global/cms/VideoGrid.tsx:63 | the given size when it is non-zero, else the current one |
| VideoGrid.PageParamsSpec | src/components/global/cms/VideoGrid.tsx:66-69 | the query names the page and the size, and every other parameter is preserved |
| VideoGrid.PageParamsReadBack | src/components/global/cms/VideoGrid.tsx:67-68 | the page and size read back from the address are those asked for |
| VideoGrid.Grid.constructor | src/components/global/cms/VideoGrid.tsx:26-38 | list, page, size and total come from the props; modals closed; nothing selected |
| VideoGrid.Grid.FetchVideos | src/components/global/cms/VideoGrid.tsx:42-60 | success takes the videos and the total, 0 when missing; failure keeps both |
| VideoGrid.Grid.PageChange | src/components/global/cms/VideoGrid.tsx:62-71 | the page is the chosen one, never reset; the size is effective; the pushed address carries both; the fetch skips `(page-1)*size` |
| VideoGrid.Grid.Refresh | src/components/global/cms/VideoGrid.tsx:73-75 | fetches the current page again |
| VideoGrid.Grid.OpenCreate | src/components/global/cms/VideoGrid.tsx:82-87 | the form modal opens; the edited video and every other field stay as they were |
| VideoGrid.Grid.ClosePlayer | src/components/global/cms/VideoGrid.tsx:125-129 | the player hides; the selected video and every other field stay as they were |
| VideoGrid.Grid.CloseModal | src/components/global/cms/VideoGrid.tsx:134-137 | the modal closes and forgets the video |
| Lists.Keys | src/components/global/subscription/index.tsx:92 | the ids of the records, one per record, in order |
| Lists.ReplaceByKeySpec | src/components/global/subscription/index.tsx:91-93 | replacing by id keeps the length and the ids; the matching records become the new one and every other stays in place |
| Lists.ReplaceAbsent | src/components/global/subscription/index.tsx:113-117 | a record whose id is not listed changes nothing |
| Lists.ReplacePresent | src/components/global/cms/index.tsx:129-131 | when the id is listed, the new record is in the list |
| Lists.ReplaceIdempotent | src/components/global/cms/index.tsx:164-166 | replacing twice with the same record is replacing once |
| Lists.ReplaceKeepsUnique | src/components/global/subscription/index.tsx:113-117 | replacing keeps distinct ids distinct |
| Lists.RemoveByKeySpec | src/components/global/cms/index.tsx:181 | deleting leaves no record with the id, keeps every other record, and removes as many as had the id |
| Lists.RemoveSize | src/components/global/cms/VideoCard.tsx:65 | with distinct ids, deleting a listed id removes exactly one record, and deleting an unlisted id changes nothing |
| Lists.RemoveIdempotent | src/components/global/cms/index.tsx:181 | deleting twice is deleting once |
| Lists.AppendSpec | src/components/global/cms/index.tsx:138 | appending adds the id at the end and keeps ids distinct when the new one is fresh |
| Lists.RemoveKeepsUnique | src/components/global/cms/VideoCard.tsx:65 | deleting keeps distinct ids distinct |
| Http.OrElse | src/components/global/cms/VideoModal.tsx:52-53 | `a` when it is present and non-empty, else `b` |
| Strings.Split | src/hooks/useSocket.tsx:11 | `split(sep)` always returns at least one piece |
| Strings.JoinSplit | src/hooks/useSocket.tsx:11 | joining the pieces with the separator gives the input back |
| Strings.LastPieceSpec | src/components/global/cms/index.tsx:102 | `split(".").pop()` is a dot-free suffix, preceded by a dot unless it is the whole name |
| Strings.UpperCaseSpec | src/components/global/dashboard/ClientDashboard.tsx:33 | `toUpperCase` on ASCII changes exactly the 26 lower-case letters, each to its capital, and is idempotent |
| Strings.LowerCaseSpec | src/components/global/users/index.tsx:194 | `toLowerCase` on ASCII changes exactly the 26 capitals, each to its lower-case letter, and is idempotent |
| Strings.LowerOfUpper | src/components/global/users/index.tsx:194 | lower-casing after upper-casing is lower-casing |
| Strings.UpperOfLower | src/components/global/dashboard/ClientDashboard.tsx:33 | upper-casing after lower-casing is upper-casing |
| Strings.ParseIntOfToString | src/actions/cmsActions.ts:36 | `parseInt(String(n), 10)` gives back `n` |

## Left out

- Socket transport: `socketClient.connect/disconnect/getSocket` and the `fetchInitialData` emits are foreign calls. The model receives the events and returns the listener and emission changes.
- The real promise scheduling of the refresh interceptor. Events are delivered one at a time, in an explicit order. The HTTP calls are effects the model returns.
- RefreshCoordinator: on a failed refresh the queued requests' promises never settle, because the queue is emptied without calling its callbacks (src/lib/axios/index.ts). `RefreshFailDropsQueue` states exactly this.
- The users page's two-second debounce (src/components/global/users/index.tsx:106-117) is timer behaviour. `FetchUsers` is the call it would make.
- dayjs and `toISOString`: dates are opaque strings, and a present date is appended as it is.
- `toUpperCase`/`toLowerCase` are modelled for ASCII letters only. Unicode case mapping, such as `ß` to `SS`, is not modelled.
- URLSearchParams: `toString` is modelled without percent-encoding.
- Numbers are unbounded integers. `parseInt` handles only optional whitespace, a sign and decimal digits, and `NaN` is `None`. Prices entered with decimals are not modelled.
- `null` and `undefined` are one value (`None` / `JNull`). Reading a property of a `null` response body throws a TypeError; AdminActions sends such a body down the `catch` path, and the other readers of response bodies assume an object.
- DashboardState.Merge: a payload field that is present with the value `null` or `undefined` overwrites the state's field in `{ ...prev, ...data }`, but the model treats it as absent and keeps the old value; the state's fields are not nullable in the model.
- DashboardState.Apply: each socket event runs each handler once. In the source the handlers are registered again on every render and never removed, so one event runs as many copies as there have been renders with a socket; `ApplyRegistered` models that, and the rest of the model keeps one registration (see Findings).
- UsersPage.UsersListPage.FetchUsers: the code reads `users` and `pagination` directly from the response body, while the declared response type (src/components/global/users/index.tsx:22-33) nests them under `data`; the model follows the code and assumes the server sends them at the top level.
- CmsActions: a form value read as text that is in fact a file, or a file slot holding text, counts as absent.
- VideoModal.Modal.HandleSubmit: the text of the exception that `values.priority.toString()` throws on an empty priority is modelled as a fixed constant string.
- The CMS page calls addresses under `/api/user/admin/promotional-videos`, while the grid, card and save action use `/api/admin/promotional-videos`. Both are modelled as written; the rewrite rules that relate them are in next.config.ts, which is not part of this model.
- CmsActions: an `id` that is the empty string is falsy, so it is handled as a create; the model keeps this.
- The thin request wrappers (src/actions/reportAction.ts, paymentActions.ts, subscriptionAction.ts, src/lib/axios/base.ts): each is one call plus an error-message fallback. The pages take their outcome as a parameter.
- Rendering is not modelled: the player component over hls.js and Plyr, the modals, skeletons, tables and charts, the sidebar, the older subscription page, and the Google sign-in and login hook.
- VideoCard.AvatarInitial: `createdBy?.[0]` takes the first UTF-16 code unit, while the model takes the first character of the string; the two differ for a name that starts with a character outside the Basic Multilingual Plane, where the source shows half of a surrogate pair.
- The users page's detail modal: `showUserDetails` and `handleCloseModal` (src/components/global/users/index.tsx:134-144) only set the selected user and the modal's visibility, which feed rendering alone; `UsersListPage` has no fields for them.
- `form.resetFields` and `form.setFieldsValue` are UI library calls. `ShowModal` returns the values the form is given.

## Findings

| source | as written | input that shows it | evidently intended | confidence | as-written member | corrected member |
|---|---|---|---|---|---|---|
| src/hooks/useDashboardSocket.ts:50-151 | the effect depends on `onEvent`/`onVideoEvent`, which are new functions on every render (src/hooks/useSocket.tsx:60-70), and returns no cleanup, so every render adds another registration of every handler | two renders with a connected socket, then one `subscription-update` with status "active" | one registration per handler: the update is listed once and the counter rises by one | medium, not executed | DashboardState.DoubleRegistrationCountsTwice | DashboardState.ActiveCountHistory |
