# Salona business site — a Dafny model of its core

Salona is a Django site for salon businesses. Staff manage bookings, services, staff, customers and notifications, and customers book appointments. This project models, in Dafny, the logic of the site's core:

- the authenticated API-forwarding proxy (`users/api_proxy.py`). It builds the upstream URL and chooses the request body. It takes the bearer tokens from the cookies. On an expired access token it refreshes at most once and retries at most once. It then writes the rotated, issued or cleared token cookies.
- the bookings report (`users/reports.py`): the period windows, the counting and grouping loop, the averages and the comparison with the previous period.
- the onboarding tour endpoints and their record (`users/views_onboarding.py`, `users/models.py`), and the customer booking views' helpers (`customers/views.py`).
- the static-file cache-header middleware and the versioned static URL tags.
- the rules of the browser scripts under `static/js/`: booking steps and slots, the booking cache, the calendar, the notification managers, the service, staff and customer managers, profile languages, membership plans, company settings, the invitation page, the guided tours, the popups and the landing page.

Each source file is one Dafny module in a file of the same name. Pure code becomes functions with lemmas. Code that updates state becomes classes or methods with `modifies` clauses, proved against specification functions. Network replies, the clock, random ids and browser services are parameters. Money is integer cents. Dates are day numbers and times are minutes. `None` stands for `null`, `undefined`, an absent key or `NaN`, as each module's comment says.

## Model

| member | source | states |
|---|---|---|
| ApiProxy.ApiUrl | users/api_proxy.py:20-29 | every upstream URL is the API base followed by "/api/" |
| ApiProxy.ApiUrlSpellings | users/api_proxy.py:20-29 | "x", "/x", "api/x" and "/api/x" all reach the same upstream URL |
| ApiProxy.ApiUrlStripsOneSlash | users/api_proxy.py:24-25 | only one leading '/' is removed, so "//x" keeps its second slash |
| ApiProxy.Lookup | users/api_proxy.py:271-365 | `dict.get` finds a value stored under the key, and finds nothing exactly when no entry has that key |
| ApiProxy.LookupLastWins | users/api_proxy.py:271-365 | of several entries with the same key, as `json.loads` keeps them, the last one is found |
| ApiProxy.ProcessDict | users/api_proxy.py:76-92 | `process_dict` rebuilds an object with as many entries as it had |
| ApiProxy.ProcessList | users/api_proxy.py:94-104 | `process_list` rebuilds an array of the same length |
| ApiProxy.EnsureUtcParams | users/api_proxy.py:31-104 | a falsy value or a non-container comes back unchanged; objects and arrays keep their sizes |
| ApiProxy.ProcessDictIdentity | users/api_proxy.py:69-92 | because `convert_value` returns every value unchanged, `process_dict` is the identity |
| ApiProxy.ProcessEntryIdentity | users/api_proxy.py:80-91 | each value stored by `process_dict` equals the value it was given |
| ApiProxy.ProcessListIdentity | users/api_proxy.py:94-104 | `process_list` is the identity |
| ApiProxy.EnsureUtcParamsIdentity | users/api_proxy.py:31-104 | `ensure_utc_params` returns its argument unchanged for every JSON value |
| ApiProxy.FormJsonLastValue | users/api_proxy.py:219-248 | `QueryDict.dict()` holds each posted key once, with the last value posted under it, and no other key |
| ApiProxy.FileAt | users/api_proxy.py:238-240 | the upload stored under a field is absent iff no stored upload has that field, and otherwise is a stored upload with that field |
| ApiProxy.PutFile | users/api_proxy.py:240 | storing an upload gives a non-empty dictionary that grows by at most one entry and holds only old entries or the new one |
| ApiProxy.PutFileAt | users/api_proxy.py:240 | after `files[key] = …` the field reads back the new upload and every other field keeps its upload |
| ApiProxy.PutFileDistinct | users/api_proxy.py:240 | storing an upload keeps every field stored once |
| ApiProxy.LastFile | users/api_proxy.py:237-240 | the last upload posted under a field is absent iff none was posted under it |
| ApiProxy.FileFields | users/api_proxy.py:237-240 | the files dictionary is empty iff nothing was uploaded |
| ApiProxy.FilesLastPerField | users/api_proxy.py:237-240 | the files dictionary holds each uploaded field once, with the last upload posted under it, and no other field |
| ApiProxy.LastValue | users/api_proxy.py:219-248 | `QueryDict[key]` has no value exactly when the key was never posted |
| ApiProxy.ClearAuthCookies | users/api_proxy.py:174-194 | both token cookies become empty, expired deletions; status, body and other cookies are unchanged |
| ApiProxy.Refresh | users/api_proxy.py:124-172 | at most one refresh call per request; a repeated attempt answers from the stored state; success iff a refresh cookie exists and the 200 reply sets a non-empty access cookie |
| ApiProxy.RefreshRepeats | users/api_proxy.py:129-134 | a second `refresh_access_token` in the same request makes no call and repeats the first outcome |
| ApiProxy.TokensAfterRefresh | users/api_proxy.py:106-121 | a request sends its own token cookies until a refresh succeeds, then the rotated pair; after a failed refresh, its cookies again |
| ApiProxy.RequestState.constructor | users/api_proxy.py:196 | a request starts with no refresh attempted and no rotated tokens |
| ApiProxy.RequestState.SetRefreshedTokens | users/api_proxy.py:118-122 | stores the rotated pair and marks the request as refreshed, keeping the state consistent |
| ApiProxy.RequestState.RefreshAccessToken | users/api_proxy.py:124-172 | the step-by-step refresh agrees with `Refresh` on the outcome, the new state and the tokens sent |
| ApiProxy.UpstreamHeaders | users/api_proxy.py:200-208 | Accept is always JSON; Content-Type JSON is sent iff the request is not multipart |
| ApiProxy.OutboundCookies | users/api_proxy.py:211-216 | a token cookie is forwarded iff that token is present and non-empty, and no other cookie is sent |
| ApiProxy.Relay | users/api_proxy.py:335-388 | an undecodable body becomes a 500 through the `RequestException` handler; otherwise the status and body are relayed; no cookies on a non-200 |
| ApiProxy.Forward | users/api_proxy.py:196-394 | one or two upstream calls and at most one refresh; a second call only after an expired-token 401 and a successful refresh |
| ApiProxy.PrepareCall | users/api_proxy.py:198-265 | the first call built step by step equals `FirstCall`, whose multipart files hold one upload per field, the last posted under it |
| ApiProxy.PrepareBodyParts | users/api_proxy.py:224-251 | the JSON body, form data and files built step by step equal `PrepareBody`; the files are `FileFields` of the uploads, one per field |
| ApiProxy.RelayReply | users/api_proxy.py:335-388 | the relay that writes the cookie jar step by step equals `Relay` |
| ApiProxy.AfterRefresh | users/api_proxy.py:277-331 | the first call is kept, the refreshes and state are unchanged, and a retry is made exactly when the refresh returned an access token |
| ApiProxy.RetryAfterRefresh | users/api_proxy.py:277-331 | the retry code gives the response and calls of `AfterRefresh` |
| ApiProxy.ForwardRequest | users/api_proxy.py:196-394 | `forward_request` over the request's token state equals `Forward`: response, calls, refreshes and final state |
| ApiProxy.ContentTypeRule | users/api_proxy.py:205-208 | Content-Type is sent iff the inbound content type is not multipart |
| ApiProxy.JsonBodyRule | users/api_proxy.py:240-259 | a JSON body is sent iff it decodes to a truthy value; form data and files are never sent with it |
| ApiProxy.FirstCallTokens | users/api_proxy.py:106-216 | the first call carries the rotated pair once stored, otherwise the request's cookies |
| ApiProxy.NoRefreshWithoutExpiry | users/api_proxy.py:268-388 | a reply that is not an expired-token 401 is relayed after one call, with no refresh |
| ApiProxy.TransportFailureIs500 | users/api_proxy.py:390-394 | a transport failure is a 500 "API request failed" with the error text, no refresh and no retry |
| ApiProxy.FailedRefreshClearsCookies | users/api_proxy.py:322-330 | a failed refresh answers 401 "Authentication failed" with both token cookies cleared |
| ApiProxy.RetryWritesRotatedCookies | users/api_proxy.py:276-321 | after a refresh the call is retried once with the rotated tokens, and the reply carries the 6-hour access and 1-day refresh cookies |
| ApiProxy.LoginIssuesCookies | users/api_proxy.py:362-386 | a successful login issues a 7-day access cookie and, when one is given, a 30-day refresh cookie |
| ApiProxy.RotatedStampOnlyOn200 | users/api_proxy.py:341-359 | earlier-rotated tokens are stamped on a 200 reply, and only on a 200 |
| ApiProxy.SetCookieByName | users/api_proxy.py:448-491 | Django's `set_cookie` keeps one cookie per name: the new one is present and other names are kept |
| ApiProxy.LogoutAsWritten | users/api_proxy.py:412-522 | PATCH and DELETE get 405; GET redirects to login; POST and PUT log out |
| ApiProxy.LogoutAsWrittenLosesHostOnlyDeletion | users/api_proxy.py:448-491 | with the default API base, only the ".salona.me" deletions survive; the host-only deletions are lost |
| ApiProxy.Logout | users/api_proxy.py:412-522 | logout as intended: 405 for PATCH and DELETE, a login redirect for GET; for POST and PUT both host-only deletions always, the parent-domain ones iff the base names api.salona.me, all empty and expired, and an upstream logout iff a token exists |
| Reports.Windows | users/reports.py:74-99 | the current window ends today and the previous one ends where it starts, both 7, 30 or 365 days long; an unknown period is a week |
| Reports.TalliedCounts | users/reports.py:135-148 | each booking counts once in the total and in exactly one of completed, cancelled and pending; every other status counts as pending |
| Reports.CountStatusInBound | users/reports.py:140-141 | no more bookings have a status in a set than there are bookings |
| Reports.BreakdownCounts | users/reports.py:121-141 | the breakdown keeps exactly its five keys, each counting the bookings with that lower-cased status |
| Reports.CountStatusSplit | users/reports.py:121-127 | the five breakdown counts add up to the bookings whose status is one of the five |
| Reports.BreakdownAtMostTotal | users/reports.py:121-148 | the breakdown adds up to at most the total, since other statuses count only as pending |
| Reports.RevenueFromCompleted | users/reports.py:150-153 | revenue accrues only from completed bookings |
| Reports.DayCounts | users/reports.py:155-158 | each non-empty date maps to its number of bookings, and the empty date is never a key |
| Reports.MapSumRemove | users/reports.py:158 | a map's sum is one value plus the sum of the rest |
| Reports.MapSumIncrement | users/reports.py:158 | adding one to a day count raises the sum of the day counts by one |
| Reports.DaySum | users/reports.py:155-158 | the day counts add up to the number of bookings with a date |
| Reports.AddStaffCounts | users/reports.py:164-179 | a staff key appears iff it already did or one of the booking's services is assigned to it, and its count grows by that number |
| Reports.StaffCounts | users/reports.py:164-179 | staff groups count once per booking service, not once per booking |
| Reports.ComparisonAsWritten | users/reports.py:198-215 | as written: the comparison stays zero without a previous period |
| Reports.ComparisonAsWrittenMisreports | users/reports.py:137-215 | two identical periods report a 99% fall in revenue, because the previous revenue stays in cents |
| Reports.Comparison | users/reports.py:198-215 | corrected: the bookings change against a non-empty previous period; against a positive previous revenue the revenue change is (current - previous) / previous * 100 in dollars, so equal revenues give none; a non-positive previous revenue gives none |
| Reports.Average | users/reports.py:194-196 | the average times the completed count is the revenue, and 0 with nothing completed |
| Reports.BookingsReport | users/reports.py:64-217 | no report iff the current fetch failed; a failed previous fetch leaves the comparison at 0; the comparison is the corrected `Comparison`, not the one written at lines 198-215 |
| Reports.TallyStatus | users/reports.py:139-153 | the status step counts a listed status, exactly one of completed, cancelled or pending, and a completed booking's price |
| Reports.TallyDay | users/reports.py:155-161 | a dated booking adds one to its day, and a completed one its price to the day's revenue; an undated one changes neither |
| Reports.TallyStaff | users/reports.py:164-179 | the staff loop equals `AddStaff` |
| Reports.TallyServices | users/reports.py:181-192 | the service loop equals `AddServices` |
| Reports.NamedPrice | users/reports.py:190-192 | the price sum over a booking's services with a name is zero when none has that name |
| Reports.CompletedServiceRevenue | users/reports.py:190-192 | the service revenue of a name is zero when no booking has a service with that name |
| Reports.AddServicesCounts | users/reports.py:181-192 | one booking's services add a name iff one of them has it; its count grows by that number, and its revenue by their prices when the booking is completed |
| Reports.ServiceCounts | users/reports.py:181-192 | a service name appears iff some booking has a service with it; its count is the number of such services and its revenue the sum of their prices over completed bookings |
| Reports.DayRevenue | users/reports.py:158-161 | a day's revenue is zero when no completed booking falls on it |
| Reports.DayRevenues | users/reports.py:155-161 | a day appears in the revenue by day iff it is non-empty and a completed booking falls on it, with the sum of those bookings' totals |
| Reports.CountOne | users/reports.py:135-192 | one pass of the loop body equals `CountBooking` |
| Reports.TallyBookings | users/reports.py:135-192 | the counting loop equals `Tallied` |
| Reports.GenerateBookingsReport | users/reports.py:64-217 | the imperative report equals `BookingsReport`, so it too carries the corrected comparison |
| Booking.WithoutId | static/js/booking.js:408-410 | the filter removes exactly the entries with that id |
| Booking.WithoutIdDistinct | static/js/booking.js:408-410 | removing an id keeps the listed ids distinct |
| Booking.AppendDistinct | static/js/booking.js:411-413 | pushing a service with a new id keeps the ids distinct and adds that id |
| Booking.WithoutAppended | static/js/booking.js:408-413 | removing a service that was just pushed restores the list |
| Booking.ToggleKeepsSync | static/js/booking.js:406-414 | `toggleService` keeps `selectedServices` and `services` in sync: same ids, each listed once |
| Booking.ToggleTwice | static/js/booking.js:406-414 | toggling an unselected service twice restores both; a selected one comes back at the end carrying the new data |
| Booking.UpdateProgressIndicator | static/js/booking.js:195-216 | steps before the current one are completed and exactly one is active; the fill is (step-1)/3 of the line |
| Booking.FirstIdsDistinct | static/js/booking.js:670-685 | the `Map` keys are distinct and are exactly the linked staff ids |
| Booking.CollectStaff | static/js/booking.js:670-685 | the loop keeps ids in first-occurrence order, each with its first user |
| Booking.FirstUserSome | static/js/booking.js:678-680 | an id has a user iff some link carries it |
| Booking.FirstUserExtend | static/js/booking.js:678-680 | a later link never replaces the user already recorded for its id |
| Booking.RenderStaff | static/js/booking.js:665-700 | the cards are the distinct staff of the selected services, and "Any Available" is shown iff there are none |
| Booking.OverwrittenLast | static/js/booking.js:983-994 | for a single staff member a date holds the slots of its last usable entry |
| Booking.ConcatenatedKeys | static/js/booking.js:948-964 | for 'any', every merged date is non-empty with slots, and every usable entry's date is present |
| Booking.SlotKeyRoundTrip | static/js/booking.js:968-973 | a slot whose times have no '-' survives the key and `split('-')` unchanged |
| Booking.SlotKeyLosesDashes | static/js/booking.js:968-973 | a time holding '-' is split into the wrong fields |
| Booking.UniqueKeys | static/js/booking.js:968-970 | `Array.from(new Set(...))` keeps each key once, in first-occurrence order |
| Booking.Deduplicated | static/js/booking.js:966-975 | deduplication never lengthens a date's list |
| Booking.DeduplicatedSlots | static/js/booking.js:966-975 | with '-'-free times the merged list holds each distinct slot exactly once and nothing else |
| Booking.MergeDays | static/js/booking.js:948-994 | the per-entry loop equals `Concatenated` for 'any' and `Overwritten` for one staff member |
| Booking.BookingState.constructor | static/js/booking.js:140-147 | the wizard state the navigation reads starts at step 1 with nothing selected |
| Booking.BookingState.NavigationRule | static/js/booking.js:140-150 | going back is always allowed; forward only to step 2, 3 or 4, each exactly when services, a staff member, or a date and a time are chosen |
| Booking.BookingState.ToggleService | static/js/booking.js:406-414 | only the selection set and list change, as `Toggle` says, and they stay in sync |
| Booking.BookingState.ProcessMonthlyAvailability | static/js/booking.js:939-1000 | replaces the month's availability with `Availability` and changes nothing else |
| Booking.BookingState.DayHasAvailability | static/js/booking.js:832-839 | once the month is processed, a day is enabled exactly when some usable entry of the source data names it |
| Booking.SelectingOpensStepTwo | static/js/booking.js:406-414 | selecting a first service makes step 2 reachable |
| Booking.DayAvailabilityAfterProcessing | static/js/booking.js:939-1000 | a day has availability iff some usable entry of the source data names it |
| Booking.DeduplicatedNonEmpty | static/js/booking.js:966-975 | deduplicating a non-empty list leaves it non-empty |
| Booking.ConcatenatedWitness | static/js/booking.js:948-964 | every merged date comes from a usable entry |
| Booking.OverwrittenKeys | static/js/booking.js:983-994 | the single-staff dates are exactly the usable entries' dates, each with a non-empty list |
| Booking.HalfHours | static/js/booking.js:1066-1074 | a range gives no slot iff its start is not before its end |
| Booking.HalfHoursLength | static/js/booking.js:1066-1074 | a range of d minutes gives ceil(d/30) slots |
| Booking.HalfHoursAt | static/js/booking.js:1066-1074 | the i-th slot starts 30·i minutes after the start and before the end |
| Booking.Labelled | static/js/booking.js:1067-1071 | one available slot per start minute |
| Booking.SlotsSkipUnavailable | static/js/booking.js:1057-1058 | unavailable ranges give no slots |
| Booking.SlotLabelInDay | static/js/booking.js:1067-1069 | within a day the label is the zero-padded "HH:MM" of the minute count |
| Booking.AppendHalfHours | static/js/booking.js:1066-1074 | the inner `while` loop appends exactly the labelled half-hour slots |
| Booking.ConvertTimeRangesToSlots | static/js/booking.js:1054-1079 | the loops equal `Slots` |
| Booking.FormatTime12hHours | static/js/booking.js:1125-1131 | for an hour 0-23, the 12-hour text shows hour % 12 (0 as 12) with PM exactly from 12 on |
| Booking.FormatTime12h | static/js/booking.js:1125-1131 | the text always ends in AM or PM; an hour that does not parse shows as 12 AM |
| BookingService.StrLeRefl | static/js/booking-service.js:15 | the string order of the default `sort()` is reflexive |
| BookingService.StrLeTotal | static/js/booking-service.js:15 | the string order is total |
| BookingService.StrLeAntisym | static/js/booking-service.js:15 | the string order is antisymmetric |
| BookingService.StrLeTrans | static/js/booking-service.js:15 | the string order is transitive |
| BookingService.Insert | static/js/booking-service.js:15 | inserting adds exactly one element |
| BookingService.InsertSorted | static/js/booking-service.js:15 | inserting into a sorted list keeps it sorted |
| BookingService.Sort | static/js/booking-service.js:15 | `staffIds.sort()` leaves a sorted permutation of the ids |
| BookingService.SortedHeadLeast | static/js/booking-service.js:15 | the first element of a sorted list is at most each element |
| BookingService.TailMultiset | static/js/booking-service.js:15 | dropping the head removes one copy of it |
| BookingService.SortedUnique | static/js/booking-service.js:15 | two sorted lists with the same elements are equal, so the sorted order is unique |
| BookingService.CacheKeyOrderFree | static/js/booking-service.js:12-17 | the cache key does not depend on the order of the staff ids |
| BookingService.GenerateCacheKey | static/js/booking-service.js:12-17 | the key is the two dates and the sorted ids or "all", and the caller's array is left sorted |
| BookingService.BookingCache.constructor | static/js/booking-service.js:4-9 | the cache starts empty |
| BookingService.BookingCache.IsCacheValid | static/js/booking-service.js:20-27 | a valid cache has data under the same key, stored less than a minute ago |
| BookingService.BookingCache.ClearCache | static/js/booking-service.js:30-35 | after a clear no key is valid at any time |
| BookingService.BookingCache.SaveBooking | static/js/booking-service.js:179-378 | an incomplete form gives the alert and no call; otherwise one call with the payload, and success clears the cache |
| BookingService.FetchParams | static/js/booking-service.js:41-58 | the dates are formatted, and `staff_id` is sent iff the staff list is non-empty, holding the ids in order |
| BookingService.BuildParams | static/js/booking-service.js:49-58 | the `forEach` that pushes the ids equals `FetchParams` |
| BookingService.FetchBookings | static/js/booking-service.js:60-67 | the reply's data on success, otherwise (an exception included) no bookings |
| BookingService.AsUtc | static/js/booking-service.js:77-78 | 'Z' is appended unless the text already holds one |
| BookingService.AsUtcIdempotent | static/js/booking-service.js:77-78 | marking a time as UTC twice is marking it once |
| BookingService.EventColor | static/js/booking-service.js:90-95 | cancelled and completed bookings have their own colours; every other status is blue |
| BookingService.CustomerTitle | static/js/booking-service.js:98-101 | "first last" when both names are non-empty, else "Unknown Customer" |
| BookingService.ToEvent | static/js/booking-service.js:72-118 | an event keeps the booking's id, status and price, its times marked UTC, and "No notes" without notes |
| BookingService.ConvertBookingsToEvents | static/js/booking-service.js:71-119 | one event per booking, in the same order |
| BookingService.ConvertAppend | static/js/booking-service.js:71-119 | converting a concatenation converts the parts |
| BookingService.OrDefault | static/js/booking-service.js:248-257 | a trimmed field, or its default when empty |
| BookingService.Entries | static/js/booking-service.js:225-232 | one entry per checked service, all for the chosen worker, with empty notes |
| BookingService.BuildBookingData | static/js/booking-service.js:198-273 | no service and no worker are reported in that order; otherwise the payload with the "<date>T<time>:00Z" times |
| BookingService.NewCustomerFieldsNonEmpty | static/js/booking-service.js:243-264 | a new customer's fields are never empty in the payload |
| BookingService.PushEntries | static/js/booking-service.js:225-232 | the `forEach` equals `Entries` |
| BookingService.BuildPayload | static/js/booking-service.js:217-273 | the step-by-step payload equals `BuildBookingData` once both checks pass |
| BookingService.SaveResult | static/js/booking-service.js:205-291 | the two alerts exactly for the two failed checks; saved iff the reply succeeded |
| CacheMiddleware.Classify | salona_business_django/cache_middleware.py:27-76 | the branches are tried in the order static, API, page, and are mutually exclusive; assets and fonts are told apart by extension |
| CacheMiddleware.FontIsAsset | salona_business_django/cache_middleware.py:50-76 | every font extension is also an asset extension |
| CacheMiddleware.MergeMaxAge | salona_business_django/cache_middleware.py:37-70 | a patched max-age never raises the one already there |
| CacheMiddleware.PatchPublic | salona_business_django/cache_middleware.py:37-70 | the header is public and not private, max-age is at most the one asked for, and the other flags are set |
| CacheMiddleware.NeverCache | salona_business_django/cache_middleware.py:32 | no-cache, no-store, must-revalidate and private are set, and max-age is zero or less |
| CacheMiddleware.Processed | salona_business_django/cache_middleware.py:17-44 | a non-200 response, or a path no branch takes, is left as it is; the status never changes |
| CacheMiddleware.StaticAssetPolicy | salona_business_django/cache_middleware.py:50-77 | a static asset is public, immutable, cached for at most a year, expires a year on, and is nosniff; a font gets `Access-Control-Allow-Origin: *`, any other asset keeps the CORS header it had |
| CacheMiddleware.StaticOtherPolicy | salona_business_django/cache_middleware.py:65-77 | any other static file is public, cached for at most a day and nosniff; no immutable flag and no CORS header is added |
| CacheMiddleware.ApiPolicy | salona_business_django/cache_middleware.py:31-33 | an API response is never cached and gets Pragma no-cache |
| CacheMiddleware.PagePolicy | salona_business_django/cache_middleware.py:36-42 | a page is public, must revalidate and is cached for at most five minutes |
| CacheMiddleware.Response.constructor | salona_business_django/cache_middleware.py:18 | the response starts with the given headers |
| CacheMiddleware.Response.AddStaticCacheHeaders | salona_business_django/cache_middleware.py:46-77 | the headers set in place are those of `Processed` |
| CacheMiddleware.Response.Process | salona_business_django/cache_middleware.py:17-44 | the headers set in place are those of `Processed` |
| StaticCache.StaticVersioned | salona_business_django/templatetags/static_cache.py:15-40 | the plain URL outside debug; in debug the mtime is appended with '&' or '?' when the file exists; the path when the storage fails |
| StaticCache.VersionReadsBack | salona_business_django/templatetags/static_cache.py:29-34 | the versioned URL starts with the URL, and its last parameter reads back as the file's mtime |
| StaticCache.InlineCss | salona_business_django/templatetags/static_cache.py:70-92 | a link in debug; an inline style for a readable file under 10240 bytes; otherwise a link to the versioned URL |
| StaticCache.CacheBustHash | salona_business_django/templatetags/static_cache.py:113-119 | a prefix of the hex digest, eight characters long when the digest has eight |
| Calendar.WeekDays | static/js/calendar.js:16-124 | seven consecutive days, the first three days before the date and the date in the middle |
| Calendar.NextWeekFollows | static/js/calendar.js:337-341 | the week after follows on directly and shares no day with this one |
| Calendar.TimeColumn | static/js/calendar.js:107-113 | one label per hour from 8 to 20, each the formatted hour |
| Calendar.CreateEventElement | static/js/calendar.js:217-261 | a block iff the event starts that day between hours 8 and 20; its top is the start's offset, and an event running past 20:00 is cut at the grid's bottom |
| Calendar.PlacementInsideGrid | static/js/calendar.js:217-252 | a same-day event that starts in the grid and ends after it starts lies inside the grid, with positive height |
| Calendar.QuarterIsOneSlot | static/js/calendar.js:233-237 | fifteen minutes are one 16-pixel slot |
| Calendar.FilterBookings | static/js/calendar.js:64-81 | exactly the bookings whose `user_ids`, or else whose services' staff, meet the selection |
| Calendar.FilterTimeOffs | static/js/calendar.js:84-86 | exactly the time-offs whose user is selected |
| Calendar.FilterBookingsAppend | static/js/calendar.js:66-81 | filtering a concatenation filters each part, so the kept bookings keep their order |
| Calendar.FilterTimeOffsAppend | static/js/calendar.js:84-86 | filtering a concatenation filters each part, so the kept time-offs keep their order |
| Calendar.VisibleBookings | static/js/calendar.js:64-91 | every cached booking without a staff selection, else exactly the kept ones |
| Calendar.VisibleTimeOffs | static/js/calendar.js:84-91 | every cached time-off without a staff selection, else exactly those of selected staff |
| Calendar.FilterByStaff | static/js/calendar.js:66-81 | a booking whose first staff id is selected is kept; one naming no staff is dropped |
| Calendar.TimeOffQueryAsWritten | static/js/calendar.js:58-59 | the time-off call as written passes the window's end date where the type goes |
| Calendar.TimeOffQueryAsWrittenSendsDate | static/js/calendar.js:58-59 | that call never sends a type name |
| Calendar.TimeOffQueryFor | static/js/calendar.js:58-59 | the corrected call asks from the window's first day with the default "weekly" type |
| Calendar.CalendarState.constructor | static/js/calendar.js:3-6 | no selection and empty caches |
| Calendar.CalendarState.RenderCalendar | static/js/calendar.js:34-124 | a fetch iff the booking cache is empty or a refresh is forced; the caches then hold the fetched data; the visible events are the filtered caches when a selection is in force; the time-off fetch uses the corrected `TimeOffQueryFor`, not the call written at lines 58-59 |
| Calendar.CalendarState.PrevWeek | static/js/calendar.js:332-335 | the date moves back seven days and the week is rendered again: a fetch of the new week's range iff the cache is empty, the bookings and time off shown are the cached ones the selection keeps, and the columns are the new week's days |
| Calendar.CalendarState.NextWeek | static/js/calendar.js:338-341 | the date moves on seven days and the week is rendered again: a fetch of the new week's range iff the cache is empty, the bookings and time off shown are the cached ones the selection keeps, and the columns are the new week's days |
| Calendar.CalendarState.RefreshCalendar | static/js/calendar.js:349-354 | a given selection, even an empty one, replaces the current one; none keeps it; then the week is rendered again as after a week move, without forcing a fetch |
| CompanySettings.FirstCookie | static/js/company_settings.js:56-63 | the decoded value of the first trimmed segment that starts with `name=`, and none iff no segment does |
| CompanySettings.CookieValue | static/js/company_settings.js:53-66 | an empty cookie string gives null |
| CompanySettings.GetCookie | static/js/company_settings.js:53-66 | the `for` loop with its `break` finds the same value as `CookieValue` |
| CompanySettings.FirstCookieAt | static/js/company_settings.js:57-62 | the first matching segment decides the value |
| CompanySettings.CookieOfJoined | static/js/company_settings.js:53-66 | a cookie written into the header as `name=value` is read back decoded |
| CompanySettings.LongerNameDoesNotMatch | static/js/company_settings.js:59 | a cookie whose name only starts with the wanted name does not match |
| CompanySettings.CreateCompany | static/js/company_settings.js:184-208 | success iff the server replied with success; the server's message or the default, and "Network error occurred" on an exception |
| CompanySettings.TeamSize | static/js/company_settings.js:145 | the parsed team size, or 1 when it is not a number or is 0 |
| CompanySettings.DetailsPayload | static/js/company_settings.js:327-341 | no request iff the name is blank; otherwise every field is trimmed and the team size is `TeamSize` |
| CompanySettings.EmailsOf | static/js/company_settings.js:540-551 | only non-blank addresses, trimmed, typed "other" without a type select |
| CompanySettings.PhonesOf | static/js/company_settings.js:766-775 | only non-blank numbers, trimmed, primary iff the type is "primary" |
| CompanySettings.EmailOf | static/js/company_settings.js:545-550 | a row gives at most one address, and one iff its input is found and not blank; the address is trimmed and non-empty |
| CompanySettings.PhoneOf | static/js/company_settings.js:771-774 | a row gives at most one number, and one iff its input is found and not blank; the number is trimmed and non-empty |
| CompanySettings.EmailsOfSnoc | static/js/company_settings.js:540-551 | one more row appends to the collected addresses exactly what that row gives, so rows are collected in order |
| CompanySettings.PhonesOfSnoc | static/js/company_settings.js:766-775 | one more row appends to the collected numbers exactly what that row gives, so rows are collected in order |
| CompanySettings.TrimTwice | static/js/company_settings.js:545-547 | trimming is idempotent, so a collected value is its own trim |
| CompanySettings.EmailsComplete | static/js/company_settings.js:540-551 | every non-blank address of the form is collected |
| CompanySettings.PhonesPrimary | static/js/company_settings.js:766-775 | every non-blank number of the form is collected with its primary flag |
| CompanySettings.WithoutId | static/js/company_settings.js:519 | exactly the entries whose id is not the deleted one |
| CompanySettings.WithoutIdAppend | static/js/company_settings.js:519 | deleting from a concatenation deletes from each part, so the entries that stay keep their order |
| CompanySettings.WithoutIdAbsent | static/js/company_settings.js:519 | deleting an id the list lacks leaves it unchanged |
| CompanySettings.Page.constructor | static/js/company_settings.js:4-5 | no e-mail or phone is awaiting deletion |
| CompanySettings.CompanyIdFor | static/js/company_settings.js:554 | the user's company id when set, else the loaded company's; none exactly when both are empty |
| CompanySettings.StartFor | static/js/company_settings.js:106-123 | the company's data is loaded iff the page's company id is set, not "None" and not ""; otherwise the create form is shown iff the page has one |
| CompanySettings.HasCompanyUsesOwnId | static/js/company_settings.js:554 | a page that loads its company's data saves its e-mails and phones under that same id |
| CompanySettings.Page.SaveEmails | static/js/company_settings.js:535-589 | nothing is sent without a company id; otherwise the collected addresses with the id, and on success they replace the list |
| CompanySettings.Page.SavePhones | static/js/company_settings.js:761-815 | nothing is sent without a company id; otherwise the collected numbers with the id, and on success they replace the list |
| CompanySettings.Page.AskDeleteEmail | static/js/company_settings.js:446-461 | a delete button with an id remembers it; without one nothing is remembered |
| CompanySettings.Page.CancelDeleteEmail | static/js/company_settings.js:476-504 | closing or cancelling forgets the id and nothing else changes |
| CompanySettings.Page.ConfirmDeleteEmail | static/js/company_settings.js:490-530 | a delete call iff an id is remembered; on success exactly that address leaves the list |
| CompanySettings.Page.AskDeletePhone | static/js/company_settings.js:674-688 | a delete button with an id remembers it; without one nothing is remembered |
| CompanySettings.Page.CancelDeletePhone | static/js/company_settings.js:702-730 | closing or cancelling forgets the id and nothing else changes |
| CompanySettings.Page.ConfirmDeletePhone | static/js/company_settings.js:716-756 | a delete call iff an id is remembered; on success exactly that number leaves the list |
| CompanySettings.Unsaved | static/js/company_settings.js:575 | the saved list holds the collected data, with no ids |
| CompanySettings.CollectEmails | static/js/company_settings.js:540-551 | the `forEach`, pushing row by row from the first, collects `EmailsOf` the rows |
| CompanySettings.CollectPhones | static/js/company_settings.js:766-775 | the `forEach`, pushing row by row from the first, collects `PhonesOf` the rows |
| CustomerManager.Contacts | static/js/customer-manager.js:54-58 | the e-mail first and the phone last, each present iff it is non-empty |
| CustomerManager.NameAndContacts | static/js/customer-manager.js:50-59 | the full name, followed by the contacts in parentheses joined by ", " when there are any |
| CustomerManager.DropdownText | static/js/customer-manager.js:50-67 | the name and contacts, with " [Disabled]" iff the customer is disabled |
| CustomerManager.FindById | static/js/customer-manager.js:180-183 | a failed fetch finds nothing; otherwise the first customer with that id, or none iff no customer has it |
| CustomerManager.Cache.constructor | static/js/customer-manager.js:4 | the cache starts empty |
| CustomerManager.Cache.FetchCustomers | static/js/customer-manager.js:7-26 | a call iff nothing is cached or a refresh is forced; a failed reply caches and returns []; an exception returns [] and keeps the cache |
| CustomerManager.Cache.GetCustomerById | static/js/customer-manager.js:180-183 | with a cached list, the first customer with the id in it; with an empty cache, the first such customer in what the API replied ([] for a failed reply), which the cache then holds, and none when the call throws |
| CustomerManager.Cache.ClearCache | static/js/customer-manager.js:186-188 | the cache is empty again |
| CustomerViews.ApiUrlAsWritten | customers/views.py:13-18 | the URL as written ends in "/api/v1/" and the endpoint without leading slashes, after a prefix of the base |
| CustomerViews.ApiUrlAsWrittenOverStrips | customers/views.py:17 | `rstrip('/api')` strips any of those characters, so "https://salona.app/api" loses "app" from its host |
| CustomerViews.WithoutApiSuffix | customers/views.py:16-17 | a trailing "/api" is removed, and nothing else |
| CustomerViews.ApiUrl | customers/views.py:13-18 | the corrected URL ends in "/api/v1/" and the endpoint without leading slashes, after a prefix of the base |
| CustomerViews.ApiUrlKeepsHost | customers/views.py:13-18 | a host followed by "/api" is kept whole |
| CustomerViews.DefaultBaseAgrees | customers/views.py:15-18 | on the default base the two URLs agree |
| CustomerViews.ProfessionalName | customers/views.py:72-84 | "Any Professional" for 'any'; "Professional" without a match; otherwise the first match's trimmed name, or "Professional" when it is blank |
| CustomerViews.ProfessionalNameFirstMatch | customers/views.py:78-82 | the first matching professional decides the name |
| CustomerViews.GetProfessionalName | customers/views.py:72-84 | the loop equals `ProfessionalName` |
| CustomerViews.EffectivePrice | customers/views.py:97 | the discount price when it is set and non-zero, else the price, else 0 |
| CustomerViews.PickInMembers | customers/views.py:95-103 | exactly the selected services of one category, with their details |
| CustomerViews.PickedMembers | customers/views.py:94-103 | exactly the selected services of every category, with their details |
| CustomerViews.PickedNone | customers/views.py:94-106 | no selected ids, no services |
| CustomerViews.PickInNone | customers/views.py:95-103 | no selected ids, no services from a category |
| CustomerViews.SumPricesAppend | customers/views.py:104 | the total grows by each appended price |
| CustomerViews.AddCategory | customers/views.py:95-104 | the inner loop appends a category's selected services and keeps the total their sum |
| CustomerViews.GetServicesDetails | customers/views.py:87-106 | the selected services in category order, and the total is the sum of their prices |
| CustomerViews.FormatTime12h | customers/views.py:109-118 | an error iff the hour does not parse |
| CustomerViews.Clock12Cases | customers/views.py:114-118 | midnight is 12 AM, noon 12 PM, and the other hours count from 1 to 11 |
| CustomerViews.SplitAtColon | customers/views.py:111 | digits then ':' split into the hour and the rest |
| CustomerViews.FormatTime12hHours | customers/views.py:109-118 | "H:M" formats as the 12-hour clock of that hour and minute |
| CustomerViews.FormatTime12hNoMinute | customers/views.py:113 | a time without minutes gets "00" |
| CustomerViews.SelectedServiceIds | customers/views.py:152-185 | the pieces are non-empty and comma-free, and every non-empty piece is kept |
| CustomerViews.SelectedServiceIdsRoundTrip | customers/views.py:132-153 | ids joined by ',' into the session read back as the same ids |
| CustomerViews.NonEmptyAll | customers/views.py:153 | dropping empty pieces keeps a list with none |
| Home.ValidateRequired | static/js/home.js:172-188 | every blank required field gets the red border and every other one the neutral border; the submit is prevented iff some field is blank |
| Home.CodeHasNoComma | static/js/home.js:211 | a key code's text holds no comma |
| Home.JoinCodesEmpty | static/js/home.js:211 | only the empty buffer joins to "" |
| Home.JoinCodesInjective | static/js/home.js:211 | the joined strings are equal iff the code lists are, so the string test is the list test |
| Home.LastTen | static/js/home.js:206-209 | at most ten codes |
| Home.PushedAllIsLastTen | static/js/home.js:205-209 | after any run of keys the buffer is the last ten keys seen |
| Home.TypingTheSequenceFires | static/js/home.js:202-213 | typing the ten codes leaves the buffer equal to the sequence, whatever came before |
| Home.KonamiListener.constructor | static/js/home.js:202 | the buffer starts empty and no egg is shown |
| Home.KonamiListener.KeyDown | static/js/home.js:205-214 | the key is pushed and the oldest dropped past ten; the egg is shown iff the buffer equals the sequence |
| Home.KonamiListener.ShowEasterEgg | static/js/home.js:216-252 | an egg is created iff none is already on the page |
| Home.KonamiListener.RemoveEgg | static/js/home.js:237-258 | the timer or the close button removes the egg and keeps the buffer |
| MembershipPlans.FormatPrice | static/js/membership-plans.js:297-301 | dollars with two decimals, negative iff the cents are |
| MembershipPlans.PriceRoundTrip | static/js/membership-plans.js:297-301 | the formatted price reads back as the same number of cents |
| MembershipPlans.FormatDuration | static/js/membership-plans.js:306-316 | 30 or 31 days is a month, 365 or 366 a year, 7 a week, and any other count "<n> days" |
| MembershipPlans.DigitPrefixStops | static/js/membership-plans.js:315 | the digits of a count stop at the space that follows |
| MembershipPlans.ParseIntJsIntThen | static/js/membership-plans.js:315 | a number followed by text that is not a digit parses back as that number |
| MembershipPlans.DurationDaysReadBack | static/js/membership-plans.js:306-316 | "<n> days" reads back as n |
| MembershipPlans.Features | static/js/membership-plans.js:187-213 | three common features; premium adds three; VIP adds premium's and four more; the type is compared in lower case |
| MembershipPlans.FeaturesNested | static/js/membership-plans.js:207-213 | every plan's list is a prefix of premium's, and premium's a prefix of VIP's |
| MembershipPlans.Insert | static/js/membership-plans.js:120 | inserting adds exactly one plan |
| MembershipPlans.InsertSorted | static/js/membership-plans.js:120 | inserting into a list sorted by price keeps it sorted |
| MembershipPlans.SortByPrice | static/js/membership-plans.js:120 | a permutation of the plans sorted by price |
| MembershipPlans.AtPriceInsert | static/js/membership-plans.js:120 | inserting keeps the order among plans of equal price |
| MembershipPlans.SortStable | static/js/membership-plans.js:120 | the sort is stable: plans of the same price keep their order |
| MembershipPlans.CardFor | static/js/membership-plans.js:138-151 | the active plan's button reads "Current Plan", is disabled and secondary; any other is "Choose Plan", primary iff featured |
| MembershipPlans.RenderPlans | static/js/membership-plans.js:116-131 | the array is sorted in place by price, and there is one card per plan, featured iff second, active iff its id is the active plan's |
| MembershipPlans.SortInPlace | static/js/membership-plans.js:120 | the array ends up as `SortByPrice` of its old contents |
| MembershipPlans.BuildCards | static/js/membership-plans.js:124-130 | the `forEach` builds one card per sorted plan, featured iff second and active iff it is the active plan |
| MembershipPlans.AtMostOneActive | static/js/membership-plans.js:124-128 | with distinct plan ids at most one card is active |
| NotificationPage.Title | static/js/notification-page.js:178-189 | each known type has its title, "Booking Update" for bookings, and any other type "Notification" |
| NotificationPage.DisplayType | static/js/notification-page.js:192-204 | one of four kinds: success iff payment, warning iff reminder, error iff alert, info otherwise |
| NotificationPage.Convert | static/js/notification-page.js:134-145 | read iff the status is "read"; the id, type and status are kept and the title is the type's |
| NotificationPage.ConvertAll | static/js/notification-page.js:134-145 | one converted item per API item, in order |
| NotificationPage.UnreadCount | static/js/notification-page.js:168-173 | the number of unread items, at most the number of items |
| NotificationPage.UnreadCountAppend | static/js/notification-page.js:504 | counting over a concatenation adds the counts |
| NotificationPage.UnreadCountUpdate | static/js/notification-page.js:382-386 | replacing one item changes the count by that item's unread status only |
| NotificationPage.Filtered | static/js/notification-page.js:240-256 | an order-preserving subset: unread items for "unread", an exact type match for the six type names, all items otherwise |
| NotificationPage.FilteredAppend | static/js/notification-page.js:240-256 | filtering a concatenation filters the parts |
| NotificationPage.UnreadFilterCount | static/js/notification-page.js:244-245 | the unread tab shows as many items as the unread counter counts |
| NotificationPage.FirstIndex | static/js/notification-page.js:382 | the index of the first item with the id, or none iff no item has it |
| NotificationPage.FindIndex | static/js/notification-page.js:382 | the search loop equals `FirstIndex` |
| NotificationPage.MarkedReadChangesOne | static/js/notification-page.js:382-386 | marking read changes only the first item with the id, to read with status "read" |
| NotificationPage.Without | static/js/notification-page.js:426 | exactly the items whose id differs |
| NotificationPage.WithoutAppend | static/js/notification-page.js:426 | deleting from a concatenation deletes from each part, so the items that stay keep their order |
| NotificationPage.WithoutUnread | static/js/notification-page.js:426 | deleting never raises the unread count |
| NotificationPage.AllRead | static/js/notification-page.js:471-474 | the same number of items |
| NotificationPage.AllReadNoneUnread | static/js/notification-page.js:471-474 | every item is read and keeps its id, type and message, so none is unread |
| NotificationPage.StatsOf | static/js/notification-page.js:494-513 | "<n> unread" and "<total> notification(s)" with the plural iff the total is not 1; the button is disabled iff nothing is unread |
| NotificationPage.StatsAfterMarkAll | static/js/notification-page.js:471-513 | after marking all read the counter reads "0 unread" and the button is disabled |
| NotificationPage.PagerOf | static/js/notification-page.js:516-540 | hidden iff there is no pagination or one page; previous disabled iff on the first page, next iff on the last |
| NotificationPage.PagerMatchesButtons | static/js/notification-page.js:528-534 | an enabled button is exactly one whose click moves the page |
| NotificationPage.MarkAllPrompt | static/js/notification-page.js:446-460 | an info message iff nothing is unread; otherwise a confirmation naming the unread count |
| NotificationPage.TimeAgo | static/js/notification-page.js:623-634 | a relative text iff less than a week has passed |
| NotificationPage.TimeAgoBuckets | static/js/notification-page.js:623-632 | under a minute "Just now", then whole minutes, hours and days by floor division |
| NotificationPage.FutureIsJustNow | static/js/notification-page.js:626-628 | a time in the future reads "Just now" |
| NotificationPage.NewUnreadCount | static/js/notification-page.js:157-175 | the server's count when the reply succeeded with a number, else the local unread count |
| NotificationPage.Page.constructor | static/js/notification-page.js:2-10 | the "all" filter on page 1 of 1, not loading, with nothing loaded |
| NotificationPage.Page.PrevPage | static/js/notification-page.js:49-55 | the page moves back iff it is past the first |
| NotificationPage.Page.NextPage | static/js/notification-page.js:58-64 | the page moves on iff it is before the last |
| NotificationPage.Page.BeginLoad | static/js/notification-page.js:102-113 | no request while a load is in progress; otherwise the current page is requested and loading is set |
| NotificationPage.Page.FinishLoad | static/js/notification-page.js:115-130 | loading is cleared on every path; a good reply replaces the items and the pagination |
| NotificationPage.Page.ProcessNotifications | static/js/notification-page.js:133-155 | the converted items, the pagination when given, and the new unread count |
| NotificationPage.Page.FetchUnreadCount | static/js/notification-page.js:157-175 | the unread count is `NewUnreadCount` and nothing else changes |
| NotificationPage.Page.HandleFilterChange | static/js/notification-page.js:362-373 | only the filter changes |
| NotificationPage.Page.MarkAsRead | static/js/notification-page.js:375-404 | corrected: on success exactly the first matching item is marked read, with the success toast; on failure nothing changes and the error toast shows |
| NotificationPage.Page.DeleteNotification | static/js/notification-page.js:417-444 | corrected: on success exactly the items with the id are removed with the success toast; on failure nothing changes |
| NotificationPage.Page.MarkAllAsRead | static/js/notification-page.js:462-491 | corrected: on success every item is read with the success toast; on failure nothing changes |
| NotificationPage.MarkAsReadAsWritten | static/js/notification-page.js:380-404 | as written: on success the first matching item is marked read, and the toast reports a failure exactly when the site-wide manager is loaded |
| NotificationPage.MarkAsReadAsWrittenReportsFailure | static/js/notification-page.js:388-403 | an unread item is marked read locally and yet the failure toast is shown |
| NotificationPage.DeleteNotificationAsWritten | static/js/notification-page.js:417-444 | as written: on success the item is removed, and the toast reports a failure exactly when the site-wide manager is loaded |
| NotificationPage.DeleteNotificationAsWrittenReportsFailure | static/js/notification-page.js:417-444 | with the manager loaded, a deleted notification is gone from the list and yet the failure toast is shown |
| NotificationPage.MarkAllAsReadAsWritten | static/js/notification-page.js:462-491 | as written: on success every item is read, and the toast reports a failure exactly when the site-wide manager is loaded |
| NotificationPage.MarkAllAsReadAsWrittenReportsFailure | static/js/notification-page.js:462-491 | with the manager loaded, nothing is left unread and yet the failure toast is shown |
| NotificationTable.UnreadRows | static/js/notification-datatable.js:158 | the rows whose status is not "read", at most all rows |
| NotificationTable.CategoryTypes | static/js/notification-datatable.js:461-467 | the three categories' type lists, and no type for any other category |
| NotificationTable.Drawn | static/js/notification-datatable.js:440-471 | exactly the rows every row filter accepts |
| NotificationTable.FiltersFor | static/js/notification-datatable.js:440-471 | no row filter iff "all"; the unread filter for "unread"; otherwise the category filter |
| NotificationTable.TabsDraw | static/js/notification-datatable.js:440-471 | "all" shows every row, and an unknown category shows none |
| NotificationTable.UnreadTabCount | static/js/notification-datatable.js:446-452 | the unread tab shows as many rows as the unread counter counts |
| NotificationTable.CategoriesDisjoint | static/js/notification-datatable.js:461-465 | no type belongs to two categories |
| NotificationTable.AsUtc | static/js/notification-datatable.js:380-383 | 'Z' is appended iff the text has neither a trailing 'Z' nor a '+' |
| NotificationTable.AsUtcIdempotent | static/js/notification-datatable.js:380-383 | marking a time as UTC twice is marking it once |
| NotificationTable.TimeAgoAgrees | static/js/notification-datatable.js:389-406 | the table's buckets, with their explicit future case, agree with the page's |
| NotificationTable.ModalActions | static/js/notification-datatable.js:691-707 | confirm iff pending or scheduled; cancel iff pending, scheduled or confirmed |
| NotificationTable.StatusClass | static/js/notification-datatable.js:760-769 | pending and scheduled share a class; unknown statuses get "status-default" |
| NotificationTable.Capitalized | static/js/notification-datatable.js:782 | the same length, with only the first character upper-cased |
| NotificationTable.StatusTextCapitalizes | static/js/notification-datatable.js:774-783 | every status's text is the status capitalised, listed or not |
| NotificationTable.Manager.constructor | static/js/notification-datatable.js:7-13 | no rows, the "all" filter and zero counts |
| NotificationTable.Manager.LoadRows | static/js/notification-datatable.js:149-175 | with data: the rows, their total and unread counts, and the table shown iff there are rows |
| NotificationTable.Manager.HandleFilterChange | static/js/notification-datatable.js:422-473 | the filter and its row filters are set, and nothing else changes |
| NotificationTable.Manager.StatsView | static/js/notification-datatable.js:488-504 | the counters show the counts, and the button is disabled iff nothing is unread |
| NotificationTable.Manager.MarkAllPrompt | static/js/notification-datatable.js:949-953 | no dialog iff nothing is unread |
| NotificationTable.UnreadTabMatchesCounter | static/js/notification-datatable.js:446-452 | the unread tab matches the counter, which is 0 iff every row is read |
| NotificationTable.UnreadRowsZero | static/js/notification-datatable.js:158 | no unread rows iff every row's status is "read" |
| Notifications.FromApi | static/js/notifications.js:14-53 | read iff the status is "read"; the id and time are kept, and the kind and title come from the type maps |
| Notifications.Received | static/js/notifications.js:67-86 | an item with an id and a time is converted; any other is unread, with a fresh id, the current time and the legacy defaults |
| Notifications.UnreadItems | static/js/notifications.js:92-122 | the number of unread items, at most the number of items |
| Notifications.UnreadItemsAppend | static/js/notifications.js:89-93 | counting over a concatenation adds the counts |
| Notifications.UnreadItemsMark | static/js/notifications.js:119-122 | marking one unread item read lowers the count by one |
| Notifications.FirstWithId | static/js/notifications.js:119 | the index of the first item with the id, or none iff no item has it |
| Notifications.LoadedCount | static/js/notifications.js:56-59 | nothing stored, or "", gives 0; otherwise the stored text parsed base 10 |
| Notifications.SaveLoadRoundTrip | static/js/notifications.js:56-64 | a saved count loads back unchanged |
| Notifications.BadgeFor | static/js/notifications.js:190-199 | shown iff the count is positive; "99+" above 99, else the count itself |
| Notifications.Manager.constructor | static/js/notifications.js:2-4 | no items and a zero counter |
| Notifications.Manager.LoadUnreadCount | static/js/notifications.js:56-59 | the counter is `LoadedCount` of the stored value |
| Notifications.Manager.SaveUnreadCount | static/js/notifications.js:62-64 | the stored value is the counter's text |
| Notifications.Manager.HandleNewNotification | static/js/notifications.js:67-101 | the item goes first; the counter rises by one and is saved iff the item is unread; the counter stays consistent |
| Notifications.Manager.MarkNotificationAsRead | static/js/notifications.js:104-132 | true iff the response was OK; only then, and only for a found unread item, it is marked read and the counter drops, never below 0 |
| Notifications.Manager.MarkAllAsRead | static/js/notifications.js:135-170 | on both the success and the error path every item is read and the counter is 0 |
| Notifications.Manager.ClearAllNotifications | static/js/notifications.js:297-302 | no items and a zero counter, saved |
| Notifications.AllMarkedRead | static/js/notifications.js:150-154 | a list with every item read has no unread item |
| Notifications.PushThenReadRestoresCount | static/js/notifications.js:89-122 | receiving an unread item and then marking it read restores the unread count |
| OnboardingModel.OnboardingTourStatus.AsRow | users/models.py:9-12 | the row holds the object's completion flag and time |
| OnboardingModel.OnboardingTourStatus.constructor | users/models.py:9-12 | a new status is not completed and has no time |
| OnboardingModel.OnboardingTourStatus.Load | users/models.py:9-12 | a loaded object holds the stored row |
| OnboardingModel.OnboardingTourStatus.MarkCompleted | users/models.py:18-21 | completed, stamped with the current time |
| OnboardingModel.OnboardingTourStatus.Str | users/models.py:23-24 | the whole text "OnboardingTourStatus(user=<id>, tour=<name>, completed=<True or False>)" |
| OnboardingViews.UserId | users/views_onboarding.py:9-26 | GET reads the query's `user_id`; POST reads the JSON object's, none for an empty or undecodable body, and raises for JSON that is not an object; other methods give none |
| OnboardingViews.StatusReply | users/views_onboarding.py:29-51 | only GET is allowed; without a user id, or without a row, not completed and no time; otherwise the row's flag and time |
| OnboardingViews.MarkCompleteResult | users/views_onboarding.py:54-88 | only POST is allowed; a body that is JSON but not an object gives 500 and no change; no user id gives 401 and no change; otherwise the row is created completed, or an incomplete one completed, and a completed one is left with its time |
| OnboardingViews.MarkCompleteIdempotent | users/views_onboarding.py:70-79 | marking complete a second time changes nothing and gives the same reply |
| OnboardingViews.StatusAfterMarkComplete | users/views_onboarding.py:41-87 | after a successful mark-complete, the status for that user and tour is completed with the same time |
| OnboardingViews.MarkCompleteKeepsStamped | users/views_onboarding.py:9-86 | with every completed row stamped, mark-complete fails exactly on a POST body that is not a JSON object, and keeps every completed row stamped |
| OnboardingViews.OnboardingStore.constructor | users/models.py:7-16 | the table starts empty |
| OnboardingViews.OnboardingStore.Save | users/models.py:14-21 | saving writes the object's row under its (user, tour) key |
| OnboardingViews.OnboardingStore.OnboardingStatus | users/views_onboarding.py:29-51 | the reply is `StatusReply` and the table is not changed |
| OnboardingViews.OnboardingStore.OnboardingMarkComplete | users/views_onboarding.py:54-88 | the reply and the new table are `MarkCompleteResult` |
| OnboardingTour.Ticks | static/js/onboarding.js:26-38 | at least one poll, and polls until 100 ms per poll reach the timeout, and no further |
| OnboardingTour.WaitFor | static/js/onboarding.js:22-41 | resolves at the first check that finds the element, within the polls allowed; otherwise rejects once the elapsed time reaches the timeout, with no check having found it |
| OnboardingTour.StepFor | static/js/onboarding.js:172-193 | the page's buttons when it gives some, else Next, and Done for the last step; attached iff the selector is given and present, by default at the bottom; the given id or "<selector or step>-<suffix>" |
| OnboardingTour.BuildSteps | static/js/onboarding.js:172-195 | the `for` loop adds one step per description, in order, each `StepFor` |
| OnboardingTour.OnlyLastIsDone | static/js/onboarding.js:177-185 | among steps without buttons of their own, only the last gets Done |
| OnboardingTour.StatusUrl | static/js/onboarding.js:251-255 | the encoded tour name, with `?user_id=` iff the page knows the user |
| OnboardingTour.Tours.constructor | static/js/onboarding.js:236 | the tours start from the browser's storage |
| OnboardingTour.Tours.StartIfNotCompleted | static/js/onboarding.js:232-271 | skipped with no request iff the local flag is set; otherwise the tour starts iff the status call failed or did not report completion; a server completion sets the local flag |
| OnboardingTour.Tours.PostComplete | static/js/onboarding.js:100-104 | the completion URL with the encoded tour name, and the local flag is set first |
| Profile.Refreshed | static/js/profile.js:97-105 | the user's fields are merged in and the role status recorded; an inactive user loses the company id and keeps the old role; an active one takes the reply's role and company |
| Profile.FetchCurrentUserInfo | static/js/profile.js:90-122 | a good reply refreshes the user data and returns it; any other reply or exception leaves the data as it was and reports failure |
| Profile.RefreshedIdempotent | static/js/profile.js:97-105 | applying the same reply twice is applying it once |
| Profile.CheckPhoto | static/js/profile.js:160-175 | a photo is accepted iff it is at most 5 MB and of an image type; the size is checked first |
| Profile.TrimAll | static/js/profile.js:338 | every piece trimmed, in order |
| Profile.ParsedLanguages | static/js/profile.js:338 | the non-empty trimmed pieces of the comma-separated text |
| Profile.InitialSelection | static/js/profile.js:336-342 | the parsed text, or the given list, or nothing |
| Profile.ParsedEmpty | static/js/profile.js:336-338 | no languages from an empty text |
| Profile.TrimClean | static/js/profile.js:338 | a language without outer blanks is its own trim |
| Profile.HiddenInputRoundTrip | static/js/profile.js:338-456 | a selection written to the hidden input as a comma-joined text reads back as the same selection |
| Profile.NonEmptyAll | static/js/profile.js:338 | dropping empty pieces keeps a list with none |
| Profile.Without | static/js/profile.js:432 | exactly the selected languages other than the removed one |
| Profile.WithoutAbsent | static/js/profile.js:432 | removing a language that is not selected changes nothing |
| Profile.WithoutAppend | static/js/profile.js:432 | removing from a concatenation removes from the parts |
| Profile.SelectThenRemove | static/js/profile.js:400-433 | selecting a new language and removing it restores the selection |
| Profile.WithoutNoDuplicates | static/js/profile.js:432 | removing keeps a selection free of duplicates |
| Profile.Available | static/js/profile.js:381 | exactly the languages not selected |
| Profile.Matching | static/js/profile.js:445-448 | exactly the catalogue's languages that contain the term, ignoring case |
| Profile.AvailableAppend | static/js/profile.js:381 | the options of a concatenated catalogue are those of each part, so the dropdown keeps the catalogue's order |
| Profile.MatchingAppend | static/js/profile.js:445-448 | the matches of a concatenated catalogue are those of each part, so the search list keeps the catalogue's order |
| Profile.LanguageSelector.constructor | static/js/profile.js:328-353 | the initial selection, mirrored into the hidden input when there is one |
| Profile.LanguageSelector.Select | static/js/profile.js:400-408 | a language already selected changes nothing; a new one is appended and mirrored into the hidden input |
| Profile.LanguageSelector.Remove | static/js/profile.js:430-458 | the language leaves the selection, the input mirrors it, and no duplicate appears |
| Profile.LanguageSelector.Dropdown | static/js/profile.js:362-367 | the search shows exactly the unselected languages containing the term, ignoring case |
| ServiceManager.Tagged | static/js/service-manager.js:95-103 | a category's services in order, each tagged with its id and name; none without a services array |
| ServiceManager.ByCategory | static/js/service-manager.js:1029-1031 | exactly the services whose category id matches |
| ServiceManager.ByCategoryAppend | static/js/service-manager.js:1029-1031 | filtering a concatenation filters the parts |
| ServiceManager.ByCategoryTagged | static/js/service-manager.js:95-103 | a tagged category's services belong to it and to no other |
| ServiceManager.ByCategoryOfFlatten | static/js/service-manager.js:92-106 | with distinct category ids, a category's services in the flattened list are exactly its own, in order |
| ServiceManager.NoneOfFlatten | static/js/service-manager.js:92-106 | an unknown category has no services |
| ServiceManager.ShownPrices | static/js/service-manager.js:140-142 | both prices iff there is a discount, which is then positive and below the price; otherwise the price alone |
| ServiceManager.EntryIds | static/js/service-manager.js:650 | the staff ids, `user.id` else `user_id`, with the empty ones dropped and every other one kept |
| ServiceManager.AssignedStaff | static/js/service-manager.js:647-655 | the `service_staff` ids when that array is present, else `staff_ids`, else none |
| ServiceManager.TotalsAppend | static/js/service-manager.js:1238-1245 | the totals over a concatenation add up |
| ServiceManager.TotalDurationDigits | static/js/service-manager.js:1239 | with digit-only durations each one counts by its value and the total is not negative |
| ServiceManager.SummaryTotals | static/js/service-manager.js:1214-1272 | the `forEach` sums the durations, 0 where unparsable, and the prices; nothing checked gives zero totals |
| ServiceManager.ClockOf | static/js/service-manager.js:1292-1299 | a time of day in range |
| ServiceManager.EndAsWritten | static/js/service-manager.js:1278-1303 | as written, an end iff the inputs and both start values exist; its date is taken in UTC and its time locally |
| ServiceManager.EndAsWrittenWrongDay | static/js/service-manager.js:1297-1299 | 01:00 plus 30 minutes at UTC+4 gives the previous day's date with 01:30 |
| ServiceManager.End | static/js/service-manager.js:1278-1303 | the corrected end: an end iff the inputs and both start values exist, exactly the duration after the start, date and time in the same zone |
| ServiceManager.EndAgreesInUtc | static/js/service-manager.js:1297-1299 | the two agree in UTC, and always on the time of day |
| ServiceManager.SaveBody | static/js/service-manager.js:740-792 | multipart with the image iff a file is chosen; otherwise a plain object; the fields come from the form, and an empty discount is 0 |
| ServiceManager.PushTagged | static/js/service-manager.js:97-103 | the inner `forEach` appends the tagged services |
| ServiceManager.Manager.constructor | static/js/service-manager.js:7-18 | no services and no categories, and the page's translations |
| ServiceManager.Manager.LoadServices | static/js/service-manager.js:81-108 | with data: one category per entry and the flattened services; without data: no rows |
| ServiceManager.Manager.SaveService | static/js/service-manager.js:740-823 | an update with an id, else a create; on success the page's `serviceUpdated` or `serviceCreated` translation, else the English text, and the list emptied and refilled by the table's reload; on failure the error text and nothing changes |
| StaffManager.CapitalizeRole | static/js/staff-manager.js:128-130 | the same length, the first character upper-cased and the rest lower-cased |
| StaffManager.CapitalizeRoleIdempotent | static/js/staff-manager.js:128-130 | capitalising twice is capitalising once |
| StaffManager.RoleText | static/js/staff-manager.js:104 | "Staff" without a role, else the capitalised role |
| StaffManager.RowOf | static/js/staff-manager.js:92-120 | the row is keyed by the nested user's id and shows the user's name, "-" for a missing e-mail or phone, and the status text |
| StaffManager.Prefill | static/js/staff-manager.js:207-212 | the edit form shows the entry's top-level fields, "staff" without a role, and active unless the status is false |
| StaffManager.Trimmed | static/js/staff-manager.js:243-250 | the text fields trimmed; the role and the active flag as given |
| StaffManager.Merged | static/js/staff-manager.js:273 | the form's fields replace the entry's, and the id, nested user and status are kept |
| StaffManager.IndexOf | static/js/staff-manager.js:194-315 | the first entry with the id, or none iff no entry has it |
| StaffManager.Updated | static/js/staff-manager.js:270-274 | only the first entry with the id changes, to the merged entry |
| StaffManager.Removed | static/js/staff-manager.js:350 | exactly the entries with another id |
| StaffManager.RemovedAppend | static/js/staff-manager.js:350 | deleting from a concatenation deletes from each part, so the members that stay keep their order |
| StaffManager.RemovedAbsent | static/js/staff-manager.js:350 | removing an id no entry has changes nothing |
| StaffManager.RowButtonLookup | static/js/staff-manager.js:111-116 | a row's buttons find an entry iff some entry's own id equals that row's user id |
| StaffManager.UpdatedRow | static/js/staff-manager.js:270-274 | after an update the row still shows the nested user's name, e-mail and phone and the old status |
| StaffManager.Manager.constructor | static/js/staff-manager.js:6-10 | an empty list and nothing being edited or deleted |
| StaffManager.Manager.LoadStaff | static/js/staff-manager.js:29-48 | the reply's data, or [] without it; an exception keeps the list |
| StaffManager.Manager.OpenAddModal | static/js/staff-manager.js:172-188 | the next save creates |
| StaffManager.Manager.OpenEditModal | static/js/staff-manager.js:193-219 | found iff an entry has the id; then the next save updates it; otherwise nothing changes |
| StaffManager.Manager.CloseModal | static/js/staff-manager.js:224-230 | the edit id is reset and nothing else changes |
| StaffManager.Manager.OpenDeleteModal | static/js/staff-manager.js:314-324 | found iff an entry has the id; then it is the one to delete |
| StaffManager.Manager.CloseDeleteModal | static/js/staff-manager.js:329-335 | the delete id is reset and nothing else changes |
| StaffManager.Manager.SaveStaff | static/js/staff-manager.js:235-310 | an incomplete form makes no call; an accepted update merges the trimmed form; a create appends the returned entry or asks for a reload; a failure keeps the list and reports the message |
| StaffManager.Manager.ConfirmDelete | static/js/staff-manager.js:340-361 | a call iff an entry is chosen; on success exactly the entries with that id go and the id is reset; on failure nothing changes |
| TimeOff.Timestamp | static/js/time-off-manager.js:39-40 | the timestamp starts with the date and ends with ":00Z" |
| TimeOff.TimestampReadsBack | static/js/time-off-manager.js:39-40 | split at 'T', the timestamp gives back the date and the time with ":00Z" |
| TimeOff.HandleTimeOffSubmit | static/js/time-off-manager.js:21-47 | the error message iff a required field is empty; otherwise one submission with both timestamps, the staff id, and the reason or "Time off" |
| TimeOff.SubmittedReadsBack | static/js/time-off-manager.js:38-43 | a submitted payload gives back the form's dates and times |
| UI.ConstrainedWidth | static/js/ui.js:36-49 | the dragged width is never below 320 pixels, above 320 it never exceeds 90% of the window, and a width within the bounds is taken exactly as dragged |
| UI.ResizablePanel.constructor | static/js/ui.js:4-10 | the panel starts not resizing, with the drag origin and start width at zero |
| UI.ResizablePanel.StartResize | static/js/ui.js:26-34 | a drag starts: resizing is on and the mouse position and the panel's width are recorded, the width itself unchanged |
| UI.ResizablePanel.Resize | static/js/ui.js:36-49 | outside a drag nothing changes; during one the width becomes the constrained width for the mouse position, at least 320 pixels |
| UI.ResizablePanel.StopResize | static/js/ui.js:51-57 | the drag ends and nothing else changes |
| UI.PositionPopup | static/js/ui.js:640-664 | the popup sits 10 pixels right of and below the click when it fits; otherwise it moves left of the click or to the margin, and up, staying at least 10 pixels from the edges and inside a viewport large enough to hold it |
| UI.FormatEventDateTime | static/js/ui.js:194-207 | "date, start - end" when both dates are the same, else "From date start to date end", times in HH:MM form |
| UI.FormatEventDateTimeMultiDay | static/js/ui.js:194-207 | the text starts with "From " exactly when the start and end dates differ |
| UI.ReasonText | static/js/ui.js:608-610 | the reason is never empty: the description when there is one, else the fixed "No reason provided" text |
| UI.FindIn | static/js/ui.js:241-246 | no result exactly when no entry has a user with that id; a result is the user of an entry in the list, with that id |
| UI.FindStaffById | static/js/ui.js:237-247 | without a staff array there is no result; with one, as FindIn |
| UI.FindInFirst | static/js/ui.js:241-246 | the user found is that of the first matching entry |
| UI.PopupFor | static/js/ui.js:562-571 | time off shows the time-off popup and every other event the booking details, both ways |
| UI.ConfirmDisplay | static/js/ui.js:304-363 | the confirm button shows exactly for a scheduled booking and is hidden otherwise |
| UI.CompletedDisplayAsWritten | static/js/ui.js:366-425 | as written: a confirmed booking shows the completed button, any other status keeps whatever display the button had |
| UI.CompletedDisplayAsWrittenLeaksIntoScheduled | static/js/ui.js:366-425 | after a confirmed booking's popup, a scheduled booking's popup shows both the confirm and the completed button |
| UI.CompletedDisplay | static/js/ui.js:366-425 | the completed button shows exactly for a confirmed booking and is hidden otherwise |
| UI.NeverBothButtons | static/js/ui.js:301-425 | no status shows both the confirm and the completed button |
| UI.BookingPopup.constructor | static/js/ui.js:301-303 | the popup starts with the buttons' displays given |
| UI.BookingPopup.SetupActions | static/js/ui.js:301-425 | a present button gets the display for the status, with the corrected `CompletedDisplay` rather than the one written at lines 368-370, and the two are never both shown; a missing completed button throws, as written at lines 422-424 |
| Utils.FormatDateReadsBack | static/js/utils.js:4-9 | the date text splits at '-' into the year, the 1-based month and the day, each padded to two digits, and each reads back as its number |
| Utils.FormatDateLength | static/js/utils.js:4-9 | for a month and a day under 100 the text is the year's digits plus six characters |
| Utils.FormatTimeReadsBack | static/js/utils.js:18-20 | the time text splits at ':' into the padded hours and minutes, which read back as those numbers, and is five characters for values under 100 |
| Utils.ShowMessage | static/js/utils.js:23-42 | without the message box nothing is shown; otherwise the box shows the message, styled as success exactly for the "success" type |
| Utils.AutoHide | static/js/utils.js:44-48 | the timer hides the box only while it still shows the same message, and otherwise leaves it as it is |
| Utils.TimerHidesItsMessage | static/js/utils.js:23-48 | a message's own timer hides it |
| Utils.TimerSparesNewerMessage | static/js/utils.js:23-48 | an older message's timer leaves a newer, different message showing |
| Utils.ToggleSpinner | static/js/utils.js:52-57 | without a spinner nothing changes; otherwise it is "flex" when shown and "none" when hidden |
| Strings.Tr | static/js/accept-invitation.js:23-24 | the page's translation when it gives a non-empty one for the key, else the fallback; never "" with a non-empty fallback |
| AcceptInvitation.SignupUrl | static/js/accept-invitation.js:141 | the signup address carries the invitation token and then the e-mail parameter |
| AcceptInvitation.SignupUrlQuery | static/js/accept-invitation.js:141 | with a token free of '&' and an encoded e-mail, the query splits into exactly the token and the e-mail parameters |
| AcceptInvitation.Dispatch | static/js/accept-invitation.js:47-100 | an existing user is accepted directly and only then; an unknown user is sent to signup and only then; a member sees the notice and the dashboard after two seconds and only then; an expired invitation, a reply without data, an unknown status and a thrown error each show their error |
| AcceptInvitation.FailureMessage | static/js/accept-invitation.js:123-130 | a reply's own non-empty message is the message shown |
| AcceptInvitation.AcceptOutcome | static/js/accept-invitation.js:105-133 | success and the dashboard redirect exactly when the reply succeeded; otherwise the acceptance error with the failure's message |
| AcceptInvitation.CheckSignup | static/js/accept-invitation.js:160-205 | the request is sent exactly when every input is there, the trimmed names and the password are non-empty and the passwords match; mismatched passwords are reported as such; the body carries the trimmed names, the password, the token and the trimmed phone, left out when blank |
| AcceptInvitation.SignupOutcome | static/js/accept-invitation.js:207-229 | success and the dashboard redirect exactly when the reply succeeded; a failure shows a non-empty message under the form and enables the submit button again |
| AcceptInvitation.Handler.constructor | static/js/accept-invitation.js:7-10 | the handler starts without a token |
| AcceptInvitation.Handler.Init | static/js/accept-invitation.js:15-33 | the token is read from the query; without a non-empty one the invalid-invitation error is shown and nothing is checked, else the invitation's status is dispatched |

## Left out

- Network, ORM, session and storage effects (`requests`, `fetch`, the `api.*` client, Django's ORM and sessions, `localStorage`). Replies are parameters, the database and the storage are maps, and an exception from storage access is not modelled.
- The upstream API and the token refresh endpoint are not in the repository. They are oracles that give status, detail and cookies.
- Concurrency and the interleaving of `await`s. Each operation runs to completion in sequence. A load whose reply never arrives is split into its start and its finish.
- Floating point. Report revenue, plan prices and the customer views' `float(price)` sums are integer cents. The service summary's prices (`parseFloat` results) and totals, report ratios and averages, the progress bar's width and panel widths are exact reals, so no rounding is modelled. `toFixed` is modelled on cents and `parseFloat` is a parameter. Numbers in the JSON bodies the API proxy relays are integers (`Json.JNum`); `ensure_utc_params` returns every value unchanged, so no conversion depends on it.
- JavaScript `Date`, time zones and locale formatting (`toLocaleDateString`, `toLocaleTimeString`, `toLocaleString`). Dates are day numbers and times are minutes. The browser's offset from UTC is a parameter, and localised date text is given as strings.
- `encodeURIComponent`, `decodeURIComponent`, the MD5 digest behind `cache_bust_hash`, `Math.random` ids and the clock are parameters.
- DOM building and rendering. This covers table and card HTML, tooltips, the easter egg's markup, parallax and the landing page's "Redirecting..." call-to-action text, modal and overlay display, the resize handle's DOM and touch plumbing, and click-outside closing of popups. Each operation returns what the page would show instead.
- Elements the page is assumed to have: the staff and service modals, the company phone type select, the invitation signup form's phone input (its presence is not checked with the other inputs, so a page without it would throw into the catch), and the `bookingState` object. `bookingState` is declared in a page template that is not part of this model, and its initial values are given.
- The tour library's loading and its CDN retries (`ensureShepherdLoaded` in static/js/onboarding.js), the regex form of that file's `getCookie`, and the logging-only handling of the `postComplete` reply.
- static/js/ui.js: `populateCustomerInfo`, `populateServicesInfo` and the confirm and complete API calls inside the popup's button handlers. They fill text or call the API; only the buttons' visibility is modelled.
- static/js/company_settings.js: `saveCompanyAddress` and the page's load functions. This is fetch-and-fill plumbing around the modelled validations and lists.
- salona_business_django/templatetags/static_cache.py: `preload_css`, `preload_js` and `resource_hints`. These are fixed markup around `static_versioned`, which is modelled.
- static/js/staff-manager.js: a save whose reply carries no data reloads the list. This is the `Saved(true)` outcome, not a re-fetch.
- The profile page's language catalogue is a parameter. The staff data the calendar and the popups read is a parameter too, and its loader is not modelled.
- Key codes in static/js/home.js are integers, not `KeyboardEvent` objects.
- LowerChar, UpperChar, ToLower, ToUpper, IsSpace, Trim: ASCII only. There is no Unicode case mapping ("ß" upper-cases to "SS" in JavaScript, changing the length) and no Unicode whitespace. This carries over to NotificationTable.Capitalized, StaffManager.CapitalizeRole (whose `|r| == |s|` holds only for this ASCII mapping) and Profile.Matching.
- ParseIntJs: radix 10 only. `parseInt("0x1A")` reads hexadecimal in JavaScript and 0 here. It backs the team size, the loaded counts and Booking.FormatTime12h.
- NumberJs: integers only. `Number("1.5")` is 1.5 in JavaScript and NaN (`None`) here; Booking.ClockMinutes reads whole hours and minutes.
- Logout and LogoutAsWritten: the `except Exception` reply ("Logged out locally") is not modelled. Nothing in the `try` block raises for the modelled inputs, since the upstream call's failure is caught inside it.
- BookingsReport and GenerateBookingsReport: the report carries the corrected `Comparison`, not the one written at users/reports.py:198-215; `ComparisonAsWritten` models that one. A booking field's `None` is an absent key, read through its `.get` default. A key present with JSON null is not modelled: for `status`, `start_at`, `booking_services`, `assigned_staff` or `category_service` the source raises (users/reports.py:139, 156, 165-168, 183, 204) and no report comes back, where the model reads the default.
- GenerateBookingsReport: equals `BookingsReport`, so it shares both gaps of the line above: the corrected comparison, and null-valued booking fields, on which the source raises, read as their defaults.
- RenderCalendar: the time-off fetch uses the corrected `TimeOffQueryFor`, not the call written at static/js/calendar.js:58-59; `TimeOffQueryAsWritten` models that one.
- SetupActions: the completed button's display is the corrected `CompletedDisplay`, not the one written at static/js/ui.js:368-370 (`CompletedDisplayAsWritten` models that one). A missing completed button throws as written.
- SaveService: `reloadData` also reloads the categories table and the staff list; only the services table's reload is modelled. The categories it sets are those of the services reply.
- UserId: a `user_id` that is not a string (a number, say) is not modelled; the views would look it up and store it as its `str()`.
- StaffManager: a staff entry's `status` is a boolean. An entry without one would show "Inactive" in the table and yet open with the active box checked (`status !== false`).
- Files outside the core: login and authentication flows, DataTables configuration, toasts and loading overlays, the superseded dashboard and settings scripts, the static optimisation command, the Django route and view glue, and users/tests.py.

## Findings

| source | as written | input that shows it | evidently intended | confidence | as-written member | corrected member |
|---|---|---|---|---|---|---|
| users/api_proxy.py:448-491 | logout sets `access_token` and `refresh_token` twice, first host-only and then for `.salona.me`; Django keeps one cookie per name, so the second call replaces the first | a POST logout with the default API base `https://api.salona.me` | delete both the host-only and the parent-domain cookies | medium, not executed | ApiProxy.LogoutAsWrittenLosesHostOnlyDeletion | ApiProxy.Logout |
| users/reports.py:199-215 | the previous period's revenue sums raw `total_price` in cents, while the current revenue is in dollars | two identical periods with revenue: the revenue change is -99% instead of 0% | compare dollars with dollars | high, not executed | Reports.ComparisonAsWrittenMisreports | Reports.Comparison |
| customers/views.py:17 | `rstrip('/api')` strips any trailing run of the characters '/', 'a', 'p', 'i', not the suffix | base "https://salona.app/api" gives "https://salona./api/v1/..." | remove one trailing "/api" | high, not executed | CustomerViews.ApiUrlAsWrittenOverStrips | CustomerViews.ApiUrl |
| static/js/calendar.js:58-59 | the time-off fetch passes the end date as the second argument, which `fetchTimeOffs` reads as the availability type | any calendar refresh: the query's availability type is the end date text | query time off for the week's window | medium, not executed | Calendar.TimeOffQueryAsWrittenSendsDate | Calendar.TimeOffQueryFor |
| static/js/notification-page.js:388-390 | after a successful update the page calls `window.NotificationManager.fetchNotifications`, which static/js/notifications.js does not define; the TypeError lands in the catch and shows the error toast | marking a notification read when the server answers success | refresh the header badge, then report success | low, not executed | NotificationPage.MarkAsReadAsWrittenReportsFailure | NotificationPage.Page.MarkAsRead |
| static/js/notification-page.js:429-430 | after a successful delete the page calls the undefined `window.NotificationManager.fetchNotifications`; the TypeError lands in the catch and shows the error toast | deleting a notification when the server answers success | refresh the header badge, then report success | low, not executed | NotificationPage.DeleteNotificationAsWrittenReportsFailure | NotificationPage.Page.DeleteNotification |
| static/js/notification-page.js:477-478 | after a successful mark-all the page calls the undefined `window.NotificationManager.fetchNotifications`; the TypeError lands in the catch and shows the error toast | marking all notifications read when the server answers success | refresh the header badge, then report success | low, not executed | NotificationPage.MarkAllAsReadAsWrittenReportsFailure | NotificationPage.Page.MarkAllAsRead |
| static/js/service-manager.js:1297-1299 | the end date comes from `toISOString` (a UTC date) while the end time is local | a 01:00 start of 30 minutes at UTC+4: the previous day's date with 01:30 | the local date of the end | high, not executed | ServiceManager.EndAsWrittenWrongDay | ServiceManager.End |
| static/js/ui.js:366-425 | the completed button is shown for a confirmed booking but never hidden for other statuses while it exists | a confirmed booking's popup, then a scheduled booking's popup: both the confirm and the completed button show | hide the completed button unless the booking is confirmed | medium, not executed | UI.CompletedDisplayAsWrittenLeaksIntoScheduled | UI.CompletedDisplay |
