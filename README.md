# hhfront client core, modelled in Dafny

This project models the client-side core of hhfront, a Next.js front end for
applying to job postings on hh.ru. It covers four areas:

- **Session.** The OAuth code in the page URL is exchanged for a token. The
  token is kept in a cookie and attached to requests as a bearer header. The
  session hook restores or creates a session at start-up and clears it on
  logout.
- **Vacancy list.** Search results get a default selection. Updates are merged
  into the list by identifier. The table derives its counters and the header
  checkbox and offers toggle-all. The description loader and the analyze-all
  and generate-all loops walk the list one vacancy at a time. The batch
  submission counts successes and isolates each failure.
- **TTL response cache.**
- **Small helpers.** The region list is flattened out of the country tree. The
  search form turns its fields, or a pasted search link, into query parameters.

Each backend call is modelled by what it contributes:

- The request is appended to the `sent` log of the `ApiService` object.
- The reply is an input of the method: a success value, or a rejection with
  the backend's `detail`.
- A loop that makes several calls takes `replies(k)` (or `ok(k)`), the outcome
  of its k-th call.

The clock is an integer `now` in milliseconds. The browser's cookie jar and
`window.location` form a `Browser` object. Locale number rendering, date
parsing and URL parsing are function parameters.

Modules:

- `Wrappers`: `Option`, `Reply`, JavaScript truthiness.
- `Text`: number rendering and `join`.
- `Vacancies`: the vacancy record, `{...v, ...u}` as `Merge`, update by id, filters.
- `ApiServices`: the service singleton, headers, request shapes and the request log.
- `CacheServices`: the TTL cache.
- `Auth`: the cookie token store and URL helpers.
- `UseAuth`: the session hook.
- `UseVacancies`: the vacancy hook.
- `VacanciesTable`: counters, formatters and the snapshot loops.
- `Areas`: the area tree helpers.
- `VacancyFilters`: the search parameter builder.

A partial update `Partial<Vacancy>` is a `Patch`. Each of its fields is
`None` when the key is absent and `Some(x)` when the key is present. `x` may
itself be `None`, which is a key present with the value `undefined`; a spread
still copies such a key.

## Model

| member | source | states |
|---|---|---|
| Wrappers.OrElse | src/hooks/useAuth.ts:64 | `a \|\| fallback`: the backend message when it is non-empty, the fixed fallback otherwise |
| Vacancies.Merge | src/hooks/useVacancies.ts:30 | every field present in the update is overwritten with its value (undefined included); every other field and all search fields are kept |
| Vacancies.MergeThen | src/hooks/useVacancies.ts:30 | two successive merges equal one merge in which the later update's keys win |
| Vacancies.MergeIdempotent | src/hooks/useVacancies.ts:30 | applying the same update twice equals applying it once |
| Vacancies.UpdateById | src/hooks/useVacancies.ts:29-31 | same length; entries with another id unchanged; entries with the id merged with the update |
| Vacancies.UpdateKeepsIds | src/hooks/useVacancies.ts:29-31 | an update keeps the identifiers and their order |
| Vacancies.UpdateUnknownId | src/hooks/useVacancies.ts:29-31 | an update for an id not in the list changes nothing |
| Vacancies.UpdateThen | src/hooks/useVacancies.ts:29-31 | two updates of one id combine like two spreads |
| Vacancies.UpdatesCommute | src/hooks/useVacancies.ts:29-31 | updates of different ids commute |
| Vacancies.Letter | src/hooks/useVacancies.ts:60 | the `aiLetter!` of a batch vacancy exists and is non-empty |
| Vacancies.Where | src/components/VacanciesTable.tsx:36 | `filter`: no longer than the list, every kept vacancy satisfies the test and comes from the list |
| Vacancies.WhereExactly | src/components/VacanciesTable.tsx:36 | a vacancy is kept if and only if it is in the list and passes the test |
| Vacancies.WhereEmpty | src/hooks/useVacancies.ts:52-53 | the filter is empty exactly when no vacancy passes |
| Vacancies.WhereAppend | src/components/VacanciesTable.tsx:36 | filtering keeps list order: a qualifying vacancy appended to the list is appended to the result |
| ApiServices.BaseUrl | src/services/apiService.tsx:4 | the configured URL when it is non-empty, else `http://localhost:8000` |
| ApiServices.Headers | src/services/apiService.tsx:23-25 | an `Authorization` key exactly when the token is non-empty, with value `Bearer <token>`, and no other key |
| ApiServices.RequestFor | src/services/apiService.tsx:28-83 | each endpoint's URL, verb and query; the bearer header on resume, search, analyze, letter and apply and on no other call; the code as a query parameter of the callback; `{message}` as the apply body |
| ApiServices.VacancyPathInjective | src/services/apiService.tsx:63-83 | different vacancy ids give different paths for the same action |
| ApiServices.ApiService.constructor | src/services/apiService.tsx:8-10 | a new service has an empty token and has sent nothing |
| ApiServices.ApiService.SetToken | src/services/apiService.tsx:19-21 | the token is replaced and nothing is sent |
| ApiServices.ApiService.Send | src/services/apiService.tsx:28-83 | exactly the endpoint's request, carrying the current token, is appended to the log |
| ApiServices.Registry.GetInstance | src/services/apiService.tsx:12-17 | the first call creates a fresh service and every later call returns that same object |
| CacheServices.Expiry | src/services/cacheService.tsx:5-10 | the expiry is `now + ttl`; an absent or zero ttl gives `now + 300000` |
| CacheServices.Lookup | src/services/cacheService.tsx:12-22 | a read answers exactly when the key is stored and `now` is not past its expiry, with the stored data |
| CacheServices.AfterGet | src/services/cacheService.tsx:16-19 | a read deletes only its own key, and only when that entry has expired; other entries stay as they were |
| CacheServices.SetThenGet | src/services/cacheService.tsx:5-21 | a value read no later than its expiry is the value stored |
| CacheServices.SetKeepsOtherKeys | src/services/cacheService.tsx:5-10 | storing under one key leaves every other key's reads unchanged |
| CacheServices.ExpiredStaysGone | src/services/cacheService.tsx:16-19 | a read of an expired entry returns null, and every later read of the key returns null, whatever the instant |
| CacheServices.NeverStoredReadsNull | src/services/cacheService.tsx:13-14 | a key not in the map reads as null on every read |
| CacheServices.GetKeepsOtherKeys | src/services/cacheService.tsx:12-22 | a read never changes what another key returns |
| CacheServices.CacheService.Set | src/services/cacheService.tsx:5-10 | the entry for the key is replaced by the data and its expiry |
| CacheServices.CacheService.Get | src/services/cacheService.tsx:12-22 | returns the lookup result and leaves the map as the read step defines; a hit leaves the map unchanged |
| CacheServices.CacheService.Clear | src/services/cacheService.tsx:24-26 | afterwards the map is empty and every read returns null |
| Auth.GetToken | src/utils/auth.ts:7-9 | the cookie `jwt_token`, or undefined when it is missing |
| Auth.IsAuthenticated | src/utils/auth.ts:19-21 | authenticated exactly when the `jwt_token` cookie exists and is non-empty |
| Auth.SetToken | src/utils/auth.ts:11-13 | the token is stored under `jwt_token` and read back unchanged; the session counts as authenticated exactly when it is non-empty |
| Auth.RemoveToken | src/utils/auth.ts:15-21 | only `jwt_token` is removed; afterwards there is no token and no session |
| Auth.LoginUrl | src/utils/auth.ts:23-30 | `#` exactly when there is no window; otherwise the link starts with the provider's authorize URL and ends with this page's origin |
| Auth.QueryGet | src/utils/auth.ts:35 | `URLSearchParams.get`: null when the name is absent, otherwise the value of its first occurrence |
| Auth.AuthCode | src/utils/auth.ts:32-36 | null without a window, otherwise the URL's `code` parameter |
| Auth.ClearAuthCodeFromUrl | src/utils/auth.ts:38-42 | the page path becomes `/` with no query, so no code can be read afterwards; cookies are untouched |
| UseAuth.InitDecision | src/hooks/useAuth.ts:56-66 | restore exactly when a token is saved and no resume is loaded; exchange exactly when a code is present and no token is saved; otherwise nothing |
| UseAuth.SavedTokenPreventsExchange | src/hooks/useAuth.ts:53-60 | a truthy saved token rules out any code exchange; with no resume loaded it restores that token |
| UseAuth.LoggedOut | src/hooks/useAuth.ts:42-47 | after logout there is no token, resume or session; the loading flag and the other cookies are kept |
| UseAuth.LogoutIdempotent | src/hooks/useAuth.ts:42-47 | logging out twice leaves the same state as logging out once |
| UseAuth.AuthHook.constructor | src/hooks/useAuth.ts:8-11 | initial state: empty token, no resume, loading, not authenticated |
| UseAuth.AuthHook.FetchResume | src/hooks/useAuth.ts:15-23 | the service token is set before the resume request; a failure leaves the resume as it was |
| UseAuth.AuthHook.Authenticate | src/hooks/useAuth.ts:25-40 | on success: cookie, token and flag are set, the URL code is cleared and the resume is fetched with the new token; on failure the error is returned and nothing but the request log changes (the code stays in the URL) |
| UseAuth.AuthHook.Logout | src/hooks/useAuth.ts:42-47 | the new state is `LoggedOut` of the old one; the URL is untouched and no request is sent |
| UseAuth.AuthHook.RestoreSession | src/hooks/useAuth.ts:56-59 | a saved token becomes the session token and the API token, the session is authenticated, and exactly the resume request is sent with it |
| UseAuth.AuthHook.ExchangeAtStart | src/hooks/useAuth.ts:60-65 | success: the exchange request then the resume request with the new token, the token stored in the cookie and set on the service and the session, the code gone from the URL, no alert; failure: only the exchange request, an alert with the backend detail or the fallback, and session, service token, resume and browser unchanged |
| UseAuth.AuthHook.InitAuth | src/hooks/useAuth.ts:52-71 | follows `InitDecision`: restore sends only the resume request with the saved token; an exchange sends the exchange request and, on success, the resume request with the new token, while a failure sends nothing more and becomes an alert with the backend detail or the fallback; with neither token nor code nothing changes; loading drops only while mounted |
| UseVacancies.WithDefaultSelection | src/hooks/useVacancies.ts:16-19 | the same vacancies in the same order, each with `selected = true`; no items gives an empty list |
| UseVacancies.SelectAll | src/hooks/useVacancies.ts:16-19 | same length, and each entry is the vacancy at the same position with `selected = true` |
| UseVacancies.SearchResultsAllSelected | src/hooks/useVacancies.ts:16-20 | search results keep the backend's ids in order and are all ticked and counted as selected |
| UseVacancies.Eligible | src/hooks/useVacancies.ts:52 | the batch is exactly the vacancies with `selected` true and a non-empty letter; it is empty exactly when none qualifies |
| UseVacancies.ApplyRequests | src/hooks/useVacancies.ts:58-60 | one apply request per vacancy of the batch (the request at each position is stated by `ApplyRequestsInOrder`) |
| UseVacancies.UndefinedSelectionIsNotSent | src/hooks/useVacancies.ts:52 | a vacancy whose selection is undefined shows as ticked but is not sent |
| UseVacancies.ApplyRequestsInOrder | src/hooks/useVacancies.ts:58-60 | the k-th request of a batch is the apply request for the batch's k-th vacancy, carrying its letter |
| UseVacancies.ApplyEach | src/hooks/useVacancies.ts:58-65 | the send loop: exactly the batch's apply requests, in order, whatever fails; the count is the number of calls that succeeded |
| UseVacancies.CountOk | src/hooks/useVacancies.ts:56-65 | the success count never exceeds the number of calls |
| UseVacancies.CountOkExtremes | src/hooks/useVacancies.ts:56-67 | all calls succeeding reports all of them; all failing reports zero |
| UseVacancies.ScoreTouchesOnlyScore | src/hooks/useVacancies.ts:33-40 | a score update changes only the score, and only for that id |
| UseVacancies.ScorelessReplyErasesScore | src/hooks/useVacancies.ts:35-36 | a successful reply without a `score` leaves that vacancy with an undefined score, so it counts as unscored again |
| UseVacancies.VacanciesHook.constructor | src/hooks/useVacancies.ts:6-7 | an empty list and an idle label |
| UseVacancies.VacanciesHook.SearchVacancies | src/hooks/useVacancies.ts:11-27 | one search request; on success the list is the selected results; on failure the list is kept and the alert carries the backend description or the fallback; the label is idle afterwards either way |
| UseVacancies.VacanciesHook.UpdateVacancy | src/hooks/useVacancies.ts:29-31 | the list becomes `UpdateById` of the old list |
| UseVacancies.VacanciesHook.AnalyzeVacancy | src/hooks/useVacancies.ts:33-40 | one analyze request; on success that id's score becomes the reply's `score`, or undefined when the reply has none; on failure the list is unchanged; either way every field but scores stays as it was |
| UseVacancies.VacanciesHook.GenerateLetter | src/hooks/useVacancies.ts:42-49 | one letter request; on success that id's letter becomes the reply's `content`, or undefined when the reply has none; on failure the list is unchanged; either way every field but letters stays as it was |
| UseVacancies.VacanciesHook.SendApplications | src/hooks/useVacancies.ts:51-69 | empty batch: no call, no report, no alert, label untouched; otherwise exactly the batch's apply requests in order, the report counts successes out of the batch size, the alert shows that report, and the label ends idle |
| VacanciesTable.SelectedCount | src/components/VacanciesTable.tsx:36 | at most the list length; zero exactly when no vacancy is selected with a letter |
| VacanciesTable.AllSelected | src/components/VacanciesTable.tsx:37 | the header is ticked exactly when the list is non-empty and no vacancy has `selected === false` |
| VacanciesTable.SelectedCountAppend | src/components/VacanciesTable.tsx:36 | the count starts at 0 and grows by one exactly for each sendable vacancy |
| VacanciesTable.UndefinedSelectionShowsButDoesNotCount | src/components/VacanciesTable.tsx:36-37 | with every selection undefined the header box is ticked while the send count is 0 |
| VacanciesTable.SetSelected | src/components/VacanciesTable.tsx:40-43 | every vacancy gets the given selection and keeps every other field |
| VacanciesTable.ToggleFlipsHeader | src/components/VacanciesTable.tsx:37-43 | on a non-empty list, toggle-all flips the header checkbox |
| VacanciesTable.ToggleOnCountsLetters | src/components/VacanciesTable.tsx:36-42 | after toggling all on, a vacancy is sendable exactly when it has a letter |
| VacanciesTable.ToggleAll | src/components/VacanciesTable.tsx:40-43 | the list becomes `SetSelected(old, !AllSelected(old))`: selections set, nothing else changed |
| VacanciesTable.FormatSalary | src/components/VacanciesTable.tsx:45-52 | null exactly when there is no salary |
| VacanciesTable.FullSalary | src/components/VacanciesTable.tsx:45-52 | both bounds and a currency read `от X до Y CUR` |
| VacanciesTable.LowerBoundOnly | src/components/VacanciesTable.tsx:45-52 | a lower bound alone reads `от X`; a zero bound and an empty currency are omitted |
| VacanciesTable.FalsySalaryIsEmpty | src/components/VacanciesTable.tsx:45-52 | a salary with only falsy parts renders as the empty string, not null |
| VacanciesTable.ElapsedDays | src/components/VacanciesTable.tsx:58 | the whole days elapsed, rounded down, also for dates in the future |
| VacanciesTable.AgeOf | src/components/VacanciesTable.tsx:60-64 | today for 0, yesterday for 1, days below 7 (negatives included), weeks 1 to 4 for 7..29, months of at least 1 from 30 on, each count the floor of the division |
| VacanciesTable.FormatDate | src/components/VacanciesTable.tsx:54-65 | empty for a missing or empty date; an unparsable date reads `NaN месяцев назад`; otherwise, with d the whole days elapsed: `Сегодня` for 0, `Вчера` for 1, `d дней назад` for any other d below 7 (negative ones included), `floor(d/7) недель назад` below 30, `floor(d/30) месяцев назад` from 30 on |
| VacanciesTable.RecentDates | src/components/VacanciesTable.tsx:58-61 | less than a day ago: `Сегодня`; one to two days ago: `Вчера` |
| VacanciesTable.FutureDate | src/components/VacanciesTable.tsx:58-62 | a date in the future reads as a negative number of days |
| VacanciesTable.DaysAgoDates | src/components/VacanciesTable.tsx:58-62 | two to six whole days ago reads `d дней назад` with d from 2 to 6 |
| VacanciesTable.OlderDates | src/components/VacanciesTable.tsx:62-64 | 7 to 29 days reads `floor(d/7)` weeks, which is 1 to 4; from 30 days on it reads `floor(d/30)` months, at least 1 |
| VacanciesTable.DescriptionText | src/components/VacanciesTable.tsx:223 | the description, else the requirement, else the responsibility, else empty; empty exactly when none of them is non-empty |
| VacanciesTable.DescriptionCell | src/components/VacanciesTable.tsx:215-225 | a placeholder exactly while loading, the description text otherwise |
| VacanciesTable.ScoreClass | src/components/VacanciesTable.tsx:228-232 | no badge without a score; high from 70, medium from 40 to 69, low below 40 |
| VacanciesTable.Finish | src/components/VacanciesTable.tsx:74-81 | the closing update always clears loading and never touches score, letter or selection; on success it carries the description and the details' schedule and employment, falling back to the vacancy's own |
| VacanciesTable.LoadStep | src/components/VacanciesTable.tsx:67-83 | a skipped vacancy changes nothing; otherwise the two updates together equal the closing update alone, applied to that id |
| VacanciesTable.LoadSetsDescription | src/components/VacanciesTable.tsx:74-79 | a successful load sets the description, clears loading, keeps schedule and employment when the details lack them, and changes no other field |
| VacanciesTable.LoadFailureOnlyClearsLoading | src/components/VacanciesTable.tsx:67-83 | a failed load only clears the loading flag; a skipped vacancy changes nothing |
| VacanciesTable.LoadDescriptionAsWritten | src/components/VacanciesTable.tsx:67-83 | as written the detail call always throws: loading is set, then cleared, and nothing is fetched |
| VacanciesTable.AsWrittenNeverLoads | src/components/VacanciesTable.tsx:73 | as written no load ever changes a description |
| VacanciesTable.LoadDescription | src/components/VacanciesTable.tsx:67-83 | with a detail lookup: no request for a skipped vacancy, otherwise exactly one detail request; the list becomes the load step's result |
| VacanciesTable.LoadDescriptions | src/components/VacanciesTable.tsx:86-99 | nothing for an empty list; otherwise detail requests exactly for the snapshot's vacancies without a description that are not loading, in order; only detail fields change; every visited vacancy ends not loading |
| VacanciesTable.AnalyzeAll | src/components/VacanciesTable.tsx:102-108 | analyze requests exactly for the vacancies with an undefined score, in order (a score of 0 counts as present and is skipped); only scores change |
| VacanciesTable.ScoreOne | src/components/VacanciesTable.tsx:104-106 | one iteration of `analyzeAll`: an analyze request exactly when the score is undefined, which consumes one reply; the list after it is that vacancy's id updated with the reply's score on success, and unchanged otherwise |
| VacanciesTable.WriteOne | src/components/VacanciesTable.tsx:112-114 | one iteration of `generateAll`: a letter request exactly when the letter is missing or empty, which consumes one reply; the list after it is that vacancy's id updated with the reply's letter on success, and unchanged otherwise |
| VacanciesTable.GenerateAll | src/components/VacanciesTable.tsx:110-116 | letter requests exactly for the vacancies without a non-empty letter, in order; only letters change |
| Areas.FindArea | src/utils/areas.ts:6 | the first area with the id, or none when no area has it |
| Areas.RussianAreas | src/utils/areas.ts:6-7 | empty when no area has id `113` or it has no sub-area list |
| Areas.RegionsWithCities | src/utils/areas.ts:11-18 | one entry per region plus one per city of each region |
| Areas.ListsEveryRegionAndCity | src/utils/areas.ts:11-18 | every region, and every city of a region, appears in the flat list |
| Areas.RegionsWithCitiesAppend | src/utils/areas.ts:11-18 | flattening distributes over the region list, so regions keep their order |
| Areas.RegionThenItsCities | src/utils/areas.ts:11-18 | each region is immediately followed by its own cities, after everything from the regions before it |
| Areas.OnlyRegionsAndCities | src/utils/areas.ts:11-18 | every entry is a region or a city of a region; grandchildren never appear |
| Areas.FlattenRussianAreas | src/utils/areas.ts:5-21 | the nested push loops produce exactly `RussianAreas(areas)` |
| Areas.PushAll | src/utils/areas.ts:14-16 | the inner loop appends the region's cities, all of them and in order |
| Areas.FormatAreaNameAsWritten | src/utils/areas.ts:23-25 | a name with a non-empty parent gets the literal prefix as written; any other name is bare |
| Areas.AsWrittenPrefixIsNotDash | src/utils/areas.ts:24 | as written, a child's name starts with `â` and four extra characters, not with the dash |
| Areas.FormatAreaName | src/utils/areas.ts:23-25 | a name gets the em-dash prefix exactly when its parent is non-empty; otherwise it is bare |
| VacancyFilters.FromEntries | src/components/VacancyFilters.tsx:51 | one key per distinct name, holding the value of its last occurrence |
| VacancyFilters.LaterDuplicateWins | src/components/VacancyFilters.tsx:51 | a later duplicate name overrides an earlier one |
| VacancyFilters.FormParams | src/components/VacancyFilters.tsx:57-65 | each non-empty text field under its name, verbatim; `only_with_salary: true` exactly when ticked; no other key |
| VacancyFilters.InitialSearchIsUnfiltered | src/components/VacancyFilters.tsx:10-19 | the initial form yields no parameters at all |
| VacancyFilters.HandleSearch | src/components/VacancyFilters.tsx:46-68 | a non-empty link wins: its query is sent, or an alert if it does not parse; without a link the form parameters are sent; exactly one outcome either way |

## Left out

- HTTP transport (axios). Each call is modelled by its request in the log and a reply given as input. Status codes, retries and response bodies beyond the fields used are not modelled.
- The 200 ms pause between description loads (`src/components/VacanciesTable.tsx:92`). It only spaces the loads out.
- Clocks are the integer `now`. `toLocaleString`, `new Date(...)` and `new URL(...)`/`URLSearchParams` are function parameters. A parsed URL is its list of query pairs.
- The js-cookie write options. The cookie is written without an expiry, and the cookie jar is a map.
- `window.history`. After `replaceState` only the path `/` with no query is kept, and the history stack is not modelled.
- `alert` and `console.error`. An alert is a returned value, and logging is dropped.
- React scheduling:
  - A state setter takes effect at once.
  - Each handler runs to completion, in sequence, over the list as it was when it started.
  - The effect dependency key (`src/components/VacanciesTable.tsx:100`) and stale-closure interleavings are not modelled.
  - The unmount race at `src/hooks/useAuth.ts:68-77` is the `mounted` parameter.
- The dictionaries and areas load in the filter form (`src/components/VacancyFilters.tsx:23-44`): the `isLoaded` guard and `Promise.all`. The flattening it applies is modelled. The requests it makes are `Endpoint.Dictionaries` and `Endpoint.Areas`.
- Filter edits by spread (`src/components/VacancyFilters.tsx:80-176`). They are one-field record copies.
- The per-row checkbox and letter edits (`src/components/VacanciesTable.tsx:172`, `:240`). Each is an `UpdateVacancy` with a one-field patch.
- Markup and styling: `src/components/LandingPage.tsx`, the view switch in `src/pages/index.tsx`, and `next.config.js`, which only configures the proxy.
- Patches cover only the seven fields the client ever updates. No handler in the source updates the search fields.
- The module-level `instance` of the service is the `Registry` object. Hook code receives the service as a parameter.
- JavaScript numbers are unbounded integers here: salary bounds, scores, the cache `ttl` and the clock. Fractions, NaN and Infinity cannot be expressed. The one NaN the code can meet, the day count of an unparsable date, is modelled on its own by `VacanciesTable.FormatDate`.
- UseVacancies.VacanciesHook.AnalyzeVacancy: a reply whose `score` is `null` is not modelled, because the vacancy's score has no null. The source stores `null`, which `analyzeAll` then counts as scored (`null !== undefined`). A reply with no `score` is modelled and writes undefined.
- UseVacancies.VacanciesHook.GenerateLetter: a reply whose `content` is `null` reads here as one without `content`. Both are stored as undefined, while the source keeps `null`. Every test the client makes on a letter treats the two alike, because both are falsy.
- VacanciesTable.AnalyzeAll: states which requests are sent and that only scores change. It does not state which score each vacancy ends with, because with duplicate ids a later reply overrides an earlier one.
- VacanciesTable.GenerateAll: as for `AnalyzeAll`, but for letters.
- VacanciesTable.LoadDescriptions: states the requests, that only detail fields change and that loading ends cleared. It does not state which reply each vacancy ends with.
- Auth.LoginUrl: states the fixed prefix and the origin suffix, not the middle (the client id and `&redirect_uri=`). The body builds exactly that string.
- VacanciesTable.FormatSalary: the contract states only null versus present. The content of the line is stated by `FullSalary`, `LowerBoundOnly` and `FalsySalaryIsEmpty` for the main shapes, not for every combination.

Behaviour described for the system but not present in its code. The model follows the code:

- There is no logout on a 401 reply.
- There is no refresh token.
- There is no tagging of a result set to discard stale enrichment.
- The OAuth code is cleared from the URL only after a successful exchange. After a failure it stays.
- The cookie is written without an expiry.
- Logout does not reset the service's token. Later requests still carry the old bearer header until the next `setToken`.
- A cache entry is still valid at its exact expiry instant.

## Findings

| source | as written | input that shows it | evidently intended | confidence | as-written member | corrected member |
|---|---|---|---|---|---|---|
| src/components/VacanciesTable.tsx:73 | calls `apiService.getVacancyDetails`, which `ApiService` (src/services/apiService.tsx:6-84) does not declare, so the call throws a TypeError that the catch swallows | any vacancy without a description | a detail request for the vacancy (modelled as GET `/api/vacancy/{id}`; the path is an assumption) whose reply fills the description | not executed | VacanciesTable.LoadDescriptionAsWritten, VacanciesTable.AsWrittenNeverLoads | VacanciesTable.LoadDescription, VacanciesTable.LoadSetsDescription |
| src/utils/areas.ts:24 | the prefix literal is U+00E2 U+20AC U+201D and a space, which is the UTF-8 bytes of an em dash read back as Windows-1252 | any area with a non-empty `parent_id` | an em dash (U+2014) and a space | not executed | Areas.FormatAreaNameAsWritten, Areas.AsWrittenPrefixIsNotDash | Areas.FormatAreaName |
