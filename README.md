# GitHub traffic dashboard — a Dafny model

This project models the logic of a small single-page dashboard that shows
and compares the traffic of up to five GitHub repositories. The user signs
in with a personal access token, picks an account whose repositories are
listed, and selects repositories. The page then fetches each repository's
views, clones and popular referrers, and draws day-by-day charts, a
referrer bar chart, stars/forks bars and per-repository totals.

The model has five modules, one per file:

- `js_lib.dfy` (`JsLib`): the JavaScript library behaviour the page relies
  on, written out as Dafny definitions. It covers `String.prototype.split`
  up to the first separator, `String.prototype.trim` with its whitespace
  set, the default `Array.prototype.sort` on strings, a `Set` kept in
  insertion order, and `filter`, `findIndex`/`find` and `reduce`.
- `repository_selector.dfy` (`RepositorySelector`): the `Repository`
  record, membership by id, and the picker's toggle. The picker's popover
  state is a class. The module also holds the check-mark, disabled-trigger
  and chip definitions.
- `repository_metrics.dfy` (`RepositoryMetrics`): the chart data.
  - The views and clones rows are built by loops, as in the source. A `Set`
    of days is collected, sorted, and each day's row is filled repository
    by repository.
  - The module also builds the rows of the referrer bar chart, the
    stars/forks rows and the totals.
- `github.dfy` (`GitHub`): the API wrapper.
  - The response cache is a class holding a map. `FetchGitHub` updates it.
  - The module also has the request paths, the mapping of the repository
    listing, and the all-or-nothing assembly of a repository's metrics.
- `index_page.dfy` (`IndexPage`): the page's session state as a class.
  - Its handlers are select, deselect, toggle, the metrics fetch (a loop
    over the repositories still to fetch), the repository listing, token
    validation, username search and logout.
  - Its invariant `Valid` holds the rules the handlers maintain:
    - at most five repositories are selected;
    - no id is selected twice;
    - there is at most one statistics entry per repository;
    - statistics exist only for selected repositories.

The network is a parameter. A `Server` is a function from a request path
and a token to an outcome. The outcome is a parsed body, a non-ok HTTP
status with its text, or a rejected request. The clock reading `Date.now()`
is a parameter `now`.

Two behaviours of the code are easy to miss, and the model reproduces both:

- A failed request for any of the three series empties all three
  (`GitHub.AssembleStats`, `src/services/github.ts:117-126`). The series
  whose requests succeeded are not kept.
- A failed listing keeps the previous list (`IndexPage.Session.FetchRepositories`,
  `src/pages/Index.tsx:109-117`). It does not empty it.

## Model

| member | source | states |
|---|---|---|
| JsLib.PrefixBefore | src/components/RepositoryMetrics.tsx:83 | `split(c)[0]`: the result is a prefix of the input, does not contain the separator, and is followed by the separator unless it is the whole input |
| JsLib.SecondPart | src/services/github.ts:102 | `split(c)[1]` is absent exactly when the separator does not occur |
| JsLib.SecondPartJoin | src/services/github.ts:102 | `split(c)[1]` of `a + c + b` is `b` when neither part holds the separator, also when a further separator and more text follow |
| JsLib.PrefixBeforeNone | src/services/github.ts:102 | without the separator, the first part is the whole string |
| JsLib.PrefixBeforeJoin | src/services/github.ts:102 | splitting `a + c + b` where `a` has no `c` gives back `a` |
| JsLib.JoinInjective | src/services/github.ts:13 | joining two strings with a separator absent from the first part is injective |
| JsLib.LeadingWhitespace | src/pages/Index.tsx:123 | the counted prefix is whitespace and the next character is not |
| JsLib.TrailingWhitespace | src/pages/Index.tsx:123 | the counted suffix is whitespace and the character before it is not |
| JsLib.Trim | src/pages/Index.tsx:123-126 | `trim()` never makes a string longer |
| JsLib.TrimKeepsMiddle | src/pages/Index.tsx:123-126 | the trimmed string is a contiguous slice of the input; only whitespace is removed on each side; its first and last characters are not whitespace |
| JsLib.TrimEmptyIffWhitespace | src/pages/Index.tsx:123 | `trim()` is empty if and only if the input is all whitespace, which is the guard of username search |
| JsLib.TrimIdempotent | src/pages/Index.tsx:123-126 | trimming twice equals trimming once |
| JsLib.StrLessIrreflexive | src/components/RepositoryMetrics.tsx:88 | the default sort's string order is irreflexive |
| JsLib.StrLessTransitive | src/components/RepositoryMetrics.tsx:88 | that order is transitive |
| JsLib.StrLessTotal | src/components/RepositoryMetrics.tsx:88 | that order is total on distinct strings |
| JsLib.StrLessAsymmetric | src/components/RepositoryMetrics.tsx:88 | that order is asymmetric |
| JsLib.StrictlySortedNoDuplicates | src/components/RepositoryMetrics.tsx:88-91 | a strictly ascending list of days has no repeated day |
| JsLib.Insert | src/components/RepositoryMetrics.tsx:88 | insertion into a sorted list adds exactly that one element |
| JsLib.InsertStrictlySorted | src/components/RepositoryMetrics.tsx:88 | inserting a new string into a strictly sorted list keeps it strictly sorted |
| JsLib.SortStrings | src/components/RepositoryMetrics.tsx:88 | `Array.from(set).sort()` is a permutation of its input |
| JsLib.SortStringsStrict | src/components/RepositoryMetrics.tsx:88 | sorting a duplicate-free list gives a strictly ascending list |
| JsLib.FirstSeen | src/components/RepositoryMetrics.tsx:138-145 | a `Set` filled in order holds each value once, and exactly the values added |
| JsLib.FirstSeenAppend | src/components/RepositoryMetrics.tsx:141 | adding one value to the set equals the set of the extended sequence |
| JsLib.FirstSeenOrder | src/components/RepositoryMetrics.tsx:138-145 | the set lists its values in the order of their first occurrence |
| JsLib.Filter | src/pages/Index.tsx:146-152 | `filter` keeps exactly the elements that pass, and never grows the list |
| JsLib.FilterConcat | src/pages/Index.tsx:146-152 | `filter` distributes over concatenation, so kept elements keep their relative order |
| JsLib.FilterDistinctKeys | src/pages/Index.tsx:146-152 | filtering a list whose keys are distinct leaves the keys distinct |
| JsLib.FindIndex | src/components/RepositoryMetrics.tsx:95 | `findIndex` returns the first position that satisfies the test, or the length when none does |
| JsLib.SumBy | src/components/RepositoryMetrics.tsx:345-347 | `reduce((sum, x) => sum + f(x), 0)` gives 0 on an empty list and is non-negative when every term is |
| JsLib.SumByConcat | src/components/RepositoryMetrics.tsx:345-347 | the fold is additive over concatenation |
| RepositorySelector.IsSelected | src/components/RepositorySelector.tsx:50 | a repository is selected if and only if some selected entry has its id; no other field is compared |
| RepositorySelector.ToggleAction | src/components/RepositorySelector.tsx:49-56 | the picker deselects if and only if the id is already selected, and selects otherwise |
| RepositorySelector.SelectorState.constructor | src/components/RepositorySelector.tsx:46 | the popover starts closed |
| RepositorySelector.SelectorState.HandleSelect | src/components/RepositorySelector.tsx:49-56 | the callback chosen is the toggle's decision; the popover closes after a select and is untouched after a deselect |
| RepositorySelector.CheckMarkClass | src/components/RepositorySelector.tsx:107-113 | the check mark is visible if and only if the repository's id is selected |
| RepositorySelector.TriggerDisabled | src/components/RepositorySelector.tsx:84 | the trigger is disabled if and only if loading or there are no repositories |
| RepositorySelector.Chips | src/components/RepositorySelector.tsx:61-74 | one chip per selected repository in selection order, keyed by id, showing the name, and removing that repository |
| RepositoryMetrics.AllDaysMembers | src/components/RepositoryMetrics.tsx:78-85 | a day is collected if and only if some repository has a record on that day |
| RepositoryMetrics.FindByDay | src/components/RepositoryMetrics.tsx:95 | `find` by day gives the first record of that day, or nothing exactly when no record has that day |
| RepositoryMetrics.CollectDays | src/components/RepositoryMetrics.tsx:78-85 | the loops fill the `Set` with every record's day in first-seen order |
| RepositoryMetrics.AddDays | src/components/RepositoryMetrics.tsx:82-84 | the inner loop adds one repository's days to the `Set` |
| RepositoryMetrics.FillRow | src/components/RepositoryMetrics.tsx:92-100 | a row carries, for every repository, the count and uniques of its first record of the day, or 0 and 0 |
| RepositoryMetrics.FillRows | src/components/RepositoryMetrics.tsx:91-101 | one filled row per given day, in the given order |
| RepositoryMetrics.PrepareSeriesData | src/components/RepositoryMetrics.tsx:77-126 | `prepareViewsData` and `prepareClonesData`: rows are strictly ascending by date; a date has a row if and only if some repository has a record that day; every row is dense as in `FillRow` |
| RepositoryMetrics.TopReferrerNamesMembers | src/components/RepositoryMetrics.tsx:138-145 | a name is collected if and only if it is among the first five referrers of some repository |
| RepositoryMetrics.FindReferrer | src/components/RepositoryMetrics.tsx:151 | `find` gives the first entry with that name in the whole list, or nothing exactly when no entry has it |
| RepositoryMetrics.CollectTopReferrers | src/components/RepositoryMetrics.tsx:138-145 | the loops fill the `Set` with the top-five names of each repository, in first-seen order |
| RepositoryMetrics.AddReferrers | src/components/RepositoryMetrics.tsx:140-142 | the inner loop adds one repository's top-five names to the `Set` |
| RepositoryMetrics.FillReferrerRow | src/components/RepositoryMetrics.tsx:148-155 | each repository's cell is the count of its first entry with that name in its full list, or 0 |
| RepositoryMetrics.FillReferrerRows | src/components/RepositoryMetrics.tsx:147-156 | one filled row per given name, in the given order |
| RepositoryMetrics.PrepareReferrersData | src/components/RepositoryMetrics.tsx:136-157 | rows follow the names in first-seen order; no name repeats; a name has a row if and only if it is in some repository's top five; every cell is filled as in `FillReferrerRow` |
| RepositoryMetrics.PrepareStarsForks | src/components/RepositoryMetrics.tsx:128-134 | one row per repository in the same order, with its name, stars and forks |
| RepositoryMetrics.TotalsOf | src/components/RepositoryMetrics.tsx:345-347 | empty series give zero totals; totals of non-negative counts are non-negative |
| RepositoryMetrics.CountFoldIsCountSum | src/components/RepositoryMetrics.tsx:345 | the left fold of counts equals their sum taken from the front |
| RepositoryMetrics.UniquesFoldIsUniquesSum | src/components/RepositoryMetrics.tsx:346 | the left fold of unique counts equals their sum taken from the front |
| RepositoryMetrics.TotalsAreSums | src/components/RepositoryMetrics.tsx:345-347 | the totals are the sum of view counts, the sum of view uniques, and the sum of clone counts |
| GitHub.CacheKeyInjective | src/services/github.ts:13 | for tokens without `-`, different token/path pairs never share a cache key |
| GitHub.FetchStep | src/services/github.ts:12-46 | a request adds at most its own key to the cache and changes no other entry; no entry is ever removed |
| GitHub.FreshEntryServed | src/services/github.ts:16-19 | an entry younger than five minutes is returned without a request, and the cache is unchanged |
| GitHub.StaleEntryRefetched | src/services/github.ts:16-19 | a missing entry, or one at least five minutes old, causes a request |
| GitHub.SuccessStored | src/services/github.ts:33-41 | a successful request returns its data and stores it with the current time |
| GitHub.ErrorLeavesCache | src/services/github.ts:29-31 | a non-ok response fails with its status and status text; a rejected request fails too; either way the cache, including a stale entry for the key, is unchanged |
| GitHub.RepeatWithinTtlServedFromCache | src/services/github.ts:16-41 | after a successful request, repeating it within five minutes returns the same data without a request, whatever the server would answer |
| GitHub.TokensIsolated | src/services/github.ts:13 | a request never changes an entry stored under another token |
| GitHub.ApiCache.constructor | src/services/github.ts:6 | the cache starts empty |
| GitHub.ApiCache.FetchGitHub | src/services/github.ts:12-46 | `fetchGitHub` returns and stores what `FetchStep` says |
| GitHub.TrafficPathsDistinct | src/services/github.ts:80-96 | the views, clones and referrers paths of a repository differ |
| GitHub.RepoPathInjective | src/services/github.ts:80-96 | for owners without `/`, different owner/name pairs get different traffic paths |
| GitHub.FullNameRoundTrip | src/services/github.ts:102 | splitting `owner/name` gives back the owner and the name |
| GitHub.FullNameWithoutSlash | src/services/github.ts:102 | a full name without `/` is taken whole as owner, and the name becomes `undefined` |
| GitHub.GetAuthenticatedUser | src/services/github.ts:51-53 | requests `/user` through the cache |
| GitHub.MapRepositories | src/services/github.ts:63-70 | the listing keeps length and order; stars and forks come from `stargazers_count` and `forks_count`; id, name, full name and description are copied |
| GitHub.ListingStep | src/services/github.ts:58-75 | a listing request never removes cache entries |
| GitHub.GetRepositories | src/services/github.ts:58-75 | `getRepositories` requests the account's first 100 repositories by last update; an error is passed on; a list is mapped |
| GitHub.AssembleStats | src/services/github.ts:105-126 | the repository is returned unchanged; any failed request, or a body whose `views` or `clones` cannot be read, empties all three series; otherwise the series are the bodies' `views`, `clones` (empty when missing) and referrer list |
| GitHub.MetricsStep | src/services/github.ts:101-127 | the metrics keep the repository and never remove cache entries |
| GitHub.MetricsStepTouchesOwnPaths | src/services/github.ts:80-109 | fetching a repository's metrics adds at most the keys of its three traffic paths |
| GitHub.FailedRequestEmptiesAll | src/services/github.ts:117-126 | if any of the three requests goes to the server (no entry, or a stale one) and fails, all three series are empty |
| GitHub.FetchedRequestsGiveTheirSeries | src/services/github.ts:105-116 | when all three requests go to the server and succeed, the series are the ones their bodies carry |
| GitHub.GetRepositoryMetrics | src/services/github.ts:101-127 | `getRepositoryMetrics` returns and caches what `MetricsStep` says |
| IndexPage.HasStats | src/pages/Index.tsx:167 | a repository has statistics if and only if some entry has its id |
| IndexPage.AfterSelect | src/pages/Index.tsx:131-142 | with five or more selected the selection is unchanged; otherwise the repository is appended; so at most five stays at most five |
| IndexPage.WithoutRepository | src/pages/Index.tsx:146-148 | exactly the entries with a different id remain, and ids stay distinct |
| IndexPage.WithoutStats | src/pages/Index.tsx:150-152 | exactly the statistics of other repositories remain, still one per repository |
| IndexPage.ReposToFetch | src/pages/Index.tsx:166-168 | exactly the selected repositories without statistics are fetched, with no repeated id |
| IndexPage.ToggleKeepsSelectionValid | src/components/RepositorySelector.tsx:50-53 | toggling keeps a selection of at most five with distinct ids |
| IndexPage.DeselectRemovesEveryEntry | src/pages/Index.tsx:145-153 | after deselect no entry with that id is left in the selection or the statistics; every other entry remains; in both lists the kept entries keep their relative order |
| IndexPage.ReselectRefetches | src/pages/Index.tsx:150-168 | a repository selected again after a deselect is fetched again |
| IndexPage.MetricsRun | src/pages/Index.tsx:176-179 | one statistics entry per repository to fetch, in that order, each for its repository |
| IndexPage.FetchEach | src/pages/Index.tsx:176-179 | the loop collects what `MetricsRun` says and leaves the cache as it does |
| IndexPage.Session.constructor | src/pages/Index.tsx:19-28 | the initial state: empty strings and lists, every flag false, and `Valid` holds |
| IndexPage.Session.SelectRepository | src/pages/Index.tsx:131-142 | accepted if and only if fewer than five are selected; the selection becomes `AfterSelect`; `Valid` holds when the id was not already selected |
| IndexPage.Session.DeselectRepository | src/pages/Index.tsx:145-153 | the selection and statistics lose that id, and `Valid` is kept |
| IndexPage.Session.Toggle | src/components/RepositorySelector.tsx:49-56 | the picker applies its decision to the page. On a deselect, the statistics lose that id; on a select, they are unchanged. The selection stays valid, with no duplicate id and at most five repositories |
| IndexPage.Session.FetchMetrics | src/pages/Index.tsx:157-192 | no effect without a selection or token; otherwise the new statistics are appended after the old, in to-fetch order, and the loading flag is cleared; `Valid` is kept |
| IndexPage.Session.AppendedStatsValid | src/pages/Index.tsx:166-181 | appending the fetched statistics keeps them one per repository and tied to the selection |
| IndexPage.Session.FetchRepositories | src/pages/Index.tsx:103-118 | the listing replaces the repositories on success and leaves them on failure; loading is cleared |
| IndexPage.Session.UsernameSearch | src/pages/Index.tsx:121-128 | whitespace-only input changes nothing; otherwise the trimmed input becomes the username, its repositories are requested with the current token, and the loading flag ends cleared |
| IndexPage.Session.ValidateToken | src/pages/Index.tsx:68-100 | succeeds if and only if `/user` answers with a user; then the token, username and input are set, the session is authenticated, the login's repositories are requested, and the loading flag ends cleared; otherwise the session is unchanged apart from the cache (the listing's loading flag included), except that a `null` answer stores the token before failing |
| IndexPage.Session.Logout | src/pages/Index.tsx:198-209 | token, username and input are emptied; authenticated is false; the repository, selection and statistics lists are empty |

## Left out

- The network: `fetch`, the request headers, `response.json()` and the base URL are not modelled. A request's outcome comes from the `Server` parameter.
- The clock: a handler reads the clock once, and that one `now` serves every request it makes. This merges more than the two `Date.now()` readings in `fetchGitHub` (the freshness test and the store):
  - `FetchMetrics` (through `FetchEach`) passes the same `now` to every `getRepositoryMetrics` of the loop at `src/pages/Index.tsx:176-179`. That is up to fifteen requests made one after another.
  - `ValidateToken` uses the same `now` for `/user` and for the listing that follows.
  - As a result, every entry stored in one batch gets the same timestamp. An entry that would go stale while the batch runs is still served from the cache.
- `Promise.all` in `getRepositoryMetrics` is three requests made one after the other. All three are always made, as the source starts them all before any settles. Failure is all-or-nothing.
- Concurrency: the page's handlers run one at a time, to completion. This leaves out several things:
  - the re-running of the metrics effect whenever the selection or token changes;
  - statistics arriving after a deselect, while a fetch is in flight;
  - stale closures.
  - `Valid`, "statistics only for selected repositories", holds only in this atomic model.
- The `catch` of `fetchMetrics` is not modelled, because that branch cannot run. Inside `getRepositoryMetrics`, every request error is caught by its own `try`. The `split` of `full_name` at `src/services/github.ts:102` is outside that `try`, but it cannot throw, because `full_name` is always a string.
- The mount effect that restores the token and username from `localStorage` is not modelled. Neither are `localStorage` writes and removals, toasts or `console.error`. They are side effects only.
- IndexPage.Session.ValidateToken: the source raises the failure to the form, which only shows it; the model returns `false`. A `null` answer is modelled as the source has it: the token is stored (`src/pages/Index.tsx:74`), then reading `login` throws. A non-null answer that is not a user object counts as a failure in the model, while the source would go on with an `undefined` login.
- Payloads are a datatype of the response shapes the code reads (`login`, a repository list, `views`, `clones`, a referrer list). Their other JSON fields are not modelled.
- Rendering is not modelled: the Recharts charts, JSX, colours, tooltips and number formatting. Number formatting lives in a module that is not part of this model.
- Chart rows are keyed by the repository's position, not by `<name>_views`-style fields. In the source, two repositories with the same name would share a field. In the rows of the referrer bar chart, a repository called `name` would also overwrite the row's `name` label (`src/components/RepositoryMetrics.tsx:148-152`).
- JavaScript numbers are doubles. The model uses unbounded integers, which matches for counts below 2^53.
- The default `sort()` compares UTF-16 code units. The model compares Dafny characters, so the two differ only beyond the Basic Multilingual Plane. Dates are compared as strings, with no date arithmetic.
- `AuthForm.tsx`, `Header.tsx`, `MetricsCard.tsx`, `RepositoryFilters.tsx` and `NotFound.tsx` are presentation components and are not part of this model. The same goes for the picker's search box value and `onOpenChange`.
- RepositoryMetrics.TotalsOf: its own contract states only the empty and non-negative cases. The equations with the sums are in `TotalsAreSums`.
