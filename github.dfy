/** The GitHub REST wrapper (`src/services/github.ts`): a process-wide
    response cache with a five-minute time-to-live in front of every request,
    the request paths, the mapping of a repository listing to `Repository`
    records, and the assembly of one repository's traffic statistics from
    three requests.

    The network is a `Server`: the outcome the remote API gives for a
    request path and token. The clock is the parameter `now`. One `now` is
    used both to judge an entry's age and to stamp the entry a successful
    fetch stores. */
module GitHub {
  import opened JsLib
  import opened RepositorySelector
  import opened RepositoryMetrics

  /** `CACHE_TTL`: five minutes, in milliseconds. */
  const CACHE_TTL: int := 5 * 60 * 1000

  // ---------------------------------------------------------------------
  // What the remote API sends back
  // ---------------------------------------------------------------------

  /** One entry of a repository listing, with the fields the dashboard
      reads. */
  datatype RawRepository = RawRepository(
    id: int,
    name: string,
    fullName: string,
    description: Option<string>,
    stargazersCount: int,
    forksCount: int)

  /** The parsed JSON body of a successful response, by the shapes the
      dashboard reads. `ViewsBody(None)` and `ClonesBody(None)` are bodies
      without the `views` or `clones` field. */
  datatype Payload =
    | NullBody
    | UserBody(login: string, displayName: Option<string>)
    | RepositoryList(items: seq<RawRepository>)
    | ViewsBody(views: Option<seq<TrafficPoint>>)
    | ClonesBody(clones: Option<seq<TrafficPoint>>)
    | ReferrerList(entries: seq<ReferrerEntry>)

  /** The outcome of one HTTP request: a successful response with its body,
      a response whose `ok` is false, or a request that throws before either
      (`fetch` rejecting, or the body not parsing as JSON). */
  datatype FetchOutcome = Fetched(data: Payload) | HttpError(status: int, statusText: string) | Rejected

  /** The remote API: the outcome of a request for a path with a token. */
  type Server = (string, string) -> FetchOutcome

  /** The errors the wrapper raises: `GitHub API error: <status> <text>`,
      the error of a request that threw, or the `TypeError` of reading a
      field of a body of the wrong shape. */
  datatype ApiError = StatusError(status: int, statusText: string) | RequestFailed | TypeError

  // ---------------------------------------------------------------------
  // The response cache
  // ---------------------------------------------------------------------

  datatype Entry = Entry(data: Payload, timestamp: int)

  /** The cache key `${token}-${url}`. */
  function CacheKey(token: string, url: string): string
  {
    token + "-" + url
  }

  /** Tokens without a `-` never share a cache entry: the key determines
      both the token and the path. */
  lemma CacheKeyInjective(t1: string, u1: string, t2: string, u2: string)
    requires '-' !in t1 && '-' !in t2
    requires CacheKey(t1, u1) == CacheKey(t2, u2)
    ensures t1 == t2 && u1 == u2
  {
    JoinInjective(t1, u1, t2, u2, '-');
  }

  /** An entry may be served while it is younger than the TTL. */
  predicate IsFresh(e: Entry, now: int)
  {
    now - e.timestamp < CACHE_TTL
  }

  /** What one `fetchGitHub` call returns, the cache after it, and whether it
      went to the network. */
  datatype Fetch = Fetch(result: Result<Payload, ApiError>, entries: map<string, Entry>, networkCalled: bool)

  /** `fetchGitHub(url, token)` against the cache `entries` at time `now`. */
  function FetchStep(entries: map<string, Entry>, url: string, token: string, now: int, server: Server): (f: Fetch)
    ensures entries.Keys <= f.entries.Keys <= entries.Keys + {CacheKey(token, url)}
    ensures forall k :: k in entries && k != CacheKey(token, url) ==> f.entries[k] == entries[k]
  {
    var key := CacheKey(token, url);
    if key in entries && IsFresh(entries[key], now) then
      Fetch(Ok(entries[key].data), entries, false)
    else
      match server(url, token)
      case HttpError(status, statusText) => Fetch(Err(StatusError(status, statusText)), entries, true)
      case Rejected => Fetch(Err(RequestFailed), entries, true)
      case Fetched(data) => Fetch(Ok(data), entries[key := Entry(data, now)], true)
  }

  /** A fresh entry is returned as it is, without a request. */
  lemma FreshEntryServed(entries: map<string, Entry>, url: string, token: string, now: int, server: Server)
    requires CacheKey(token, url) in entries
    requires now - entries[CacheKey(token, url)].timestamp < CACHE_TTL
    ensures FetchStep(entries, url, token, now, server) ==
            Fetch(Ok(entries[CacheKey(token, url)].data), entries, false)
  {
  }

  /** A missing entry, or one whose age has reached the TTL (exactly five
      minutes included), sends the request. */
  lemma StaleEntryRefetched(entries: map<string, Entry>, url: string, token: string, now: int, server: Server)
    requires CacheKey(token, url) !in entries || now - entries[CacheKey(token, url)].timestamp >= CACHE_TTL
    ensures FetchStep(entries, url, token, now, server).networkCalled
  {
  }

  /** A successful request stores its body stamped with `now` and returns
      it; the other entries stay as they were. */
  lemma SuccessStored(entries: map<string, Entry>, url: string, token: string, now: int, server: Server)
    requires FetchStep(entries, url, token, now, server).networkCalled
    requires server(url, token).Fetched?
    ensures var f := FetchStep(entries, url, token, now, server);
            f.result == Ok(server(url, token).data) &&
            f.entries == entries[CacheKey(token, url) := Entry(server(url, token).data, now)]
  {
  }

  /** A failed request raises an error, carrying the status and status
      text when there was a response, and leaves the cache as it was, a
      stale entry for the key included. */
  lemma ErrorLeavesCache(entries: map<string, Entry>, url: string, token: string, now: int, server: Server)
    requires FetchStep(entries, url, token, now, server).networkCalled
    requires !server(url, token).Fetched?
    ensures var f := FetchStep(entries, url, token, now, server);
            && f.result.Err?
            && (server(url, token).HttpError? ==>
                 f.result.error == StatusError(server(url, token).status, server(url, token).statusText))
            && f.entries == entries
  {
  }

  /** The same request repeated within the TTL of a successful request is
      answered from the cache with the same body. */
  lemma RepeatWithinTtlServedFromCache(
    entries: map<string, Entry>, url: string, token: string, t1: int, t2: int, first: Server, second: Server)
    requires FetchStep(entries, url, token, t1, first).networkCalled
    requires FetchStep(entries, url, token, t1, first).result.Ok?
    requires t2 - t1 < CACHE_TTL
    ensures var f1 := FetchStep(entries, url, token, t1, first);
            var f2 := FetchStep(f1.entries, url, token, t2, second);
            !f2.networkCalled && f2.result == f1.result && f2.entries == f1.entries
  {
  }

  /** A request made with one token never touches the entry of another
      token (tokens without a `-`). */
  lemma TokensIsolated(
    entries: map<string, Entry>, url: string, token: string, now: int, server: Server,
    otherUrl: string, otherToken: string)
    requires '-' !in token && '-' !in otherToken && token != otherToken
    requires CacheKey(otherToken, otherUrl) in entries
    ensures var f := FetchStep(entries, url, token, now, server);
            CacheKey(otherToken, otherUrl) in f.entries &&
            f.entries[CacheKey(otherToken, otherUrl)] == entries[CacheKey(otherToken, otherUrl)]
  {
    if CacheKey(otherToken, otherUrl) == CacheKey(token, url) {
      CacheKeyInjective(otherToken, otherUrl, token, url);
      assert false;
    }
  }

  /** The module-level `apiCache` map. */
  class ApiCache {
    var entries: map<string, Entry>

    constructor ()
      ensures entries == map[]
    {
      entries := map[];
    }

    /** `fetchGitHub`: serve a fresh entry, or request, store on success and
        raise on failure. */
    method FetchGitHub(url: string, token: string, now: int, server: Server)
      returns (r: Result<Payload, ApiError>)
      modifies this
      ensures r == FetchStep(old(entries), url, token, now, server).result
      ensures entries == FetchStep(old(entries), url, token, now, server).entries
    {
      var cacheKey := CacheKey(token, url);
      if cacheKey in entries && now - entries[cacheKey].timestamp < CACHE_TTL {
        return Ok(entries[cacheKey].data);
      }
      var response := server(url, token);
      if response.Rejected? {
        return Err(RequestFailed);
      }
      if response.HttpError? {
        return Err(StatusError(response.status, response.statusText));
      }
      var data := response.data;
      entries := entries[cacheKey := Entry(data, now)];
      r := Ok(data);
    }
  }

  // ---------------------------------------------------------------------
  // Request paths
  // ---------------------------------------------------------------------

  const UserPath: string := "/user"

  function ReposPath(username: string): string
  {
    "/users/" + username + "/repos?per_page=100&sort=updated"
  }

  function RepoPath(owner: string, repo: string, suffix: string): string
  {
    "/repos/" + owner + "/" + repo + suffix
  }

  function ViewsPath(owner: string, repo: string): string
  {
    RepoPath(owner, repo, "/traffic/views")
  }

  function ClonesPath(owner: string, repo: string): string
  {
    RepoPath(owner, repo, "/traffic/clones")
  }

  function ReferrersPath(owner: string, repo: string): string
  {
    RepoPath(owner, repo, "/traffic/popular/referrers")
  }

  /** The three traffic requests of one repository are three different
      paths, hence three different cache entries. */
  lemma TrafficPathsDistinct(owner: string, repo: string)
    ensures ViewsPath(owner, repo) != ClonesPath(owner, repo)
    ensures ViewsPath(owner, repo) != ReferrersPath(owner, repo)
    ensures ClonesPath(owner, repo) != ReferrersPath(owner, repo)
  {
    assert |ViewsPath(owner, repo)| + 1 == |ClonesPath(owner, repo)|;
    assert |ClonesPath(owner, repo)| + 11 == |ReferrersPath(owner, repo)|;
  }

  /** Different repositories (owners without a `/`) get different paths. */
  lemma RepoPathInjective(o1: string, r1: string, o2: string, r2: string, suffix: string)
    requires '/' !in o1 && '/' !in o2
    requires RepoPath(o1, r1, suffix) == RepoPath(o2, r2, suffix)
    ensures o1 == o2 && r1 == r2
  {
    var p1 := RepoPath(o1, r1, suffix);
    var p2 := RepoPath(o2, r2, suffix);
    assert p1[7..|p1| - |suffix|] == o1 + "/" + r1;
    assert p2[7..|p2| - |suffix|] == o2 + "/" + r2;
    JoinInjective(o1, r1, o2, r2, '/');
  }

  /** `const [owner, repoName] = full_name.split('/')`; a name without `/`
      leaves `repoName` undefined, which the path template spells
      `undefined`. */
  function FullNameParts(fullName: string): (string, string)
  {
    var owner := PrefixBefore(fullName, '/');
    match SecondPart(fullName, '/')
    case Some(repoName) => (owner, repoName)
    case None => (owner, "undefined")
  }

  /** An `owner/name` full name splits back into its owner and name. */
  lemma FullNameRoundTrip(owner: string, name: string)
    requires '/' !in owner && '/' !in name
    ensures FullNameParts(owner + "/" + name) == (owner, name)
  {
    var s := owner + "/" + name;
    PrefixBeforeJoin(owner, '/', name);
    assert s[|owner| + 1..] == name;
    PrefixBeforeNone(name, '/');
  }

  lemma FullNameWithoutSlash(fullName: string)
    requires '/' !in fullName
    ensures FullNameParts(fullName) == (fullName, "undefined")
  {
    PrefixBeforeNone(fullName, '/');
  }

  // ---------------------------------------------------------------------
  // The authenticated user and the repository listing
  // ---------------------------------------------------------------------

  /** `getAuthenticatedUser`. */
  method GetAuthenticatedUser(cache: ApiCache, token: string, now: int, server: Server)
    returns (r: Result<Payload, ApiError>)
    modifies cache
    ensures r == FetchStep(old(cache.entries), UserPath, token, now, server).result
    ensures cache.entries == FetchStep(old(cache.entries), UserPath, token, now, server).entries
  {
    r := cache.FetchGitHub(UserPath, token, now, server);
  }

  /** The object literal of `repos.map(...)`. */
  function ToRepository(raw: RawRepository): Repository
  {
    Repository(raw.id, raw.name, raw.fullName, raw.description, raw.stargazersCount, raw.forksCount)
  }

  /** `repos.map(...)`: same length and order, `stargazers_count` renamed
      `stars`, `forks_count` renamed `forks`, the rest copied. */
  function MapRepositories(raw: seq<RawRepository>): (repos: seq<Repository>)
    ensures |repos| == |raw|
    ensures forall i :: 0 <= i < |raw| ==>
              && repos[i].id == raw[i].id
              && repos[i].name == raw[i].name
              && repos[i].fullName == raw[i].fullName
              && repos[i].description == raw[i].description
              && repos[i].stars == raw[i].stargazersCount
              && repos[i].forks == raw[i].forksCount
  {
    seq(|raw|, i requires 0 <= i < |raw| => ToRepository(raw[i]))
  }

  /** The listing as `getRepositories` returns it: the mapped entries, the
      wrapper's error, or a `TypeError` for any body that is not a
      repository list. A `null` body or an object throws at `.map`; an
      array of another shape is not an answer the listing endpoint gives,
      and is treated the same way. */
  function RepositoriesOf(result: Result<Payload, ApiError>): Result<seq<Repository>, ApiError>
  {
    match result
    case Err(e) => Err(e)
    case Ok(RepositoryList(items)) => Ok(MapRepositories(items))
    case Ok(_) => Err(TypeError)
  }

  datatype Listing = Listing(result: Result<seq<Repository>, ApiError>, entries: map<string, Entry>)

  function ListingStep(entries: map<string, Entry>, username: string, token: string, now: int, server: Server): (l: Listing)
    ensures entries.Keys <= l.entries.Keys
  {
    var f := FetchStep(entries, ReposPath(username), token, now, server);
    Listing(RepositoriesOf(f.result), f.entries)
  }

  /** `getRepositories`. */
  method GetRepositories(cache: ApiCache, username: string, token: string, now: int, server: Server)
    returns (r: Result<seq<Repository>, ApiError>)
    modifies cache
    ensures Listing(r, cache.entries) == ListingStep(old(cache.entries), username, token, now, server)
  {
    var repos := cache.FetchGitHub(ReposPath(username), token, now, server);
    match repos
    case Err(e) =>
      r := Err(e);
    case Ok(RepositoryList(items)) =>
      r := Ok(MapRepositories(items));
    case Ok(_) =>
      r := Err(TypeError);
  }

  // ---------------------------------------------------------------------
  // One repository's statistics
  // ---------------------------------------------------------------------

  /** `viewsData.views || []`; reading a field of a `null` body throws. */
  function ViewsOf(body: Payload): Result<seq<TrafficPoint>, ApiError>
  {
    match body
    case NullBody => Err(TypeError)
    case ViewsBody(Some(views)) => Ok(views)
    case _ => Ok([])
  }

  /** `clonesData.clones || []`; reading a field of a `null` body throws. */
  function ClonesOf(body: Payload): Result<seq<TrafficPoint>, ApiError>
  {
    match body
    case NullBody => Err(TypeError)
    case ClonesBody(Some(clones)) => Ok(clones)
    case _ => Ok([])
  }

  /** `referrersData || []`. */
  function ReferrersOf(body: Payload): seq<ReferrerEntry>
  {
    match body
    case ReferrerList(entries) => entries
    case _ => []
  }

  /** The stats returned from the `catch` branch. */
  function EmptyStats(repository: Repository): RepositoryStats
  {
    RepositoryStats(repository, [], [], [])
  }

  /** The object built from the three responses, or the empty stats when one
      of them failed or could not be read. */
  function AssembleStats(
    repository: Repository,
    views: Result<Payload, ApiError>,
    clones: Result<Payload, ApiError>,
    referrers: Result<Payload, ApiError>): (s: RepositoryStats)
    ensures s.repository == repository
    ensures views.Err? || clones.Err? || referrers.Err? ==> s == EmptyStats(repository)
    ensures (&& views.Ok? && clones.Ok? && referrers.Ok?
             && (ViewsOf(views.value).Err? || ClonesOf(clones.value).Err?)) ==>
              s == EmptyStats(repository)
    ensures (&& views.Ok? && clones.Ok? && referrers.Ok?
             && ViewsOf(views.value).Ok? && ClonesOf(clones.value).Ok?) ==>
              s == RepositoryStats(repository, ViewsOf(views.value).value, ClonesOf(clones.value).value,
                                   ReferrersOf(referrers.value))
  {
    if views.Err? || clones.Err? || referrers.Err? then EmptyStats(repository)
    else
      match (ViewsOf(views.value), ClonesOf(clones.value))
      case (Ok(v), Ok(c)) => RepositoryStats(repository, v, c, ReferrersOf(referrers.value))
      case _ => EmptyStats(repository)
  }

  datatype MetricsFetch = MetricsFetch(stats: RepositoryStats, entries: map<string, Entry>)

  /** `getRepositoryMetrics` against the cache `entries`: the three requests
      run to completion one after the other, then the stats are assembled. */
  function MetricsStep(entries: map<string, Entry>, repository: Repository, token: string, now: int, server: Server)
    : (m: MetricsFetch)
    ensures m.stats.repository == repository
    ensures entries.Keys <= m.entries.Keys
  {
    var (owner, repoName) := FullNameParts(repository.fullName);
    var v := FetchStep(entries, ViewsPath(owner, repoName), token, now, server);
    var c := FetchStep(v.entries, ClonesPath(owner, repoName), token, now, server);
    var r := FetchStep(c.entries, ReferrersPath(owner, repoName), token, now, server);
    MetricsFetch(AssembleStats(repository, v.result, c.result, r.result), r.entries)
  }

  /** The requests of `owner/name` go to its three traffic paths and to no
      other cache entry. */
  lemma MetricsStepTouchesOwnPaths(
    entries: map<string, Entry>, repository: Repository, owner: string, name: string,
    token: string, now: int, server: Server)
    requires '/' !in owner && '/' !in name
    requires repository.fullName == owner + "/" + name
    ensures MetricsStep(entries, repository, token, now, server).entries.Keys <=
            entries.Keys + {CacheKey(token, ViewsPath(owner, name)),
                            CacheKey(token, ClonesPath(owner, name)),
                            CacheKey(token, ReferrersPath(owner, name))}
  {
    FullNameRoundTrip(owner, name);
  }

  /** A failed request among the three leaves all three series empty. */
  lemma FailedRequestEmptiesAll(
    entries: map<string, Entry>, repository: Repository, owner: string, name: string,
    token: string, now: int, server: Server, path: string)
    requires '/' !in owner && '/' !in name
    requires repository.fullName == owner + "/" + name
    requires path == ViewsPath(owner, name) || path == ClonesPath(owner, name) || path == ReferrersPath(owner, name)
    requires !server(path, token).Fetched?
    requires CacheKey(token, path) !in entries || !IsFresh(entries[CacheKey(token, path)], now)
    ensures MetricsStep(entries, repository, token, now, server).stats == EmptyStats(repository)
  {
    FullNameRoundTrip(owner, name);
    TrafficPathsDistinct(owner, name);
    var v := FetchStep(entries, ViewsPath(owner, name), token, now, server);
    var c := FetchStep(v.entries, ClonesPath(owner, name), token, now, server);
    if path == ClonesPath(owner, name) {
      assert CacheKey(token, path) !in v.entries || !IsFresh(v.entries[CacheKey(token, path)], now);
    } else if path == ReferrersPath(owner, name) {
      assert CacheKey(token, path) !in v.entries || !IsFresh(v.entries[CacheKey(token, path)], now);
      assert CacheKey(token, path) !in c.entries || !IsFresh(c.entries[CacheKey(token, path)], now);
    }
  }

  /** The request for `path` is not served from the cache and the server
      answers it with a body. */
  predicate AnsweredByServer(entries: map<string, Entry>, path: string, token: string, now: int, server: Server)
  {
    && server(path, token).Fetched?
    && (CacheKey(token, path) !in entries || !IsFresh(entries[CacheKey(token, path)], now))
  }

  /** Three successful traffic requests, none of them answered from the
      cache, give the series their bodies carry: `views` and `clones` (or
      empty when the field is missing) and the referrer list. */
  lemma FetchedRequestsGiveTheirSeries(
    entries: map<string, Entry>, repository: Repository, owner: string, name: string,
    token: string, now: int, server: Server)
    requires '/' !in owner && '/' !in name
    requires repository.fullName == owner + "/" + name
    requires AnsweredByServer(entries, ViewsPath(owner, name), token, now, server)
    requires AnsweredByServer(entries, ClonesPath(owner, name), token, now, server)
    requires AnsweredByServer(entries, ReferrersPath(owner, name), token, now, server)
    requires ViewsOf(server(ViewsPath(owner, name), token).data).Ok?
    requires ClonesOf(server(ClonesPath(owner, name), token).data).Ok?
    ensures MetricsStep(entries, repository, token, now, server).stats ==
            RepositoryStats(repository,
                            ViewsOf(server(ViewsPath(owner, name), token).data).value,
                            ClonesOf(server(ClonesPath(owner, name), token).data).value,
                            ReferrersOf(server(ReferrersPath(owner, name), token).data))
  {
    FullNameRoundTrip(owner, name);
    TrafficPathsDistinct(owner, name);
    var vp, cp, rp := ViewsPath(owner, name), ClonesPath(owner, name), ReferrersPath(owner, name);
    var v := FetchStep(entries, vp, token, now, server);
    var c := FetchStep(v.entries, cp, token, now, server);
    assert CacheKey(token, cp) !in v.entries || !IsFresh(v.entries[CacheKey(token, cp)], now);
    assert CacheKey(token, rp) !in v.entries || !IsFresh(v.entries[CacheKey(token, rp)], now);
    assert CacheKey(token, rp) !in c.entries || !IsFresh(c.entries[CacheKey(token, rp)], now);
  }

  /** `getRepositoryMetrics`: never fails, whatever the three requests do. */
  method GetRepositoryMetrics(cache: ApiCache, repository: Repository, token: string, now: int, server: Server)
    returns (stats: RepositoryStats)
    modifies cache
    ensures MetricsFetch(stats, cache.entries) == MetricsStep(old(cache.entries), repository, token, now, server)
  {
    var (owner, repoName) := FullNameParts(repository.fullName);
    var viewsData := cache.FetchGitHub(ViewsPath(owner, repoName), token, now, server);
    var clonesData := cache.FetchGitHub(ClonesPath(owner, repoName), token, now, server);
    var referrersData := cache.FetchGitHub(ReferrersPath(owner, repoName), token, now, server);
    stats := AssembleStats(repository, viewsData, clonesData, referrersData);
  }
}
