/** The dashboard page (`src/pages/Index.tsx`): the session state and the
    handlers that change it — selecting and deselecting repositories, the
    metrics fetch that runs when the selection or the token changes, the
    repository listing, token validation, username search and logout.

    Each handler runs to completion before the next one starts: the
    asynchronous interleavings React allows are not part of this model. */
module IndexPage {
  import opened JsLib
  import opened RepositorySelector
  import opened RepositoryMetrics
  import opened GitHub

  /** At most five repositories are compared at once. */
  const MAX_SELECTED: nat := 5

  function StatId(stat: RepositoryStats): int
  {
    stat.repository.id
  }

  /** `repositoryStats.some(stat => stat.repository.id === repo.id)`. */
  function HasStats(stats: seq<RepositoryStats>, repo: Repository): (b: bool)
    ensures b <==> exists i :: 0 <= i < |stats| && stats[i].repository.id == repo.id
  {
    if stats == [] then false
    else stats[0].repository.id == repo.id || HasStats(stats[1..], repo)
  }

  /** `[...prev, repo]`, or `prev` itself when five are already selected. */
  function AfterSelect(selected: seq<Repository>, repo: Repository): (r: seq<Repository>)
    ensures |selected| >= MAX_SELECTED ==> r == selected
    ensures |selected| < MAX_SELECTED ==> r == selected + [repo]
    ensures |selected| <= MAX_SELECTED ==> |r| <= MAX_SELECTED
  {
    if |selected| >= MAX_SELECTED then selected else selected + [repo]
  }

  /** `prev.filter(r => r.id !== id)`. */
  function WithoutRepository(selected: seq<Repository>, id: int): (r: seq<Repository>)
    ensures |r| <= |selected|
    ensures forall x :: x in r <==> x in selected && x.id != id
    ensures NoDuplicateIds(selected) ==> NoDuplicateIds(r)
  {
    var keep := (x: Repository) => x.id != id;
    var r := Filter(selected, keep);
    assert NoDuplicateIds(selected) ==> NoDuplicateIds(r) by {
      if NoDuplicateIds(selected) {
        FilterDistinctKeys(selected, keep, RepoId);
      }
    }
    r
  }

  /** `prev.filter(stat => stat.repository.id !== id)`. */
  function WithoutStats(stats: seq<RepositoryStats>, id: int): (r: seq<RepositoryStats>)
    ensures forall x :: x in r <==> x in stats && x.repository.id != id
    ensures DistinctKeys(stats, StatId) ==> DistinctKeys(r, StatId)
  {
    var keep := (x: RepositoryStats) => x.repository.id != id;
    var r := Filter(stats, keep);
    assert DistinctKeys(stats, StatId) ==> DistinctKeys(r, StatId) by {
      if DistinctKeys(stats, StatId) {
        FilterDistinctKeys(stats, keep, StatId);
      }
    }
    r
  }

  /** `reposToFetch`: the selected repositories that have no statistics yet,
      in selection order. */
  function ReposToFetch(selected: seq<Repository>, stats: seq<RepositoryStats>): (r: seq<Repository>)
    ensures forall x :: x in r <==> x in selected && !HasStats(stats, x)
    ensures NoDuplicateIds(selected) ==> NoDuplicateIds(r)
  {
    var keep := (x: Repository) => !HasStats(stats, x);
    var r := Filter(selected, keep);
    assert NoDuplicateIds(selected) ==> NoDuplicateIds(r) by {
      if NoDuplicateIds(selected) {
        FilterDistinctKeys(selected, keep, RepoId);
      }
    }
    r
  }

  /** The selection after the parent runs the callback the picker chose. */
  function ApplyAction(selected: seq<Repository>, action: Action): seq<Repository>
  {
    match action
    case Select(repo) => AfterSelect(selected, repo)
    case Deselect(repo) => WithoutRepository(selected, repo.id)
  }

  /** Toggling through the picker never puts two entries with one id into
      the selection, and never grows it past five. */
  lemma ToggleKeepsSelectionValid(selected: seq<Repository>, repo: Repository)
    requires NoDuplicateIds(selected) && |selected| <= MAX_SELECTED
    ensures var after := ApplyAction(selected, ToggleAction(selected, repo));
            NoDuplicateIds(after) && |after| <= MAX_SELECTED
  {
    var after := ApplyAction(selected, ToggleAction(selected, repo));
    if !IsSelected(selected, repo) && |selected| < MAX_SELECTED {
      assert after == selected + [repo];
      forall i, j | 0 <= i < j < |after|
        ensures RepoId(after[i]) != RepoId(after[j])
      {
        if j == |selected| {
          assert after[i] == selected[i];
        } else {
          assert after[i] == selected[i] && after[j] == selected[j];
        }
      }
    }
  }

  /** After a deselect no entry with that id is left in the selection or
      among the statistics, every other entry is kept, and the kept entries
      keep their order. */
  lemma DeselectRemovesEveryEntry(
    selected: seq<Repository>, stats: seq<RepositoryStats>, repo: Repository,
    before: seq<Repository>, after: seq<Repository>,
    statsBefore: seq<RepositoryStats>, statsAfter: seq<RepositoryStats>)
    requires selected == before + after
    requires stats == statsBefore + statsAfter
    ensures !IsSelected(WithoutRepository(selected, repo.id), repo)
    ensures !HasStats(WithoutStats(stats, repo.id), repo)
    ensures forall x :: x in selected && x.id != repo.id ==> x in WithoutRepository(selected, repo.id)
    ensures WithoutRepository(selected, repo.id) ==
            WithoutRepository(before, repo.id) + WithoutRepository(after, repo.id)
    ensures forall x :: x in stats && x.repository.id != repo.id ==> x in WithoutStats(stats, repo.id)
    ensures WithoutStats(stats, repo.id) ==
            WithoutStats(statsBefore, repo.id) + WithoutStats(statsAfter, repo.id)
  {
    var rest := WithoutRepository(selected, repo.id);
    forall i | 0 <= i < |rest|
      ensures rest[i].id != repo.id
    {
      assert rest[i] in rest;
    }
    var restStats := WithoutStats(stats, repo.id);
    forall i | 0 <= i < |restStats|
      ensures restStats[i].repository.id != repo.id
    {
      assert restStats[i] in restStats;
    }
    FilterConcat(before, after, (x: Repository) => x.id != repo.id);
    FilterConcat(statsBefore, statsAfter, (x: RepositoryStats) => x.repository.id != repo.id);
  }

  /** A deselected repository that is selected again has no statistics, so
      the next metrics fetch requests it anew. */
  lemma ReselectRefetches(selected: seq<Repository>, stats: seq<RepositoryStats>, repo: Repository)
    requires |WithoutRepository(selected, repo.id)| < MAX_SELECTED
    ensures repo in ReposToFetch(AfterSelect(WithoutRepository(selected, repo.id), repo), WithoutStats(stats, repo.id))
  {
    DeselectRemovesEveryEntry(selected, stats, repo, selected, [], stats, []);
  }

  /** The statistics the `for…of` loop of `fetchMetrics` collects, and the
      cache after it: one `getRepositoryMetrics` per repository, in order. */
  datatype MetricsBatch = MetricsBatch(stats: seq<RepositoryStats>, entries: map<string, Entry>)

  function MetricsRun(entries: map<string, Entry>, repos: seq<Repository>, token: string, now: int, server: Server)
    : (b: MetricsBatch)
    ensures |b.stats| == |repos|
    ensures forall i :: 0 <= i < |repos| ==> b.stats[i].repository == repos[i]
    ensures entries.Keys <= b.entries.Keys
  {
    if repos == [] then MetricsBatch([], entries)
    else
      var before := MetricsRun(entries, repos[..|repos| - 1], token, now, server);
      var m := MetricsStep(before.entries, repos[|repos| - 1], token, now, server);
      var stats := before.stats + [m.stats];
      assert forall i :: 0 <= i < |repos| - 1 ==> stats[i] == before.stats[i];
      MetricsBatch(stats, m.entries)
  }

  /** The `for…of` loop of `fetchMetrics`. */
  method FetchEach(cache: ApiCache, repos: seq<Repository>, token: string, now: int, server: Server)
    returns (newStats: seq<RepositoryStats>)
    modifies cache
    ensures MetricsBatch(newStats, cache.entries) == MetricsRun(old(cache.entries), repos, token, now, server)
  {
    newStats := [];
    var i := 0;
    while i < |repos|
      invariant 0 <= i <= |repos|
      invariant MetricsBatch(newStats, cache.entries) == MetricsRun(old(cache.entries), repos[..i], token, now, server)
    {
      assert repos[..i + 1][..i] == repos[..i];
      var stat := GetRepositoryMetrics(cache, repos[i], token, now, server);
      newStats := newStats + [stat];
      i := i + 1;
    }
    assert repos[..i] == repos;
  }

  /** The page's state. */
  class Session {
    var token: string
    var username: string
    var usernameInput: string
    var authenticated: bool
    var authenticating: bool
    var repositories: seq<Repository>
    var selected: seq<Repository>
    var stats: seq<RepositoryStats>
    var loadingRepos: bool
    var loadingStats: bool
    /** The module-level response cache of the GitHub wrapper. */
    const cache: ApiCache

    /** At most five selected repositories, no id selected twice, at most one
        statistics entry per repository, and statistics only for selected
        repositories. */
    ghost predicate Valid()
      reads this
    {
      && |selected| <= MAX_SELECTED
      && NoDuplicateIds(selected)
      && DistinctKeys(stats, StatId)
      && forall i :: 0 <= i < |stats| ==> IsSelected(selected, stats[i].repository)
    }

    /** The initial state of every `useState`. */
    constructor (cache: ApiCache)
      ensures token == "" && username == "" && usernameInput == ""
      ensures !authenticated && !authenticating && !loadingRepos && !loadingStats
      ensures repositories == [] && selected == [] && stats == []
      ensures this.cache == cache
      ensures Valid()
    {
      token, username, usernameInput := "", "", "";
      authenticated, authenticating := false, false;
      repositories, selected, stats := [], [], [];
      loadingRepos, loadingStats := false, false;
      this.cache := cache;
    }

    /** `handleSelectRepository`: refused (the "Selection Limit" toast) when
        five are already selected, appended otherwise. */
    method SelectRepository(repo: Repository) returns (accepted: bool)
      requires Valid()
      modifies this`selected
      ensures accepted <==> |old(selected)| < MAX_SELECTED
      ensures selected == AfterSelect(old(selected), repo)
      ensures |selected| <= MAX_SELECTED
      ensures !IsSelected(old(selected), repo) ==> Valid()
    {
      if |selected| >= MAX_SELECTED {
        return false;
      }
      ToggleKeepsSelectionValid(selected, repo);
      forall i | 0 <= i < |stats|
        ensures IsSelected(selected + [repo], stats[i].repository)
      {
        assert IsSelected(selected, stats[i].repository);
        var j :| 0 <= j < |selected| && selected[j].id == stats[i].repository.id;
        assert (selected + [repo])[j] == selected[j];
      }
      selected := selected + [repo];
      accepted := true;
    }

    /** `handleDeselectRepository`. */
    method DeselectRepository(repo: Repository)
      requires Valid()
      modifies this`selected, this`stats
      ensures selected == WithoutRepository(old(selected), repo.id)
      ensures stats == WithoutStats(old(stats), repo.id)
      ensures Valid()
    {
      var keptStats := WithoutStats(stats, repo.id);
      var keptRepos := WithoutRepository(selected, repo.id);
      forall i | 0 <= i < |keptStats|
        ensures IsSelected(keptRepos, keptStats[i].repository)
      {
        assert keptStats[i] in stats;
        var k :| 0 <= k < |stats| && stats[k] == keptStats[i];
        var j :| 0 <= j < |selected| && selected[j].id == stats[k].repository.id;
        assert selected[j] in keptRepos;
      }
      selected := keptRepos;
      stats := keptStats;
    }

    /** A click on a listed repository: the picker's `handleSelect` followed
        by the parent callback it calls. */
    method Toggle(picker: SelectorState, repo: Repository)
      requires Valid()
      modifies this`selected, this`stats, picker
      ensures selected == ApplyAction(old(selected), ToggleAction(old(selected), repo))
      ensures stats == (if IsSelected(old(selected), repo) then WithoutStats(old(stats), repo.id) else old(stats))
      ensures picker.open == (old(picker.open) && IsSelected(old(selected), repo))
      ensures Valid()
    {
      var action := picker.HandleSelect(selected, repo);
      match action
      case Select(r) =>
        var _ := SelectRepository(r);
      case Deselect(r) =>
        DeselectRepository(r);
    }

    /** `fetchMetrics`: nothing without a selection or a token; otherwise the
        statistics of every selected repository that has none yet are
        requested one after the other and appended together. */
    method FetchMetrics(now: int, server: Server)
      requires Valid()
      modifies this`stats, this`loadingStats, cache
      ensures selected == [] || token == "" ==>
                stats == old(stats) && loadingStats == old(loadingStats) &&
                cache.entries == old(cache.entries)
      ensures selected != [] && token != "" ==>
                var batch := MetricsRun(old(cache.entries), ReposToFetch(selected, old(stats)), token, now, server);
                stats == old(stats) + batch.stats && cache.entries == batch.entries && !loadingStats
      ensures Valid()
    {
      if |selected| == 0 || token == "" {
        return;
      }
      loadingStats := true;
      var reposToFetch := ReposToFetch(selected, stats);
      if |reposToFetch| == 0 {
        loadingStats := false;
        return;
      }
      var newStats := FetchEach(cache, reposToFetch, token, now, server);
      AppendedStatsValid(reposToFetch, newStats);
      stats := stats + newStats;
      loadingStats := false;
    }

    /** Appending one entry per repository still to fetch keeps the
        statistics distinct and tied to the selection. */
    lemma AppendedStatsValid(reposToFetch: seq<Repository>, newStats: seq<RepositoryStats>)
      requires Valid()
      requires reposToFetch == ReposToFetch(selected, stats)
      requires |newStats| == |reposToFetch|
      requires forall i :: 0 <= i < |newStats| ==> newStats[i].repository == reposToFetch[i]
      ensures DistinctKeys(stats + newStats, StatId)
      ensures forall i :: 0 <= i < |stats + newStats| ==> IsSelected(selected, (stats + newStats)[i].repository)
    {
      var all := stats + newStats;
      forall i | 0 <= i < |all|
        ensures IsSelected(selected, all[i].repository)
      {
        if i >= |stats| {
          var r := reposToFetch[i - |stats|];
          assert r in selected;
          var j :| 0 <= j < |selected| && selected[j] == r;
        }
      }
      forall i, j | 0 <= i < j < |all|
        ensures StatId(all[i]) != StatId(all[j])
      {
        if j >= |stats| {
          var r := reposToFetch[j - |stats|];
          assert !HasStats(stats, r);
          if i >= |stats| {
            assert RepoId(reposToFetch[i - |stats|]) != RepoId(r);
          } else {
            assert all[i] == stats[i];
          }
        } else {
          assert all[i] == stats[i] && all[j] == stats[j];
        }
      }
    }

    /** `fetchRepositories`: the listing replaces the repositories on success;
        on failure they stay as they were. */
    method FetchRepositories(user: string, authToken: string, now: int, server: Server)
      modifies this`repositories, this`loadingRepos, cache
      ensures var l := ListingStep(old(cache.entries), user, authToken, now, server);
              cache.entries == l.entries &&
              repositories == (if l.result.Ok? then l.result.value else old(repositories))
      ensures !loadingRepos
    {
      loadingRepos := true;
      var repos := GetRepositories(cache, user, authToken, now, server);
      if repos.Ok? {
        repositories := repos.value;
      }
      loadingRepos := false;
    }

    /** `handleUsernameSearch`: whitespace-only input is ignored; otherwise
        the trimmed input becomes the username and its listing is
        requested with the current token. */
    method UsernameSearch(now: int, server: Server)
      modifies this`username, this`repositories, this`loadingRepos, cache
      ensures Trim(old(usernameInput)) == "" ==>
                username == old(username) && repositories == old(repositories) &&
                loadingRepos == old(loadingRepos) && cache.entries == old(cache.entries)
      ensures Trim(old(usernameInput)) != "" ==>
                var l := ListingStep(old(cache.entries), Trim(old(usernameInput)), token, now, server);
                username == Trim(old(usernameInput)) &&
                cache.entries == l.entries &&
                repositories == (if l.result.Ok? then l.result.value else old(repositories)) &&
                !loadingRepos
    {
      var trimmed := Trim(usernameInput);
      if trimmed != "" {
        username := trimmed;
        FetchRepositories(trimmed, token, now, server);
      }
    }

    /** `validateToken`: a token whose `/user` request answers with a user
        is stored with that user's login, and the login's listing is
        requested; any other answer leaves the session signed out, and a
        `null` answer still stores the token before failing. */
    method ValidateToken(newToken: string, now: int, server: Server) returns (ok: bool)
      modifies this`token, this`username, this`usernameInput, this`authenticated, this`authenticating
      modifies this`repositories, this`loadingRepos, cache
      ensures var f := FetchStep(old(cache.entries), UserPath, newToken, now, server);
              ok <==> f.result.Ok? && f.result.value.UserBody?
      ensures !authenticating
      ensures ok ==>
                var f := FetchStep(old(cache.entries), UserPath, newToken, now, server);
                var l := ListingStep(f.entries, f.result.value.login, newToken, now, server);
                token == newToken && username == f.result.value.login && usernameInput == username &&
                authenticated && cache.entries == l.entries &&
                repositories == (if l.result.Ok? then l.result.value else old(repositories)) &&
                !loadingRepos
      ensures !ok ==>
                var f := FetchStep(old(cache.entries), UserPath, newToken, now, server);
                token == (if f.result == Ok(NullBody) then newToken else old(token)) &&
                username == old(username) && usernameInput == old(usernameInput) &&
                authenticated == old(authenticated) && repositories == old(repositories) &&
                loadingRepos == old(loadingRepos) && cache.entries == f.entries
    {
      authenticating := true;
      var user := GetAuthenticatedUser(cache, newToken, now, server);
      if user.Ok? && user.value.UserBody? {
        token := newToken;
        username := user.value.login;
        usernameInput := user.value.login;
        authenticated := true;
        authenticating := false;
        FetchRepositories(user.value.login, newToken, now, server);
        ok := true;
      } else {
        if user == Ok(NullBody) {
          // The token is stored before reading `login` of a `null` body throws.
          token := newToken;
        }
        authenticating := false;
        ok := false;
      }
    }

    /** `handleLogout`: back to the signed-out state. The response cache is
        not cleared. */
    method Logout()
      modifies this`token, this`username, this`usernameInput, this`authenticated
      modifies this`repositories, this`selected, this`stats
      ensures token == "" && username == "" && usernameInput == "" && !authenticated
      ensures repositories == [] && selected == [] && stats == []
      ensures Valid()
    {
      token, username, usernameInput := "", "", "";
      authenticated := false;
      repositories, selected, stats := [], [], [];
    }
  }
}
