/** The repository picker (`src/components/RepositorySelector.tsx`): the
    `Repository` record, the membership-by-id test, the toggle that decides
    between the parent's select and deselect callbacks, and the predicates
    that drive the check marks, the chips and the disabled trigger. */
module RepositorySelector {
  import opened JsLib

  /** A repository as the dashboard holds it. `description` is `None` where
      the source has `null`. */
  datatype Repository = Repository(
    id: int,
    name: string,
    fullName: string,
    description: Option<string>,
    stars: int,
    forks: int)

  /** `selectedRepos.some(r => r.id === repo.id)`. Only the id takes part. */
  function IsSelected(selectedRepos: seq<Repository>, repo: Repository): (b: bool)
    ensures b <==> exists i :: 0 <= i < |selectedRepos| && selectedRepos[i].id == repo.id
  {
    if selectedRepos == [] then false
    else selectedRepos[0].id == repo.id || IsSelected(selectedRepos[1..], repo)
  }

  function RepoId(repo: Repository): int
  {
    repo.id
  }

  /** No two entries share an id. */
  predicate NoDuplicateIds(repos: seq<Repository>)
  {
    DistinctKeys(repos, RepoId)
  }

  /** The two callbacks the picker hands a repository to. */
  datatype Action = Select(repo: Repository) | Deselect(repo: Repository)

  /** The decision `handleSelect` takes: deselect a repository whose id is
      already selected, select it otherwise. */
  function ToggleAction(selectedRepos: seq<Repository>, repo: Repository): (a: Action)
    ensures a.repo == repo
    ensures a.Deselect? <==> exists i :: 0 <= i < |selectedRepos| && selectedRepos[i].id == repo.id
  {
    if IsSelected(selectedRepos, repo) then Deselect(repo) else Select(repo)
  }

  /** The picker's own state: whether its popover is open. */
  class SelectorState {
    var open: bool

    constructor ()
      ensures !open
    {
      open := false;
    }

    /** `handleSelect`: hands the repository to the callback chosen by
        `ToggleAction`, and closes the popover after a select only. */
    method HandleSelect(selectedRepos: seq<Repository>, repo: Repository) returns (a: Action)
      modifies this
      ensures a == ToggleAction(selectedRepos, repo)
      ensures open == (old(open) && a.Deselect?)
    {
      if IsSelected(selectedRepos, repo) {
        a := Deselect(repo);
      } else {
        a := Select(repo);
        open := false;
      }
    }
  }

  /** The class of the check mark in front of a listed repository: shown
      exactly when the repository's id is selected. */
  function CheckMarkClass(selectedRepos: seq<Repository>, repo: Repository): (c: string)
    ensures c == "opacity-100" || c == "opacity-0"
    ensures c == "opacity-100" <==> exists i :: 0 <= i < |selectedRepos| && selectedRepos[i].id == repo.id
  {
    if IsSelected(selectedRepos, repo) then "opacity-100" else "opacity-0"
  }

  /** The popover trigger is disabled while loading or when there is nothing
      to pick from. */
  function TriggerDisabled(loading: bool, repositories: seq<Repository>): (disabled: bool)
    ensures !disabled ==> !loading && |repositories| > 0
    ensures disabled ==> loading || repositories == []
  {
    loading || |repositories| == 0
  }

  /** One chip of the selection bar: keyed by id, showing the name, and
      its "×" button bound to a deselect of that repository. */
  datatype Chip = Chip(key: int, caption: string, onRemove: Action)

  function Chips(selectedRepos: seq<Repository>): (chips: seq<Chip>)
    ensures |chips| == |selectedRepos|
    ensures forall i :: 0 <= i < |chips| ==>
              chips[i].key == selectedRepos[i].id && chips[i].caption == selectedRepos[i].name &&
              chips[i].onRemove == Deselect(selectedRepos[i])
  {
    seq(|selectedRepos|, i requires 0 <= i < |selectedRepos| =>
      Chip(selectedRepos[i].id, selectedRepos[i].name, Deselect(selectedRepos[i])))
  }
}
