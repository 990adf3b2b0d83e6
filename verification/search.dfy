/** The search screen: the trimmed query is matched, ignoring letter case,
    against every stored workspace, project, node and reminder, and the
    matches are listed by kind in storage order. Opening a result moves the
    query to the front of the recent-search list. */
module Search {
  import opened Wrappers
  import opened Seqs
  import opened Strings
  import opened Entities
  import Storage

  const MaxRecent: nat := 10

  datatype ResultKind = WorkspaceKind | ProjectKind | NodeKind | ReminderKind

  datatype ResultData =
    | OfWorkspace(workspace: Workspace)
    | OfProject(project: Project)
    | OfNode(node: Node)
    | OfReminder(reminder: Reminder)

  datatype SearchResult = SearchResult(id: string, kind: ResultKind, title: string,
                                       subtitle: Option<string>, data: ResultData)

  /** The position of a kind in the result list. */
  function Rank(k: ResultKind): (n: nat)
    ensures n < 4
  {
    match k
    case WorkspaceKind => 0
    case ProjectKind => 1
    case NodeKind => 2
    case ReminderKind => 3
  }

  /** `text.toLowerCase().includes(lowerQuery)`. */
  predicate Matches(text: string, lowerQuery: string) {
    Contains(Lower(text), lowerQuery)
  }

  /** `text?.toLowerCase().includes(lowerQuery)`, false when the text is missing. */
  predicate MatchesOpt(text: Option<string>, lowerQuery: string) {
    text.Some? && Matches(text.value, lowerQuery)
  }

  predicate WorkspaceMatches(w: Workspace, lq: string) {
    Matches(w.name, lq) || MatchesOpt(w.description, lq)
  }

  predicate ProjectMatches(p: Project, lq: string) {
    Matches(p.name, lq) || MatchesOpt(p.description, lq)
  }

  predicate NodeMatches(n: Node, lq: string) {
    Matches(n.title, lq) || MatchesOpt(n.notes, lq) || exists i | 0 <= i < |n.tags| :: Matches(n.tags[i], lq)
  }

  predicate ReminderMatches(r: Reminder, lq: string) {
    Matches(r.title, lq)
  }

  function WorkspaceResult(w: Workspace): SearchResult {
    SearchResult("workspace-" + w.id, WorkspaceKind, w.name, Some(IntToString(w.projectCount) + " projects"),
                 OfWorkspace(w))
  }

  function ProjectResult(workspaces: seq<Workspace>, p: Project): SearchResult {
    var k := FindIndex(workspaces, (w: Workspace) => w.id == p.workspaceId);
    SearchResult("project-" + p.id, ProjectKind, p.name,
                 if k == -1 then None else Some("in " + workspaces[k].name), OfProject(p))
  }

  function NodeResult(projects: seq<Project>, n: Node): SearchResult {
    var k := FindIndex(projects, (p: Project) => p.id == n.projectId);
    SearchResult("node-" + n.id, NodeKind, n.title,
                 if k == -1 then None else Some("in " + projects[k].name), OfNode(n))
  }

  /** `localeDate` stands for `new Date(dueDate).toLocaleDateString()`. */
  function ReminderResult(localeDate: string -> string, r: Reminder): SearchResult {
    SearchResult("reminder-" + r.id, ReminderKind, r.title, Some(localeDate(r.dueDate)), OfReminder(r))
  }

  /** The results one `forEach` pushes: one per matching item, in order. */
  function Hits<T>(items: seq<T>, matches: T -> bool, toResult: T -> SearchResult): (r: seq<SearchResult>)
    ensures |r| <= |items|
  {
    if items == [] then []
    else
      var last := items[|items| - 1];
      Hits(items[..|items| - 1], matches, toResult) + (if matches(last) then [toResult(last)] else [])
  }

  /** Exactly the matching items give results, one each. */
  lemma {:induction false} HitsFacts<T>(items: seq<T>, matches: T -> bool, toResult: T -> SearchResult)
    ensures |Hits(items, matches, toResult)| == Count(items, matches)
    ensures forall x :: x in items && matches(x) ==> toResult(x) in Hits(items, matches, toResult)
    ensures forall y :: y in Hits(items, matches, toResult) ==>
      exists x :: x in items && matches(x) && y == toResult(x)
  {
    if items != [] {
      var init := items[..|items| - 1];
      var last := items[|items| - 1];
      HitsFacts(init, matches, toResult);
      assert items == init + [last];
      forall x | x in items && matches(x)
        ensures toResult(x) in Hits(items, matches, toResult)
      {
        if x != last {
          assert x in init;
        }
      }
    }
  }

  /** Everything `performSearch` collects for a trimmed query, by kind. */
  function SearchResults(workspaces: seq<Workspace>, projects: seq<Project>, nodes: seq<Node>,
                         reminders: seq<Reminder>, query: string, localeDate: string -> string): (r: seq<SearchResult>)
  {
    var lq := Lower(query);
    Hits(workspaces, (w: Workspace) => WorkspaceMatches(w, lq), WorkspaceResult)
    + Hits(projects, (p: Project) => ProjectMatches(p, lq), (p: Project) => ProjectResult(workspaces, p))
    + Hits(nodes, (n: Node) => NodeMatches(n, lq), (n: Node) => NodeResult(projects, n))
    + Hits(reminders, (x: Reminder) => ReminderMatches(x, lq), (x: Reminder) => ReminderResult(localeDate, x))
  }

  /** Every result in `rs` is of kind `k`. */
  predicate OfKind(rs: seq<SearchResult>, k: ResultKind) {
    forall i :: 0 <= i < |rs| ==> rs[i].kind == k
  }

  /** One `forEach` pushes results of the one kind its builder makes. */
  lemma {:induction false} HitsOfKind<T>(items: seq<T>, matches: T -> bool, toResult: T -> SearchResult, k: ResultKind)
    requires forall x :: toResult(x).kind == k
    ensures OfKind(Hits(items, matches, toResult), k)
  {
    if items != [] {
      HitsOfKind(items[..|items| - 1], matches, toResult, k);
    }
  }

  /** Four runs of one kind each, in rank order, are ordered by rank. */
  lemma RunsOrdered(ws: seq<SearchResult>, ps: seq<SearchResult>, ns: seq<SearchResult>, xs: seq<SearchResult>)
    requires OfKind(ws, WorkspaceKind) && OfKind(ps, ProjectKind)
    requires OfKind(ns, NodeKind) && OfKind(xs, ReminderKind)
    ensures var rs := ws + ps + ns + xs;
      forall i, j :: 0 <= i < j < |rs| ==> Rank(rs[i].kind) <= Rank(rs[j].kind)
  {
    var rs := ws + ps + ns + xs;
    var a, b, c := |ws|, |ws| + |ps|, |ws| + |ps| + |ns|;
    forall i | 0 <= i < |rs|
      ensures Rank(rs[i].kind) == if i < a then 0 else if i < b then 1 else if i < c then 2 else 3
    {
      if i < a {
        assert rs[i] == ws[i];
      } else if i < b {
        assert rs[i] == ps[i - a];
      } else if i < c {
        assert rs[i] == ns[i - b];
      } else {
        assert rs[i] == xs[i - c];
      }
    }
  }

  /** The kinds come in the order workspaces, projects, nodes, reminders. */
  lemma ResultsGrouped(workspaces: seq<Workspace>, projects: seq<Project>, nodes: seq<Node>,
                       reminders: seq<Reminder>, query: string, localeDate: string -> string)
    ensures var rs := SearchResults(workspaces, projects, nodes, reminders, query, localeDate);
      forall i, j :: 0 <= i < j < |rs| ==> Rank(rs[i].kind) <= Rank(rs[j].kind)
  {
    var lq := Lower(query);
    HitsOfKind(workspaces, (w: Workspace) => WorkspaceMatches(w, lq), WorkspaceResult, WorkspaceKind);
    HitsOfKind(projects, (p: Project) => ProjectMatches(p, lq), (p: Project) => ProjectResult(workspaces, p), ProjectKind);
    HitsOfKind(nodes, (n: Node) => NodeMatches(n, lq), (n: Node) => NodeResult(projects, n), NodeKind);
    HitsOfKind(reminders, (x: Reminder) => ReminderMatches(x, lq), (x: Reminder) => ReminderResult(localeDate, x), ReminderKind);
    RunsOrdered(Hits(workspaces, (w: Workspace) => WorkspaceMatches(w, lq), WorkspaceResult),
                Hits(projects, (p: Project) => ProjectMatches(p, lq), (p: Project) => ProjectResult(workspaces, p)),
                Hits(nodes, (n: Node) => NodeMatches(n, lq), (n: Node) => NodeResult(projects, n)),
                Hits(reminders, (x: Reminder) => ReminderMatches(x, lq), (x: Reminder) => ReminderResult(localeDate, x)));
  }

  /** A node matches whenever any one of its tags does. */
  lemma TagMatchFindsNode(n: Node, i: nat, query: string)
    requires i < |n.tags| && Matches(n.tags[i], Lower(query))
    ensures NodeMatches(n, Lower(query))
  {
  }

  /** The letter case of the query does not change the results. */
  lemma QueryCaseIrrelevant(workspaces: seq<Workspace>, projects: seq<Project>, nodes: seq<Node>,
                            reminders: seq<Reminder>, query: string, localeDate: string -> string)
    ensures SearchResults(workspaces, projects, nodes, reminders, Lower(query), localeDate)
         == SearchResults(workspaces, projects, nodes, reminders, query, localeDate)
  {
    LowerIdempotent(query);
  }

  /** One `forEach` with its `push`es. */
  method Collect<T>(items: seq<T>, matches: T -> bool, toResult: T -> SearchResult) returns (out: seq<SearchResult>)
    ensures out == Hits(items, matches, toResult)
  {
    out := [];
    var i := 0;
    while i < |items|
      invariant 0 <= i <= |items|
      invariant out == Hits(items[..i], matches, toResult)
    {
      assert items[..i + 1][..i] == items[..i];
      if matches(items[i]) {
        out := out + [toResult(items[i])];
      }
      i := i + 1;
    }
    assert items[..|items|] == items;
  }

  /** `performSearch` on a trimmed, non-blank query. */
  method PerformSearch(workspaces: seq<Workspace>, projects: seq<Project>, nodes: seq<Node>,
                       reminders: seq<Reminder>, query: string, localeDate: string -> string)
    returns (results: seq<SearchResult>)
    ensures results == SearchResults(workspaces, projects, nodes, reminders, query, localeDate)
  {
    var lowerQuery := Lower(query);
    var ws := Collect(workspaces, (w: Workspace) => WorkspaceMatches(w, lowerQuery), WorkspaceResult);
    var ps := Collect(projects, (p: Project) => ProjectMatches(p, lowerQuery), (p: Project) => ProjectResult(workspaces, p));
    var ns := Collect(nodes, (n: Node) => NodeMatches(n, lowerQuery), (n: Node) => NodeResult(projects, n));
    var xs := Collect(reminders, (x: Reminder) => ReminderMatches(x, lowerQuery), (x: Reminder) => ReminderResult(localeDate, x));
    results := ws + ps + ns + xs;
  }

  /** `s => s !== query`. */
  function Other(query: string): string -> bool {
    (s: string) => s != query
  }

  /** `[query, ...recent.filter(s => s !== query)].slice(0, 10)`. */
  function Remember(recent: seq<string>, query: string): (r: seq<string>)
    ensures 1 <= |r| <= MaxRecent && r[0] == query
    ensures forall i :: 1 <= i < |r| ==> r[i] != query
    ensures var n := 1 + |Filter(recent, Other(query))|; |r| == if n <= MaxRecent then n else MaxRecent
    ensures r[1..] == Filter(recent, Other(query))[..|r| - 1]
  {
    var f := Filter(recent, Other(query));
    var all := [query] + f;
    var r := if |all| <= MaxRecent then all else all[..MaxRecent];
    assert forall i :: 1 <= i < |r| ==> r[i] == all[i] && all[i] == f[i - 1];
    assert r[1..] == f[..|r| - 1];
    r
  }

  /** Remembering the query that is already most recent changes nothing on
      a list without repeats of the head. */
  lemma {:induction false} RememberHeadIsNoop(recent: seq<string>, query: string)
    requires 1 <= |recent| <= MaxRecent && recent[0] == query
    requires forall i :: 1 <= i < |recent| ==> recent[i] != query
    ensures Remember(recent, query) == recent
  {
    var keep := Other(query);
    var rest := recent[1..];
    FilterAll(rest, keep);
    FilterAppend([recent[0]], rest, keep);
    assert [recent[0]] + rest == recent;
    assert Filter([recent[0]], keep) == [] by {
      assert [recent[0]][..0] == [];
    }
    var r := Remember(recent, query);
    assert r[1..] == rest;
  }

  /** A list without repeats stays without repeats. */
  lemma RememberKeepsDistinct(recent: seq<string>, query: string)
    requires NoDuplicates(recent)
    ensures NoDuplicates(Remember(recent, query))
  {
    var f := Filter(recent, Other(query));
    FilterNoDuplicates(recent, Other(query));
    var r := Remember(recent, query);
    forall i, j | 0 <= i < j < |r|
      ensures r[i] != r[j]
    {
      if i > 0 {
        assert r[i] == r[1..][i - 1] == f[i - 1];
        assert r[j] == r[1..][j - 1] == f[j - 1];
      }
    }
  }

  class SearchScreen {
    var searchQuery: string
    var results: seq<SearchResult>
    var recentSearches: seq<string>

    constructor ()
      ensures searchQuery == "" && results == [] && recentSearches == []
    {
      searchQuery, results, recentSearches := "", [], [];
    }

    /** `loadRecentSearches`. */
    method LoadRecent(store: Storage.StorageService)
      modifies this
      ensures recentSearches == store.GetRecentSearches()
      ensures searchQuery == old(searchQuery) && results == old(results)
    {
      recentSearches := store.GetRecentSearches();
    }

    /** Typing (or picking a recent search): the effect on `searchQuery`
      clears the results for a blank query and otherwise searches for the
      trimmed query over everything stored. */
    method SetQuery(text: string, store: Storage.StorageService, localeDate: string -> string)
      modifies this
      ensures searchQuery == text && recentSearches == old(recentSearches)
      ensures IsBlank(text) ==> results == []
      ensures !IsBlank(text) ==>
        results == SearchResults(store.GetWorkspaces(), store.GetProjects(), store.GetNodes(),
                                 store.GetReminders(), Trim(text), localeDate)
    {
      searchQuery := text;
      BlankIffTrimEmpty(text);
      var q := Trim(text);
      if |q| > 0 {
        results := PerformSearch(store.GetWorkspaces(), store.GetProjects(), store.GetNodes(),
                                 store.GetReminders(), q, localeDate);
      } else {
        results := [];
      }
    }

    /** `handleResultPress`'s `saveRecentSearch(searchQuery)`: the query as
      typed, untrimmed, becomes the most recent entry and is stored. */
    method OpenResult(store: Storage.StorageService)
      modifies this, store
      ensures recentSearches == Remember(old(recentSearches), searchQuery)
      ensures store.recentSearches == Some(recentSearches)
      ensures searchQuery == old(searchQuery) && results == old(results)
      ensures store.workspaces == old(store.workspaces) && store.projects == old(store.projects)
      ensures store.nodes == old(store.nodes) && store.reminders == old(store.reminders)
    {
      recentSearches := Remember(recentSearches, searchQuery);
      store.SaveRecentSearches(recentSearches);
    }

    /** `clearRecentSearches`. */
    method ClearRecent(store: Storage.StorageService)
      modifies this, store
      ensures recentSearches == [] && store.recentSearches == Some([])
      ensures searchQuery == old(searchQuery) && results == old(results)
      ensures store.workspaces == old(store.workspaces) && store.projects == old(store.projects)
      ensures store.nodes == old(store.nodes) && store.reminders == old(store.reminders)
    {
      recentSearches := [];
      store.SaveRecentSearches([]);
    }
  }
}
