/** The app's storage service: four tables (workspaces, projects, nodes,
    reminders) and the recent-search list, each read whole, changed and
    written back. A table is `None` when its key is absent or its text does
    not parse, which every read treats as the empty list. The partial
    updates `{...item, ...updates}` are the functions `patch`; dates are
    parsed by `parse` (`None` for an invalid date). */
module Storage {
  import opened Wrappers
  import opened Seqs
  import opened Entities

  /** `data ? JSON.parse(data) : []`. */
  function Read<T>(table: Option<seq<T>>): (r: seq<T>)
    ensures table.None? ==> r == []
    ensures table.Some? ==> r == table.value
  {
    table.GetOr([])
  }

  /** The read-append-write of `add*`: exactly one more element, at the end. */
  function Appended<T>(table: Option<seq<T>>, x: T): (r: Option<seq<T>>)
    ensures r.Some? && |r.value| == |Read(table)| + 1
    ensures r.value[..|Read(table)|] == Read(table) && r.value[|Read(table)|] == x
  {
    Some(Read(table) + [x])
  }

  /** The read-patch-write of `update*`: the first element that matches is
      patched and written back; with no match nothing is written. */
  function Patched<T>(table: Option<seq<T>>, matches: T -> bool, patch: T -> T): (r: Option<seq<T>>)
    ensures FindIndex(Read(table), matches) == -1 ==> r == table
    ensures FindIndex(Read(table), matches) != -1 ==>
      r.Some? && |r.value| == |Read(table)|
      && forall i :: 0 <= i < |r.value| ==>
           r.value[i] == if i == FindIndex(Read(table), matches) then patch(Read(table)[i]) else Read(table)[i]
  {
    if FindIndex(Read(table), matches) == -1 then table
    else Some(UpdateFirst(Read(table), matches, patch))
  }

  /** The read-filter-write of `delete*`: the elements that are kept, in order. */
  function Kept<T(==)>(table: Option<seq<T>>, keep: T -> bool): (r: Option<seq<T>>)
    ensures r.Some? && r.value == Filter(Read(table), keep)
  {
    Some(Filter(Read(table), keep))
  }

  /** The stored nodes of one project, in order. */
  function NodesOf(table: Option<seq<Node>>, projectId: string): (r: seq<Node>)
    ensures forall i :: 0 <= i < |r| ==> r[i].projectId == projectId && r[i] in Read(table)
    ensures forall n :: n in Read(table) && n.projectId == projectId ==> n in r
  {
    Filter(Read(table), (n: Node) => n.projectId == projectId)
  }

  /** The stored projects of one workspace, in order. */
  function ProjectsOf(table: Option<seq<Project>>, workspaceId: string): (r: seq<Project>)
    ensures forall i :: 0 <= i < |r| ==> r[i].workspaceId == workspaceId && r[i] in Read(table)
    ensures forall p :: p in Read(table) && p.workspaceId == workspaceId ==> p in r
  {
    Filter(Read(table), (p: Project) => p.workspaceId == workspaceId)
  }

  /** A reminder overdue at `now`: open and due strictly before now. */
  predicate IsOverdue(r: Reminder, now: int, parse: string -> Option<int>) {
    !r.isCompleted && parse(r.dueDate).Some? && parse(r.dueDate).value < now
  }

  /** A reminder upcoming between `now` and `until`: open and due in that closed window. */
  predicate IsUpcoming(r: Reminder, now: int, until: int, parse: string -> Option<int>) {
    !r.isCompleted && parse(r.dueDate).Some? && now <= parse(r.dueDate).value <= until
  }

  /** No reminder is both overdue and upcoming. */
  lemma OverdueUpcomingDisjoint(r: Reminder, now: int, until: int, parse: string -> Option<int>)
    ensures !(IsOverdue(r, now, parse) && IsUpcoming(r, now, until, parse))
  {
  }

  class StorageService {
    var workspaces: Option<seq<Workspace>>
    var projects: Option<seq<Project>>
    var nodes: Option<seq<Node>>
    var reminders: Option<seq<Reminder>>
    var recentSearches: Option<seq<string>>

    /** Storage with no key written yet. */
    constructor ()
      ensures workspaces.None? && projects.None? && nodes.None? && reminders.None? && recentSearches.None?
    {
      workspaces, projects, nodes, reminders, recentSearches := None, None, None, None, None;
    }

    // ---------------------------------------------------------- workspaces

    function GetWorkspaces(): (r: seq<Workspace>)
      reads this
      ensures workspaces.None? ==> r == []
    {
      Read(workspaces)
    }

    method AddWorkspace(w: Workspace)
      modifies this
      ensures workspaces == Appended(old(workspaces), w)
      ensures projects == old(projects) && nodes == old(nodes) && reminders == old(reminders)
      ensures recentSearches == old(recentSearches)
    {
      workspaces := Appended(workspaces, w);
    }

    method UpdateWorkspace(id: string, patch: Workspace -> Workspace)
      modifies this
      ensures workspaces == Patched(old(workspaces), (w: Workspace) => w.id == id, patch)
      ensures projects == old(projects) && nodes == old(nodes) && reminders == old(reminders)
      ensures recentSearches == old(recentSearches)
    {
      workspaces := Patched(workspaces, (w: Workspace) => w.id == id, patch);
    }

    /** `deleteWorkspace`: only the workspace table changes; its projects stay. */
    method DeleteWorkspace(id: string)
      modifies this
      ensures workspaces == Kept(old(workspaces), (w: Workspace) => w.id != id)
      ensures projects == old(projects) && nodes == old(nodes) && reminders == old(reminders)
      ensures recentSearches == old(recentSearches)
    {
      workspaces := Kept(workspaces, (w: Workspace) => w.id != id);
    }

    // ---------------------------------------------------------- projects

    function GetProjects(): (r: seq<Project>)
      reads this
      ensures projects.None? ==> r == []
    {
      Read(projects)
    }

    /** `getProjectsByWorkspace`: exactly the projects of that workspace, in order. */
    function GetProjectsByWorkspace(workspaceId: string): (r: seq<Project>)
      reads this
      ensures r == ProjectsOf(projects, workspaceId)
    {
      ProjectsOf(projects, workspaceId)
    }

    method AddProject(p: Project)
      modifies this
      ensures projects == Appended(old(projects), p)
      ensures workspaces == old(workspaces) && nodes == old(nodes) && reminders == old(reminders)
      ensures recentSearches == old(recentSearches)
    {
      projects := Appended(projects, p);
    }

    method UpdateProject(id: string, patch: Project -> Project)
      modifies this
      ensures projects == Patched(old(projects), (p: Project) => p.id == id, patch)
      ensures workspaces == old(workspaces) && nodes == old(nodes) && reminders == old(reminders)
      ensures recentSearches == old(recentSearches)
    {
      projects := Patched(projects, (p: Project) => p.id == id, patch);
    }

    /** `deleteProject`: the project, its nodes and its reminders all go. */
    method DeleteProject(id: string)
      modifies this
      ensures projects == Kept(old(projects), (p: Project) => p.id != id)
      ensures nodes == Kept(old(nodes), (n: Node) => n.projectId != id)
      ensures reminders == Kept(old(reminders), (r: Reminder) => r.projectId != id)
      ensures workspaces == old(workspaces) && recentSearches == old(recentSearches)
      ensures forall n :: n in Read(nodes) ==> n.projectId != id
      ensures forall r :: r in Read(reminders) ==> r.projectId != id
    {
      projects := Kept(projects, (p: Project) => p.id != id);
      nodes := Kept(nodes, (n: Node) => n.projectId != id);
      reminders := Kept(reminders, (r: Reminder) => r.projectId != id);
    }

    // ---------------------------------------------------------- nodes

    function GetNodes(): (r: seq<Node>)
      reads this
      ensures nodes.None? ==> r == []
    {
      Read(nodes)
    }

    /** `getNodesByProject`: exactly the nodes of that project, in order. */
    function GetNodesByProject(projectId: string): (r: seq<Node>)
      reads this
      ensures r == NodesOf(nodes, projectId)
    {
      NodesOf(nodes, projectId)
    }

    /** `updateProjectNodeCount`: the first project with that id records how
      many nodes it has. */
    method UpdateProjectNodeCount(projectId: string)
      modifies this
      ensures var count := |NodesOf(nodes, projectId)|;
        projects == Patched(old(projects), (p: Project) => p.id == projectId,
                            (p: Project) => p.(nodeCount := count))
      ensures workspaces == old(workspaces) && nodes == old(nodes) && reminders == old(reminders)
      ensures recentSearches == old(recentSearches)
    {
      var count := |GetNodesByProject(projectId)|;
      UpdateProject(projectId, (p: Project) => p.(nodeCount := count));
    }

    /** `updateWorkspaceProjectCount`: the first workspace with that id
      records how many projects it has. */
    method UpdateWorkspaceProjectCount(workspaceId: string)
      modifies this
      ensures var count := |ProjectsOf(projects, workspaceId)|;
        workspaces == Patched(old(workspaces), (w: Workspace) => w.id == workspaceId,
                              (w: Workspace) => w.(projectCount := count))
      ensures projects == old(projects) && nodes == old(nodes) && reminders == old(reminders)
      ensures recentSearches == old(recentSearches)
    {
      var count := |GetProjectsByWorkspace(workspaceId)|;
      UpdateWorkspace(workspaceId, (w: Workspace) => w.(projectCount := count));
    }

    /** `addNode`: append the node, then recount its project. */
    method AddNode(node: Node)
      modifies this
      ensures nodes == Appended(old(nodes), node)
      ensures var count := |NodesOf(nodes, node.projectId)|;
        projects == Patched(old(projects), (p: Project) => p.id == node.projectId,
                            (p: Project) => p.(nodeCount := count))
      ensures workspaces == old(workspaces) && reminders == old(reminders)
      ensures recentSearches == old(recentSearches)
    {
      nodes := Appended(nodes, node);
      UpdateProjectNodeCount(node.projectId);
    }

    method UpdateNode(id: string, patch: Node -> Node)
      modifies this
      ensures nodes == Patched(old(nodes), (n: Node) => n.id == id, patch)
      ensures workspaces == old(workspaces) && projects == old(projects) && reminders == old(reminders)
      ensures recentSearches == old(recentSearches)
    {
      nodes := Patched(nodes, (n: Node) => n.id == id, patch);
    }

    /** `deleteNode`: an unknown id changes nothing; otherwise every node with
      that id goes and the first such node's project is recounted. */
    method DeleteNode(id: string)
      modifies this
      ensures FindNode(old(Read(nodes)), id).None? ==>
        nodes == old(nodes) && projects == old(projects)
      ensures FindNode(old(Read(nodes)), id).Some? ==>
        var pid := FindNode(old(Read(nodes)), id).value.projectId;
        var count := |NodesOf(nodes, pid)|;
        nodes == Kept(old(nodes), (n: Node) => n.id != id)
        && projects == Patched(old(projects), (p: Project) => p.id == pid,
                               (p: Project) => p.(nodeCount := count))
      ensures workspaces == old(workspaces) && reminders == old(reminders)
      ensures recentSearches == old(recentSearches)
    {
      var found := FindNode(Read(nodes), id);
      if found.Some? {
        nodes := Kept(nodes, (n: Node) => n.id != id);
        UpdateProjectNodeCount(found.value.projectId);
      }
    }

    // ---------------------------------------------------------- reminders

    function GetReminders(): (r: seq<Reminder>)
      reads this
      ensures reminders.None? ==> r == []
    {
      Read(reminders)
    }

    method AddReminder(r: Reminder)
      modifies this
      ensures reminders == Appended(old(reminders), r)
      ensures workspaces == old(workspaces) && projects == old(projects) && nodes == old(nodes)
      ensures recentSearches == old(recentSearches)
    {
      reminders := Appended(reminders, r);
    }

    method UpdateReminder(id: string, patch: Reminder -> Reminder)
      modifies this
      ensures reminders == Patched(old(reminders), (r: Reminder) => r.id == id, patch)
      ensures workspaces == old(workspaces) && projects == old(projects) && nodes == old(nodes)
      ensures recentSearches == old(recentSearches)
    {
      reminders := Patched(reminders, (r: Reminder) => r.id == id, patch);
    }

    method DeleteReminder(id: string)
      modifies this
      ensures reminders == Kept(old(reminders), (r: Reminder) => r.id != id)
      ensures workspaces == old(workspaces) && projects == old(projects) && nodes == old(nodes)
      ensures recentSearches == old(recentSearches)
    {
      reminders := Kept(reminders, (r: Reminder) => r.id != id);
    }

    /** `getRemindersByDate`: the reminders whose due date falls on the same
      calendar day, `day` standing for `new Date(s).toDateString()`. */
    function GetRemindersByDate(date: string, day: string -> string): (r: seq<Reminder>)
      reads this
      ensures forall i :: 0 <= i < |r| ==> day(r[i].dueDate) == day(date) && r[i] in Read(reminders)
      ensures forall x :: x in Read(reminders) && day(x.dueDate) == day(date) ==> x in r
    {
      Filter(Read(reminders), (x: Reminder) => day(x.dueDate) == day(date))
    }

    /** `getOverdueReminders`. */
    function GetOverdueReminders(now: int, parse: string -> Option<int>): (r: seq<Reminder>)
      reads this
      ensures forall i :: 0 <= i < |r| ==> IsOverdue(r[i], now, parse) && r[i] in Read(reminders)
      ensures forall x :: x in Read(reminders) && IsOverdue(x, now, parse) ==> x in r
    {
      Filter(Read(reminders), (x: Reminder) => IsOverdue(x, now, parse))
    }

    /** `getUpcomingReminders`, with `until` the moment `days` calendar days ahead. */
    function GetUpcomingReminders(now: int, until: int, parse: string -> Option<int>): (r: seq<Reminder>)
      reads this
      ensures forall i :: 0 <= i < |r| ==> IsUpcoming(r[i], now, until, parse) && r[i] in Read(reminders)
      ensures forall x :: x in Read(reminders) && IsUpcoming(x, now, until, parse) ==> x in r
    {
      Filter(Read(reminders), (x: Reminder) => IsUpcoming(x, now, until, parse))
    }

    // ---------------------------------------------------------- recent searches

    function GetRecentSearches(): (r: seq<string>)
      reads this
      ensures recentSearches.None? ==> r == []
    {
      Read(recentSearches)
    }

    method SaveRecentSearches(searches: seq<string>)
      modifies this
      ensures recentSearches == Some(searches)
      ensures workspaces == old(workspaces) && projects == old(projects) && nodes == old(nodes)
      ensures reminders == old(reminders)
    {
      recentSearches := Some(searches);
    }
  }

  /** After `addNode`, the node's project (its first entry, when there is
      one) counts exactly the stored nodes of that project. */
  lemma RecountMatchesNodes(projects: Option<seq<Project>>, nodes: seq<Node>, pid: string)
    requires FindIndex(Read(projects), (p: Project) => p.id == pid) != -1
    ensures var ps := Read(Patched(projects, (p: Project) => p.id == pid,
                                   (p: Project) => p.(nodeCount := |NodesOf(Some(nodes), pid)|)));
      var k := FindIndex(Read(projects), (p: Project) => p.id == pid);
      0 <= k < |ps| && ps[k].id == pid && ps[k].nodeCount == Count(nodes, (n: Node) => n.projectId == pid)
  {
    FilterCount(nodes, (n: Node) => n.projectId == pid);
  }

  /** `updateProject` of an id no project has leaves the table as it was. */
  lemma PatchUnknownIsNoop<T>(table: Option<seq<T>>, matches: T -> bool, patch: T -> T)
    requires forall i :: 0 <= i < |Read(table)| ==> !matches(Read(table)[i])
    ensures Patched(table, matches, patch) == table
  {
  }

  /** Deleting an id no element has keeps the elements as they were. */
  lemma DeleteUnknownKeeps<T>(table: Option<seq<T>>, keep: T -> bool)
    requires forall i :: 0 <= i < |Read(table)| ==> keep(Read(table)[i])
    ensures Kept(table, keep) == Some(Read(table))
  {
    FilterAll(Read(table), keep);
  }
}
