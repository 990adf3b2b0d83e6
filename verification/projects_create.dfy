/** The new-project screen. Opened from a workspace (the `workspaceId` route
    parameter) the project goes there; opened elsewhere the user must pick a
    workspace. Saving appends the project and recounts that workspace's
    projects. */
module ProjectsCreate {
  import opened Wrappers
  import opened Strings
  import opened Entities
  import Storage
  import NodeEditor

  /** The workspace palette; the first entry is the default colour. */
  const WorkspaceColors: seq<string> := [
    "#007AFF", "#5856D6", "#AF52DE", "#FF2D92",
    "#FF3B30", "#FF9500", "#FFCC02", "#34C759",
    "#00C7BE", "#5AC8FA", "#8E8E93", "#48484A"]

  /** The project `handleSave` builds, or the alert it shows instead.
      `routeWorkspace` is the route parameter; a missing or empty one means
      the screen was not opened from a workspace. */
  function NewProject(name: string, description: string, color: string, routeWorkspace: Option<string>,
                      selectedWorkspace: string, now: nat, nowIso: string): (r: Result<Project, string>)
    ensures IsBlank(name) ==> r == Err("Please enter a project name")
    ensures !IsBlank(name) && !TruthyText(routeWorkspace) && selectedWorkspace == [] ==>
      r == Err("Please select a workspace")
    ensures r.Ok? ==>
      Trim(name) != []
      && r.value.workspaceId == (if TruthyText(routeWorkspace) then routeWorkspace.value else selectedWorkspace)
      && r.value.workspaceId != ""
      && r.value.id == NatToString(now) && r.value.name == Trim(name)
      && r.value.description == Some(Trim(description))
      && r.value.status == ProjectBacklog && r.value.nodeCount == 0 && r.value.color == color
      && r.value.ownerId == NodeEditor.CurrentUser
      && r.value.createdAt == nowIso && r.value.updatedAt == nowIso
    ensures r.Err? ==> IsBlank(name) || (!TruthyText(routeWorkspace) && selectedWorkspace == [])
  {
    BlankIffTrimEmpty(name);
    if IsBlank(name) then Err("Please enter a project name")
    else if !TruthyText(routeWorkspace) && selectedWorkspace == [] then Err("Please select a workspace")
    else
      var workspaceId := if TruthyText(routeWorkspace) then routeWorkspace.value else selectedWorkspace;
      Ok(Project(NatToString(now), Trim(name), Some(Trim(description)), workspaceId,
                 NodeEditor.CurrentUser, ProjectBacklog, color, nowIso, nowIso, 0))
  }

  class ProjectForm {
    /** The `workspaceId` route parameter. */
    const routeWorkspace: Option<string>
    var name: string
    var description: string
    var selectedColor: string
    var selectedWorkspace: string
    var workspaces: seq<Workspace>

    /** The first render: empty fields, the first palette colour. */
    constructor (route: Option<string>)
      ensures routeWorkspace == route
      ensures name == "" && description == "" && selectedColor == WorkspaceColors[0]
      ensures selectedWorkspace == "" && workspaces == []
    {
      routeWorkspace := route;
      name, description, selectedColor := "", "", WorkspaceColors[0];
      selectedWorkspace, workspaces := "", [];
    }

    /** `loadWorkspaces`: the stored list, and the route's workspace preselected. */
    method Load(store: Storage.StorageService)
      modifies this
      ensures workspaces == store.GetWorkspaces()
      ensures selectedWorkspace == (if TruthyText(routeWorkspace) then routeWorkspace.value else old(selectedWorkspace))
      ensures name == old(name) && description == old(description) && selectedColor == old(selectedColor)
    {
      workspaces := store.GetWorkspaces();
      if TruthyText(routeWorkspace) {
        selectedWorkspace := routeWorkspace.value;
      }
    }

    method Edit(newName: string, newDescription: string, color: string, workspace: string)
      modifies this
      ensures name == newName && description == newDescription
      ensures selectedColor == color && selectedWorkspace == workspace && workspaces == old(workspaces)
    {
      name, description, selectedColor, selectedWorkspace := newName, newDescription, color, workspace;
    }

    /** `handleSave`: on a refusal nothing is stored; otherwise the project is
      appended and its workspace's `projectCount` is recounted. */
    method Save(store: Storage.StorageService, now: nat, nowIso: string) returns (r: Result<Project, string>)
      modifies store
      ensures r == NewProject(name, description, selectedColor, routeWorkspace, selectedWorkspace, now, nowIso)
      ensures r.Err? ==> store.projects == old(store.projects) && store.workspaces == old(store.workspaces)
      ensures r.Ok? ==>
        var count := |Storage.ProjectsOf(store.projects, r.value.workspaceId)|;
        store.projects == Storage.Appended(old(store.projects), r.value)
        && store.workspaces == Storage.Patched(old(store.workspaces), (w: Workspace) => w.id == r.value.workspaceId,
                                               (w: Workspace) => w.(projectCount := count))
      ensures store.nodes == old(store.nodes) && store.reminders == old(store.reminders)
      ensures store.recentSearches == old(store.recentSearches)
    {
      r := NewProject(name, description, selectedColor, routeWorkspace, selectedWorkspace, now, nowIso);
      if r.Ok? {
        store.AddProject(r.value);
        store.UpdateWorkspaceProjectCount(r.value.workspaceId);
      }
    }
  }

  /** Inside a workspace route the selection is never consulted: the project
      goes to the route's workspace whatever was picked. */
  lemma RouteWins(name: string, description: string, color: string, route: string,
                  picked1: string, picked2: string, now: nat, nowIso: string)
    requires route != ""
    ensures NewProject(name, description, color, Some(route), picked1, now, nowIso)
         == NewProject(name, description, color, Some(route), picked2, now, nowIso)
  {
  }

  /** The saved project is counted in its workspace: after the save, the
      stored projects of that workspace include it, and the recount is at
      least one. */
  lemma SavedProjectCounted(before: Option<seq<Project>>, p: Project)
    ensures p in Storage.ProjectsOf(Storage.Appended(before, p), p.workspaceId)
    ensures |Storage.ProjectsOf(Storage.Appended(before, p), p.workspaceId)| >= 1
  {
    var after := Storage.Appended(before, p);
    assert after.value[|Storage.Read(before)|] == p;
  }
}
