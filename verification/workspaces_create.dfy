/** The new-workspace screen: a name, a description, a colour from the
    palette and an icon from the icon set. Saving appends the workspace. */
module WorkspacesCreate {
  import opened Wrappers
  import opened Strings
  import opened Entities
  import Storage
  import NodeEditor
  import ProjectsCreate

  const DefaultIcon: string := "briefcase"

  /** The icon names the screen can draw (`iconMap`). */
  const KnownIcons: seq<string> := [
    "briefcase", "folder", "star", "heart", "bookmark", "flag", "target", "zap",
    "trending-up", "users", "calendar", "clock", "settings", "layers", "grid"]

  /** `iconMap[name] || Briefcase`: the glyph drawn for an icon name. */
  function Glyph(name: string): (g: string)
    ensures g in KnownIcons
    ensures name in KnownIcons ==> g == name
    ensures name !in KnownIcons ==> g == DefaultIcon
  {
    if name in KnownIcons then name else DefaultIcon
  }

  /** The workspace `handleSave` builds, or the alert it shows instead. */
  function NewWorkspace(name: string, description: string, color: string, icon: string,
                        now: nat, nowIso: string): (r: Result<Workspace, string>)
    ensures r.Err? <==> IsBlank(name)
    ensures r.Err? ==> r.error == "Please enter a workspace name"
    ensures r.Ok? ==>
      Trim(name) != []
      && r.value.id == NatToString(now) && r.value.name == Trim(name)
      && r.value.description == Some(Trim(description))
      && r.value.color == color && r.value.icon == icon
      && r.value.ownerId == NodeEditor.CurrentUser
      && r.value.projectCount == 0 && r.value.unreadCount == 0
      && r.value.createdAt == nowIso && r.value.updatedAt == nowIso
  {
    BlankIffTrimEmpty(name);
    if IsBlank(name) then Err("Please enter a workspace name")
    else Ok(Workspace(NatToString(now), Trim(name), Some(Trim(description)), NodeEditor.CurrentUser,
                      color, icon, nowIso, nowIso, 0, 0))
  }

  class WorkspaceForm {
    var name: string
    var description: string
    var selectedColor: string
    var selectedIcon: string

    /** The first render: the first palette colour and the briefcase. */
    constructor ()
      ensures name == "" && description == ""
      ensures selectedColor == ProjectsCreate.WorkspaceColors[0] && selectedIcon == DefaultIcon
    {
      name, description := "", "";
      selectedColor, selectedIcon := ProjectsCreate.WorkspaceColors[0], DefaultIcon;
    }

    method Edit(newName: string, newDescription: string, color: string, icon: string)
      modifies this
      ensures name == newName && description == newDescription
      ensures selectedColor == color && selectedIcon == icon
    {
      name, description, selectedColor, selectedIcon := newName, newDescription, color, icon;
    }

    /** `handleSave`: a blank name stores nothing; otherwise exactly the
      built workspace is appended. */
    method Save(store: Storage.StorageService, now: nat, nowIso: string) returns (r: Result<Workspace, string>)
      modifies store
      ensures r == NewWorkspace(name, description, selectedColor, selectedIcon, now, nowIso)
      ensures r.Err? ==> store.workspaces == old(store.workspaces)
      ensures r.Ok? ==> store.workspaces == Storage.Appended(old(store.workspaces), r.value)
      ensures store.projects == old(store.projects) && store.nodes == old(store.nodes)
      ensures store.reminders == old(store.reminders) && store.recentSearches == old(store.recentSearches)
    {
      r := NewWorkspace(name, description, selectedColor, selectedIcon, now, nowIso);
      if r.Ok? {
        store.AddWorkspace(r.value);
      }
    }
  }

  /** A fresh form saved with a name makes a workspace in the default colour
      and icon. */
  lemma DefaultsSaved(name: string, now: nat, nowIso: string)
    requires !IsBlank(name)
    ensures var r := NewWorkspace(name, "", ProjectsCreate.WorkspaceColors[0], DefaultIcon, now, nowIso);
      r.Ok? && r.value.color == "#007AFF" && r.value.icon == "briefcase" && Glyph(r.value.icon) == "briefcase"
      && r.value.description == Some("")
  {
  }
}
