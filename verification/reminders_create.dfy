/** The new-reminder screen: a title, a due moment edited through a date
    picker and a time picker, and an optional node or project the reminder
    is attached to. Saving builds the reminder and appends it to storage.
    `Date.now()`, `new Date().toISOString()` and the ISO rendering of the
    chosen moment are parameters. */
module RemindersCreate {
  import opened Wrappers
  import opened Seqs
  import opened Strings
  import opened Entities
  import Storage

  /** A local date and time as the pickers edit it: the calendar day and the
      time of day. */
  datatype Moment = Moment(day: int, hours: nat, minutes: nat, seconds: nat, millis: nat)

  /** `projects.find(p => p.id === id)`. */
  function FindProject(projects: seq<Project>, id: string): (r: Option<Project>)
    ensures r.None? <==> forall i :: 0 <= i < |projects| ==> projects[i].id != id
    ensures r.Some? ==>
      exists i :: 0 <= i < |projects| && projects[i] == r.value && r.value.id == id
        && forall j :: 0 <= j < i ==> projects[j].id != id
  {
    var k := FindIndex(projects, (p: Project) => p.id == id);
    if k == -1 then None else Some(projects[k])
  }

  /** `selectedProject?.id || selectedNode?.projectId || ''`: the first
      non-empty of the two ids. */
  function TargetProject(node: Option<Node>, project: Option<Project>): (id: string)
    ensures project.Some? && project.value.id != "" ==> id == project.value.id
    ensures (project.None? || project.value.id == "") && node.Some? && node.value.projectId != "" ==>
      id == node.value.projectId
    ensures id == "" <==>
      (project.None? || project.value.id == "") && (node.None? || node.value.projectId == "")
  {
    if project.Some? && project.value.id != "" then project.value.id
    else if node.Some? && node.value.projectId != "" then node.value.projectId
    else ""
  }

  /** The reminder `handleSave` builds, or the alert it shows instead. */
  function NewReminder(title: string, dueDate: Moment, node: Option<Node>, project: Option<Project>,
                       now: nat, nowIso: string, iso: Moment -> string): (r: Result<Reminder, string>)
    ensures r.Err? <==> IsBlank(title)
    ensures r.Err? ==> r.error == "Please enter a reminder title"
    ensures r.Ok? ==>
      r.value.id == NatToString(now) && r.value.title == Trim(title) && Trim(title) != []
      && r.value.nodeId == (if node.Some? then node.value.id else "")
      && r.value.projectId == TargetProject(node, project)
      && r.value.dueDate == iso(dueDate) && r.value.createdAt == nowIso
      && r.value.assigneeIds == (if node.Some? then node.value.assigneeIds else [])
      && !r.value.isCompleted
  {
    BlankIffTrimEmpty(title);
    if IsBlank(title) then Err("Please enter a reminder title")
    else
      Ok(Reminder(
        NatToString(now),
        if node.Some? then node.value.id else "",
        TargetProject(node, project),
        Trim(title),
        iso(dueDate),
        if node.Some? then node.value.assigneeIds else [],
        false,
        nowIso))
  }

  /** `handleTimeChange` with a chosen time: the day and the seconds stay,
      hours and minutes come from the picker. */
  function WithTime(dueDate: Moment, time: Moment): (r: Moment)
    ensures r.day == dueDate.day && r.seconds == dueDate.seconds && r.millis == dueDate.millis
    ensures r.hours == time.hours && r.minutes == time.minutes
  {
    dueDate.(hours := time.hours, minutes := time.minutes)
  }

  /** Choosing the same time twice is choosing it once. */
  lemma WithTimeIdempotent(dueDate: Moment, time: Moment)
    ensures WithTime(WithTime(dueDate, time), time) == WithTime(dueDate, time)
  {
  }

  class ReminderForm {
    var title: string
    var dueDate: Moment
    var selectedNode: Option<Node>
    var selectedProject: Option<Project>
    var nodes: seq<Node>
    var projects: seq<Project>
    var showDatePicker: bool
    var showTimePicker: bool

    /** At most one picker is open. */
    predicate Valid()
      reads this
    {
      !(showDatePicker && showTimePicker)
    }

    /** The screen's first render, due now, nothing selected. */
    constructor (now: Moment)
      ensures Valid()
      ensures title == "" && dueDate == now && selectedNode == None && selectedProject == None
      ensures nodes == [] && projects == [] && !showDatePicker && !showTimePicker
    {
      title, dueDate := "", now;
      selectedNode, selectedProject := None, None;
      nodes, projects := [], [];
      showDatePicker, showTimePicker := false, false;
    }

    /** `loadData`: the stored nodes and projects. */
    method Load(store: Storage.StorageService)
      modifies this
      ensures nodes == store.GetNodes() && projects == store.GetProjects()
      ensures title == old(title) && dueDate == old(dueDate)
      ensures selectedNode == old(selectedNode) && selectedProject == old(selectedProject)
      ensures showDatePicker == old(showDatePicker) && showTimePicker == old(showTimePicker)
    {
      nodes := store.GetNodes();
      projects := store.GetProjects();
    }

    method SetTitle(text: string)
      modifies this
      ensures title == text && dueDate == old(dueDate)
      ensures selectedNode == old(selectedNode) && selectedProject == old(selectedProject)
      ensures showDatePicker == old(showDatePicker) && showTimePicker == old(showTimePicker)
      ensures nodes == old(nodes) && projects == old(projects)
    {
      title := text;
    }

    /** `handleNodeSelect`: the node, and its project when the list has it. */
    method SelectNode(node: Node)
      modifies this
      ensures selectedNode == Some(node)
      ensures selectedProject == FindProject(projects, node.projectId)
      ensures selectedProject.Some? ==> selectedProject.value.id == node.projectId
      ensures title == old(title) && dueDate == old(dueDate) && projects == old(projects)
      ensures showDatePicker == old(showDatePicker) && showTimePicker == old(showTimePicker)
      ensures nodes == old(nodes)
    {
      selectedNode := Some(node);
      selectedProject := FindProject(projects, node.projectId);
    }

    /** `handleProjectSelect`: the project, and no node. */
    method SelectProject(project: Project)
      modifies this
      ensures selectedProject == Some(project) && selectedNode == None
      ensures title == old(title) && dueDate == old(dueDate)
      ensures showDatePicker == old(showDatePicker) && showTimePicker == old(showTimePicker)
      ensures nodes == old(nodes) && projects == old(projects)
    {
      selectedProject := Some(project);
      selectedNode := None;
    }

    /** `handleDateTimePress`: open the date picker, closing the time picker. */
    method PressDate()
      modifies this
      ensures Valid() && showDatePicker && !showTimePicker
      ensures title == old(title) && dueDate == old(dueDate)
      ensures selectedNode == old(selectedNode) && selectedProject == old(selectedProject)
      ensures nodes == old(nodes) && projects == old(projects)
    {
      showTimePicker := false;
      showDatePicker := true;
    }

    /** `handleTimePress`: open the time picker, closing the date picker. */
    method PressTime()
      modifies this
      ensures Valid() && showTimePicker && !showDatePicker
      ensures title == old(title) && dueDate == old(dueDate)
      ensures selectedNode == old(selectedNode) && selectedProject == old(selectedProject)
      ensures nodes == old(nodes) && projects == old(projects)
    {
      showDatePicker := false;
      showTimePicker := true;
    }

    /** `handleDateChange`: close the picker; a chosen date replaces the due moment. */
    method ChangeDate(selected: Option<Moment>)
      modifies this
      requires Valid()
      ensures Valid() && !showDatePicker && showTimePicker == old(showTimePicker)
      ensures dueDate == (if selected.Some? then selected.value else old(dueDate))
      ensures title == old(title)
      ensures selectedNode == old(selectedNode) && selectedProject == old(selectedProject)
      ensures nodes == old(nodes) && projects == old(projects)
    {
      showDatePicker := false;
      if selected.Some? {
        dueDate := selected.value;
      }
    }

    /** `handleTimeChange`: close the picker; a chosen time replaces the
      hours and minutes, a dismissal leaves the due moment as it was. */
    method ChangeTime(selected: Option<Moment>)
      modifies this
      requires Valid()
      ensures Valid() && !showTimePicker && showDatePicker == old(showDatePicker)
      ensures dueDate == (if selected.Some? then WithTime(old(dueDate), selected.value) else old(dueDate))
      ensures title == old(title)
      ensures selectedNode == old(selectedNode) && selectedProject == old(selectedProject)
      ensures nodes == old(nodes) && projects == old(projects)
    {
      showTimePicker := false;
      if selected.Some? {
        var newDate := dueDate;
        newDate := newDate.(hours := selected.value.hours);
        newDate := newDate.(minutes := selected.value.minutes);
        dueDate := newDate;
      }
    }

    /** `handleSave`: a blank title is refused and nothing is stored;
      otherwise exactly the built reminder is appended. */
    method Save(store: Storage.StorageService, now: nat, nowIso: string, iso: Moment -> string)
      returns (r: Result<Reminder, string>)
      modifies store
      ensures r == NewReminder(title, dueDate, selectedNode, selectedProject, now, nowIso, iso)
      ensures r.Err? ==> store.reminders == old(store.reminders)
      ensures r.Ok? ==> store.reminders == Storage.Appended(old(store.reminders), r.value)
      ensures store.workspaces == old(store.workspaces) && store.projects == old(store.projects)
      ensures store.nodes == old(store.nodes) && store.recentSearches == old(store.recentSearches)
    {
      r := NewReminder(title, dueDate, selectedNode, selectedProject, now, nowIso, iso);
      if r.Ok? {
        store.AddReminder(r.value);
      }
    }
  }

  /** A reminder set on a node whose project the list holds lands in that
      node's project. */
  lemma NodeSelectionSetsProject(node: Node, projects: seq<Project>, title: string, due: Moment,
                                 now: nat, nowIso: string, iso: Moment -> string)
    requires !IsBlank(title) && node.projectId != ""
    ensures var r := NewReminder(title, due, Some(node), FindProject(projects, node.projectId), now, nowIso, iso);
      r.Ok? && r.value.projectId == node.projectId && r.value.nodeId == node.id
  {
  }

  /** A reminder set on a project alone carries no node and no assignees. */
  lemma ProjectSelectionClearsNode(project: Project, title: string, due: Moment,
                                   now: nat, nowIso: string, iso: Moment -> string)
    requires !IsBlank(title)
    ensures var r := NewReminder(title, due, None, Some(project), now, nowIso, iso);
      r.Ok? && r.value.projectId == project.id && r.value.nodeId == "" && r.value.assigneeIds == []
  {
  }
}
