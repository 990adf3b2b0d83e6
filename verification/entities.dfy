/** The records the app stores and passes around: workspaces, projects, task
    nodes, their attachments and reminders. Optional fields are `Option`s;
    dates are the ISO strings the app stores; `meta` is an open key/value bag. */
module Entities {
  import opened Wrappers
  import opened Geometry

  /** The values a `meta` key can hold, as far as the app inspects them. */
  datatype MetaValue = MetaBool(b: bool) | MetaText(s: string) | MetaNumber(n: real) | MetaNull | MetaObject

  type Meta = map<string, MetaValue>

  /** JavaScript truthiness of a meta value (`NaN` is not modelled). */
  predicate Truthy(v: MetaValue) {
    match v
    case MetaBool(b) => b
    case MetaText(s) => s != []
    case MetaNumber(n) => n != 0.0
    case MetaNull => false
    case MetaObject => true
  }

  /** `meta && meta.standaloneRoot`, read as a condition. */
  predicate IsStandalone(meta: Option<Meta>) {
    meta.Some? && "standaloneRoot" in meta.value && Truthy(meta.value["standaloneRoot"])
  }

  /** JavaScript truthiness of an optional string: present and non-empty. */
  predicate TruthyText(s: Option<string>) {
    s.Some? && s.value != []
  }

  datatype NodeStatus = Todo | InProgress | Blocked | Done
  datatype Priority = Low | Medium | High
  datatype AttachmentType = Image | Document | Link | Audio | Video

  datatype Attachment = Attachment(
    id: string,
    name: string,
    kind: AttachmentType,
    url: Option<string>,
    size: Option<int>,
    mimeType: Option<string>,
    uploadedAt: string,
    uploadedBy: string)

  datatype Node = Node(
    id: string,
    title: string,
    notes: Option<string>,
    projectId: string,
    parentId: Option<string>,
    status: NodeStatus,
    priority: Priority,
    assigneeIds: seq<string>,
    tags: seq<string>,
    color: string,
    icon: Option<string>,
    dueDate: Option<string>,
    position: Point,
    orderIndex: int,
    createdAt: string,
    updatedAt: string,
    createdBy: string,
    attachments: Option<seq<Attachment>>,
    richNotes: Option<string>,
    drawingData: Option<string>,
    meta: Option<Meta>)

  /** 'backlog' | 'in-progress' | 'done'. */
  datatype ProjectStatus = ProjectBacklog | ProjectInProgress | ProjectDone

  datatype Workspace = Workspace(
    id: string,
    name: string,
    description: Option<string>,
    ownerId: string,
    color: string,
    icon: string,
    createdAt: string,
    updatedAt: string,
    projectCount: int,
    unreadCount: int)

  datatype Project = Project(
    id: string,
    name: string,
    description: Option<string>,
    workspaceId: string,
    ownerId: string,
    status: ProjectStatus,
    color: string,
    createdAt: string,
    updatedAt: string,
    nodeCount: int)

  datatype Reminder = Reminder(
    id: string,
    nodeId: string,
    projectId: string,
    title: string,
    dueDate: string,
    assigneeIds: seq<string>,
    isCompleted: bool,
    createdAt: string)

  /** `nodes.find(n => n.id === id)`: the first node with that id. */
  function FindNode(nodes: seq<Node>, id: string): (r: Option<Node>)
    ensures r.None? <==> forall i :: 0 <= i < |nodes| ==> nodes[i].id != id
    ensures r.Some? ==> exists i :: 0 <= i < |nodes| && nodes[i] == r.value && r.value.id == id
                                      && forall j :: 0 <= j < i ==> nodes[j].id != id
  {
    if nodes == [] then None
    else if nodes[0].id == id then Some(nodes[0])
    else
      var r := FindNode(nodes[1..], id);
      assert forall j :: 1 <= j < |nodes| ==> nodes[j] == nodes[1..][j - 1];
      r
  }
}
