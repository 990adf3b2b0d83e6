/** The node editor form: its fields, the tag and attachment rules, the
    attachment-type classification, the save payload and the reset effect.
    `Date.now()` is `now`, `new Date().toISOString()` is `nowIso`, a parsed
    due date is a millisecond count (`None` for an invalid date) and
    `toISOString` of one is `iso`. A confirmation dialog is the flag `confirmed`. */
module NodeEditor {
  import opened Wrappers
  import opened Strings
  import opened Seqs
  import opened Entities

  const DefaultColor: string := "#007AFF"
  const DefaultIcon: string := "circle"
  const CurrentUser: string := "current-user"

  const ImageExts: seq<string> := ["jpg", "jpeg", "png", "gif", "webp", "svg"]
  const VideoExts: seq<string> := ["mp4", "mov", "avi", "mkv", "webm"]
  const AudioExts: seq<string> := ["mp3", "wav", "aac", "flac", "ogg"]
  const DocumentExts: seq<string> := ["pdf", "doc", "docx", "txt", "rtf"]

  /** `/\.(a|b|...)$/`: the text ends with a dot and one of the extensions. */
  predicate HasExt(s: string, exts: seq<string>) {
    exists i :: 0 <= i < |exts| && EndsWith(s, "." + exts[i])
  }

  /** `getAttachmentType`: on the lowercased URL, the extension decides first
      (image, then video, audio, document); otherwise an `http` prefix makes a
      link and anything else is a document. */
  function AttachmentTypeOf(url: string): (t: AttachmentType)
    ensures var s := Lower(url);
      (t == Image <==> HasExt(s, ImageExts))
      && (t == Video <==> !HasExt(s, ImageExts) && HasExt(s, VideoExts))
      && (t == Audio <==> !HasExt(s, ImageExts) && !HasExt(s, VideoExts) && HasExt(s, AudioExts))
      && (t == Link <==> !HasExt(s, ImageExts) && !HasExt(s, VideoExts) && !HasExt(s, AudioExts)
                         && !HasExt(s, DocumentExts) && StartsWith(s, "http"))
  {
    var s := Lower(url);
    if HasExt(s, ImageExts) then Image
    else if HasExt(s, VideoExts) then Video
    else if HasExt(s, AudioExts) then Audio
    else if HasExt(s, DocumentExts) then Document
    else if StartsWith(s, "http") then Link
    else Document
  }

  /** The classification ignores letter case. */
  lemma AttachmentTypeIgnoresCase(url: string)
    ensures AttachmentTypeOf(Lower(url)) == AttachmentTypeOf(url)
  {
    LowerIdempotent(url);
  }

  /** The type is read from the URL as typed: trailing white space hides
      every extension, so such a URL is only ever a link or a document,
      although the stored URL is trimmed. */
  lemma TrailingSpaceHidesExtension(url: string)
    requires |url| > 0 && IsWhite(url[|url| - 1])
    ensures AttachmentTypeOf(url) == Link || AttachmentTypeOf(url) == Document
  {
    var s := Lower(url);
    assert IsWhite(s[|s| - 1]);
    NoExtAfterWhite(s, ImageExts);
    NoExtAfterWhite(s, VideoExts);
    NoExtAfterWhite(s, AudioExts);
  }

  lemma NoExtAfterWhite(s: string, exts: seq<string>)
    requires |s| > 0 && IsWhite(s[|s| - 1])
    requires forall i :: 0 <= i < |exts| ==> |exts[i]| > 0 && !IsWhite(exts[i][|exts[i]| - 1])
    ensures !HasExt(s, exts)
  {
    forall i | 0 <= i < |exts|
      ensures !EndsWith(s, "." + exts[i])
    {
    }
  }

  /** What opening an attachment hands to the link handler: its URL when
      it has a non-empty one, otherwise nothing happens. */
  function OpenTarget(a: Attachment): (target: Option<string>)
    ensures target.Some? <==> TruthyText(a.url)
    ensures target.Some? ==> a.url == Some(target.value)
  {
    if TruthyText(a.url) then Some(a.url.value) else None
  }

  /** The fields `handleSave` hands to `onSave`. */
  datatype NodeData = NodeData(
    title: string,
    notes: string,
    status: NodeStatus,
    priority: Priority,
    color: string,
    icon: string,
    tags: seq<string>,
    dueDate: Option<string>,
    updatedAt: string,
    attachments: seq<Attachment>,
    drawingData: Option<string>,
    meta: Meta)

  /** The form fields the reset effect loads and `handleSave` reads. */
  datatype FormFields = FormFields(
    title: string,
    notes: string,
    status: NodeStatus,
    priority: Priority,
    color: string,
    icon: string,
    tags: seq<string>,
    dueDate: Option<int>,
    hasDueDate: bool,
    drawingData: string,
    attachments: seq<Attachment>,
    standaloneRoot: MetaValue)

  /** `node?.meta?.standaloneRoot ?? false`: only a missing or null value
      falls back. */
  function StandaloneOf(meta: Option<Meta>): (v: MetaValue)
    ensures meta.Some? && "standaloneRoot" in meta.value && meta.value["standaloneRoot"] != MetaNull
            ==> v == meta.value["standaloneRoot"]
    ensures !(meta.Some? && "standaloneRoot" in meta.value && meta.value["standaloneRoot"] != MetaNull)
            ==> v == MetaBool(false)
  {
    if meta.Some? && "standaloneRoot" in meta.value && meta.value["standaloneRoot"] != MetaNull
    then meta.value["standaloneRoot"] else MetaBool(false)
  }

  /** The fields of an empty form. */
  function Defaults(today: int): FormFields {
    FormFields("", "", Todo, Medium, DefaultColor, DefaultIcon, [], Some(today), false, "", [], MetaBool(false))
  }

  /** What the reset effect loads: the node's fields, each empty one
      replaced by its default, or the defaults when there is no node. */
  function Loaded(n: Option<Node>, today: int, parse: string -> Option<int>): (f: FormFields)
    ensures n.None? ==> f == Defaults(today)
    ensures n.Some? ==>
      var v := n.value;
      f.title == v.title && f.notes == v.notes.GetOr("") && f.status == v.status
      && f.priority == v.priority && f.tags == v.tags
      && (v.color != "" ==> f.color == v.color) && (v.color == "" ==> f.color == DefaultColor)
      && (TruthyText(v.icon) ==> f.icon == v.icon.value) && (!TruthyText(v.icon) ==> f.icon == DefaultIcon)
      && f.hasDueDate == TruthyText(v.dueDate)
      && (f.hasDueDate ==> f.dueDate == parse(v.dueDate.value))
      && (!f.hasDueDate ==> f.dueDate == Some(today))
      && f.drawingData == v.drawingData.GetOr("") && f.attachments == v.attachments.GetOr([])
      && f.standaloneRoot == StandaloneOf(v.meta)
  {
    match n
    case None => Defaults(today)
    case Some(v) =>
      FormFields(v.title, v.notes.GetOr(""), v.status, v.priority,
                 if v.color != "" then v.color else DefaultColor,
                 if TruthyText(v.icon) then v.icon.value else DefaultIcon,
                 v.tags,
                 if TruthyText(v.dueDate) then parse(v.dueDate.value) else Some(today),
                 TruthyText(v.dueDate),
                 v.drawingData.GetOr(""), v.attachments.GetOr([]), StandaloneOf(v.meta))
  }

  /** Saving a freshly loaded node that has a title keeps its title, tags,
      status, priority, attachments and every meta key, and its colour and
      icon unless they were empty. */
  lemma LoadThenSave(v: Node, today: int, parse: string -> Option<int>, nowIso: string, iso: int -> string)
    requires !IsBlank(v.title) && !TruthyText(v.dueDate)
    ensures var r := Save(Loaded(Some(v), today, parse), Some(v), nowIso, iso);
      r.Ok? && r.value.title == Trim(v.title) && r.value.tags == v.tags
      && r.value.status == v.status && r.value.priority == v.priority
      && r.value.color == (if v.color != "" then v.color else DefaultColor)
      && r.value.icon == (if TruthyText(v.icon) then v.icon.value else DefaultIcon)
      && r.value.attachments == v.attachments.GetOr([]) && r.value.dueDate.None?
      && (v.meta.Some? ==> v.meta.value.Keys <= r.value.meta.Keys)
  {
    SaveKeepsMeta(MetaOf(Some(v)), StandaloneOf(v.meta));
  }

  /** `handleSave`: a blank title is refused; otherwise the trimmed title
      and notes, the due date only when switched on, the drawing only when
      non-empty, and the node's meta with `standaloneRoot` set. An invalid due
      date that is switched on makes `toISOString` throw. */
  function Save(f: FormFields, node: Option<Node>, nowIso: string, iso: int -> string): (r: Result<NodeData, string>)
    ensures IsBlank(f.title) ==> r == Err("Please enter a title for the node")
    ensures !IsBlank(f.title) && f.hasDueDate && f.dueDate.None? ==> r.Err?
    ensures !IsBlank(f.title) && !(f.hasDueDate && f.dueDate.None?) ==> r.Ok?
    ensures r.Ok? ==>
      var d := r.value;
      d.title == Trim(f.title) && d.title != [] && d.notes == Trim(f.notes)
      && (d.dueDate.Some? <==> f.hasDueDate)
      && (f.hasDueDate ==> d.dueDate == Some(iso(f.dueDate.value)))
      && d.status == f.status && d.priority == f.priority && d.color == f.color && d.icon == f.icon
      && (d.drawingData.Some? <==> f.drawingData != "")
      && (f.drawingData != "" ==> d.drawingData == Some(f.drawingData))
      && d.tags == f.tags && d.attachments == f.attachments && d.updatedAt == nowIso
      && d.meta == WithStandalone(MetaOf(node), f.standaloneRoot)
  {
    if IsBlank(f.title) then Err("Please enter a title for the node")
    else if f.hasDueDate && f.dueDate.None? then Err("Invalid time value")
    else
      Ok(NodeData(Trim(f.title), Trim(f.notes), f.status, f.priority, f.color, f.icon, f.tags,
                  if f.hasDueDate then Some(iso(f.dueDate.value)) else None,
                  nowIso, f.attachments, if f.drawingData != "" then Some(f.drawingData) else None,
                  WithStandalone(MetaOf(node), f.standaloneRoot)))
  }

  /** `{ ...meta, standaloneRoot }`. */
  function WithStandalone(meta: Meta, v: MetaValue): Meta {
    meta["standaloneRoot" := v]
  }

  /** The saved meta keeps every key the node had, with its value, and
      holds the form's `standaloneRoot`. */
  lemma SaveKeepsMeta(meta: Meta, v: MetaValue)
    ensures var m := WithStandalone(meta, v);
      m.Keys == meta.Keys + {"standaloneRoot"} && m["standaloneRoot"] == v
      && forall k :: k in meta && k != "standaloneRoot" ==> m[k] == meta[k]
  {
  }

  /** `node?.meta ?? {}`. */
  function MetaOf(node: Option<Node>): Meta {
    if node.Some? && node.value.meta.Some? then node.value.meta.value else map[]
  }

  /** The editor's state: the form fields, the tag input, the attachment
      dialog and the node being edited. */
  class EditorForm {
    var fields: FormFields
    var newTag: string
    var attachmentName: string
    var attachmentUrl: string
    var showAttachmentDialog: bool
    var node: Option<Node>

    constructor (n: Option<Node>, today: int, parse: string -> Option<int>)
      ensures node == n && fields == Loaded(n, today, parse)
      ensures newTag == "" && attachmentName == "" && attachmentUrl == "" && !showAttachmentDialog
    {
      node := n;
      fields := Loaded(n, today, parse);
      newTag := "";
      attachmentName, attachmentUrl := "", "";
      showAttachmentDialog := false;
    }

    /** The reset effect on a new node: load it and clear the tag input. */
    method Reset(n: Option<Node>, today: int, parse: string -> Option<int>)
      modifies this
      ensures node == n && fields == Loaded(n, today, parse) && newTag == ""
      ensures attachmentName == old(attachmentName) && attachmentUrl == old(attachmentUrl)
      ensures showAttachmentDialog == old(showAttachmentDialog)
    {
      node := n;
      fields := Loaded(n, today, parse);
      newTag := "";
    }

    /** `addTag`: the trimmed input joins the tags only when it is non-empty
      and not there yet; then the input is cleared. */
    method AddTag()
      modifies this
      ensures var t := Trim(old(newTag));
        if t != [] && t !in old(fields.tags) then fields == old(fields).(tags := old(fields.tags) + [t]) && newTag == ""
        else fields == old(fields) && newTag == old(newTag)
      ensures NoDuplicates(old(fields.tags)) ==> NoDuplicates(fields.tags)
      ensures node == old(node) && attachmentName == old(attachmentName) && attachmentUrl == old(attachmentUrl)
      ensures showAttachmentDialog == old(showAttachmentDialog)
    {
      var t := Trim(newTag);
      if t != [] && t !in fields.tags {
        fields := fields.(tags := fields.tags + [t]);
        newTag := "";
      }
    }

    /** `removeTag`: every copy of the tag goes, the others keep their order. */
    method RemoveTag(tag: string)
      modifies this
      ensures fields == old(fields).(tags := Filter(old(fields.tags), (x: string) => x != tag))
      ensures tag !in fields.tags
      ensures forall x :: x in old(fields.tags) && x != tag ==> x in fields.tags
      ensures newTag == old(newTag) && node == old(node)
      ensures attachmentName == old(attachmentName) && attachmentUrl == old(attachmentUrl)
      ensures showAttachmentDialog == old(showAttachmentDialog)
    {
      fields := fields.(tags := Filter(fields.tags, (x: string) => x != tag));
    }

    /** `addAttachment`: an empty trimmed name or URL is refused with an
      error and changes nothing; otherwise the one new attachment is
      appended and the dialog is cleared and closed. */
    method AddAttachment(now: nat, nowIso: string) returns (err: Option<string>)
      modifies this
      ensures var r := Attach(old(fields.attachments), old(attachmentName), old(attachmentUrl), now, nowIso);
        match r
        case Err(e) => err == Some(e) && fields == old(fields) && attachmentName == old(attachmentName)
                       && attachmentUrl == old(attachmentUrl) && showAttachmentDialog == old(showAttachmentDialog)
        case Ok(atts) => err.None? && fields == old(fields).(attachments := atts)
                         && attachmentName == "" && attachmentUrl == "" && !showAttachmentDialog
      ensures newTag == old(newTag) && node == old(node)
    {
      var r := Attach(fields.attachments, attachmentName, attachmentUrl, now, nowIso);
      match r {
        case Err(e) =>
          return Some(e);
        case Ok(atts) =>
          fields := fields.(attachments := atts);
          attachmentName, attachmentUrl := "", "";
          showAttachmentDialog := false;
          return None;
      }
    }

    /** `removeAttachment`, once the dialog is confirmed: every attachment
      with that id goes, the others keep their order. */
    method RemoveAttachment(id: string, confirmed: bool)
      modifies this
      ensures confirmed ==> fields == old(fields).(attachments := Filter(old(fields.attachments), (a: Attachment) => a.id != id))
      ensures !confirmed ==> fields == old(fields)
      ensures newTag == old(newTag) && node == old(node)
      ensures attachmentName == old(attachmentName) && attachmentUrl == old(attachmentUrl)
      ensures showAttachmentDialog == old(showAttachmentDialog)
    {
      if confirmed {
        fields := fields.(attachments := Filter(fields.attachments, (a: Attachment) => a.id != id));
      }
    }
  }

  /** The list `addAttachment` leaves: an error when the trimmed name or
      URL is empty, otherwise the list with exactly one new attachment at the end. */
  function Attach(atts: seq<Attachment>, name: string, url: string, now: nat, nowIso: string)
    : (r: Result<seq<Attachment>, string>)
    ensures r.Err? <==> IsBlank(name) || IsBlank(url)
    ensures r.Ok? ==> r.value == atts + [NewAttachment(name, url, now, nowIso)]
  {
    if IsBlank(name) || IsBlank(url) then Err("Please enter both name and URL/path")
    else Ok(atts + [NewAttachment(name, url, now, nowIso)])
  }

  /** The attachment `addAttachment` builds from the dialog's name and URL. */
  function NewAttachment(name: string, url: string, now: nat, nowIso: string): (a: Attachment)
    ensures a.id == NatToString(now) && a.name == Trim(name) && a.url == Some(Trim(url))
    ensures a.kind == AttachmentTypeOf(url) && a.uploadedAt == nowIso && a.uploadedBy == CurrentUser
    ensures a.size.None? && a.mimeType.None?
  {
    Attachment(NatToString(now), Trim(name), AttachmentTypeOf(url), Some(Trim(url)), None, None, nowIso, CurrentUser)
  }

  /** An attachment added through the dialog can always be opened: its
      stored URL is the non-empty trimmed text. */
  lemma DialogAttachmentOpens(name: string, url: string, now: nat, nowIso: string)
    requires !IsBlank(url)
    ensures OpenTarget(NewAttachment(name, url, now, nowIso)) == Some(Trim(url))
  {
    BlankIffTrimEmpty(url);
  }

  /** After removal no attachment has that id, and every other one is kept. */
  lemma RemoveAttachmentFacts(atts: seq<Attachment>, id: string)
    ensures var r := Filter(atts, (a: Attachment) => a.id != id);
      (forall i :: 0 <= i < |r| ==> r[i].id != id)
      && (forall i :: 0 <= i < |atts| && atts[i].id != id ==> atts[i] in r)
  {
  }

  /** Tags stay duplicate-free through any run of additions and removals. */
  lemma RemoveKeepsNoDuplicates(tags: seq<string>, tag: string)
    requires NoDuplicates(tags)
    ensures NoDuplicates(Filter(tags, (x: string) => x != tag))
  {
    FilterNoDuplicates(tags, (x: string) => x != tag);
  }

}
