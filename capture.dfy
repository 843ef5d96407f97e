/** The pure steps of the capture (save) handler: validating the form,
    choosing root or reply, building the payload, and the cache update that
    follows a successful remote create. */
module Capture {
  import opened Wrappers
  import opened Text
  import opened Entries
  import opened Firestore

  /** Ids the client makes up itself start with this prefix. */
  const LocalIdPrefix: string := "sess_"
  /** The select value of the "+ Create New" option. */
  const CreateNew: string := "create_new"
  /** The session-select value of "Start New Thread". */
  const NewThreadChoice: string := "new"
  const SchemaVersion: int := 3

  /** The capture form's inputs, as the handler reads them. */
  datatype Form = Form(
    content: string,
    groupSelect: string,
    groupNew: string,
    categorySelect: string,
    categoryNew: string,
    sessionSelect: string,
    note: string,
    sourceFull: bool)

  /** Why a capture was not saved. */
  datatype CaptureError =
    | ContentRequired
    | MissingFields
    | AuthFailed(reason: string)
    | InvalidUrl
    | CreateFailed(reason: string)

  /** The validated content, group and category. */
  datatype Fields = Fields(content: string, group: string, category: string)

  /** A select value, with "create_new" replaced by the trimmed typed value. */
  function ResolveChoice(selected: string, typed: string): (r: string)
    ensures selected != CreateNew ==> r == selected
    ensures selected == CreateNew ==> r == Trim(typed)
    ensures selected == CreateNew ==>
      (r == "" <==> forall k :: 0 <= k < |typed| ==> IsSpace(typed[k]))
  {
    TrimEmptyIff(typed);
    if selected == CreateNew then Trim(typed) else selected
  }

  /** The handler's checks, in its order: trimmed content first, then the
      resolved group and category. */
  function ValidateCapture(form: Form): (r: Result<Fields, CaptureError>)
    ensures r == Failure(ContentRequired) <==> Trim(form.content) == ""
    ensures r == Failure(MissingFields) <==>
      Trim(form.content) != "" &&
      (ResolveChoice(form.groupSelect, form.groupNew) == "" ||
       ResolveChoice(form.categorySelect, form.categoryNew) == "")
    ensures r.Failure? ==> r.error == ContentRequired || r.error == MissingFields
    ensures r.Success? ==>
      && r.value.content == Trim(form.content) && r.value.content != ""
      && r.value.group == ResolveChoice(form.groupSelect, form.groupNew) && r.value.group != ""
      && r.value.category == ResolveChoice(form.categorySelect, form.categoryNew) && r.value.category != ""
  {
    var content := Trim(form.content);
    if content == "" then Failure(ContentRequired)
    else
      var group := ResolveChoice(form.groupSelect, form.groupNew);
      var category := ResolveChoice(form.categorySelect, form.categoryNew);
      if group == "" || category == "" then Failure(MissingFields)
      else Success(Fields(content, group, category))
  }

  /** Content made only of white space is rejected. */
  lemma BlankContentRejected(form: Form)
    requires forall k :: 0 <= k < |form.content| ==> IsSpace(form.content[k])
    ensures ValidateCapture(form) == Failure(ContentRequired)
  {
    TrimEmptyIff(form.content);
  }

  /** Choosing "create_new" and typing only white space is rejected; choosing
      it and typing a name uses the trimmed name. */
  lemma CreateNewUsesTypedValue(form: Form)
    requires form.groupSelect == CreateNew
    ensures ValidateCapture(form).Success? ==> ValidateCapture(form).value.group == Trim(form.groupNew)
    ensures (forall k :: 0 <= k < |form.groupNew| ==> IsSpace(form.groupNew[k])) ==>
      ValidateCapture(form).Failure?
  {
    TrimEmptyIff(form.groupNew);
  }

  /** The same for the category. */
  lemma CreateNewCategoryUsesTypedValue(form: Form)
    requires form.categorySelect == CreateNew
    ensures ValidateCapture(form).Success? ==> ValidateCapture(form).value.category == Trim(form.categoryNew)
    ensures (forall k :: 0 <= k < |form.categoryNew| ==> IsSpace(form.categoryNew[k])) ==>
      ValidateCapture(form).Failure?
  {
    TrimEmptyIff(form.categoryNew);
  }

  /** Root or reply. */
  datatype Thread = NewThread(tempId: string) | ReplyTo(ref: string)

  /** The temporary id `sess_<time>_<random>`; time and randomness are the
      input `suffix`. */
  function TempId(suffix: string): (r: string)
    ensures StartsWith(r, LocalIdPrefix)
  {
    assert (LocalIdPrefix + suffix)[..|LocalIdPrefix|] == LocalIdPrefix;
    LocalIdPrefix + suffix
  }

  /** "new" starts a thread under a temporary local id; any other selection
      replies to the selected id. */
  function ChooseThread(selection: string, tempId: string): (t: Thread)
    ensures t.NewThread? <==> selection == NewThreadChoice
    ensures t.NewThread? ==> t.tempId == tempId
    ensures t.ReplyTo? ==> t.ref == selection
  {
    if selection == NewThreadChoice then NewThread(tempId) else ReplyTo(selection)
  }

  /** The `source` object: none without a page URL; otherwise built from the
      URL's origin, whose computation (`new URL(...)`) throws on a malformed
      URL. `origin` is that computation's outcome. */
  function SourceFor(url: string, origin: Option<string>, full: bool): (r: Result<Option<Source>, CaptureError>)
    ensures r.Failure? <==> url != "" && origin == None
    ensures r.Success? ==> (r.value == None <==> url == "")
    ensures r.Success? && url != "" ==>
      r.value.value.root == origin.value &&
      r.value.value == (if full then Source(url, origin.value, "full") else Source(origin.value, origin.value, "root"))
  {
    if url == "" then Success(None)
    else if origin.None? then Failure(InvalidUrl)
    else if full then Success(Some(Source(url, origin.value, "full")))
    else Success(Some(Source(origin.value, origin.value, "root")))
  }

  /** `els.note.value.trim() || null`. */
  function NoteValue(input: string): (r: Option<string>)
    ensures r == None <==> Trim(input) == ""
    ensures r.Some? ==> r.value == Trim(input) && r.value != ""
  {
    var t := Trim(input);
    if t == "" then None else Some(t)
  }

  /** A capture started from the context-menu modal is a highlight; any
      other is an idea. */
  function EntryTypeFor(openingMode: string): (r: string)
    ensures r == "User Highlight" || r == "User Idea"
    ensures r == "User Highlight" <==> openingMode == "context_menu_modal"
  {
    if openingMode == "context_menu_modal" then "User Highlight" else "User Idea"
  }

  /** The payload handed to `saveEntry`. */
  function BuildPayload(f: Fields, note: Option<string>, openingMode: string,
                        source: Option<Source>, t: Thread): (p: Payload)
    ensures p.sessionId.Some? <==> p.sessionRef.None?
    ensures p.schemaVersion == SchemaVersion
    ensures t.NewThread? ==> p.sessionId == Some(t.tempId) && p.sessionRef == None
    ensures t.ReplyTo? ==> p.sessionId == None && p.sessionRef == Some(t.ref)
    ensures p.content == f.content && p.group == f.group && p.category == f.category
    ensures p.note == note && p.source == source && p.origin == openingMode
    ensures p.entryType == EntryTypeFor(openingMode)
  {
    var (sessionId, sessionRef) := match t
      case NewThread(temp) => (Some(temp), None)
      case ReplyTo(ref) => (None, Some(ref));
    Payload(f.content, note, EntryTypeFor(openingMode), openingMode, f.group, f.category,
            source, sessionId, sessionRef, SchemaVersion)
  }

  /** What the save handler sends for a validated form, or why it stops
      first: a page URL with no recorded origin is refused before the create
      request. */
  function CapturePayload(f: Fields, form: Form, tempSuffix: string, url: string,
                          origin: Option<string>, openingMode: string): (r: Result<Payload, CaptureError>)
    ensures r.Failure? <==> url != "" && origin == None
    ensures r.Failure? ==> r.error == InvalidUrl
    ensures r.Success? ==> r.value.note == NoteValue(form.note) && r.value.content == f.content
    ensures r.Success? ==>
      r.value == BuildPayload(f, NoteValue(form.note), openingMode, SourceFor(url, origin, form.sourceFull).value,
                              ChooseThread(form.sessionSelect, TempId(tempSuffix)))
  {
    var source := SourceFor(url, origin, form.sourceFull);
    if source.Failure? then Failure(source.error)
    else Success(BuildPayload(f, NoteValue(form.note), openingMode, source.value,
                              ChooseThread(form.sessionSelect, TempId(tempSuffix))))
  }

  /** Every payload the handler can build is a root carrying a `sess_` id
      or a reply carrying the selected id, never both. */
  lemma PayloadIsRootXorReply(f: Fields, note: Option<string>, openingMode: string,
                              source: Option<Source>, selection: string, suffix: string)
    ensures var p := BuildPayload(f, note, openingMode, source, ChooseThread(selection, TempId(suffix)));
      && (selection == NewThreadChoice ==>
            p.sessionId.Some? && StartsWith(p.sessionId.value, LocalIdPrefix) && p.sessionRef == None)
      && (selection != NewThreadChoice ==> p.sessionId == None && p.sessionRef == Some(selection))
      && p.schemaVersion == 3
  {
  }

  /** The document a capture creates is fetched by later syncs exactly when
      it starts a thread. */
  lemma CreatedDocIsRootIffNewThread(id: string, f: Fields, note: Option<string>, openingMode: string,
                                     source: Option<Source>, t: Thread, createdAt: int)
    ensures IsOpenRoot(Doc(id, BuildPayload(f, note, openingMode, source, t), Open, createdAt)) <==> t.NewThread?
  {
  }

  /** The record a new thread puts in the cache: the id the remote assigned,
      the content as `title`, and the capture time. */
  function NewRootEntry(id: string, f: Fields, note: Option<string>, now: int): (e: Entry)
    ensures e.id == id && e.title == Some(f.content) && e.content == None
    ensures e.group == Some(f.group) && e.category == Some(f.category)
    ensures e.note == note && e.timestamp == now
  {
    Entry(id, Some(f.content), None, note, Some(f.group), Some(f.category), now)
  }

  /** The cache after a successful create: a new thread goes in front; a
      reply retags the entry it refers to (when the selection is non-empty);
      then the list is cut to twenty entries. */
  function CacheAfterSave(sessions: seq<Entry>, t: Thread, assignedId: string,
                          f: Fields, note: Option<string>, now: int): (r: seq<Entry>)
    ensures |r| <= CacheLimit
    ensures t.NewThread? ==> 1 <= |r| <= |sessions| + 1
    ensures t.ReplyTo? ==> |r| <= |sessions|
  {
    var updated := match t
      case NewThread(_) => [NewRootEntry(assignedId, f, note, now)] + sessions
      case ReplyTo(ref) => if ref != "" then RetagReply(sessions, ref, f.group, f.category) else sessions;
    CapCache(updated)
  }

  /** A new thread becomes the first cache entry, under the remote id, and the
      older entries follow in their order, up to the cap. */
  lemma NewThreadGoesFirst(sessions: seq<Entry>, temp: string, assignedId: string,
                           f: Fields, note: Option<string>, now: int)
    ensures var r := CacheAfterSave(sessions, NewThread(temp), assignedId, f, note, now);
      && |r| == (if |sessions| + 1 > CacheLimit then CacheLimit else |sessions| + 1)
      && r[0] == NewRootEntry(assignedId, f, note, now)
      && r[1..] == sessions[..|r| - 1]
  {
    var updated := [NewRootEntry(assignedId, f, note, now)] + sessions;
    var r := CapCache(updated);
    assert r == updated[..|r|];
    assert r[1..] == updated[1..|r|];
    assert updated[1..] == sessions;
  }

  /** A reply leaves the cache at the same length (up to the cap), changes
      only the group and category of the first entry whose id is the
      selection, and leaves every other entry as it was. */
  lemma ReplyOnlyRetags(sessions: seq<Entry>, ref: string, assignedId: string,
                        f: Fields, note: Option<string>, now: int)
    ensures var r := CacheAfterSave(sessions, ReplyTo(ref), assignedId, f, note, now);
      && |r| == (if |sessions| > CacheLimit then CacheLimit else |sessions|)
      && (forall k :: 0 <= k < |r| ==> SameButTags(r[k], sessions[k]))
      && (forall k :: 0 <= k < |r| && (ref == "" || k != FirstIndexOf(sessions, ref)) ==> r[k] == sessions[k])
      && (ref != "" && 0 <= FirstIndexOf(sessions, ref) < |r| ==>
            r[FirstIndexOf(sessions, ref)].group == Some(f.group) &&
            r[FirstIndexOf(sessions, ref)].category == Some(f.category))
  {
    var updated := if ref != "" then RetagReply(sessions, ref, f.group, f.category) else sessions;
    var r := CapCache(updated);
    assert forall k :: 0 <= k < |r| ==> r[k] == updated[k];
  }
}
