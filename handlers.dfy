/** The query handlers of the Foundry module, run against an abstract Foundry: the guard, the
    world-state check, the field checks, and then what each handler does with the checked data.
    Every interaction with Foundry, the data-access layer or the map backend is a `Call` the
    handler makes; the host answers each call with a value or a thrown error. Handlers whose
    remaining work is a single data-access, Foundry or backend call hand that call the checked
    arguments (`Delegate`); the host's answer, reshaped where the handler reshapes it, is the
    handler's answer. */
module Handlers {
  import opened Js
  import opened Strings
  import opened Ops
  import opened Files
  import opened Folders
  import opened Builders
  import opened Validation

  /** A call a handler makes outside itself. */
  datatype Call =
    | StateCheck                                      // dataAccess.validateFoundryState()
    | Delegate(op: Op, args: seq<Value>)              // the handler's one data-access, Foundry or backend call
    | NewFolder(name: Value, kind: string)            // Folder.create({ name, type })
    | NewJournal(journal: Value)                      // JournalEntry.create(journalData)
    | NewTable(table: Value)                          // RollTable.create(tableData)
    | NewWalls(sceneId: string, walls: seq<Value>)    // scene.createEmbeddedDocuments('Wall', walls)
    | MakeDirectory(path: string)                     // FilePicker.createDirectory('data', path)
    | Upload(directory: string, filename: string, mime: string, content: Value) // FilePicker.upload('data', directory, file); `content` is the base64 text the file is decoded from
    | FolderUpdate(folderId: string, updates: Value)  // folder.update(updates)
    | FolderDelete(folderId: string, deleteContents: Value) // folder.delete({ deleteSubfolders: true, deleteContents })
    | PackIndex(packId: string)                       // pack.getIndex()
    | PackDelete(packId: string, ids: seq<Value>)     // documentClass.deleteDocuments(ids, { pack })
    | PackCreate(packId: string, records: seq<Value>) // documentClass.createDocuments(records, { pack })
    | PackDocument(packId: string, itemId: Value)     // pack.getDocument(itemId)
    | DocumentUpdate(packId: string, itemId: Value, updates: Value) // doc.update(updates)

  /** A compendium pack: its label and whether it is locked. */
  datatype Pack = Pack(title: string, locked: bool)

  /** What a handler sees of Foundry: the user, the world's folders, actors, items, packs and
      scenes, the map-quality setting, and the answer to each call. */
  datatype Host = Host(
    isGM: bool, moduleId: string, worldId: Value, userId: Value, mapQuality: Value,
    folders: seq<Folder>, actors: seq<Doc>, items: seq<Doc>,
    packs: map<string, Pack>, scenes: set<string>,
    respond: Call -> Outcome)

  /** The handler's outcome and the calls it made, in order. */
  datatype Reply = Reply(outcome: Outcome, calls: seq<Call>)

  function ErrorReply(error: Value): Value {
    Obj(map["error" := error, "success" := Bool(false)])
  }

  /** The handler's `catch`: most rethrow `Failed to <operation>: <message>`, where a thrown
      value that is not an `Error` counts as `Unknown error`; the map handlers return
      `{ error: error.message, success: false }`, whose `message` read itself throws when what
      was thrown is `null` or `undefined`. */
  function Fail(op: Op, t: Thrown, calls: seq<Call>): (r: Reply)
    ensures r.calls == calls
    ensures Wrapped(op) ==> r.outcome == Threw(Error("Failed to " + Label(op) + ": " + MessageOf(t)))
    ensures !Wrapped(op) ==> (r.outcome.Threw? <==> NullishThrow(t))
    ensures !Wrapped(op) && NullishThrow(t) ==> r.outcome == Threw(Error(ReadErrorMessage(t.value, "message")))
    ensures !Wrapped(op) && !NullishThrow(t) ==>
      Prop(r.outcome.value, "success") == Bool(false)
      && Prop(r.outcome.value, "error") ==
         (if op.UploadGeneratedMap? then Or(MessageRead(t).value, Str("Failed to upload generated map")) else MessageRead(t).value)
  {
    if Wrapped(op) then Reply(Threw(Error("Failed to " + Label(op) + ": " + MessageOf(t))), calls)
    else match MessageRead(t)
      case Threw(e) => Reply(Threw(e), calls)
      case Returned(m) =>
        Reply(Returned(ErrorReply(if op.UploadGeneratedMap? then Or(m, Str("Failed to upload generated map")) else m)), calls)
  }

  /** The calls begin with the calls made before. */
  predicate Extends(calls: seq<Call>, prior: seq<Call>) {
    prior <= calls
  }

  /** One handler invocation. A non-GM caller of a guarded handler makes no call at all, and
      a handler that checks the world state makes that check its first call. */
  function Run(op: Op, host: Host, data: Value): (r: Reply)
    ensures Guarded(op) && !host.isGM ==> r.calls == []
    ensures ChecksState(op) && !op.UpdateCompendiumEntry? && !op.UploadGeneratedMap? && !(Guarded(op) && !host.isGM) ==>
      [StateCheck] <= r.calls
  {
    if op.UpdateCompendiumEntry? then RunCompendiumUpdate(host, data)
    // the generated-map upload logs `data.filename` before its `try`
    else if op.UploadGeneratedMap? && Nullish(data) then Reply(Threw(Error(ReadErrorMessage(data, "filename"))), [])
    else if Guarded(op) && !host.isGM then Reply(Returned(AccessDenied()), [])
    else if ChecksState(op) then
      match host.respond(StateCheck)
      case Threw(t) => Fail(op, t, [StateCheck])
      case Returned(_) => Proceed(op, host, data, [StateCheck])
    else Proceed(op, host, data, [])
  }

  /** The field checks, then the rest of the handler: a refused or failed check makes no
      further call, and a passed one goes on to the handler's own work. */
  function Proceed(op: Op, host: Host, data: Value, prior: seq<Call>): (r: Reply)
    ensures Extends(r.calls, prior)
    ensures !Validate(op, data).Forward? ==> r.calls == prior
    ensures Validate(op, data).Invalid? ==> r == Fail(op, Error(Validate(op, data).message), prior)
  {
    match Validate(op, data)
    case Denied => Reply(Returned(AccessDenied()), prior)
    case Invalid(m) => Fail(op, Error(m), prior)
    case Forward(args) => Perform(op, host, data, args, prior)
  }

  /** What each handler does with its checked arguments; every call is made after the ones
      before. */
  function Perform(op: Op, host: Host, data: Value, args: seq<Value>, prior: seq<Call>): (r: Reply)
    requires Validate(op, data) == Forward(args)
    ensures Extends(r.calls, prior)
  {
    if op.Ping? then Reply(Returned(PingReply(host)), prior)
    else if op.UpdateCampaignProgress? then Reply(Returned(CampaignReply(data)), prior)
    else if op.ListFolders? then Reply(Returned(FolderListing(host.folders, Prop(data, "type"))), prior)
    else if op.UpdateFolder? then RunUpdateFolder(host, data, prior)
    else if op.DeleteFolder? then RunDeleteFolder(host, data, prior)
    else if op.ExportFolderToCompendium? then RunExport(host, data, prior)
    else if op.CreateJournalEntryMultiPage? then RunJournal(host, data, prior)
    else if op.CreateRollTable? then RunRollTable(host, data, prior)
    else if op.CreateWalls? then RunWalls(host, data, prior)
    else if op.UploadGeneratedMap? then MapUploadArguments(op, data, args); RunMapUpload(host, args, prior)
    else if op.UploadFile? then UploadFileArguments(op, data, args); RunUploadFile(host, args, prior)
    else if op.GenerateMap? then RunMapJob(op, host, args + [Or(host.mapQuality, Str("low"))], prior)
    else if op.CheckMapStatus? || op.CancelMapJob? then RunMapJob(op, host, args, prior)
    else Delegated(op, host, data, args, prior)
  }

  /** The handlers that reshape the answer of their one call. */
  predicate Reshapes(op: Op) {
    op.ListActors? || op.ListCreaturesByCriteria? || op.BrowseFiles? || op.CreateFolder?
  }

  /** A single call whose answer, reshaped by the handler, is the handler's answer; the
      handlers that do not reshape return the answer itself. */
  function Delegated(op: Op, host: Host, data: Value, args: seq<Value>, prior: seq<Call>): (r: Reply)
    ensures r.calls == prior + [Delegate(op, args)]
    ensures host.respond(Delegate(op, args)).Threw? ==> r == Fail(op, host.respond(Delegate(op, args)).thrown, r.calls)
    ensures host.respond(Delegate(op, args)).Returned? && !Reshapes(op) ==> r.outcome == host.respond(Delegate(op, args))
    ensures host.respond(Delegate(op, args)).Returned? ==>
      var o := Reshaped(op, data, host.respond(Delegate(op, args)).value);
      (o.Threw? ==> r == Fail(op, o.thrown, r.calls)) && (o.Returned? ==> r.outcome == o)
  {
    var c := Delegate(op, args);
    match host.respond(c)
    case Threw(t) => Fail(op, t, prior + [c])
    case Returned(v) =>
      match Reshaped(op, data, v)
      case Threw(t) => Fail(op, t, prior + [c])
      case Returned(w) => Reply(Returned(w), prior + [c])
  }

  /** What a handler makes of its call's answer `v`. */
  function Reshaped(op: Op, data: Value, v: Value): (r: Outcome)
    ensures !Reshapes(op) ==> r == Returned(v)
    ensures op.ListActors? && Nullish(data) ==> r == Threw(Error(ReadErrorMessage(data, "type")))
    ensures op.ListActors? && !Nullish(data) ==> r == ActorsOfType(v, Prop(data, "type"))
    ensures op.ListCreaturesByCriteria? ==> r == Returned(Obj(map["response" := v]))
    ensures (op.BrowseFiles? || op.CreateFolder?) ==> (r.Threw? <==> Nullish(v))
    ensures op.BrowseFiles? && !Nullish(v) ==> r == Returned(BrowseReply(v))
    ensures op.CreateFolder? && !Nullish(v) ==> r == Returned(CreatedFolderReply(v))
  {
    match op
    case ListActors =>
      if Nullish(data) then Threw(Error(ReadErrorMessage(data, "type"))) else ActorsOfType(v, Prop(data, "type"))
    case ListCreaturesByCriteria => Returned(Obj(map["response" := v]))
    case BrowseFiles =>
      if Nullish(v) then Threw(Error(ReadErrorMessage(v, "target"))) else Returned(BrowseReply(v))
    case CreateFolder =>
      if Nullish(v) then Threw(Error(ReadErrorMessage(v, "id"))) else Returned(CreatedFolderReply(v))
    case _ => Returned(v)
  }

  /** `actor.type === kind` for each actor, in order. */
  function OfType(actors: seq<Value>, kind: Value): (r: seq<Value>)
    ensures |r| <= |actors|
    ensures forall a | a in r :: a in actors && StrictEquals(Prop(a, "type"), kind)
    ensures forall a | a in actors && StrictEquals(Prop(a, "type"), kind) :: a in r
  {
    if actors == [] then []
    else if StrictEquals(Prop(actors[0], "type"), kind) then [actors[0]] + OfType(actors[1..], kind)
    else OfType(actors[1..], kind)
  }

  /** `if (data.type) return actors.filter(actor => actor.type === data.type); return actors;`
      The list passes unchanged without a truthy type. With one, an array keeps exactly its
      actors of that type unless one of them is null or undefined, whose `type` read throws;
      null or undefined has no `filter`, and neither has any other value that is not an array. */
  function ActorsOfType(actors: Value, kind: Value): (r: Outcome)
    ensures !Truthy(kind) ==> r == Returned(actors)
    ensures Truthy(kind) && actors.Arr? ==> (r.Returned? <==> forall j | 0 <= j < |actors.items| :: !Nullish(actors.items[j]))
    ensures Truthy(kind) && actors.Arr? && r.Returned? ==>
      r.value.Arr? && forall a :: a in r.value.items <==> (a in actors.items && StrictEquals(Prop(a, "type"), kind))
    ensures Truthy(kind) && Nullish(actors) ==> r == Threw(Error(ReadErrorMessage(actors, "filter")))
    ensures Truthy(kind) && !actors.Arr? && !Nullish(actors) ==> r == Threw(Error("actors.filter is not a function"))
  {
    if !Truthy(kind) then Returned(actors)
    else if actors.Arr? then
      match FirstNullish(actors.items)
      case Some(i) => Threw(Error(ReadErrorMessage(actors.items[i], "type")))
      case None => Returned(Arr(OfType(actors.items, kind)))
    else if Nullish(actors) then Threw(Error(ReadErrorMessage(actors, "filter")))
    else Threw(Error("actors.filter is not a function"))
  }

  /** `{ target: result.target, dirs: result.dirs || [], files: result.files || [] }` */
  function BrowseReply(result: Value): (r: Value)
    ensures r.Obj? && r.fields.Keys == {"target", "dirs", "files"}
    ensures Prop(r, "target") == Prop(result, "target")
    ensures Prop(r, "dirs") == (if Truthy(Prop(result, "dirs")) then Prop(result, "dirs") else Arr([]))
    ensures Prop(r, "files") == (if Truthy(Prop(result, "files")) then Prop(result, "files") else Arr([]))
  {
    Obj(map["target" := Prop(result, "target"), "dirs" := Or(Prop(result, "dirs"), Arr([])),
            "files" := Or(Prop(result, "files"), Arr([]))])
  }

  /** `{ id, name, type, parent: folder.folder?.id || null }` of the created folder. */
  function CreatedFolderReply(folder: Value): (r: Value)
    ensures r.Obj? && r.fields.Keys == {"id", "name", "type", "parent"}
    ensures Prop(r, "id") == Prop(folder, "id") && Prop(r, "name") == Prop(folder, "name") && Prop(r, "type") == Prop(folder, "type")
    ensures Prop(r, "parent") == (if Truthy(Path(folder, "folder", "id")) then Path(folder, "folder", "id") else Null)
  {
    Obj(map["id" := Prop(folder, "id"), "name" := Prop(folder, "name"), "type" := Prop(folder, "type"),
            "parent" := Or(Path(folder, "folder", "id"), Null)])
  }

  /** `deleteFolder`: the folder must exist; it is deleted with its subfolders, and with its
      documents only when `deleteContents` is truthy; the reply names it. */
  function RunDeleteFolder(host: Host, data: Value, prior: seq<Call>): (r: Reply)
    ensures Extends(r.calls, prior)
    ensures FindById(host.folders, Prop(data, "folderId")).None? ==>
      r == Fail(DeleteFolder, Error("Folder not found: " + Text(Prop(data, "folderId"))), prior)
    ensures FindById(host.folders, Prop(data, "folderId")).Some? ==>
      var f := FindById(host.folders, Prop(data, "folderId")).value;
      var c := FolderDelete(f.id, if Truthy(Prop(data, "deleteContents")) then Prop(data, "deleteContents") else Bool(false));
      r.calls == prior + [c]
      && (host.respond(c).Returned? ==> r.outcome == Returned(Obj(map["name" := Str(f.name)])))
  {
    var folderId := Prop(data, "folderId");
    match FindById(host.folders, folderId)
    case None => Fail(DeleteFolder, Error("Folder not found: " + Text(folderId)), prior)
    case Some(f) =>
      var c := FolderDelete(f.id, Or(Prop(data, "deleteContents"), Bool(false)));
      match host.respond(c)
      case Threw(t) => Fail(DeleteFolder, t, prior + [c])
      case Returned(_) => Reply(Returned(Obj(map["name" := Str(f.name)])), prior + [c])
  }

  // ----- Replies built without a call -----

  /** `ping`: status, module id, world and user (the time stamp and Foundry version are not modelled). */
  function PingReply(host: Host): (r: Value)
    ensures Prop(r, "status") == Str("ok") && Prop(r, "module") == Str(host.moduleId)
  {
    Obj(map["status" := Str("ok"), "module" := Str(host.moduleId), "worldId" := host.worldId, "userId" := host.userId])
  }

  function CampaignReply(data: Value): (r: Value)
    ensures Prop(r, "success") == Bool(true)
    ensures Prop(r, "message") == Str("Campaign progress updated: " + Text(Prop(data, "partId")) + " is now " + Text(Prop(data, "newStatus")))
  {
    Obj(map[
      "success" := Bool(true),
      "message" := Str("Campaign progress updated: " + Text(Prop(data, "partId")) + " is now " + Text(Prop(data, "newStatus"))),
      "campaignId" := Prop(data, "campaignId"), "partId" := Prop(data, "partId"), "newStatus" := Prop(data, "newStatus")])
  }

  /** `{ folders: [...] }` for every folder, or for those of the requested type. */
  function FolderListing(folders: seq<Folder>, kind: Value): (r: Value)
    ensures Prop(r, "folders") == Arr(DescribeAll(FilterByType(folders, kind)))
  {
    Obj(map["folders" := Arr(DescribeAll(FilterByType(folders, kind)))])
  }

  // ----- Folder update -----

  /** The folder after `folder.update({ name?, folder? })`: a string name renames it, a string
      parent moves it and `null` moves it to the top level; other values leave it as it was. */
  function Applied(f: Folder, updates: Value): (g: Folder)
    ensures g.id == f.id && g.kind == f.kind
  {
    var name := Prop(updates, "name");
    var parent := Prop(updates, "folder");
    Folder(f.id, if name.Str? then name.s else f.name, f.kind,
      if parent.Str? then Some(parent.s) else if parent.Null? then None else f.parent)
  }

  /** The update object: `name` and `folder` (from `parent`) only when not undefined. */
  function FolderUpdates(data: Value): (u: Value)
    ensures Prop(u, "name") == Prop(data, "name") && Prop(u, "folder") == Prop(data, "parent")
    ensures u.Obj? && ("name" in u.fields <==> Prop(data, "name") != Undefined)
    ensures "folder" in u.fields <==> Prop(data, "parent") != Undefined
  {
    var named := if Prop(data, "name") != Undefined then map["name" := Prop(data, "name")] else map[];
    Obj(if Prop(data, "parent") != Undefined then named["folder" := Prop(data, "parent")] else named)
  }

  /** `updateFolder`: the folder must exist; it is updated once, and the reply describes the
      folder as the update leaves it. */
  function RunUpdateFolder(host: Host, data: Value, prior: seq<Call>): (r: Reply)
    ensures Extends(r.calls, prior)
    ensures FindById(host.folders, Prop(data, "folderId")).None? ==>
      r == Fail(UpdateFolder, Error("Folder not found: " + Text(Prop(data, "folderId"))), prior)
    ensures FindById(host.folders, Prop(data, "folderId")).Some? ==>
      var f := FindById(host.folders, Prop(data, "folderId")).value;
      var c := FolderUpdate(f.id, FolderUpdates(data));
      r.calls == prior + [c]
      && (host.respond(c).Returned? ==> r.outcome == Returned(Describe(Applied(f, FolderUpdates(data)))))
  {
    var folderId := Prop(data, "folderId");
    match FindById(host.folders, folderId)
    case None => Fail(UpdateFolder, Error("Folder not found: " + Text(folderId)), prior)
    case Some(f) =>
      var c := FolderUpdate(f.id, FolderUpdates(data));
      match host.respond(c)
      case Threw(t) => Fail(UpdateFolder, t, prior + [c])
      case Returned(_) => Reply(Returned(Describe(Applied(f, FolderUpdates(data)))), prior + [c])
  }

  // ----- Export to compendium -----

  /** `(await pack.getIndex()).map(e => e._id)` */
  function IndexIds(index: Value): (ids: seq<Value>)
    ensures |ids| == |Items(index)|
  {
    seq(|Items(index)|, i requires 0 <= i < |Items(index)| => Prop(Items(index)[i], "_id"))
  }

  function ExportReply(exported: nat, cleared: nat, folder: Folder, packId: string, packTitle: string, clearFirst: Value): (r: Value)
    ensures Prop(r, "success") == Bool(true) && Prop(r, "exported") == Num(exported) && Prop(r, "cleared") == Num(cleared)
  {
    Obj(map[
      "success" := Bool(true), "exported" := Num(exported), "cleared" := Num(cleared),
      "folderName" := Str(folder.name), "packId" := Str(packId),
      "message" := Str(ExportMessage(clearFirst, cleared, exported, folder.name, packTitle))])
  }

  function EmptyExportReply(folder: Folder): Value {
    Obj(map["success" := Bool(true), "exported" := Num(0),
            "message" := Str("No documents found in folder \"" + folder.name + "\"")])
  }

  /** `exportFolderToCompendium`: the folder and then the pack must exist, and neither check
      makes a call. */
  function RunExport(host: Host, data: Value, prior: seq<Call>): (r: Reply)
    ensures Extends(r.calls, prior)
    ensures FindById(host.folders, Prop(data, "folderId")).None? ==>
      r == Fail(ExportFolderToCompendium, Error("Folder not found: " + Text(Prop(data, "folderId"))), prior)
    ensures FindById(host.folders, Prop(data, "folderId")).Some? && !(Prop(data, "packId").Str? && Prop(data, "packId").s in host.packs) ==>
      r == Fail(ExportFolderToCompendium, Error("Compendium pack not found: " + Text(Prop(data, "packId"))), prior)
  {
    var folderId := Prop(data, "folderId");
    var packId := Prop(data, "packId");
    match FindById(host.folders, folderId)
    case None => Fail(ExportFolderToCompendium, Error("Folder not found: " + Text(folderId)), prior)
    case Some(folder) =>
      if !(packId.Str? && packId.s in host.packs) then
        Fail(ExportFolderToCompendium, Error("Compendium pack not found: " + Text(packId)), prior)
      else
        var docs := ExportedDocuments(folder, host.folders, SourceCollection(folder.kind, host.actors, host.items), Prop(data, "recursive"));
        if |docs| == 0 then Reply(Returned(EmptyExportReply(folder)), prior)
        else ExportRecords(host, folder, packId.s, CleanAll(docs), Prop(data, "clearFirst"), prior)
  }

  /** Optionally clear the pack, then create the cleaned records in it. */
  function ExportRecords(host: Host, folder: Folder, packId: string, records: seq<Value>, clearFirst: Value, prior: seq<Call>): (r: Reply)
    requires packId in host.packs
    ensures |r.calls| > |prior| && r.calls[..|prior|] == prior
    ensures r.outcome.Returned? ==>
      Last(r.calls) == PackCreate(packId, records) && Prop(r.outcome.value, "exported") == Num(|records|)
      && (r.calls[|prior|] == PackIndex(packId) <==> Truthy(clearFirst))
  {
    if Truthy(clearFirst) then
      var index := PackIndex(packId);
      match host.respond(index)
      case Threw(t) => Fail(ExportFolderToCompendium, t, prior + [index])
      case Returned(v) =>
        var ids := IndexIds(v);
        if |ids| == 0 then CreateRecords(host, folder, packId, records, 0, clearFirst, prior + [index])
        else
          var del := PackDelete(packId, ids);
          match host.respond(del)
          case Threw(t) => Fail(ExportFolderToCompendium, t, prior + [index, del])
          case Returned(_) => CreateRecords(host, folder, packId, records, |ids|, clearFirst, prior + [index, del])
    else CreateRecords(host, folder, packId, records, 0, clearFirst, prior)
  }

  function CreateRecords(host: Host, folder: Folder, packId: string, records: seq<Value>, cleared: nat, clearFirst: Value, prior: seq<Call>): (r: Reply)
    requires packId in host.packs
    ensures r.calls == prior + [PackCreate(packId, records)]
  {
    var c := PackCreate(packId, records);
    match host.respond(c)
    case Threw(t) => Fail(ExportFolderToCompendium, t, prior + [c])
    case Returned(_) =>
      Reply(Returned(ExportReply(|records|, cleared, folder, packId, host.packs[packId].title, clearFirst)), prior + [c])
  }

  // ----- Journals, roll tables and walls -----

  /** Where a new journal or table goes: a given id, an existing folder, a new folder (one call),
      or none (`null`). */
  function FolderIdFor(host: Host, kind: string, data: Value, prior: seq<Call>): (r: (Outcome, seq<Call>))
    ensures r.1 == prior || r.1 == prior + [NewFolder(Prop(data, "folderName"), kind)]
    ensures Extends(r.1, prior)
  {
    match ResolveFolder(host.folders, kind, Prop(data, "folder"), Prop(data, "folderName"))
    case Given(id) => (Returned(id), prior)
    case Existing(id) => (Returned(Str(id)), prior)
    case NoFolder => (Returned(Null), prior)
    case Create(name) =>
      var c := NewFolder(name, kind);
      match host.respond(c)
      case Threw(t) => (Threw(t), prior + [c])
      case Returned(created) =>
        if Nullish(created) then (Threw(Error(ReadErrorMessage(created, "id"))), prior + [c])
        else (Returned(Prop(created, "id")), prior + [c])
  }

  // A Foundry collection (a journal's `pages`, a roll table's `results`) is represented by
  // the array of its elements: its `size` is their count and its `map` maps over them.

  /** `c.size`: a collection's element count, the `size` property of any other value, and the
      TypeError of reading it off null or undefined. */
  function SizeOf(c: Value): (r: Outcome)
    ensures r.Threw? <==> Nullish(c)
    ensures Nullish(c) ==> r == Threw(Error(ReadErrorMessage(c, "size")))
    ensures c.Arr? ==> r == Returned(Num(|c.items|))
  {
    if Nullish(c) then Threw(Error(ReadErrorMessage(c, "size")))
    else if c.Arr? then Returned(Num(|c.items|))
    else Returned(Prop(c, "size"))
  }

  /** `p => ({ id: p.id, name: p.name })` */
  function PageEntry(p: Value, index: nat): Value {
    Obj(map["id" := Prop(p, "id"), "name" := Prop(p, "name")])
  }

  /** `journal.pages.map(p => ({ id: p.id, name: p.name }))` on pages none of which is nullish */
  function PageIds(pages: seq<Value>): (r: seq<Value>)
    ensures |r| == |pages|
    ensures forall i | 0 <= i < |pages| :: Prop(r[i], "id") == Prop(pages[i], "id") && Prop(r[i], "name") == Prop(pages[i], "name")
  {
    seq(|pages|, i requires 0 <= i < |pages| => PageEntry(pages[i], i))
  }

  /** The reply describing a created journal: `journal.pages.size`, then `journal.pages.map`.
      Pages that are null or undefined fail the `size` read; pages that are not a collection
      have no `map`; a page that is null or undefined fails its `id` read. Otherwise the reply
      counts exactly the pages it lists. */
  function JournalReply(j: Value): (r: Outcome)
    ensures var pages := Prop(j, "pages");
      (r.Returned? <==> pages.Arr? && forall k | 0 <= k < |pages.items| :: !Nullish(pages.items[k]))
      && (Nullish(pages) ==> r == Threw(Error(ReadErrorMessage(pages, "size"))))
      && (!Nullish(pages) && !pages.Arr? ==> r == Threw(Error("journal.pages.map is not a function")))
      && (pages.Arr? && r.Threw? ==>
            exists k | 0 <= k < |pages.items| :: Nullish(pages.items[k]) && r.thrown == Error(ReadErrorMessage(pages.items[k], "id")))
      && (r.Returned? ==>
            Prop(r.value, "id") == Prop(j, "id") && Prop(r.value, "name") == Prop(j, "name")
            && Prop(r.value, "pageIds") == Arr(PageIds(pages.items))
            && Prop(r.value, "pageCount") == Num(|PageIds(pages.items)|))
  {
    var pages := Prop(j, "pages");
    match SizeOf(pages)
    case Threw(t) => Threw(t)
    case Returned(count) =>
      if !pages.Arr? then Threw(Error("journal.pages.map is not a function"))
      else match MapElements(pages.items, "id", PageEntry)
        case Failed(m) => Threw(Error(m))
        case Built(ids) =>
          assert ids == PageIds(pages.items);
          Returned(Obj(map["id" := Prop(j, "id"), "name" := Prop(j, "name"), "pageCount" := count, "pageIds" := Arr(ids)]))
  }

  /** `createJournalEntryMultiPage`: the pages are built first; a created journal is
      described by its id, name, page count and page ids, and holds one page per input page. */
  function RunJournal(host: Host, data: Value, prior: seq<Call>): (r: Reply)
    ensures Extends(r.calls, prior)
    ensures BuildPages(Items(Prop(data, "pages"))).Failed? ==>
      r == Fail(CreateJournalEntryMultiPage, Error(BuildPages(Items(Prop(data, "pages"))).message), prior)
    ensures r.outcome.Returned? ==>
      |r.calls| > |prior| && Last(r.calls).NewJournal?
      && |Items(Prop(Last(r.calls).journal, "pages"))| == |Items(Prop(data, "pages"))|
      && Prop(Last(r.calls).journal, "name") == Prop(data, "name")
      && host.respond(Last(r.calls)).Returned? && Truthy(host.respond(Last(r.calls)).value)
      && var j := host.respond(Last(r.calls)).value;
         Prop(j, "pages").Arr?
         && Prop(r.outcome.value, "id") == Prop(j, "id")
         && Prop(r.outcome.value, "pageCount") == Num(|Prop(j, "pages").items|)
         && Prop(r.outcome.value, "pageIds") == Arr(PageIds(Prop(j, "pages").items))
  {
    match BuildPages(Items(Prop(data, "pages")))
    case Failed(m) => Fail(CreateJournalEntryMultiPage, Error(m), prior)
    case Built(pages) =>
      var (folderId, calls) := FolderIdFor(host, "JournalEntry", data, prior);
      match folderId
      case Threw(t) => Fail(CreateJournalEntryMultiPage, t, calls)
      case Returned(id) =>
        CreateJournal(host, JournalData(Prop(data, "name"), pages, Prop(data, "ownership"), id), calls)
  }

  /** `JournalEntry.create(journalData)` and the reply describing the created journal; a
      falsy answer, and every error of describing it, fail the handler. */
  function CreateJournal(host: Host, journal: Value, calls: seq<Call>): (r: Reply)
    ensures r.calls == calls + [NewJournal(journal)]
    ensures var a := host.respond(NewJournal(journal));
      (a.Threw? ==> r == Fail(CreateJournalEntryMultiPage, a.thrown, r.calls))
      && (a.Returned? && !Truthy(a.value) ==> r == Fail(CreateJournalEntryMultiPage, Error("Failed to create journal entry"), r.calls))
      && (a.Returned? && Truthy(a.value) && JournalReply(a.value).Threw? ==>
            r == Fail(CreateJournalEntryMultiPage, JournalReply(a.value).thrown, r.calls))
      && (a.Returned? && Truthy(a.value) && JournalReply(a.value).Returned? ==> r.outcome == JournalReply(a.value))
  {
    var c := NewJournal(journal);
    match host.respond(c)
    case Threw(t) => Fail(CreateJournalEntryMultiPage, t, calls + [c])
    case Returned(j) =>
      if !Truthy(j) then Fail(CreateJournalEntryMultiPage, Error("Failed to create journal entry"), calls + [c])
      else match JournalReply(j)
        case Threw(t) => Fail(CreateJournalEntryMultiPage, t, calls + [c])
        case Returned(v) => Reply(Returned(v), calls + [c])
  }

  /** The reply describing a created roll table; results that are null or undefined fail the
      `size` read, and a collection of results is counted. */
  function TableReply(t: Value): (r: Outcome)
    ensures var results := Prop(t, "results");
      (r.Threw? <==> Nullish(results))
      && (Nullish(results) ==> r == Threw(Error(ReadErrorMessage(results, "size"))))
      && (r.Returned? ==>
            Prop(r.value, "id") == Prop(t, "id") && Prop(r.value, "name") == Prop(t, "name")
            && Prop(r.value, "formula") == Prop(t, "formula")
            && Prop(r.value, "resultCount") == SizeOf(results).value)
      && (results.Arr? ==> r.Returned? && Prop(r.value, "resultCount") == Num(|results.items|))
  {
    match SizeOf(Prop(t, "results"))
    case Threw(e) => Threw(e)
    case Returned(count) =>
      Returned(Obj(map["id" := Prop(t, "id"), "name" := Prop(t, "name"), "formula" := Prop(t, "formula"), "resultCount" := count]))
  }

  /** `createRollTable`: the results are built first; a created table is described by its
      id, name, formula and result count, and holds one result per input result. */
  function RunRollTable(host: Host, data: Value, prior: seq<Call>): (r: Reply)
    ensures Extends(r.calls, prior)
    ensures BuildResults(Items(Prop(data, "results"))).Failed? ==>
      r == Fail(CreateRollTable, Error(BuildResults(Items(Prop(data, "results"))).message), prior)
    ensures r.outcome.Returned? ==>
      |r.calls| > |prior| && Last(r.calls).NewTable?
      && |Items(Prop(Last(r.calls).table, "results"))| == |Items(Prop(data, "results"))|
      && host.respond(Last(r.calls)).Returned? && Truthy(host.respond(Last(r.calls)).value)
      && var t := host.respond(Last(r.calls)).value;
         !Nullish(Prop(t, "results"))
         && Prop(r.outcome.value, "id") == Prop(t, "id") && Prop(r.outcome.value, "formula") == Prop(t, "formula")
         && Prop(r.outcome.value, "resultCount") == SizeOf(Prop(t, "results")).value
  {
    match BuildResults(Items(Prop(data, "results")))
    case Failed(m) => Fail(CreateRollTable, Error(m), prior)
    case Built(results) =>
      var (folderId, calls) := FolderIdFor(host, "RollTable", data, prior);
      match folderId
      case Threw(t) => Fail(CreateRollTable, t, calls)
      case Returned(id) =>
        CreateTable(host, TableData(data, results, id), calls)
  }

  /** `RollTable.create(tableData)` and the reply describing the created table; a falsy answer,
      and a table without results, fail the handler. */
  function CreateTable(host: Host, table: Value, calls: seq<Call>): (r: Reply)
    ensures r.calls == calls + [NewTable(table)]
    ensures var a := host.respond(NewTable(table));
      (a.Threw? ==> r == Fail(CreateRollTable, a.thrown, r.calls))
      && (a.Returned? && !Truthy(a.value) ==> r == Fail(CreateRollTable, Error("Failed to create roll table"), r.calls))
      && (a.Returned? && Truthy(a.value) && TableReply(a.value).Threw? ==>
            r == Fail(CreateRollTable, TableReply(a.value).thrown, r.calls))
      && (a.Returned? && Truthy(a.value) && TableReply(a.value).Returned? ==> r.outcome == TableReply(a.value))
  {
    var c := NewTable(table);
    match host.respond(c)
    case Threw(t) => Fail(CreateRollTable, t, calls + [c])
    case Returned(created) =>
      if !Truthy(created) then Fail(CreateRollTable, Error("Failed to create roll table"), calls + [c])
      else match TableReply(created)
        case Threw(t) => Fail(CreateRollTable, t, calls + [c])
        case Returned(v) => Reply(Returned(v), calls + [c])
  }

  /** `w => w.id` */
  function WallId(w: Value, index: nat): Value {
    Prop(w, "id")
  }

  /** `created.map(w => w.id)` on walls none of which is nullish */
  function WallIds(created: seq<Value>): (r: seq<Value>)
    ensures |r| == |created|
    ensures forall i | 0 <= i < |created| :: r[i] == Prop(created[i], "id")
  {
    seq(|created|, i requires 0 <= i < |created| => WallId(created[i], i))
  }

  /** `{ count: created.length, wallIds: created.map(w => w.id) }`: null or undefined fails the
      `length` read, a value that is not an array has no `map`, and a wall that is null or
      undefined fails its `id` read. Otherwise the reply counts exactly the ids it lists. */
  function WallsReply(created: Value): (r: Outcome)
    ensures r.Returned? <==> created.Arr? && forall k | 0 <= k < |created.items| :: !Nullish(created.items[k])
    ensures Nullish(created) ==> r == Threw(Error(ReadErrorMessage(created, "length")))
    ensures !Nullish(created) && !created.Arr? ==> r == Threw(Error("created.map is not a function"))
    ensures created.Arr? && r.Threw? ==>
      exists k | 0 <= k < |created.items| :: Nullish(created.items[k]) && r.thrown == Error(ReadErrorMessage(created.items[k], "id"))
    ensures r.Returned? ==>
      Prop(r.value, "wallIds") == Arr(WallIds(created.items)) && Prop(r.value, "count") == Num(|WallIds(created.items)|)
  {
    if Nullish(created) then Threw(Error(ReadErrorMessage(created, "length")))
    else if !created.Arr? then Threw(Error("created.map is not a function"))
    else match MapElements(created.items, "id", WallId)
      case Failed(m) => Threw(Error(m))
      case Built(ids) =>
        assert ids == WallIds(created.items);
        Returned(Obj(map["count" := Num(|created.items|), "wallIds" := Arr(ids)]))
  }

  /** `createWalls`: the scene must exist; one wall is created per input wall, and the reply
      counts and lists what the scene created. */
  function RunWalls(host: Host, data: Value, prior: seq<Call>): (r: Reply)
    ensures Extends(r.calls, prior)
    ensures !(Prop(data, "sceneId").Str? && Prop(data, "sceneId").s in host.scenes) ==>
      r == Fail(CreateWalls, Error("Scene not found: " + Text(Prop(data, "sceneId"))), prior)
    ensures r.calls != prior ==>
      Prop(data, "sceneId").Str? && |r.calls| == |prior| + 1 && Last(r.calls).NewWalls?
      && Last(r.calls).sceneId == Prop(data, "sceneId").s
      && |Last(r.calls).walls| == |Items(Prop(data, "walls"))|
      && var a := host.respond(Last(r.calls));
         (a.Threw? ==> r == Fail(CreateWalls, a.thrown, r.calls))
         && (a.Returned? && WallsReply(a.value).Threw? ==> r == Fail(CreateWalls, WallsReply(a.value).thrown, r.calls))
         && (a.Returned? && WallsReply(a.value).Returned? ==> r.outcome == WallsReply(a.value))
    ensures r.outcome.Returned? ==>
      |r.calls| == |prior| + 1 && host.respond(Last(r.calls)).Returned?
      && var created := host.respond(Last(r.calls)).value;
         created.Arr?
         && Prop(r.outcome.value, "count") == Num(|created.items|) && Prop(r.outcome.value, "wallIds") == Arr(WallIds(created.items))
  {
    var sceneId := Prop(data, "sceneId");
    if !(sceneId.Str? && sceneId.s in host.scenes) then
      Fail(CreateWalls, Error("Scene not found: " + Text(sceneId)), prior)
    else match BuildWalls(Items(Prop(data, "walls")))
      case Failed(m) => Fail(CreateWalls, Error(m), prior)
      case Built(walls) =>
        var c := NewWalls(sceneId.s, walls);
        match host.respond(c)
        case Threw(t) => Fail(CreateWalls, t, prior + [c])
        case Returned(created) =>
          match WallsReply(created)
          case Threw(t) => Fail(CreateWalls, t, prior + [c])
          case Returned(v) => Reply(Returned(v), prior + [c])
  }

  // ----- Uploads -----

  /** `worlds/<world id or 'unknown-world'>/ai-generated-maps` */
  function MapDirectory(worldId: Value): string {
    "worlds/" + Text(Or(worldId, Str("unknown-world"))) + "/ai-generated-maps"
  }

  /** The directory `catch` of both uploads,
      `if (!dirError.message?.includes('EEXIST') && !dirError.message?.includes('already exists'))`,
      only logs; it throws itself when `message` cannot be read (a thrown null or undefined) or
      has no `includes` (a message that is neither a string, an array nor missing). */
  function DirectoryFailure(t: Thrown): (r: Option<string>)
    ensures t.Error? ==> r.None?
    ensures NullishThrow(t) ==> r == Some(ReadErrorMessage(t.value, "message"))
    ensures t.NonError? && !Nullish(t.value) ==>
      (r.None? <==> var m := Prop(t.value, "message"); Nullish(m) || m.Str? || m.Arr?)
  {
    match t
    case Error(_) => None
    case NonError(v) =>
      if Nullish(v) then Some(ReadErrorMessage(v, "message"))
      else
        var m := Prop(v, "message");
        if Nullish(m) || m.Str? || m.Arr? then None else Some("dirError.message?.includes is not a function")
  }

  /** A directory call's answer that the directory `catch` does not absorb. */
  predicate DirectoryStops(o: Outcome) {
    o.Threw? && DirectoryFailure(o.thrown).Some?
  }

  /** The generated-map upload: the directory (a failure the `catch` absorbs is ignored), then
      the upload as PNG. */
  function RunMapUpload(host: Host, args: seq<Value>, prior: seq<Call>): (r: Reply)
    requires |args| == 2 && args[0].Str?
    ensures Extends(r.calls, prior)
    ensures var dir := MapDirectory(host.worldId);
      var d := host.respond(MakeDirectory(dir));
      (DirectoryStops(d) ==>
         r == Fail(UploadGeneratedMap, Error(DirectoryFailure(d.thrown).value), prior + [MakeDirectory(dir)]))
      && (!DirectoryStops(d) ==> r.calls == prior + [MakeDirectory(dir), Upload(dir, args[0].s, "image/png", args[1])])
    ensures var dir := MapDirectory(host.worldId);
      var a := host.respond(Upload(dir, args[0].s, "image/png", args[1]));
      !DirectoryStops(host.respond(MakeDirectory(dir))) ==>
        (r.outcome.Threw? <==> a.Threw? && NullishThrow(a.thrown))
        && (r.outcome.Returned? ==> Prop(r.outcome.value, "success") == Bool(a.Returned? && !Nullish(a.value)))
    ensures DirectoryStops(host.respond(MakeDirectory(MapDirectory(host.worldId)))) ==>
      r.outcome.Returned? && Prop(r.outcome.value, "success") == Bool(false)
  {
    var dir := MapDirectory(host.worldId);
    var mk := MakeDirectory(dir);
    var d := host.respond(mk);
    if DirectoryStops(d) then Fail(UploadGeneratedMap, Error(DirectoryFailure(d.thrown).value), prior + [mk])
    else
      var safe := args[0].s;
      var up := Upload(dir, safe, "image/png", args[1]);
      var calls := prior + [mk, up];
      match host.respond(up)
      case Threw(t) => Fail(UploadGeneratedMap, t, calls)
      case Returned(r) =>
        if Nullish(r) then Fail(UploadGeneratedMap, Error(ReadErrorMessage(r, "path")), calls)
        else Reply(Returned(Obj(map["success" := Bool(true), "path" := Prop(r, "path"), "filename" := Str(safe),
                                    "message" := Str("Map uploaded successfully to " + Text(Prop(r, "path")))])), calls)
  }

  /** The directory calls of an upload, one per prefix, in order. */
  function DirectoryCalls(paths: seq<string>): (r: seq<Call>)
    ensures |r| == |paths| && forall i | 0 <= i < |paths| :: r[i] == MakeDirectory(paths[i])
  {
    seq(|paths|, i requires 0 <= i < |paths| => MakeDirectory(paths[i]))
  }

  /** `for (const part of parts) { … createDirectory … }` ends at the first directory call
      whose failure the `catch` does not absorb, if there is one. */
  function FirstStop(host: Host, paths: seq<string>): (r: Option<nat>)
    ensures r.Some? ==>
      r.value < |paths| && DirectoryStops(host.respond(MakeDirectory(paths[r.value])))
      && forall j | 0 <= j < r.value :: !DirectoryStops(host.respond(MakeDirectory(paths[j])))
    ensures r.None? ==> forall j | 0 <= j < |paths| :: !DirectoryStops(host.respond(MakeDirectory(paths[j])))
  {
    if paths == [] then None
    else if DirectoryStops(host.respond(MakeDirectory(paths[0]))) then Some(0)
    else match FirstStop(host, paths[1..])
      case Some(i) => Some(i + 1)
      case None => None
  }

  /** The file upload: every directory on the trimmed path (failures the `catch` absorbs are
      ignored), then the upload. */
  function RunUploadFile(host: Host, args: seq<Value>, prior: seq<Call>): (r: Reply)
    requires |args| == 4 && args[0].Str? && args[1].Str? && args[3].Str?
    ensures Extends(r.calls, prior)
    ensures var chain := DirectoryChain(Split(args[3].s, '/'));
      var stop := FirstStop(host, chain);
      (stop.Some? ==>
         var d := host.respond(MakeDirectory(chain[stop.value]));
         r == Fail(Op.UploadFile, Error(DirectoryFailure(d.thrown).value), prior + DirectoryCalls(chain[..stop.value + 1])))
      && (stop.None? ==> r.calls == prior + DirectoryCalls(chain) + [Upload(args[3].s, args[0].s, args[1].s, args[2])])
    ensures r.outcome.Returned? ==>
      |r.calls| > |prior| && Last(r.calls) == Upload(args[3].s, args[0].s, args[1].s, args[2])
      && var a := host.respond(Upload(args[3].s, args[0].s, args[1].s, args[2]));
      a.Returned? && !Nullish(a.value)
      && Prop(r.outcome.value, "success") == Bool(true) && Prop(r.outcome.value, "filename") == args[0]
      && Prop(r.outcome.value, "path") == Prop(a.value, "path")
  {
    var chain := DirectoryChain(Split(args[3].s, '/'));
    var up := Upload(args[3].s, args[0].s, args[1].s, args[2]);
    match FirstStop(host, chain)
    case Some(k) =>
      Fail(Op.UploadFile, Error(DirectoryFailure(host.respond(MakeDirectory(chain[k])).thrown).value),
           prior + DirectoryCalls(chain[..k + 1]))
    case None => UploadInto(host, up, prior + DirectoryCalls(chain))
  }

  /** `FilePicker.upload(…)` for the file upload and the reply built from its response. */
  function UploadInto(host: Host, up: Call, calls: seq<Call>): (r: Reply)
    requires up.Upload?
    ensures r.calls == calls + [up]
    ensures r.outcome.Returned? ==>
      var a := host.respond(up);
      a.Returned? && !Nullish(a.value)
      && Prop(r.outcome.value, "success") == Bool(true) && Prop(r.outcome.value, "filename") == Str(up.filename)
      && Prop(r.outcome.value, "path") == Prop(a.value, "path")
  {
    match host.respond(up)
    case Threw(t) => Fail(Op.UploadFile, t, calls + [up])
    case Returned(r) =>
      if Nullish(r) then Fail(Op.UploadFile, Error(ReadErrorMessage(r, "path")), calls + [up])
      else Reply(Returned(Obj(map["success" := Bool(true), "path" := Prop(r, "path"), "filename" := Str(up.filename)])), calls + [up])
  }

  // ----- Map jobs -----

  /** `typeof response?.success === 'boolean' ? response.success : response?.status === 'success'` */
  predicate JobSucceeded(response: Value) {
    var success := Prop(response, "success");
    if success.Bool? then success.b else StrictEquals(Prop(response, "status"), Str("success"))
  }

  function JobFailureText(op: Op): string {
    match op
    case GenerateMap => "Map generation failed"
    case CheckMapStatus => "Status check failed"
    case _ => "Job cancellation failed"
  }

  /** The reply a map handler shapes from the backend's response. */
  function JobReply(op: Op, response: Value): (r: Value)
    ensures Prop(r, "success") == Bool(JobSucceeded(response))
    ensures !JobSucceeded(response) ==>
      Prop(r, "error") == Or(Or(Prop(response, "error"), Prop(response, "message")), Str(JobFailureText(op)))
      && Prop(r, "status") == Coalesce(Prop(response, "status"), Str("error"))
    ensures JobSucceeded(response) ==> Prop(r, "status") == Coalesce(Prop(response, "status"), Str("success"))
  {
    var status := Prop(response, "status");
    if !JobSucceeded(response) then
      Obj(map["error" := Or(Or(Prop(response, "error"), Prop(response, "message")), Str(JobFailureText(op))),
              "success" := Bool(false), "status" := Coalesce(status, Str("error"))])
    else
      var base := map["success" := Bool(true), "status" := Coalesce(status, Str("success"))];
      match op
      case GenerateMap =>
        Obj(base["jobId" := Prop(response, "jobId")]
                ["message" := Or(Prop(response, "message"), Str("Map generation started"))]
                ["estimatedTime" := Or(Prop(response, "estimatedTime"), Str("30-90 seconds"))])
      case CheckMapStatus => Obj(base["job" := Prop(response, "job")])
      case _ => Obj(base["message" := Or(Prop(response, "message"), Str("Job cancelled successfully"))])
  }

  /** A map job handler: one backend call; its answer is shaped by `JobReply`, and a rejection
      is answered as `{ error: error.message, success: false }`, which itself throws only when
      the backend rejects with null or undefined. */
  function RunMapJob(op: Op, host: Host, args: seq<Value>, prior: seq<Call>): (r: Reply)
    requires op.GenerateMap? || op.CheckMapStatus? || op.CancelMapJob?
    ensures r.calls == prior + [Delegate(op, args)]
    ensures var a := host.respond(Delegate(op, args));
      (r.outcome.Threw? <==> a.Threw? && NullishThrow(a.thrown))
      && (a.Returned? ==> r.outcome == Returned(JobReply(op, a.value)))
      && (a.Threw? && !NullishThrow(a.thrown) ==> r.outcome == Returned(ErrorReply(MessageRead(a.thrown).value)))
  {
    var c := Delegate(op, args);
    match host.respond(c)
    case Threw(t) => Fail(op, t, prior + [c])
    case Returned(v) => Reply(Returned(JobReply(op, v)), prior + [c])
  }

  // ----- Compendium entry update -----

  /** `updateCompendiumEntry` makes its GM and pack checks before its `try`, so their errors are
      not wrapped; only the document lookup and the update are. */
  function RunCompendiumUpdate(host: Host, data: Value): (r: Reply)
    ensures !host.isGM ==> r == Reply(Threw(Error("Only GM can update compendium entries")), [])
    ensures host.isGM && Validate(UpdateCompendiumEntry, data).Forward? && Prop(data, "packId").Str?
            && Prop(data, "packId").s in host.packs && host.packs[Prop(data, "packId").s].locked ==>
      r.calls == [] && r.outcome.Threw?
    ensures r.outcome.Returned? ==>
      var packId := Prop(data, "packId");
      packId.Str? && packId.s in host.packs && !host.packs[packId.s].locked
      && r.calls == [PackDocument(packId.s, Prop(data, "itemId")), DocumentUpdate(packId.s, Prop(data, "itemId"), Prop(data, "updates"))]
      && Prop(r.outcome.value, "success") == Bool(true) && Prop(r.outcome.value, "id") == Prop(data, "itemId")
  {
    if !host.isGM then Reply(Threw(Error("Only GM can update compendium entries")), [])
    else match Validate(UpdateCompendiumEntry, data)
      case Invalid(m) => Reply(Threw(Error(m)), [])
      case Denied => Reply(Threw(Error("Only GM can update compendium entries")), [])
      case Forward(_) =>
        var packId := Prop(data, "packId");
        var itemId := Prop(data, "itemId");
        if !(packId.Str? && packId.s in host.packs) then
          Reply(Threw(Error("Compendium pack not found: " + Text(packId))), [])
        else if host.packs[packId.s].locked then
          Reply(Threw(Error("Compendium pack is locked: " + packId.s + ". Unlock it in Foundry first.")), [])
        else
          var get := PackDocument(packId.s, itemId);
          match host.respond(get)
          case Threw(t) => Fail(UpdateCompendiumEntry, t, [get])
          case Returned(doc) =>
            if !Truthy(doc) then
              Fail(UpdateCompendiumEntry, Error("Document not found: " + Text(itemId) + " in " + packId.s), [get])
            else
              var upd := DocumentUpdate(packId.s, itemId, Prop(data, "updates"));
              match host.respond(upd)
              case Threw(t) => Fail(UpdateCompendiumEntry, t, [get, upd])
              case Returned(_) =>
                Reply(Returned(Obj(map["success" := Bool(true), "id" := itemId, "name" := Prop(doc, "name")])), [get, upd])
  }

  // ----- Properties -----

  /** A non-GM caller of a guarded handler gets `{ error: 'Access denied', success: false }`
      before any call; the only exception is a generated-map upload whose `data` itself is null
      or undefined, which throws first. */
  lemma GuardBeforeEverything(op: Op, host: Host, data: Value)
    requires Guarded(op) && !host.isGM && !op.UpdateCompendiumEntry?
    requires !(op.UploadGeneratedMap? && Nullish(data))
    ensures Run(op, host, data) == Reply(Returned(AccessDenied()), [])
  {
  }

  /** The compendium update throws its own GM error instead, also before any call. */
  lemma CompendiumUpdateGuard(host: Host, data: Value)
    requires !host.isGM
    ensures Run(UpdateCompendiumEntry, host, data) == Reply(Threw(Error("Only GM can update compendium entries")), [])
  {
  }

  /** `ping` answers every caller, GM or not, without a call. */
  lemma PingAnswersEveryone(host: Host, data: Value)
    ensures Run(Ping, host, data) == Reply(Returned(PingReply(host)), [])
  {
  }

  /** A failed field check is reported with the handler's `Failed to <operation>: ` prefix, and
      nothing but the world-state check has been called. */
  lemma InvalidIsWrapped(op: Op, host: Host, data: Value)
    requires host.isGM && Wrapped(op) && !op.UpdateCompendiumEntry?
    requires Validate(op, data).Invalid?
    requires ChecksState(op) ==> host.respond(StateCheck).Returned?
    ensures Run(op, host, data) ==
      Reply(Threw(Error("Failed to " + Label(op) + ": " + Validate(op, data).message)),
            if ChecksState(op) then [StateCheck] else [])
  {
    var prior := if ChecksState(op) then [StateCheck] else [];
    var m := Validate(op, data).message;
    assert Proceed(op, host, data, prior) == Fail(op, Error(m), prior);
  }

  /** A failing world-state check stops the handler before its field checks. */
  lemma StateCheckFirst(op: Op, host: Host, data: Value)
    requires host.isGM && ChecksState(op) && host.respond(StateCheck).Threw?
    ensures Run(op, host, data) == Fail(op, host.respond(StateCheck).thrown, [StateCheck])
  {
  }

  /** An export whose folder and pack exist but which selects no documents succeeds with
      `exported: 0` and makes no call to the pack. */
  lemma EmptyExportTouchesNoPack(host: Host, data: Value, prior: seq<Call>, folder: Folder)
    requires FindById(host.folders, Prop(data, "folderId")) == Some(folder)
    requires Prop(data, "packId").Str? && Prop(data, "packId").s in host.packs
    requires ExportedDocuments(folder, host.folders, SourceCollection(folder.kind, host.actors, host.items), Prop(data, "recursive")) == []
    ensures var r := RunExport(host, data, prior);
      r.calls == prior && r.outcome.Returned? && Prop(r.outcome.value, "exported") == Num(0)
  {
  }

  /** A successful export creates exactly the cleaned records of the selected documents, as its
      last call, and reports their number; its first call reads the pack index exactly when
      `clearFirst` is truthy. */
  lemma ExportCreatesCleanedRecords(host: Host, data: Value, prior: seq<Call>, folder: Folder)
    requires FindById(host.folders, Prop(data, "folderId")) == Some(folder)
    requires Prop(data, "packId").Str? && Prop(data, "packId").s in host.packs
    ensures var docs := ExportedDocuments(folder, host.folders, SourceCollection(folder.kind, host.actors, host.items), Prop(data, "recursive"));
      var r := RunExport(host, data, prior);
      docs != [] && r.outcome.Returned? ==>
        Last(r.calls) == PackCreate(Prop(data, "packId").s, CleanAll(docs))
        && Prop(r.outcome.value, "exported") == Num(|docs|)
        && r.calls[..|prior|] == prior
        && (r.calls[|prior|] == PackIndex(Prop(data, "packId").s) <==> Truthy(Prop(data, "clearFirst")))
  {
    var docs := ExportedDocuments(folder, host.folders, SourceCollection(folder.kind, host.actors, host.items), Prop(data, "recursive"));
    if docs != [] {
      assert RunExport(host, data, prior) == ExportRecords(host, folder, Prop(data, "packId").s, CleanAll(docs), Prop(data, "clearFirst"), prior);
    }
  }

  /** Walls that `createEmbeddedDocuments` answers with `undefined` fail the handler on their
      `length` read, wrapped, instead of being counted as none. */
  lemma UndefinedWallsFail(host: Host, data: Value, prior: seq<Call>)
    requires Prop(data, "sceneId").Str? && Prop(data, "sceneId").s in host.scenes
    requires BuildWalls(Items(Prop(data, "walls"))).Built?
    requires host.respond(NewWalls(Prop(data, "sceneId").s, BuildWalls(Items(Prop(data, "walls"))).items)) == Returned(Undefined)
    ensures var r := RunWalls(host, data, prior);
      r.calls == prior + [NewWalls(Prop(data, "sceneId").s, BuildWalls(Items(Prop(data, "walls"))).items)]
      && r == Fail(CreateWalls, Error(ReadErrorMessage(Undefined, "length")), r.calls)
  {
  }

  /** A map backend that rejects with `null` makes the handler's own `error.message` throw. */
  lemma NullRejectionThrows(op: Op, host: Host, args: seq<Value>, prior: seq<Call>)
    requires op.GenerateMap? || op.CheckMapStatus? || op.CancelMapJob?
    requires host.respond(Delegate(op, args)) == Threw(NonError(Null))
    ensures RunMapJob(op, host, args, prior).outcome == Threw(Error("Cannot read properties of null (reading 'message')"))
  {
    assert ReadErrorMessage(Null, "message") == "Cannot read properties of null (reading 'message')";
  }

  /** The file upload creates every directory on its path, in order, and then uploads, unless
      a directory failure the `catch` does not absorb ends it first: the directories up to that
      one have been created, nothing is uploaded, and the handler fails with that failure's
      message (wrapped as `Failed to upload file: <message>`, see `Fail`). */
  lemma UploadWalksDirectories(host: Host, args: seq<Value>, prior: seq<Call>)
    requires |args| == 4 && args[0].Str? && args[1].Str? && args[3].Str?
    ensures var chain := DirectoryChain(Split(args[3].s, '/'));
      var r := RunUploadFile(host, args, prior);
      ((forall j | 0 <= j < |chain| :: !DirectoryStops(host.respond(MakeDirectory(chain[j])))) ==>
         r.calls == prior + DirectoryCalls(chain) + [Upload(args[3].s, args[0].s, args[1].s, args[2])])
      && (!(forall j | 0 <= j < |chain| :: !DirectoryStops(host.respond(MakeDirectory(chain[j])))) ==>
         exists k | 0 <= k < |chain| ::
           DirectoryStops(host.respond(MakeDirectory(chain[k])))
           && (forall j | 0 <= j < k :: !DirectoryStops(host.respond(MakeDirectory(chain[j]))))
           && r == Fail(Op.UploadFile, Error(DirectoryFailure(host.respond(MakeDirectory(chain[k])).thrown).value),
                        prior + DirectoryCalls(chain[..k + 1])))
  {
    var chain := DirectoryChain(Split(args[3].s, '/'));
    var stop := FirstStop(host, chain);
    if stop.Some? {
      var k := stop.value;
      assert DirectoryStops(host.respond(MakeDirectory(chain[k])));
    }
  }

  /** The file uploaded, whenever it is uploaded, is decoded from the handler's `base64data`. */
  lemma UploadSendsBase64(host: Host, data: Value, args: seq<Value>)
    requires UploadChecks(data) == Forward(args)
    ensures |args| == 4 && args[0].Str? && args[1].Str? && args[3].Str?
    ensures forall c | c in RunUploadFile(host, args, []).calls && c.Upload? :: c.content == Prop(data, "base64data")
  {
    UploadFileForwards(data);
    UploadArgumentsShape(data, args);
    UploadIsOnlyUpload(host, args, []);
  }

  /** The only upload call the file upload makes is the upload of its arguments. */
  lemma UploadIsOnlyUpload(host: Host, args: seq<Value>, prior: seq<Call>)
    requires |args| == 4 && args[0].Str? && args[1].Str? && args[3].Str?
    ensures forall c | c in RunUploadFile(host, args, prior).calls && c.Upload? ::
      c in prior || c == Upload(args[3].s, args[0].s, args[1].s, args[2])
  {
    var chain := DirectoryChain(Split(args[3].s, '/'));
    match FirstStop(host, chain)
    case Some(k) =>
      assert forall c | c in DirectoryCalls(chain[..k + 1]) :: c.MakeDirectory?;
    case None =>
      assert forall c | c in DirectoryCalls(chain) :: c.MakeDirectory?;
  }

  /** The generated map uploaded, whenever it is uploaded, is decoded from the handler's
      `imageData`. */
  lemma MapUploadSendsImageData(host: Host, data: Value, args: seq<Value>)
    requires MapUploadChecks(data) == Forward(args)
    ensures |args| == 2 && args[0].Str?
    ensures forall c | c in RunMapUpload(host, args, []).calls && c.Upload? :: c.content == Prop(data, "imageData")
  {
  }

  /** The folder-update reply shows the new name when `name` is a string, the new parent when
      `parent` is a non-empty string, no parent when `parent` is null or empty, and otherwise
      what the folder had. */
  lemma FolderUpdateDescribed(f: Folder, data: Value)
    ensures var d := Describe(Applied(f, FolderUpdates(data)));
      var name := Prop(data, "name");
      var parent := Prop(data, "parent");
      Prop(d, "id") == Str(f.id) && Prop(d, "type") == Str(f.kind)
      && Prop(d, "name") == (if name.Str? then name else Str(f.name))
      && Prop(d, "parent") == (if parent.Str? && parent.s != "" then parent
                               else if parent.Str? || parent.Null? then Null
                               else ParentOrNull(f))
  {
  }

  /** A GM's `deleteFolder` for a folder id the world does not hold fails with
      `Failed to delete folder: Folder not found: <id>` before any call. */
  lemma DeleteFolderNeedsFolder(host: Host, data: Value)
    requires host.isGM && !Nullish(data) && FindById(host.folders, Prop(data, "folderId")).None?
    ensures Run(DeleteFolder, host, data) == Fail(DeleteFolder, Error("Folder not found: " + Text(Prop(data, "folderId"))), [])
  {
    var args := DeleteFolderValidates(data);
    RunWithoutStateCheck(DeleteFolder, host, data);
    DeleteFolderPerforms(host, data, args);
  }

  /** A GM's call of a handler that checks no world state goes straight to its field checks. */
  lemma RunWithoutStateCheck(op: Op, host: Host, data: Value)
    requires host.isGM && !ChecksState(op) && !op.UpdateCompendiumEntry? && !op.UploadGeneratedMap?
    ensures Run(op, host, data) == Proceed(op, host, data, [])
  {
  }

  lemma DeleteFolderValidates(data: Value) returns (args: seq<Value>)
    requires !Nullish(data)
    ensures Validate(DeleteFolder, data) == Forward(args)
  {
    ReadFirst(DeleteFolder, data);
    ChecksOfGroup(DeleteFolder, data);
    args := [Prop(data, "folderId"), Or(Prop(data, "deleteContents"), Bool(false))];
  }

  lemma DeleteFolderPerforms(host: Host, data: Value, args: seq<Value>)
    requires Validate(DeleteFolder, data) == Forward(args)
    ensures Proceed(DeleteFolder, host, data, []) == RunDeleteFolder(host, data, [])
  {
    assert Proceed(DeleteFolder, host, data, []) == Perform(DeleteFolder, host, data, args, []);
  }
}
