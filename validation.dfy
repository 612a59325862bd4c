/** The start every query handler shares: the GM check, then the required-field checks on
    `data` (JavaScript truthiness and `typeof`), then the arguments handed to the data-access
    layer or to the rest of the handler. A null or undefined `data` makes the handler's first
    property read throw a TypeError, which the handler's `catch` treats like a failed check. */
module Validation {
  import opened Js
  import opened Ops
  import opened Files

  /** What a handler decides before it calls into Foundry. */
  datatype Decision =
    | Denied                  // not a GM: `{ error: 'Access denied', success: false }`
    | Invalid(message: string) // a check failed with this message
    | Forward(args: seq<Value>) // the arguments of the next call

  function AccessDenied(): Value {
    Obj(map["error" := Str("Access denied"), "success" := Bool(false)])
  }

  /** `game.user?.isGM`, then the handler's checks. */
  function Decide(op: Op, isGM: bool, data: Value): Decision {
    if Guarded(op) && !isGM then Denied else Validate(op, data)
  }

  /** The key of the first `data.<key>` read of the handler before its data-access call, for the
      handlers that read one without checking `data` itself. */
  function FirstRead(op: Op): Option<string> {
    match op
    case GetCharacterInfo => Some("characterName")
    case ListCompendiumEntries => Some("packId")
    case SwitchScene => Some("scene_identifier")
    case CreateActorFromCompendium => Some("packId")
    case GetCompendiumDocumentFull => Some("packId")
    case AddActorsToScene => Some("actorIds")
    case ValidateWritePermissions => Some("operation")
    case CreateJournalEntry => Some("name")
    case GetJournalContent => Some("journalId")
    case UpdateJournalContent => Some("journalId")
    case RequestPlayerRolls => Some("rollType")
    case UpdateCampaignProgress => Some("partId")
    case SetActorOwnership => Some("actorId")
    case FindPlayers => Some("identifier")
    case FindActor => Some("identifier")
    case MoveToken => Some("tokenId")
    case UpdateToken => Some("tokenId")
    case DeleteTokens => Some("tokenIds")
    case GetTokenDetails => Some("tokenId")
    case ToggleTokenCondition => Some("tokenId")
    case GenerateMap => Some("prompt")
    case CheckMapStatus => Some("job_id")
    case CancelMapJob => Some("job_id")
    case UploadGeneratedMap => Some("filename")
    case UseItem => Some("actorIdentifier")
    case SearchCharacterItems => Some("characterIdentifier")
    case CreateDocument => Some("data")
    case BatchCreateDocuments => Some("documentType")
    case UpdateDocument => Some("documentId")
    case DeleteDocument => Some("documentId")
    case BrowseFiles => Some("source")
    case CreateFolder => Some("name")
    case ListFolders => Some("type")
    case DeleteFolder => Some("folderId")
    case UpdateFolder => Some("folderId")
    case ExportFolderToCompendium => Some("folderId")
    case CreateJournalEntryMultiPage => Some("name")
    case CreateRollTable => Some("name")
    case UploadFile => Some("filename")
    case CreateScene => Some("name")
    case PlaceNotes => Some("sceneId")
    case CreateWalls => Some("sceneId")
    case CreateLights => Some("sceneId")
    case CreateTokens => Some("sceneId")
    case UpdateCompendiumEntry => Some("packId")
    case _ => None
  }

  /** The checks after the GM check (and after the world-state check where there is one). A
      null or undefined `data` fails at the handler's first read, naming the key read. */
  function Validate(op: Op, data: Value): (r: Decision)
    ensures FirstRead(op).Some? && Nullish(data) ==> r == Invalid(ReadErrorMessage(data, FirstRead(op).value))
    ensures !Nullish(data) || FirstRead(op).None? ==> r == Checks(op, data)
  {
    match FirstRead(op)
    case Some(k) => if Nullish(data) then Invalid(ReadErrorMessage(data, k)) else Checks(op, data)
    case None => Checks(op, data)
  }

  predicate IsDocumentType(v: Value) {
    v == Str("Actor") || v == Str("Item")
  }

  /** `!x || typeof x !== 'object'` fails: a non-null object or array. */
  predicate IsObject(v: Value) {
    Truthy(v) && TypeOf(v) == "object"
  }

  /** `if (!cond) throw new Error(message)` followed by the rest of the handler. */
  function Require(cond: bool, message: string, rest: Decision): Decision {
    if cond then rest else Invalid(message)
  }

  /** The handlers fall into groups; each group's checks are one function. */
  datatype Group = Reading | Writing | MapJob | Documents | Storage | Adventure

  function GroupOf(op: Op): Group {
    match op
    // queries that only read the world
    case GetCharacterInfo | ListActors | SearchCompendium | ListCreaturesByCriteria | GetAvailablePacks | ListCompendiumEntries | GetActiveScene | ListScenes | SwitchScene | GetWorldInfo | Ping | GetCompendiumDocumentFull | ListJournals | GetJournalContent | GetEnhancedCreatureIndex | GetActorOwnership | GetFriendlyNpcs | GetPartyCharacters | GetConnectedPlayers | FindPlayers | FindActor | GetTokenDetails | GetAvailableConditions | SearchCharacterItems => Reading
    // queries that change actors, journals, tokens or the campaign
    case CreateActorFromCompendium | AddActorsToScene | ValidateWritePermissions | CreateJournalEntry | UpdateJournalContent | RequestPlayerRolls | UpdateCampaignProgress | SetActorOwnership | MoveToken | UpdateToken | DeleteTokens | ToggleTokenCondition | UseItem => Writing
    // map-generation jobs
    case GenerateMap | CheckMapStatus | CancelMapJob | UploadGeneratedMap => MapJob
    // generic actor and item documents and compendium entries
    case CreateDocument | BatchCreateDocuments | UpdateDocument | DeleteDocument | UpdateCompendiumEntry => Documents
    // files, folders and compendium export
    case BrowseFiles | CreateFolder | ListFolders | DeleteFolder | UpdateFolder | ExportFolderToCompendium | UploadFile => Storage
    // adventure import: journals, roll tables, scenes and scene contents
    case CreateJournalEntryMultiPage | CreateRollTable | CreateScene | PlaceNotes | CreateWalls | CreateLights | CreateTokens => Adventure
  }

  function Checks(op: Op, data: Value): Decision {
    match GroupOf(op)
    case Reading => ReadingChecks(op, data)
    case Writing => WritingChecks(op, data)
    case MapJob => MapJobChecks(op, data)
    case Documents => DocumentsChecks(op, data)
    case Storage => StorageChecks(op, data)
    case Adventure => AdventureChecks(op, data)
  }

  function ReadingChecks(op: Op, data: Value): Decision
    requires GroupOf(op) == Reading
  {
    match op
    case GetCharacterInfo =>
      var identifier := Or(Prop(data, "characterName"), Prop(data, "characterId"));
      Require(Truthy(identifier), "characterName or characterId is required", Forward([identifier]))
    case ListActors => Forward([])
    case SearchCompendium =>
      Require(IsObject(data), "Invalid data parameter structure",
      Require(NonEmptyString(Prop(data, "query")), "query parameter is required and must be a string",
      Forward([Prop(data, "query"), Prop(data, "packType"), Prop(data, "filters")])))
    case ListCreaturesByCriteria => Forward([data])
    case GetAvailablePacks => Forward([])
    case ListCompendiumEntries => Forward([Prop(data, "packId"), Prop(data, "type")])
    case GetActiveScene => Forward([])
    case ListScenes => Forward([data])
    case SwitchScene => Require(Truthy(Prop(data, "scene_identifier")), "scene_identifier is required", Forward([data]))
    case GetWorldInfo => Forward([])
    case Ping => Forward([])
    case GetCompendiumDocumentFull =>
      Require(Truthy(Prop(data, "packId")), "packId is required",
      Require(Truthy(Prop(data, "documentId")), "documentId is required",
      Forward([Prop(data, "packId"), Prop(data, "documentId")])))
    case ListJournals => Forward([])
    case GetJournalContent => Require(Truthy(Prop(data, "journalId")), "journalId is required", Forward([Prop(data, "journalId")]))
    case GetEnhancedCreatureIndex => Forward([])
    case GetActorOwnership => Forward([data])
    case GetFriendlyNpcs => Forward([])
    case GetPartyCharacters => Forward([])
    case GetConnectedPlayers => Forward([])
    case FindPlayers => Require(Truthy(Prop(data, "identifier")), "identifier is required", Forward([data]))
    case FindActor => Require(Truthy(Prop(data, "identifier")), "identifier is required", Forward([data]))
    case GetTokenDetails => Require(Truthy(Prop(data, "tokenId")), "tokenId is required", Forward([data]))
    case GetAvailableConditions => Forward([])
    case SearchCharacterItems =>
      Require(Truthy(Prop(data, "characterIdentifier")), "characterIdentifier is required",
      Forward([Obj(map["characterIdentifier" := Prop(data, "characterIdentifier"), "query" := Prop(data, "query"),
                       "type" := Prop(data, "type"), "category" := Prop(data, "category"), "limit" := Prop(data, "limit")])]))
  }

  function WritingChecks(op: Op, data: Value): Decision
    requires GroupOf(op) == Writing
  {
    match op
    case CreateActorFromCompendium =>
      var request := map[
        "packId" := Prop(data, "packId"), "itemId" := Prop(data, "itemId"),
        "customNames" := Or(Prop(data, "customNames"), Arr([])), "quantity" := Or(Prop(data, "quantity"), Num(1)),
        "addToScene" := Or(Prop(data, "addToScene"), Bool(false))];
      Forward([Obj(if Truthy(Prop(data, "placement")) then request["placement" := Prop(data, "placement")] else request)])
    case AddActorsToScene =>
      Require(NonEmptyArray(Prop(data, "actorIds")), "actorIds array is required and must not be empty",
      Forward([Obj(map["actorIds" := Prop(data, "actorIds"), "placement" := Or(Prop(data, "placement"), Str("random")),
                       "hidden" := Or(Prop(data, "hidden"), Bool(false))])]))
    case ValidateWritePermissions => Require(Truthy(Prop(data, "operation")), "operation is required", Forward([Prop(data, "operation")]))
    case CreateJournalEntry =>
      Require(Truthy(Prop(data, "name")), "name is required",
      Require(Truthy(Prop(data, "content")), "content is required",
      Forward([Obj(map["name" := Prop(data, "name"), "content" := Prop(data, "content")])])))
    case UpdateJournalContent =>
      Require(Truthy(Prop(data, "journalId")), "journalId is required",
      Require(Truthy(Prop(data, "content")), "content is required",
      Forward([Obj(map["journalId" := Prop(data, "journalId"), "content" := Prop(data, "content")])])))
    case RequestPlayerRolls =>
      Require(Truthy(Prop(data, "rollType")) && Truthy(Prop(data, "rollTarget")) && Truthy(Prop(data, "targetPlayer")),
        "rollType, rollTarget, and targetPlayer are required", Forward([data]))
    case UpdateCampaignProgress => Forward([Prop(data, "campaignId"), Prop(data, "partId"), Prop(data, "newStatus")])
    case SetActorOwnership =>
      Require(Truthy(Prop(data, "actorId")) && Truthy(Prop(data, "userId")) && Prop(data, "permission") != Undefined,
        "actorId, userId, and permission are required", Forward([data]))
    case MoveToken =>
      Require(Truthy(Prop(data, "tokenId")), "tokenId is required",
      Require(IsNumber(Prop(data, "x")) && IsNumber(Prop(data, "y")), "x and y coordinates are required and must be numbers",
      Forward([data])))
    case UpdateToken =>
      Require(Truthy(Prop(data, "tokenId")), "tokenId is required",
      Require(IsObject(Prop(data, "updates")), "updates object is required", Forward([data])))
    case DeleteTokens =>
      Require(NonEmptyArray(Prop(data, "tokenIds")), "tokenIds array is required and must not be empty", Forward([data]))
    case ToggleTokenCondition =>
      Require(Truthy(Prop(data, "tokenId")), "tokenId is required",
      Require(Truthy(Prop(data, "conditionId")), "conditionId is required",
      Require(Prop(data, "active").Bool?, "active must be a boolean", Forward([data]))))
    case UseItem =>
      Require(Truthy(Prop(data, "actorIdentifier")), "actorIdentifier is required",
      Require(Truthy(Prop(data, "itemIdentifier")), "itemIdentifier is required",
      Forward([Obj(map["actorIdentifier" := Prop(data, "actorIdentifier"), "itemIdentifier" := Prop(data, "itemIdentifier"),
                       "targets" := Prop(data, "targets"), "options" := Prop(data, "options")])])))
  }

  function MapJobChecks(op: Op, data: Value): Decision
    requires GroupOf(op) == MapJob
  {
    match op
    case GenerateMap =>
      var prompt := Prop(data, "prompt");
      var sceneName := Prop(data, "scene_name");
      if !NonEmptyString(prompt) then Invalid("Prompt is required and must be a string")
      else if !NonEmptyString(sceneName) then Invalid("Scene name is required and must be a string")
      else Forward([Str(Trim(prompt.s)), Str(Trim(sceneName.s)),
                    Or(Prop(data, "size"), Str("medium")), Or(Prop(data, "grid_size"), Num(70))])
    case CheckMapStatus => Require(Truthy(Prop(data, "job_id")), "Job ID is required", Forward([data]))
    case CancelMapJob => Require(Truthy(Prop(data, "job_id")), "Job ID is required", Forward([data]))
    case UploadGeneratedMap => MapUploadChecks(data)
  }

  /** The generated-map upload checks: a file name, the image data, and a PNG or JPEG name. */
  function MapUploadChecks(data: Value): (r: Decision)
    ensures r.Forward? ==> |r.args| == 2 && r.args[0].Str?
  {
    var filename := Prop(data, "filename");
    if !NonEmptyString(filename) then Invalid("Filename is required and must be a string")
    else if !NonEmptyString(Prop(data, "imageData")) then Invalid("Image data is required and must be a base64 string")
    else
      var safe := Sanitize(MapImage, filename.s);
      if !AcceptedMapName(safe) then Invalid("Only PNG and JPEG images are supported")
      else Forward([Str(safe), Prop(data, "imageData")])
  }

  function DocumentsChecks(op: Op, data: Value): Decision
    requires GroupOf(op) == Documents
  {
    match op
    case CreateDocument =>
      var doc := Prop(data, "data");
      Require(IsObject(doc), "data object is required",
      Require(NonEmptyString(Prop(doc, "name")), "data.name is required and must be a string",
      Require(NonEmptyString(Prop(doc, "type")), "data.type is required and must be a string",
      Require(IsDocumentType(Prop(data, "documentType")), "documentType must be \"Actor\" or \"Item\"",
      Forward([Obj(map["documentType" := Prop(data, "documentType"), "data" := doc, "folderName" := Prop(data, "folderName")])])))))
    case BatchCreateDocuments =>
      Require(IsDocumentType(Prop(data, "documentType")), "documentType must be \"Actor\" or \"Item\"",
      Require(NonEmptyArray(Prop(data, "documents")), "documents array is required and must not be empty",
      var batch := map["documentType" := Prop(data, "documentType"), "documents" := Prop(data, "documents")];
      Forward([Obj(if Truthy(Prop(data, "folderId")) then batch["folderId" := Prop(data, "folderId")] else batch)])))
    case UpdateDocument =>
      Require(NonEmptyString(Prop(data, "documentId")), "documentId is required",
      Require(IsDocumentType(Prop(data, "documentType")), "documentType must be \"Actor\" or \"Item\"",
      Require(Truthy(Prop(data, "updates")) || Truthy(Prop(data, "addItems")) || Truthy(Prop(data, "removeItemIds")),
        "At least one of updates, addItems, or removeItemIds must be provided",
      Forward([Obj(map["documentType" := Prop(data, "documentType"), "documentId" := Prop(data, "documentId"),
                       "updates" := Prop(data, "updates"), "addItems" := Prop(data, "addItems"),
                       "removeItemIds" := Prop(data, "removeItemIds")])]))))
    case DeleteDocument =>
      Require(NonEmptyString(Prop(data, "documentId")), "documentId is required",
      Require(IsDocumentType(Prop(data, "documentType")), "documentType must be \"Actor\" or \"Item\"",
      Forward([Obj(map["documentType" := Prop(data, "documentType"), "documentId" := Prop(data, "documentId")])])))
    case UpdateCompendiumEntry => Forward([Prop(data, "packId"), Prop(data, "itemId"), Prop(data, "updates")])
  }

  function StorageChecks(op: Op, data: Value): Decision
    requires GroupOf(op) == Storage
  {
    match op
    case BrowseFiles =>
      var options := if HasLength(Prop(data, "extensions")) then map["extensions" := Prop(data, "extensions")] else map[];
      Forward([Or(Prop(data, "source"), Str("public")), Or(Prop(data, "target"), Str("")), Obj(options)])
    case CreateFolder =>
      var folder := map["name" := Prop(data, "name"), "type" := Prop(data, "type")];
      Forward([Obj(if Truthy(Prop(data, "parent")) then folder["folder" := Prop(data, "parent")] else folder)])
    case ListFolders => Forward([Prop(data, "type")])
    case DeleteFolder => Forward([Prop(data, "folderId"), Or(Prop(data, "deleteContents"), Bool(false))])
    case UpdateFolder =>
      var named := if Prop(data, "name") != Undefined then map["name" := Prop(data, "name")] else map[];
      Forward([Prop(data, "folderId"), Obj(if Prop(data, "parent") != Undefined then named["folder" := Prop(data, "parent")] else named)])
    case ExportFolderToCompendium => Forward([Prop(data, "folderId"), Prop(data, "packId"), Prop(data, "recursive"), Prop(data, "clearFirst")])
    case UploadFile => UploadChecks(data)
  }

  /** The upload-file checks: three non-empty strings, then the target of the upload. */
  function UploadChecks(data: Value): Decision {
    var filename := Prop(data, "filename");
    var targetPath := Prop(data, "targetPath");
    if !NonEmptyString(filename) then Invalid("filename is required and must be a string")
    else if !NonEmptyString(Prop(data, "base64data")) then Invalid("base64data is required and must be a string")
    else if !NonEmptyString(targetPath) then Invalid("targetPath is required and must be a string")
    else
      UploadTarget(Sanitize(NameRule.UploadFile, filename.s), Prop(data, "base64data"), targetPath.s)
  }

  /** The upload-file steps after the field checks: the extension's MIME type, and the target
      directory without its leading and trailing slashes. */
  function UploadTarget(safe: string, base64data: Value, targetPath: string): Decision {
    var ext := Extension(safe);
    match MimeType(ext)
    case None => Invalid(UnsupportedMessage(ext))
    case Some(mime) => Forward([Str(safe), Str(mime), base64data, Str(TrimSlashes(targetPath))])
  }

  /** `String(mimeTypes[ext])` for an inherited property, the `type` the Blob and the File
      are given: `Object` for `constructor` and `Object.prototype` for `__proto__`. */
  function InheritedTypeText(name: string): string {
    if name == "constructor" then "function Object() { [native code] }" else "[object Object]"
  }

  /** The upload-file checks as written, with the lookup through the object literal. */
  function UploadChecksAsWritten(data: Value): Decision {
    var filename := Prop(data, "filename");
    var targetPath := Prop(data, "targetPath");
    if !NonEmptyString(filename) then Invalid("filename is required and must be a string")
    else if !NonEmptyString(Prop(data, "base64data")) then Invalid("base64data is required and must be a string")
    else if !NonEmptyString(targetPath) then Invalid("targetPath is required and must be a string")
    else
      UploadTargetAsWritten(Sanitize(NameRule.UploadFile, filename.s), Prop(data, "base64data"), targetPath.s)
  }

  /** The steps after the field checks as written: an inherited property is truthy, passes
      the check and is handed on as the type. */
  function UploadTargetAsWritten(safe: string, base64data: Value, targetPath: string): (r: Decision)
    ensures !r.Denied?
    ensures r.Forward? <==> AcceptedAsWritten(Extension(safe))
    ensures r.Invalid? ==> r.message == UnsupportedMessage(Extension(safe))
  {
    var ext := Extension(safe);
    match MimeLookupAsWritten(ext)
    case Missing => Invalid(UnsupportedMessage(ext))
    case Own(mime) => Forward([Str(safe), Str(mime), base64data, Str(TrimSlashes(targetPath))])
    case Inherited(name) => Forward([Str(safe), Str(InheritedTypeText(name)), base64data, Str(TrimSlashes(targetPath))])
  }

  /** The program as written and the model agree on every extension except `constructor`
      and `__proto__`, which the program accepts and the model rejects. */
  lemma UploadTargetAsWrittenDiffers(safe: string, base64data: Value, targetPath: string)
    ensures Extension(safe) !in InheritedNames ==>
      UploadTargetAsWritten(safe, base64data, targetPath) == UploadTarget(safe, base64data, targetPath)
    ensures Extension(safe) in InheritedNames ==>
      UploadTargetAsWritten(safe, base64data, targetPath).Forward? && UploadTarget(safe, base64data, targetPath).Invalid?
  {
    var ext := Extension(safe);
    if ext !in InheritedNames {
      LookupsAgreeOffPrototype(ext);
    } else {
      LookupsDifferOnPrototype(ext);
    }
  }

  /** Upload checks as written and as modelled decide alike on every request whose sanitised
      extension is not an inherited name. */
  lemma UploadChecksAsWrittenDiffers(data: Value)
    ensures !NonEmptyString(Prop(data, "filename")) || !NonEmptyString(Prop(data, "base64data"))
            || !NonEmptyString(Prop(data, "targetPath"))
            || Extension(Sanitize(NameRule.UploadFile, Prop(data, "filename").s)) !in InheritedNames
            ==> UploadChecksAsWritten(data) == UploadChecks(data)
  {
    if NonEmptyString(Prop(data, "filename")) && NonEmptyString(Prop(data, "base64data")) && NonEmptyString(Prop(data, "targetPath")) {
      UploadTargetAsWrittenDiffers(Sanitize(NameRule.UploadFile, Prop(data, "filename").s), Prop(data, "base64data"), Prop(data, "targetPath").s);
    }
  }

  function AdventureChecks(op: Op, data: Value): Decision
    requires GroupOf(op) == Adventure
  {
    match op
    case CreateJournalEntryMultiPage =>
      Require(Truthy(Prop(data, "name")), "name is required",
      Require(NonEmptyArray(Prop(data, "pages")), "pages array is required and must not be empty",
      Forward([Prop(data, "name"), Prop(data, "pages"), Prop(data, "folder"), Prop(data, "folderName"), Prop(data, "ownership")])))
    case CreateRollTable =>
      Require(Truthy(Prop(data, "name")), "name is required",
      Require(Truthy(Prop(data, "formula")), "formula is required",
      Require(NonEmptyArray(Prop(data, "results")), "results array is required and must not be empty",
      Forward([data]))))
    case CreateScene =>
      Require(Truthy(Prop(data, "name")), "name is required",
      Require(Truthy(Prop(data, "backgroundImage")), "backgroundImage is required", Forward([data])))
    case PlaceNotes =>
      Require(Truthy(Prop(data, "sceneId")), "sceneId is required",
      Require(NonEmptyArray(Prop(data, "notes")), "notes array is required and must not be empty", Forward([data])))
    case CreateWalls =>
      Require(Truthy(Prop(data, "sceneId")), "sceneId is required",
      Require(NonEmptyArray(Prop(data, "walls")), "walls array is required and must not be empty", Forward([data])))
    case CreateLights =>
      Require(Truthy(Prop(data, "sceneId")), "sceneId is required",
      Require(NonEmptyArray(Prop(data, "lights")), "lights array is required and must not be empty", Forward([data])))
    case CreateTokens =>
      Require(Truthy(Prop(data, "sceneId")), "sceneId is required",
      Require(NonEmptyArray(Prop(data, "tokens")), "tokens array is required and must not be empty", Forward([data])))
  }

  // ----- Properties of the shared prefix -----

  /** A non-GM caller is refused before any check, for every handler but `ping`. */
  lemma GuardComesFirst(op: Op, data: Value)
    requires Guarded(op)
    ensures Decide(op, false, data) == Denied
  {
  }

  /** `ping` is never refused and needs nothing. */
  lemma PingAlwaysAnswers(isGM: bool, data: Value)
    ensures Decide(Ping, isGM, data) == Forward([])
  {
    assert !Guarded(Ping);
    assert Validate(Ping, data) == Checks(Ping, data);
    PingChecks(data);
  }

  lemma PingChecks(data: Value)
    ensures Checks(Ping, data) == Forward([])
  {
  }

  /** Null or undefined `data` fails every handler that reads a property of it, with the
      TypeError of that first read; otherwise a GM caller gets the handler's own checks. */
  lemma NullishDataFailsFirstRead(op: Op, data: Value)
    ensures Nullish(data) && FirstRead(op).Some? ==>
      Decide(op, true, data) == Invalid(ReadErrorMessage(data, FirstRead(op).value))
    ensures !Nullish(data) || FirstRead(op).None? ==> Decide(op, true, data) == Checks(op, data)
  {
  }

  /** The document-creation checks pass exactly for an object `data` with a non-empty string
      name and type, and a document type of Actor or Item. */
  lemma CreateDocumentChecks(data: Value)
    ensures var doc := Prop(data, "data");
      DocumentsChecks(CreateDocument, data).Forward? <==>
        (IsObject(doc) && NonEmptyString(Prop(doc, "name")) && NonEmptyString(Prop(doc, "type"))
         && IsDocumentType(Prop(data, "documentType")))
  {
  }

  /** An accepted creation forwards the caller's `data` object untouched, with the type and the
      optional folder name beside it. */
  lemma CreateDocumentForwards(data: Value)
    requires DocumentsChecks(CreateDocument, data).Forward?
    ensures DocumentsChecks(CreateDocument, data).args == [Obj(map["documentType" := Prop(data, "documentType"),
        "data" := Prop(data, "data"), "folderName" := Prop(data, "folderName")])]
  {
  }

  /** A document update needs a non-empty string id, a document type of Actor or Item, and at
      least one truthy change list. */
  lemma UpdateDocumentChecks(data: Value)
    ensures DocumentsChecks(UpdateDocument, data).Forward? <==>
      (NonEmptyString(Prop(data, "documentId")) && IsDocumentType(Prop(data, "documentType"))
       && (Truthy(Prop(data, "updates")) || Truthy(Prop(data, "addItems")) || Truthy(Prop(data, "removeItemIds"))))
  {
  }

  /** The actor-from-compendium request uses `||` defaults, so a quantity of 0 becomes 1, and
      carries a placement only when one is truthy. */
  lemma CompendiumActorDefaults(data: Value)
    ensures var r := WritingChecks(CreateActorFromCompendium, data);
      r.Forward? && |r.args| == 1
      && Prop(r.args[0], "quantity") == (if Truthy(Prop(data, "quantity")) then Prop(data, "quantity") else Num(1))
      && Prop(r.args[0], "customNames") == (if Truthy(Prop(data, "customNames")) then Prop(data, "customNames") else Arr([]))
      && Prop(r.args[0], "addToScene") == (if Truthy(Prop(data, "addToScene")) then Prop(data, "addToScene") else Bool(false))
      && (Truthy(Prop(data, "placement")) <==> "placement" in r.args[0].fields)
  {
  }

  /** Moving a token needs a truthy id and numeric coordinates; 0 is a valid coordinate. */
  lemma MoveTokenChecks(data: Value)
    ensures WritingChecks(MoveToken, data).Forward? <==>
      (Truthy(Prop(data, "tokenId")) && (Prop(data, "x").Num? || Prop(data, "x").Frac?)
       && (Prop(data, "y").Num? || Prop(data, "y").Frac?))
  {
  }

  /** Map generation forwards the trimmed prompt and scene name with `||` defaults for the
      size and grid. */
  lemma GenerateMapForwards(data: Value)
    requires NonEmptyString(Prop(data, "prompt")) && NonEmptyString(Prop(data, "scene_name"))
    ensures MapJobChecks(GenerateMap, data) ==
      Forward([Str(Trim(Prop(data, "prompt").s)), Str(Trim(Prop(data, "scene_name").s)),
               Or(Prop(data, "size"), Str("medium")), Or(Prop(data, "grid_size"), Num(70))])
  {
  }

  /** The generated-map upload rejects every sanitised name not ending in `.png`, `.jpg` or
      `.jpeg`, upper-case extensions included. */
  lemma MapUploadNeedsImageName(data: Value)
    requires NonEmptyString(Prop(data, "filename")) && NonEmptyString(Prop(data, "imageData"))
    ensures var safe := Sanitize(MapImage, Prop(data, "filename").s);
      MapJobChecks(UploadGeneratedMap, data) ==
        (if AcceptedMapName(safe) then Forward([Str(safe), Prop(data, "imageData")])
         else Invalid("Only PNG and JPEG images are supported"))
  {
  }

  /** A handler that reads a field first fails on nullish data, and otherwise runs its checks. */
  lemma ReadFirst(op: Op, data: Value)
    ensures FirstRead(op).Some? ==>
      Validate(op, data) == (if Nullish(data) then Invalid(ReadErrorMessage(data, FirstRead(op).value)) else Checks(op, data))
  {
  }

  /** The storage and map-job checks are the ones their handlers run. */
  lemma ChecksOfGroup(op: Op, data: Value)
    ensures GroupOf(op) == Storage ==> Checks(op, data) == StorageChecks(op, data)
    ensures GroupOf(op) == MapJob ==> Checks(op, data) == MapJobChecks(op, data)
  {
  }

  /** A storage handler that reads a field first forwards what its group's checks forward. */
  lemma StorageForwards(op: Op, data: Value, args: seq<Value>)
    requires GroupOf(op) == Storage && FirstRead(op).Some?
    requires Validate(op, data) == Forward(args)
    ensures StorageChecks(op, data) == Forward(args)
  {
    ReadFirst(op, data);
    ChecksOfGroup(op, data);
  }

  /** The same for a map-job handler. */
  lemma MapJobForwards(op: Op, data: Value, args: seq<Value>)
    requires GroupOf(op) == MapJob && FirstRead(op).Some?
    requires Validate(op, data) == Forward(args)
    ensures MapJobChecks(op, data) == Forward(args)
  {
    ReadFirst(op, data);
    ChecksOfGroup(op, data);
  }

  /** Upload-file passes exactly when the three fields are non-empty strings and the sanitised
      name's extension is listed. */
  lemma UploadFileChecks(data: Value)
    ensures UploadChecks(data).Forward? <==>
      (NonEmptyString(Prop(data, "filename")) && NonEmptyString(Prop(data, "base64data"))
       && NonEmptyString(Prop(data, "targetPath"))
       && MimeType(Extension(Sanitize(NameRule.UploadFile, Prop(data, "filename").s))).Some?)
  {
  }

  /** What an accepted upload forwards: the sanitised name, its MIME type, the data and the
      target path without its leading and trailing slashes. */
  lemma UploadFileForwards(data: Value)
    requires UploadChecks(data).Forward?
    ensures var safe := Sanitize(NameRule.UploadFile, Prop(data, "filename").s);
      UploadChecks(data).args ==
        [Str(safe), Str(MimeType(Extension(safe)).value), Prop(data, "base64data"),
         Str(TrimSlashes(Prop(data, "targetPath").s))]
  {
    UploadFileChecks(data);
    UploadTargetForwards(Sanitize(NameRule.UploadFile, Prop(data, "filename").s), Prop(data, "base64data"), Prop(data, "targetPath").s);
  }

  /** An accepted generated-map upload forwards the sanitised name and the image data. */
  lemma MapUploadArguments(op: Op, data: Value, args: seq<Value>)
    requires op.UploadGeneratedMap? && Validate(op, data) == Forward(args)
    ensures |args| == 2 && args[0].Str?
  {
    MapJobUpload(op, data);
    MapJobForwards(op, data, args);
  }

  /** The upload handlers' checks are the ones of their own functions. */
  lemma MapJobUpload(op: Op, data: Value)
    requires op.UploadGeneratedMap?
    ensures GroupOf(op) == MapJob && FirstRead(op) == Some("filename")
    ensures MapJobChecks(op, data) == MapUploadChecks(data)
  {
    assert op == UploadGeneratedMap;
  }

  lemma StorageUpload(op: Op, data: Value)
    requires op.UploadFile?
    ensures GroupOf(op) == Storage && FirstRead(op) == Some("filename")
    ensures StorageChecks(op, data) == UploadChecks(data)
  {
    assert op == Op.UploadFile;
  }

  /** An accepted file upload forwards the sanitised name, the MIME type, the data and the path. */
  lemma UploadFileArguments(op: Op, data: Value, args: seq<Value>)
    requires op.UploadFile? && Validate(op, data) == Forward(args)
    ensures |args| == 4 && args[0].Str? && args[1].Str? && args[3].Str?
  {
    StorageUpload(op, data);
    StorageForwards(op, data, args);
    UploadArgumentsShape(data, args);
  }

  lemma UploadArgumentsShape(data: Value, args: seq<Value>)
    requires UploadChecks(data) == Forward(args)
    ensures |args| == 4 && args[0].Str? && args[1].Str? && args[3].Str?
  {
    UploadFileForwards(data);
  }

  lemma UploadTargetForwards(safe: string, base64data: Value, targetPath: string)
    ensures var mime := MimeType(Extension(safe));
      UploadTarget(safe, base64data, targetPath).Forward? <==> mime.Some?
    ensures var mime := MimeType(Extension(safe));
      mime.Some? ==> UploadTarget(safe, base64data, targetPath).args == [Str(safe), Str(mime.value), base64data, Str(TrimSlashes(targetPath))]
  {
  }

  /** The array each scene-content handler places. */
  function ContentKey(op: Op): string
    requires op.PlaceNotes? || op.CreateWalls? || op.CreateLights? || op.CreateTokens?
  {
    match op
    case PlaceNotes => "notes"
    case CreateWalls => "walls"
    case CreateLights => "lights"
    case CreateTokens => "tokens"
  }

  /** Each scene-content handler needs a truthy scene id and a non-empty array of its items. */
  lemma SceneContentChecks(op: Op, data: Value)
    requires op.PlaceNotes? || op.CreateWalls? || op.CreateLights? || op.CreateTokens?
    ensures AdventureChecks(op, data).Forward? <==>
      (Truthy(Prop(data, "sceneId")) && NonEmptyArray(Prop(data, ContentKey(op))))
  {
  }
}
