/** The static tool tables the server advertises (`getToolDefinitions`): each tool's name and
    the JSON Schema of its arguments. Descriptions are not part of this model. */
module ToolDefinitions {
  import opened Js
  import opened Zod
  import opened DocumentTools
  import opened AdventureTools

  /** A JSON Schema as the tables write it: a type, the declared properties, the required
      names, the item schema of an array and the allowed values of an enum. */
  datatype JsonSchema = JsonSchema(
    kind: string,
    properties: seq<(string, JsonSchema)>,
    required: seq<string>,
    items: Option<JsonSchema>,
    options: seq<string>)

  datatype ToolDefinition = ToolDefinition(name: string, inputSchema: JsonSchema)

  function Plain(kind: string): JsonSchema {
    JsonSchema(kind, [], [], None, [])
  }

  function OneOf(options: seq<string>): JsonSchema {
    JsonSchema("string", [], [], None, options)
  }

  function ArrayOfSchema(items: JsonSchema): JsonSchema {
    JsonSchema("array", [], [], Some(items), [])
  }

  function Object(properties: seq<(string, JsonSchema)>, required: seq<string>): JsonSchema {
    JsonSchema("object", properties, required, None, [])
  }

  /** Every required name is a declared property, here and in every nested schema. */
  predicate WellFormed(s: JsonSchema)
    decreases s, 1
  {
    Declared(s.required, s.properties, 0) && PropertiesWellFormed(s, 0)
    && (s.items.Some? ==> WellFormed(s.items.value))
  }

  /** The property schemas of `parent` from position `from` on are well formed. */
  predicate PropertiesWellFormed(parent: JsonSchema, from: nat)
    decreases parent, 0, |parent.properties| - from
  {
    from >= |parent.properties|
    || ((assert parent.properties[from] in parent.properties; WellFormed(parent.properties[from].1))
        && PropertiesWellFormed(parent, from + 1))
  }

  /** `name` is declared at position `from` or later. */
  predicate Declares(properties: seq<(string, JsonSchema)>, name: string, from: nat)
    decreases |properties| - from
  {
    from < |properties| && (properties[from].0 == name || Declares(properties, name, from + 1))
  }

  /** The required names from position `from` on are declared. */
  predicate Declared(required: seq<string>, properties: seq<(string, JsonSchema)>, from: nat)
    decreases |required| - from
  {
    from >= |required| || (Declares(properties, required[from], 0) && Declared(required, properties, from + 1))
  }

  /** An argument table: an object schema that is well formed. */
  predicate InputSchema(s: JsonSchema) {
    s.kind == "object" && WellFormed(s)
  }

  // ----- document-management tools -----

  function DocumentDefinitions(): seq<ToolDefinition> {
    [CreateDocumentTool(), BatchCreateTool(), UpdateDocumentTool(), DeleteDocumentTool(), BrowseFilesTool(),
     CreateFolderTool(), ListFoldersTool(), DeleteFolderTool(), ExportTool(), UpdateFolderTool()]
  }

  function DocumentTypeSchema(): JsonSchema {
    OneOf(["Actor", "Item"])
  }

  function FolderTypeSchema(): JsonSchema {
    OneOf(["Actor", "Item", "Scene", "JournalEntry", "RollTable", "Compendium"])
  }

  function CreateDocumentTool(): ToolDefinition {
    ToolDefinition("create-document", Object(
      [("documentType", DocumentTypeSchema()), ("data", Plain("object")), ("folderName", Plain("string"))],
      ["documentType", "data"]))
  }

  function BatchCreateTool(): ToolDefinition {
    ToolDefinition("batch-create-documents", Object(
      [("documentType", DocumentTypeSchema()), ("documents", ArrayOfSchema(Plain("object"))), ("folderId", Plain("string"))],
      ["documentType", "documents"]))
  }

  function UpdateDocumentTool(): ToolDefinition {
    ToolDefinition("update-document", Object(
      [("documentType", DocumentTypeSchema()), ("documentId", Plain("string")), ("updates", Plain("object")),
       ("addItems", ArrayOfSchema(Plain("object"))), ("removeItemIds", ArrayOfSchema(Plain("string")))],
      ["documentType", "documentId"]))
  }

  function DeleteDocumentTool(): ToolDefinition {
    ToolDefinition("delete-document", Object(
      [("documentType", DocumentTypeSchema()), ("documentId", Plain("string"))],
      ["documentType", "documentId"]))
  }

  function BrowseFilesTool(): ToolDefinition {
    ToolDefinition("browse-files", Object(
      [("source", OneOf(["public", "data"])), ("target", Plain("string")), ("extensions", ArrayOfSchema(Plain("string")))],
      ["target"]))
  }

  function CreateFolderTool(): ToolDefinition {
    ToolDefinition("create-folder", Object(
      [("name", Plain("string")), ("type", FolderTypeSchema()), ("parent", Plain("string"))],
      ["name", "type"]))
  }

  function ListFoldersTool(): ToolDefinition {
    ToolDefinition("list-folders", Object([("type", FolderTypeSchema())], []))
  }

  function DeleteFolderTool(): ToolDefinition {
    ToolDefinition("delete-folder", Object(
      [("folderId", Plain("string")), ("deleteContents", Plain("boolean"))],
      ["folderId"]))
  }

  function ExportTool(): ToolDefinition {
    ToolDefinition("export-folder-to-compendium", Object(
      [("folderId", Plain("string")), ("packId", Plain("string")), ("recursive", Plain("boolean")),
       ("clearFirst", Plain("boolean"))],
      ["folderId", "packId"]))
  }

  function UpdateFolderTool(): ToolDefinition {
    ToolDefinition("update-folder", Object(
      [("folderId", Plain("string")), ("name", Plain("string")), ("parent", Plain("string"))],
      ["folderId"]))
  }

  // ----- adventure-import tools -----

  function PageTable(): JsonSchema {
    Object(
      [("name", Plain("string")), ("type", OneOf(["text", "image"])), ("content", Plain("string")),
       ("src", Plain("string")), ("caption", Plain("string"))],
      ["name", "type"])
  }

  function ResultTable(): JsonSchema {
    Object(
      [("range", ArrayOfSchema(Plain("number"))), ("text", Plain("string")), ("type", Plain("number")),
       ("documentCollection", Plain("string")), ("documentId", Plain("string")), ("img", Plain("string")),
       ("weight", Plain("number"))],
      ["range", "text"])
  }

  function ViewPositionTable(): JsonSchema {
    Object([("x", Plain("number")), ("y", Plain("number")), ("scale", Plain("number"))], [])
  }

  function AdventureDefinitions(): seq<ToolDefinition> {
    [JournalTool(), RollTableTool(), UploadTool(), SceneTool()]
  }

  function JournalTool(): ToolDefinition {
    ToolDefinition("create-journal-entry", Object(
      [("name", Plain("string")), ("pages", ArrayOfSchema(PageTable())), ("folder", Plain("string")),
       ("folderName", Plain("string")), ("ownership", Plain("object"))],
      ["name", "pages"]))
  }

  function RollTableTool(): ToolDefinition {
    ToolDefinition("create-roll-table", Object(
      [("name", Plain("string")), ("formula", Plain("string")), ("description", Plain("string")),
       ("results", ArrayOfSchema(ResultTable())), ("folder", Plain("string")), ("folderName", Plain("string")),
       ("img", Plain("string")), ("replacement", Plain("boolean")), ("displayRoll", Plain("boolean"))],
      ["name", "formula", "results"]))
  }

  function UploadTool(): ToolDefinition {
    ToolDefinition("upload-file", Object(
      [("filename", Plain("string")), ("base64data", Plain("string")), ("targetPath", Plain("string"))],
      ["filename", "base64data", "targetPath"]))
  }

  function SceneTool(): ToolDefinition {
    ToolDefinition("create-scene", SceneTable())
  }

  function SceneTable(): JsonSchema {
    Object(
      [("name", Plain("string")), ("backgroundImage", Plain("string")), ("gridSize", Plain("number")),
       ("gridType", Plain("number")), ("width", Plain("number")), ("height", Plain("number")),
       ("padding", Plain("number")), ("globalLight", Plain("boolean")), ("globalLightThreshold", Plain("number")),
       ("initialViewPosition", ViewPositionTable()), ("folder", Plain("string")), ("folderName", Plain("string")),
       ("gridUnits", Plain("string")), ("gridDistance", Plain("number"))],
      ["name", "backgroundImage"])
  }

  /** The parse run by the handler of the i-th document-management tool. */
  function DocumentParse(i: nat, args: Value): Parse
    requires i < 10
  {
    match i
    case 0 => ParseCreateDocument(args)
    case 1 => ParseBatchCreate(args)
    case 2 => ParseUpdateDocument(args)
    case 3 => ParseDeleteDocument(args)
    case 4 => ParseBrowseFiles(args)
    case 5 => ParseCreateFolder(args)
    case 6 => ParseListFolders(args)
    case 7 => ParseDeleteFolder(args)
    case 8 => ParseExport(args)
    case _ => ParseUpdateFolder(args)
  }

  /** The parse run by the handler of the i-th adventure-import tool. */
  function AdventureParse(i: nat, args: Value): Parse
    requires i < 4
  {
    match i
    case 0 => ParseJournal(args)
    case 1 => ParseRollTable(args)
    case 2 => ParseUpload(args)
    case _ => ParseScene(args)
  }

  // ----- Properties -----

  /** Every document-management table is an object schema whose required names are declared. */
  lemma DocumentTablesWellFormed()
    ensures forall i | 0 <= i < |DocumentDefinitions()| :: InputSchema(DocumentDefinitions()[i].inputSchema)
  {
    DocumentToolsWellFormed();
    DocumentFolderToolsWellFormed();
  }

  lemma DocumentToolsWellFormed()
    ensures InputSchema(CreateDocumentTool().inputSchema) && InputSchema(BatchCreateTool().inputSchema)
    ensures InputSchema(UpdateDocumentTool().inputSchema) && InputSchema(DeleteDocumentTool().inputSchema)
    ensures InputSchema(BrowseFilesTool().inputSchema)
  {
  }

  lemma DocumentFolderToolsWellFormed()
    ensures InputSchema(CreateFolderTool().inputSchema) && InputSchema(ListFoldersTool().inputSchema)
    ensures InputSchema(DeleteFolderTool().inputSchema) && InputSchema(ExportTool().inputSchema)
    ensures InputSchema(UpdateFolderTool().inputSchema)
  {
  }

  lemma ItemTablesWellFormed()
    ensures WellFormed(PageTable()) && WellFormed(ResultTable())
  {
  }

  lemma SceneTableWellFormed()
    ensures InputSchema(SceneTable())
  {
  }

  /** The same for the adventure-import tables, the page and result item schemas included. */
  lemma AdventureTablesWellFormed()
    ensures forall i | 0 <= i < |AdventureDefinitions()| :: InputSchema(AdventureDefinitions()[i].inputSchema)
  {
    ItemTablesWellFormed();
    SceneTableWellFormed();
    assert InputSchema(JournalTool().inputSchema);
    assert InputSchema(RollTableTool().inputSchema);
    assert InputSchema(UploadTool().inputSchema);
  }

  /** A document tool refuses arguments that leave out a name its table marks required. */
  lemma DocumentRequiredEnforced(i: nat, k: string, args: Value)
    requires i < 4 && k in DocumentDefinitions()[i].inputSchema.required && Prop(args, k).Undefined?
    ensures !DocumentParse(i, args).Ok?
  {
    if i == 0 {
      assert DocumentDefinitions()[i] == CreateDocumentTool();
      CreateDocumentRequired(k, args);
    } else if i == 1 {
      assert DocumentDefinitions()[i] == BatchCreateTool();
      BatchCreateRequired(k, args);
    } else if i == 2 {
      assert DocumentDefinitions()[i] == UpdateDocumentTool();
      UpdateDocumentRequired(k, args);
    } else if i == 3 {
      assert DocumentDefinitions()[i] == DeleteDocumentTool();
      DeleteDocumentRequired(k, args);
    }
  }

  lemma CreateDocumentRequired(k: string, args: Value)
    requires k in CreateDocumentTool().inputSchema.required && Prop(args, k).Undefined?
    ensures !ParseCreateDocument(args).Ok?
  {
    CreateDocumentAccepts(args);
  }

  lemma BatchCreateRequired(k: string, args: Value)
    requires k in BatchCreateTool().inputSchema.required && Prop(args, k).Undefined?
    ensures !ParseBatchCreate(args).Ok?
  {
    BatchCreateAccepts(args);
  }

  lemma UpdateDocumentRequired(k: string, args: Value)
    requires k in UpdateDocumentTool().inputSchema.required && Prop(args, k).Undefined?
    ensures !ParseUpdateDocument(args).Ok?
  {
    UpdateDocumentAccepts(args);
  }

  lemma DeleteDocumentRequired(k: string, args: Value)
    requires k in DeleteDocumentTool().inputSchema.required && Prop(args, k).Undefined?
    ensures !ParseDeleteDocument(args).Ok?
  {
    DeleteDocumentAccepts(args);
  }

  /** So does a folder tool; browse-files is the one exception (see BrowseFilesTargetDefaults). */
  lemma FolderRequiredEnforced(i: nat, k: string, args: Value)
    requires 5 <= i < |DocumentDefinitions()| && k in DocumentDefinitions()[i].inputSchema.required
    requires Prop(args, k).Undefined?
    ensures !DocumentParse(i, args).Ok?
  {
    if i == 5 {
      assert DocumentDefinitions()[i] == CreateFolderTool();
      CreateFolderRequired(k, args);
    } else if i == 6 {
      assert false;
    } else if i == 7 {
      assert DocumentDefinitions()[i] == DeleteFolderTool();
      DeleteFolderRequired(k, args);
    } else if i == 8 {
      assert DocumentDefinitions()[i] == ExportTool();
      ExportRequired(k, args);
    } else if i == 9 {
      assert DocumentDefinitions()[i] == UpdateFolderTool();
      UpdateFolderRequired(k, args);
    }
  }

  lemma CreateFolderRequired(k: string, args: Value)
    requires k in CreateFolderTool().inputSchema.required && Prop(args, k).Undefined?
    ensures !ParseCreateFolder(args).Ok?
  {
    CreateFolderParent(args);
  }

  lemma DeleteFolderRequired(k: string, args: Value)
    requires k in DeleteFolderTool().inputSchema.required && Prop(args, k).Undefined?
    ensures !ParseDeleteFolder(args).Ok?
  {
    DeleteFolderDefaults(args);
  }

  lemma ExportRequired(k: string, args: Value)
    requires k in ExportTool().inputSchema.required && Prop(args, k).Undefined?
    ensures !ParseExport(args).Ok?
  {
    ExportDefaults(args);
  }

  lemma UpdateFolderRequired(k: string, args: Value)
    requires k in UpdateFolderTool().inputSchema.required && Prop(args, k).Undefined?
    ensures !ParseUpdateFolder(args).Ok?
  {
    UpdateFolderAccepts(args);
  }

  /** An adventure-import tool refuses arguments that leave out a name its table marks required. */
  lemma AdventureRequiredEnforced(i: nat, k: string, args: Value)
    requires i < |AdventureDefinitions()| && k in AdventureDefinitions()[i].inputSchema.required
    requires Prop(args, k).Undefined?
    ensures !AdventureParse(i, args).Ok?
  {
    if i == 0 {
      assert AdventureDefinitions()[i] == JournalTool();
      JournalRequired(k, args);
    } else if i == 1 {
      assert AdventureDefinitions()[i] == RollTableTool();
      RollTableRequired(k, args);
    } else if i == 2 {
      assert AdventureDefinitions()[i] == UploadTool();
      UploadRequired(k, args);
    } else if i == 3 {
      assert AdventureDefinitions()[i] == SceneTool();
      SceneRequired(k, args);
    }
  }

  lemma JournalRequired(k: string, args: Value)
    requires k in JournalTool().inputSchema.required && Prop(args, k).Undefined?
    ensures !ParseJournal(args).Ok?
  {
    JournalAccepts(args);
  }

  lemma RollTableRequired(k: string, args: Value)
    requires k in RollTableTool().inputSchema.required && Prop(args, k).Undefined?
    ensures !ParseRollTable(args).Ok?
  {
    RollTableAccepts(args);
  }

  lemma UploadRequired(k: string, args: Value)
    requires k in UploadTool().inputSchema.required && Prop(args, k).Undefined?
    ensures !ParseUpload(args).Ok?
  {
    UploadAccepts(args);
  }

  lemma SceneRequired(k: string, args: Value)
    requires k in SceneTool().inputSchema.required && Prop(args, k).Undefined?
    ensures !ParseScene(args).Ok?
  {
    SceneAccepts(args);
  }

  /** browse-files marks `target` required, yet its parse defaults a missing target to ''. */
  lemma BrowseFilesTargetDefaults()
    ensures DocumentDefinitions()[4].name == "browse-files" && "target" in DocumentDefinitions()[4].inputSchema.required
    ensures ParseBrowseFiles(Obj(map[])).Ok?
    ensures Prop(ParseBrowseFiles(Obj(map[])).value, "target") == Str("")
  {
    BrowseFilesDefaults(Obj(map[]));
  }
}
