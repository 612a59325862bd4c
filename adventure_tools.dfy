/** The server's adventure-import tools: journal entries, roll tables, file uploads and
    scenes. Each parses its arguments, sends one query and copies the answer into its response. */
module AdventureTools {
  import opened Js
  import opened Zod
  import opened ToolRuns

  /** `z.string().optional()` on the property `k` of `v`. */
  function OptString(v: Value, path: seq<Key>, k: string): Parse {
    Optional(Prop(v, k), String(Prop(v, k), At(path, k)))
  }

  // ----- create-journal-entry -----

  function PageShape(page: Value, path: seq<Key>): seq<(string, Parse)> {
    [("name", NonEmpty(Prop(page, "name"), At(path, "name"), Some("Page name is required"))),
     ("type", Enum(Prop(page, "type"), At(path, "type"), ["text", "image"])),
     ("content", OptString(page, path, "content")),
     ("src", OptString(page, path, "src")),
     ("caption", OptString(page, path, "caption"))]
  }

  function PageSchema(page: Value, path: seq<Key>): Parse {
    ObjectOf(page, path, PageShape(page, path), false)
  }

  predicate IsPage(page: Value) {
    page.Obj? && NonEmptyString(Prop(page, "name"))
    && (Prop(page, "type") == Str("text") || Prop(page, "type") == Str("image"))
    && OptionalString(Prop(page, "content")) && OptionalString(Prop(page, "src"))
    && OptionalString(Prop(page, "caption"))
  }

  lemma PageClean(page: Value, path: seq<Key>)
    ensures PageSchema(page, path).Ok? <==> IsPage(page)
  {
    var shape := PageShape(page, path);
    ObjectClean(page, path, shape, false);
    var e0, e1, e2, e3, e4 := shape[0], shape[1], shape[2], shape[3], shape[4]; // one term per entry, for the solver
    var kind := Prop(page, "type");
    if kind.Str? && kind.s in ["text", "image"] {
      assert kind.s == "text" || kind.s == "image";
    }
  }

  function PagesSchema(pages: Value, path: seq<Key>): Parse {
    ArrayOf(pages, path, PageSchema, AtLeast(1, Some("At least one page is required")))
  }

  lemma PagesClean(pages: Value, path: seq<Key>)
    ensures PagesSchema(pages, path).Ok? <==>
      pages.Arr? && |pages.items| >= 1 && forall i | 0 <= i < |pages.items| :: IsPage(pages.items[i])
  {
    ArrayClean(pages, path, PageSchema, AtLeast(1, Some("At least one page is required")));
    if pages.Arr? {
      forall i | 0 <= i < |pages.items|
        ensures PageSchema(pages.items[i], path + [Index(i)]).Ok? <==> IsPage(pages.items[i])
      {
        PageClean(pages.items[i], path + [Index(i)]);
      }
    }
  }

  function JournalShape(args: Value): seq<(string, Parse)> {
    var ownership := Prop(args, "ownership");
    [("name", NonEmpty(Prop(args, "name"), [Field("name")], Some("Journal entry name is required"))),
     ("pages", PagesSchema(Prop(args, "pages"), [Field("pages")])),
     ("folder", OptString(args, [], "folder")),
     ("folderName", OptString(args, [], "folderName")),
     ("ownership", Optional(ownership, Record(ownership, [Field("ownership")])))]
  }

  function ParseJournal(args: Value): Parse {
    ObjectOf(args, [], JournalShape(args), false)
  }

  /** create-journal-entry needs a non-empty name and at least one page, each with a
      non-empty name and the type 'text' or 'image'. */
  lemma JournalAccepts(args: Value)
    ensures ParseJournal(args).Ok? <==>
      args.Obj? && NonEmptyString(Prop(args, "name"))
      && Prop(args, "pages").Arr? && |Prop(args, "pages").items| >= 1
      && (forall i | 0 <= i < |Prop(args, "pages").items| :: IsPage(Prop(args, "pages").items[i]))
      && OptionalString(Prop(args, "folder")) && OptionalString(Prop(args, "folderName"))
      && (Prop(args, "ownership").Undefined? || Prop(args, "ownership").Obj?)
  {
    var shape := JournalShape(args);
    ObjectClean(args, [], shape, false);
    var e0, e1, e2, e3, e4 := shape[0], shape[1], shape[2], shape[3], shape[4]; // one term per entry, for the solver
    PagesClean(Prop(args, "pages"), [Field("pages")]);
  }

  function JournalParams(p: Value): Value {
    Obj(map[
      "name" := Prop(p, "name"), "pages" := Prop(p, "pages"), "folder" := Prop(p, "folder"),
      "folderName" := Prop(p, "folderName"), "ownership" := Prop(p, "ownership")])
  }

  function JournalResponse(p: Value, result: Value): (r: Outcome)
    ensures r.Returned? <==> !Nullish(result)
    ensures r.Returned? ==>
      Prop(r.value, "success") == Bool(true) && Prop(r.value, "id") == Prop(result, "id")
      && Prop(r.value, "name") == Prop(result, "name") && Prop(r.value, "pageCount") == Prop(result, "pageCount")
      && Prop(r.value, "pageIds") == Prop(result, "pageIds")
      && Prop(r.value, "message") == Str("Created journal entry " + Quoted(Prop(result, "name")) + " with "
           + Text(Prop(result, "pageCount")) + " pages (ID: " + Text(Prop(result, "id")) + ")")
  {
    Reading(result, "id", Obj(map[
      "success" := Bool(true), "id" := Prop(result, "id"), "name" := Prop(result, "name"),
      "pageCount" := Prop(result, "pageCount"), "pageIds" := Prop(result, "pageIds"),
      "message" := Str("Created journal entry " + Quoted(Prop(result, "name")) + " with "
           + Text(Prop(result, "pageCount")) + " pages (ID: " + Text(Prop(result, "id")) + ")")]))
  }

  /** The create-journal-entry tool: rejected exactly when its arguments do not parse, otherwise one
      `createJournalEntryMultiPage` query. */
  function HandleJournal(args: Value, bridge: Request -> Outcome): (r: Run)
    ensures r.result.Rejected? <==> !ParseJournal(args).Ok?
    ensures r.sent == if ParseJournal(args).Ok? then [Request(QueryName("createJournalEntryMultiPage"), JournalParams(ParseJournal(args).value))] else []
  {
    Invoke(ParseJournal(args), "create-journal-entry", "journal entry creation", "createJournalEntryMultiPage",
      JournalParams, JournalResponse, bridge)
  }

  // ----- create-roll-table -----

  function ResultShape(r: Value, path: seq<Key>): seq<(string, Parse)> {
    var kind := Prop(r, "type");
    var weight := Prop(r, "weight");
    [("range", ArrayOf(Prop(r, "range"), At(path, "range"), Number, Exactly(2))),
     ("text", String(Prop(r, "text"), At(path, "text"))),
     ("type", Default(kind, Num(0), Number(kind, At(path, "type")))),
     ("documentCollection", OptString(r, path, "documentCollection")),
     ("documentId", OptString(r, path, "documentId")),
     ("img", OptString(r, path, "img")),
     ("weight", Default(weight, Num(1), Number(weight, At(path, "weight"))))]
  }

  function ResultSchema(r: Value, path: seq<Key>): Parse {
    ObjectOf(r, path, ResultShape(r, path), false)
  }

  /** A range of exactly two numbers. */
  predicate IsRange(v: Value) {
    v.Arr? && |v.items| == 2 && IsNumber(v.items[0]) && IsNumber(v.items[1])
  }

  predicate IsResult(r: Value) {
    r.Obj? && IsRange(Prop(r, "range")) && Prop(r, "text").Str?
    && OptionalNumber(Prop(r, "type")) && OptionalNumber(Prop(r, "weight"))
    && OptionalString(Prop(r, "documentCollection")) && OptionalString(Prop(r, "documentId"))
    && OptionalString(Prop(r, "img"))
  }

  lemma RangeClean(v: Value, path: seq<Key>)
    ensures ArrayOf(v, path, Number, Exactly(2)).Ok? <==> IsRange(v)
  {
    ArrayClean(v, path, Number, Exactly(2));
  }

  /** A result parses clean exactly when it has a two-number range and a text; its type
      defaults to 0 and its weight to 1, and given ones (0 included) are kept. */
  lemma ResultDefaults(r: Value, path: seq<Key>)
    ensures ResultSchema(r, path).Ok? <==> IsResult(r)
    ensures ResultSchema(r, path).Ok? ==>
      Prop(ResultSchema(r, path).value, "type") == Coalesce(Prop(r, "type"), Num(0))
      && Prop(ResultSchema(r, path).value, "weight") == Coalesce(Prop(r, "weight"), Num(1))
  {
    var shape := ResultShape(r, path);
    ObjectClean(r, path, shape, false);
    var e0, e1, e2, e3, e4, e5, e6 := shape[0], shape[1], shape[2], shape[3], shape[4], shape[5], shape[6]; // one term per entry, for the solver
    RangeClean(Prop(r, "range"), At(path, "range"));
    if ResultSchema(r, path).Ok? {
      ResultTypeDefault(r, path);
      ResultWeightDefault(r, path);
    }
  }

  lemma ResultTypeDefault(r: Value, path: seq<Key>)
    requires ResultSchema(r, path).Ok?
    ensures Prop(ResultSchema(r, path).value, "type") == Coalesce(Prop(r, "type"), Num(0))
  {
    ObjectProp(r, path, ResultShape(r, path), false, 2);
  }

  lemma ResultWeightDefault(r: Value, path: seq<Key>)
    requires ResultSchema(r, path).Ok?
    ensures Prop(ResultSchema(r, path).value, "weight") == Coalesce(Prop(r, "weight"), Num(1))
  {
    ObjectProp(r, path, ResultShape(r, path), false, 6);
  }

  function ResultsSchema(results: Value, path: seq<Key>): Parse {
    ArrayOf(results, path, ResultSchema, AtLeast(1, Some("At least one result is required")))
  }

  lemma ResultsClean(results: Value, path: seq<Key>)
    ensures ResultsSchema(results, path).Ok? <==>
      results.Arr? && |results.items| >= 1 && forall i | 0 <= i < |results.items| :: IsResult(results.items[i])
  {
    ArrayClean(results, path, ResultSchema, AtLeast(1, Some("At least one result is required")));
    if results.Arr? {
      forall i | 0 <= i < |results.items|
        ensures ResultSchema(results.items[i], path + [Index(i)]).Ok? <==> IsResult(results.items[i])
      {
        ResultDefaults(results.items[i], path + [Index(i)]);
      }
    }
  }

  function RollTableShape(args: Value): seq<(string, Parse)> {
    var description := Prop(args, "description");
    var replacement := Prop(args, "replacement");
    var displayRoll := Prop(args, "displayRoll");
    [("name", NonEmpty(Prop(args, "name"), [Field("name")], Some("Roll table name is required"))),
     ("formula", NonEmpty(Prop(args, "formula"), [Field("formula")], Some("Formula is required"))),
     ("description", Default(description, Str(""), String(description, [Field("description")]))),
     ("results", ResultsSchema(Prop(args, "results"), [Field("results")])),
     ("folder", OptString(args, [], "folder")),
     ("folderName", OptString(args, [], "folderName")),
     ("img", OptString(args, [], "img")),
     ("replacement", Default(replacement, Bool(true), Boolean(replacement, [Field("replacement")]))),
     ("displayRoll", Default(displayRoll, Bool(true), Boolean(displayRoll, [Field("displayRoll")])))]
  }

  function ParseRollTable(args: Value): Parse {
    ObjectOf(args, [], RollTableShape(args), false)
  }

  /** create-roll-table needs a non-empty name and formula and at least one well-formed
      result. */
  lemma RollTableAccepts(args: Value)
    ensures ParseRollTable(args).Ok? <==>
      args.Obj? && NonEmptyString(Prop(args, "name")) && NonEmptyString(Prop(args, "formula"))
      && OptionalString(Prop(args, "description"))
      && Prop(args, "results").Arr? && |Prop(args, "results").items| >= 1
      && (forall i | 0 <= i < |Prop(args, "results").items| :: IsResult(Prop(args, "results").items[i]))
      && OptionalString(Prop(args, "folder")) && OptionalString(Prop(args, "folderName"))
      && OptionalString(Prop(args, "img"))
      && OptionalBool(Prop(args, "replacement")) && OptionalBool(Prop(args, "displayRoll"))
  {
    var shape := RollTableShape(args);
    ObjectClean(args, [], shape, false);
    var e0, e1, e2, e3, e4, e5, e6, e7, e8 := shape[0], shape[1], shape[2], shape[3], shape[4], shape[5], shape[6], shape[7], shape[8]; // one term per entry, for the solver
    ResultsClean(Prop(args, "results"), [Field("results")]);
  }

  /** The description defaults to '' and both flags to true. */
  lemma RollTableDefaults(args: Value)
    requires ParseRollTable(args).Ok?
    ensures var p := ParseRollTable(args).value;
      Prop(p, "description") == Coalesce(Prop(args, "description"), Str(""))
      && Prop(p, "replacement") == Coalesce(Prop(args, "replacement"), Bool(true))
      && Prop(p, "displayRoll") == Coalesce(Prop(args, "displayRoll"), Bool(true))
  {
    RollTableDescriptionDefault(args);
    RollTableReplacementDefault(args);
    RollTableDisplayRollDefault(args);
  }

  lemma RollTableDescriptionDefault(args: Value)
    requires ParseRollTable(args).Ok?
    ensures Prop(ParseRollTable(args).value, "description") == Coalesce(Prop(args, "description"), Str(""))
  {
    ObjectProp(args, [], RollTableShape(args), false, 2);
  }

  lemma RollTableReplacementDefault(args: Value)
    requires ParseRollTable(args).Ok?
    ensures Prop(ParseRollTable(args).value, "replacement") == Coalesce(Prop(args, "replacement"), Bool(true))
  {
    ObjectProp(args, [], RollTableShape(args), false, 7);
  }

  lemma RollTableDisplayRollDefault(args: Value)
    requires ParseRollTable(args).Ok?
    ensures Prop(ParseRollTable(args).value, "displayRoll") == Coalesce(Prop(args, "displayRoll"), Bool(true))
  {
    ObjectProp(args, [], RollTableShape(args), false, 8);
  }

  function RollTableParams(p: Value): Value {
    Obj(map[
      "name" := Prop(p, "name"), "formula" := Prop(p, "formula"), "description" := Prop(p, "description"),
      "results" := Prop(p, "results"), "folder" := Prop(p, "folder"), "folderName" := Prop(p, "folderName"),
      "img" := Prop(p, "img"), "replacement" := Prop(p, "replacement"), "displayRoll" := Prop(p, "displayRoll")])
  }

  function RollTableResponse(p: Value, result: Value): (r: Outcome)
    ensures r.Returned? <==> !Nullish(result)
    ensures r.Returned? ==>
      Prop(r.value, "success") == Bool(true) && Prop(r.value, "id") == Prop(result, "id")
      && Prop(r.value, "name") == Prop(result, "name") && Prop(r.value, "formula") == Prop(result, "formula")
      && Prop(r.value, "resultCount") == Prop(result, "resultCount")
      && Prop(r.value, "message") == Str("Created roll table " + Quoted(Prop(result, "name")) + " with "
           + Text(Prop(result, "resultCount")) + " results (ID: " + Text(Prop(result, "id")) + ")")
  {
    Reading(result, "id", Obj(map[
      "success" := Bool(true), "id" := Prop(result, "id"), "name" := Prop(result, "name"),
      "formula" := Prop(result, "formula"), "resultCount" := Prop(result, "resultCount"),
      "message" := Str("Created roll table " + Quoted(Prop(result, "name")) + " with "
           + Text(Prop(result, "resultCount")) + " results (ID: " + Text(Prop(result, "id")) + ")")]))
  }

  /** The create-roll-table tool: rejected exactly when its arguments do not parse, otherwise one
      `createRollTable` query. */
  function HandleRollTable(args: Value, bridge: Request -> Outcome): (r: Run)
    ensures r.result.Rejected? <==> !ParseRollTable(args).Ok?
    ensures r.sent == if ParseRollTable(args).Ok? then [Request(QueryName("createRollTable"), RollTableParams(ParseRollTable(args).value))] else []
  {
    Invoke(ParseRollTable(args), "create-roll-table", "roll table creation", "createRollTable",
      RollTableParams, RollTableResponse, bridge)
  }

  // ----- upload-file -----

  function UploadShape(args: Value): seq<(string, Parse)> {
    [("filename", NonEmpty(Prop(args, "filename"), [Field("filename")], Some("Filename is required"))),
     ("base64data", NonEmpty(Prop(args, "base64data"), [Field("base64data")], Some("File data is required"))),
     ("targetPath", NonEmpty(Prop(args, "targetPath"), [Field("targetPath")], Some("Target path is required")))]
  }

  function ParseUpload(args: Value): Parse {
    ObjectOf(args, [], UploadShape(args), false)
  }

  /** upload-file needs three non-empty strings. */
  lemma UploadAccepts(args: Value)
    ensures ParseUpload(args).Ok? <==>
      args.Obj? && NonEmptyString(Prop(args, "filename")) && NonEmptyString(Prop(args, "base64data"))
      && NonEmptyString(Prop(args, "targetPath"))
  {
    var shape := UploadShape(args);
    ObjectClean(args, [], shape, false);
    var e0, e1, e2 := shape[0], shape[1], shape[2]; // one term per entry, for the solver
  }

  function UploadParams(p: Value): Value {
    Obj(map["filename" := Prop(p, "filename"), "base64data" := Prop(p, "base64data"), "targetPath" := Prop(p, "targetPath")])
  }

  function UploadResponse(p: Value, result: Value): (r: Outcome)
    ensures r.Returned? <==> !Nullish(result)
    ensures r.Returned? ==>
      Prop(r.value, "success") == Bool(true) && Prop(r.value, "path") == Prop(result, "path")
      && Prop(r.value, "filename") == Prop(result, "filename")
      && Prop(r.value, "message") == Str("Uploaded " + Quoted(Prop(result, "filename")) + " to " + Text(Prop(result, "path")))
  {
    Reading(result, "path", Obj(map[
      "success" := Bool(true), "path" := Prop(result, "path"), "filename" := Prop(result, "filename"),
      "message" := Str("Uploaded " + Quoted(Prop(result, "filename")) + " to " + Text(Prop(result, "path")))]))
  }

  /** The upload-file tool: rejected exactly when its arguments do not parse, otherwise one
      `uploadFile` query. */
  function HandleUpload(args: Value, bridge: Request -> Outcome): (r: Run)
    ensures r.result.Rejected? <==> !ParseUpload(args).Ok?
    ensures r.sent == if ParseUpload(args).Ok? then [Request(QueryName("uploadFile"), UploadParams(ParseUpload(args).value))] else []
  {
    Invoke(ParseUpload(args), "upload-file", "file upload", "uploadFile",
      UploadParams, UploadResponse, bridge)
  }

  // ----- create-scene -----

  function ViewPositionShape(v: Value, path: seq<Key>): seq<(string, Parse)> {
    var scale := Prop(v, "scale");
    [("x", Number(Prop(v, "x"), At(path, "x"))),
     ("y", Number(Prop(v, "y"), At(path, "y"))),
     ("scale", Optional(scale, Number(scale, At(path, "scale"))))]
  }

  function ViewPosition(v: Value, path: seq<Key>): Parse {
    ObjectOf(v, path, ViewPositionShape(v, path), false)
  }

  predicate IsViewPosition(v: Value) {
    v.Obj? && IsNumber(Prop(v, "x")) && IsNumber(Prop(v, "y")) && OptionalNumber(Prop(v, "scale"))
  }

  lemma ViewPositionClean(v: Value, path: seq<Key>)
    ensures ViewPosition(v, path).Ok? <==> IsViewPosition(v)
  {
    var shape := ViewPositionShape(v, path);
    ObjectClean(v, path, shape, false);
    var e0, e1, e2 := shape[0], shape[1], shape[2]; // one term per entry, for the solver
  }

  /** `z.number().optional().default(d)` on the property `k` of `args`. */
  function NumberOr(args: Value, k: string, d: Value): Parse {
    Default(Prop(args, k), d, Number(Prop(args, k), [Field(k)]))
  }

  /** The default padding, 0.25. */
  const DefaultPadding: Value := Frac("0.25")

  function SceneShape(args: Value): seq<(string, Parse)> {
    var width := Prop(args, "width");
    var height := Prop(args, "height");
    var globalLight := Prop(args, "globalLight");
    var threshold := Prop(args, "globalLightThreshold");
    var view := Prop(args, "initialViewPosition");
    var gridUnits := Prop(args, "gridUnits");
    [("name", NonEmpty(Prop(args, "name"), [Field("name")], Some("Scene name is required"))),
     ("backgroundImage", NonEmpty(Prop(args, "backgroundImage"), [Field("backgroundImage")], Some("Background image path is required"))),
     ("gridSize", NumberOr(args, "gridSize", Num(100))),
     ("gridType", NumberOr(args, "gridType", Num(1))),
     ("width", Optional(width, Number(width, [Field("width")]))),
     ("height", Optional(height, Number(height, [Field("height")]))),
     ("padding", NumberOr(args, "padding", DefaultPadding)),
     ("globalLight", Default(globalLight, Bool(true), Boolean(globalLight, [Field("globalLight")]))),
     ("globalLightThreshold", Optional(threshold, Nullable(threshold, Number(threshold, [Field("globalLightThreshold")])))),
     ("initialViewPosition", Optional(view, ViewPosition(view, [Field("initialViewPosition")]))),
     ("folder", OptString(args, [], "folder")),
     ("folderName", OptString(args, [], "folderName")),
     ("gridUnits", Default(gridUnits, Str("ft"), String(gridUnits, [Field("gridUnits")]))),
     ("gridDistance", NumberOr(args, "gridDistance", Num(5)))]
  }

  function ParseScene(args: Value): Parse {
    ObjectOf(args, [], SceneShape(args), false)
  }

  predicate SceneArguments(args: Value) {
    args.Obj? && SceneLayoutArguments(args) && SceneExtraArguments(args)
  }

  /** What the first seven keys (name, background, grid, size and padding) accept. */
  predicate SceneLayoutArguments(args: Value) {
    NonEmptyString(Prop(args, "name")) && NonEmptyString(Prop(args, "backgroundImage"))
    && OptionalNumber(Prop(args, "gridSize")) && OptionalNumber(Prop(args, "gridType"))
    && OptionalNumber(Prop(args, "width")) && OptionalNumber(Prop(args, "height"))
    && OptionalNumber(Prop(args, "padding"))
  }

  /** What the other seven keys (lighting, view, folder and units) accept. */
  predicate SceneExtraArguments(args: Value) {
    OptionalBool(Prop(args, "globalLight"))
    && (Prop(args, "globalLightThreshold").Null? || OptionalNumber(Prop(args, "globalLightThreshold")))
    && (Prop(args, "initialViewPosition").Undefined? || IsViewPosition(Prop(args, "initialViewPosition")))
    && OptionalString(Prop(args, "folder")) && OptionalString(Prop(args, "folderName"))
    && OptionalString(Prop(args, "gridUnits")) && OptionalNumber(Prop(args, "gridDistance"))
  }

  /** create-scene needs a non-empty name and background image and numbers, flags and
      strings where it declares them. */
  lemma SceneAccepts(args: Value)
    ensures ParseScene(args).Ok? <==> SceneArguments(args)
  {
    var shape := SceneShape(args);
    ObjectClean(args, [], shape, false);
    SceneLayoutClean(args);
    SceneExtraClean(args);
    if SceneLayoutArguments(args) && SceneExtraArguments(args) {
      forall i | 0 <= i < |shape|
        ensures shape[i].1.Ok?
      {
        if i < 7 {
        } else {
        }
      }
    }
  }

  lemma SceneLayoutClean(args: Value)
    ensures var shape := SceneShape(args);
      (forall i | 0 <= i < 7 :: shape[i].1.Ok?) <==> SceneLayoutArguments(args)
  {
    var shape := SceneShape(args);
    var e0, e1, e2, e3, e4, e5, e6 := shape[0], shape[1], shape[2], shape[3], shape[4], shape[5], shape[6]; // one term per entry, for the solver
  }

  lemma SceneExtraClean(args: Value)
    ensures var shape := SceneShape(args);
      (forall i | 7 <= i < 14 :: shape[i].1.Ok?) <==> SceneExtraArguments(args)
  {
    var shape := SceneShape(args);
    var e7, e8, e9, e10, e11, e12, e13 := shape[7], shape[8], shape[9], shape[10], shape[11], shape[12], shape[13]; // one term per entry, for the solver
    ViewPositionClean(Prop(args, "initialViewPosition"), [Field("initialViewPosition")]);
  }

  /** The scene defaults: grid size 100, square grid (1), padding 0.25, global light on, units
      'ft' and distance 5; width and height are left out when the arguments leave them out. */
  lemma SceneDefaults(args: Value)
    requires ParseScene(args).Ok?
    ensures var p := ParseScene(args).value;
      Prop(p, "gridSize") == Coalesce(Prop(args, "gridSize"), Num(100))
      && Prop(p, "gridType") == Coalesce(Prop(args, "gridType"), Num(1))
      && Prop(p, "padding") == Coalesce(Prop(args, "padding"), DefaultPadding)
      && Prop(p, "globalLight") == Coalesce(Prop(args, "globalLight"), Bool(true))
      && Prop(p, "gridUnits") == Coalesce(Prop(args, "gridUnits"), Str("ft"))
      && Prop(p, "gridDistance") == Coalesce(Prop(args, "gridDistance"), Num(5))
      && ("width" in p.fields <==> "width" in args.fields)
      && ("height" in p.fields <==> "height" in args.fields)
  {
    SceneGridSizeDefault(args);
    SceneGridTypeDefault(args);
    ScenePaddingDefault(args);
    SceneLightDefault(args);
    SceneUnitsDefault(args);
    SceneDistanceDefault(args);
    SceneWidthLeftOut(args);
    SceneHeightLeftOut(args);
  }

  lemma SceneGridSizeDefault(args: Value)
    requires ParseScene(args).Ok?
    ensures Prop(ParseScene(args).value, "gridSize") == Coalesce(Prop(args, "gridSize"), Num(100))
  {
    var shape := SceneShape(args);
    ObjectProp(args, [], shape, false, 2);
  }

  lemma SceneGridTypeDefault(args: Value)
    requires ParseScene(args).Ok?
    ensures Prop(ParseScene(args).value, "gridType") == Coalesce(Prop(args, "gridType"), Num(1))
  {
    var shape := SceneShape(args);
    ObjectProp(args, [], shape, false, 3);
  }

  lemma ScenePaddingDefault(args: Value)
    requires ParseScene(args).Ok?
    ensures Prop(ParseScene(args).value, "padding") == Coalesce(Prop(args, "padding"), DefaultPadding)
  {
    var shape := SceneShape(args);
    ObjectProp(args, [], shape, false, 6);
  }

  lemma SceneLightDefault(args: Value)
    requires ParseScene(args).Ok?
    ensures Prop(ParseScene(args).value, "globalLight") == Coalesce(Prop(args, "globalLight"), Bool(true))
  {
    var shape := SceneShape(args);
    ObjectProp(args, [], shape, false, 7);
  }

  lemma SceneUnitsDefault(args: Value)
    requires ParseScene(args).Ok?
    ensures Prop(ParseScene(args).value, "gridUnits") == Coalesce(Prop(args, "gridUnits"), Str("ft"))
  {
    var shape := SceneShape(args);
    ObjectProp(args, [], shape, false, 12);
  }

  lemma SceneDistanceDefault(args: Value)
    requires ParseScene(args).Ok?
    ensures Prop(ParseScene(args).value, "gridDistance") == Coalesce(Prop(args, "gridDistance"), Num(5))
  {
    var shape := SceneShape(args);
    ObjectProp(args, [], shape, false, 13);
  }

  lemma SceneWidthLeftOut(args: Value)
    requires ParseScene(args).Ok?
    ensures "width" in ParseScene(args).value.fields <==> "width" in args.fields
  {
    var shape := SceneShape(args);
    ObjectEntry(args, [], shape, false, 4);
  }

  lemma SceneHeightLeftOut(args: Value)
    requires ParseScene(args).Ok?
    ensures "height" in ParseScene(args).value.fields <==> "height" in args.fields
  {
    var shape := SceneShape(args);
    ObjectEntry(args, [], shape, false, 5);
  }

  /** `{ ...parsed }`: the query carries the parsed arguments as they are. */
  function SceneParams(p: Value): Value {
    Spread(p)
  }

  function SceneResponse(p: Value, result: Value): (r: Outcome)
    ensures r.Returned? <==> !Nullish(result)
    ensures r.Returned? ==>
      Prop(r.value, "success") == Bool(true) && Prop(r.value, "id") == Prop(result, "id")
      && Prop(r.value, "name") == Prop(result, "name") && Prop(r.value, "width") == Prop(result, "width")
      && Prop(r.value, "height") == Prop(result, "height") && Prop(r.value, "gridSize") == Prop(result, "gridSize")
      && Prop(r.value, "message") == Str("Created scene " + Quoted(Prop(result, "name")) + " (" + Text(Prop(result, "width")) + "x"
           + Text(Prop(result, "height")) + ", grid: " + Text(Prop(result, "gridSize")) + "px) (ID: " + Text(Prop(result, "id")) + ")")
  {
    Reading(result, "id", Obj(map[
      "success" := Bool(true), "id" := Prop(result, "id"), "name" := Prop(result, "name"),
      "width" := Prop(result, "width"), "height" := Prop(result, "height"), "gridSize" := Prop(result, "gridSize"),
      "message" := Str("Created scene " + Quoted(Prop(result, "name")) + " (" + Text(Prop(result, "width")) + "x"
        + Text(Prop(result, "height")) + ", grid: " + Text(Prop(result, "gridSize")) + "px) (ID: " + Text(Prop(result, "id")) + ")")]))
  }

  /** The create-scene tool: rejected exactly when its arguments do not parse, otherwise one
      `createScene` query. */
  function HandleScene(args: Value, bridge: Request -> Outcome): (r: Run)
    ensures r.result.Rejected? <==> !ParseScene(args).Ok?
    ensures r.sent == if ParseScene(args).Ok? then [Request(QueryName("createScene"), SceneParams(ParseScene(args).value))] else []
  {
    Invoke(ParseScene(args), "create-scene", "scene creation", "createScene",
      SceneParams, SceneResponse, bridge)
  }
}
