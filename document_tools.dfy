/** The server's document-management tools: the argument schema of each handler, the query it
    sends to the Foundry module and the response it shapes from the answer. */
module DocumentTools {
  import opened Js
  import opened Strings
  import opened Zod
  import opened ToolRuns

  const DocumentTypes: seq<string> := ["Actor", "Item"]

  /** `{ name: z.string().min(1, …), type: z.string().min(1, …) }.passthrough()` */
  function NameAndType(v: Value, path: seq<Key>, nameMessage: Option<string>, typeMessage: Option<string>): Parse {
    ObjectOf(v, path, [
      ("name", NonEmpty(Prop(v, "name"), At(path, "name"), nameMessage)),
      ("type", NonEmpty(Prop(v, "type"), At(path, "type"), typeMessage))], true)
  }

  /** The document data of create-document and batch-create-documents. */
  function DocumentData(v: Value, path: seq<Key>): Parse {
    NameAndType(v, path, Some("Document name is required"), Some("Document type is required"))
  }

  /** An embedded item of update-document (the default messages of zod). */
  function ItemData(v: Value, path: seq<Key>): Parse {
    NameAndType(v, path, None, None)
  }

  predicate IsDocumentType(v: Value) {
    v == Str("Actor") || v == Str("Item")
  }

  lemma DocumentTypeEnum(v: Value, path: seq<Key>)
    ensures Enum(v, path, DocumentTypes).Ok? <==> IsDocumentType(v)
  {
    if v.Str? && v.s in DocumentTypes {
      assert v.s == "Actor" || v.s == "Item";
    }
  }

  /** An embedded item id of update-document: `z.string().min(1)`. */
  function ItemId(v: Value, path: seq<Key>): Parse {
    NonEmpty(v, path, None)
  }

  predicate HasNameAndType(v: Value) {
    v.Obj? && NonEmptyString(Prop(v, "name")) && NonEmptyString(Prop(v, "type"))
  }

  /** A passthrough object with a non-empty name and type parses clean, to itself. */
  lemma NameAndTypeClean(v: Value, path: seq<Key>, m1: Option<string>, m2: Option<string>)
    ensures NameAndType(v, path, m1, m2).Ok? <==> HasNameAndType(v)
    ensures NameAndType(v, path, m1, m2).Ok? ==> NameAndType(v, path, m1, m2).value == v
  {
    var shape := [
      ("name", NonEmpty(Prop(v, "name"), At(path, "name"), m1)),
      ("type", NonEmpty(Prop(v, "type"), At(path, "type"), m2))];
    ObjectClean(v, path, shape, true);
    var e0, e1 := shape[0], shape[1]; // one term per entry, for the solver
    if NameAndType(v, path, m1, m2).Ok? {
      var out := Assemble(v.fields, shape, true);
      AssembleShapeKey(v.fields, shape, true, 0);
      AssembleShapeKey(v.fields, shape, true, 1);
      forall k | k != "name" && k != "type"
        ensures (k in out <==> k in v.fields) && (k in out ==> out[k] == v.fields[k])
      {
        AssembleOtherKey(v.fields, shape, true, k);
      }
      assert out == v.fields;
    }
  }

  // ----- create-document -----

  function CreateDocumentShape(args: Value): seq<(string, Parse)> {
    var folderName := Prop(args, "folderName");
    [("documentType", Enum(Prop(args, "documentType"), [Field("documentType")], DocumentTypes)),
     ("data", DocumentData(Prop(args, "data"), [Field("data")])),
     ("folderName", Optional(folderName, String(folderName, [Field("folderName")])))]
  }

  function ParseCreateDocument(args: Value): Parse {
    ObjectOf(args, [], CreateDocumentShape(args), false)
  }

  /** create-document accepts exactly a known document type, data with a non-empty name and
      type, and an optional string folder name; the data reaches the query unchanged,
      other fields included. */
  lemma CreateDocumentAccepts(args: Value)
    ensures ParseCreateDocument(args).Ok? <==>
      args.Obj? && IsDocumentType(Prop(args, "documentType"))
      && HasNameAndType(Prop(args, "data")) && OptionalString(Prop(args, "folderName"))
    ensures ParseCreateDocument(args).Ok? ==> Prop(ParseCreateDocument(args).value, "data") == Prop(args, "data")
  {
    DocumentTypeEnum(Prop(args, "documentType"), [Field("documentType")]);
    var shape := CreateDocumentShape(args);
    ObjectClean(args, [], shape, false);
    var e0, e1, e2 := shape[0], shape[1], shape[2]; // one term per entry, for the solver
    NameAndTypeClean(Prop(args, "data"), [Field("data")], Some("Document name is required"), Some("Document type is required"));
    if ParseCreateDocument(args).Ok? {
      var data := DocumentData(Prop(args, "data"), [Field("data")]);
      assert shape[1] == ("data", data);
      AssembleShapeKey(args.fields, shape, false, 1);
      assert Prop(ParseCreateDocument(args).value, "data") == data.value;
    }
  }

  function CreateDocumentParams(p: Value): Value {
    Obj(map["documentType" := Prop(p, "documentType"), "data" := Prop(p, "data"), "folderName" := Prop(p, "folderName")])
  }

  /** The create-document response: the answer's id and name, and its effect ids when it has any. */
  function CreateDocumentResponse(p: Value, result: Value): (r: Outcome)
    ensures r.Returned? <==> !Nullish(result)
    ensures r.Returned? ==>
      Prop(r.value, "success") == Bool(true) && Prop(r.value, "documentType") == Prop(p, "documentType")
      && Prop(r.value, "id") == Prop(result, "id") && Prop(r.value, "name") == Prop(result, "name")
      && Prop(r.value, "message") == Str("Created " + Text(Prop(p, "documentType")) + " " + Quoted(Prop(result, "name")) + " (ID: " + Text(Prop(result, "id")) + ")")
      && ("effects" in r.value.fields <==> LengthAboveZero(Prop(result, "effects")))
  {
    var fields := map[
      "success" := Bool(true), "documentType" := Prop(p, "documentType"),
      "id" := Prop(result, "id"), "name" := Prop(result, "name"),
      "message" := Str("Created " + Text(Prop(p, "documentType")) + " " + Quoted(Prop(result, "name")) + " (ID: " + Text(Prop(result, "id")) + ")")];
    var effects := Prop(result, "effects");
    Reading(result, "id", Obj(if LengthAboveZero(effects) then fields["effects" := effects] else fields))
  }

  /** The create-document tool: rejected exactly when its arguments do not parse, otherwise one
      `createDocument` query. */
  function HandleCreateDocument(args: Value, bridge: Request -> Outcome): (r: Run)
    ensures r.result.Rejected? <==> !ParseCreateDocument(args).Ok?
    ensures r.sent == if ParseCreateDocument(args).Ok? then [Request(QueryName("createDocument"), CreateDocumentParams(ParseCreateDocument(args).value))] else []
  {
    Invoke(ParseCreateDocument(args), "create-document", "document creation", "createDocument",
      CreateDocumentParams, CreateDocumentResponse, bridge)
  }

  // ----- batch-create-documents -----

  function BatchCreateShape(args: Value): seq<(string, Parse)> {
    var folderId := Prop(args, "folderId");
    [("documentType", Enum(Prop(args, "documentType"), [Field("documentType")], DocumentTypes)),
     ("documents", ArrayOf(Prop(args, "documents"), [Field("documents")], DocumentData,
        AtLeast(1, Some("At least one document is required")))),
     ("folderId", Optional(folderId, String(folderId, [Field("folderId")])))]
  }

  function ParseBatchCreate(args: Value): Parse {
    ObjectOf(args, [], BatchCreateShape(args), false)
  }

  /** batch-create-documents rejects an empty document list and any document without a
      non-empty name and type. */
  lemma BatchCreateAccepts(args: Value)
    ensures ParseBatchCreate(args).Ok? <==>
      args.Obj? && IsDocumentType(Prop(args, "documentType"))
      && Prop(args, "documents").Arr? && |Prop(args, "documents").items| >= 1
      && (forall i | 0 <= i < |Prop(args, "documents").items| :: HasNameAndType(Prop(args, "documents").items[i]))
      && OptionalString(Prop(args, "folderId"))
  {
    DocumentTypeEnum(Prop(args, "documentType"), [Field("documentType")]);
    var shape := BatchCreateShape(args);
    ObjectClean(args, [], shape, false);
    var e0, e1, e2 := shape[0], shape[1], shape[2]; // one term per entry, for the solver
    DocumentsClean(Prop(args, "documents"), [Field("documents")]);
  }

  lemma DocumentsClean(docs: Value, path: seq<Key>)
    ensures ArrayOf(docs, path, DocumentData, AtLeast(1, Some("At least one document is required"))).Ok? <==>
      docs.Arr? && |docs.items| >= 1 && forall i | 0 <= i < |docs.items| :: HasNameAndType(docs.items[i])
  {
    ArrayClean(docs, path, DocumentData, AtLeast(1, Some("At least one document is required")));
    if docs.Arr? {
      forall i | 0 <= i < |docs.items|
        ensures DocumentData(docs.items[i], path + [Index(i)]).Ok? <==> HasNameAndType(docs.items[i])
      {
        NameAndTypeClean(docs.items[i], path + [Index(i)], Some("Document name is required"), Some("Document type is required"));
      }
    }
  }

  function BatchCreateParams(p: Value): Value {
    Obj(map["documentType" := Prop(p, "documentType"), "documents" := Prop(p, "documents"), "folderId" := Prop(p, "folderId")])
  }

  function BatchCreateResponse(p: Value, result: Value): (r: Outcome)
    ensures r.Returned? <==> !Nullish(result)
    ensures r.Returned? ==>
      Prop(r.value, "success") == Bool(true) && Prop(r.value, "created") == Prop(result, "created")
      && Prop(r.value, "results") == Prop(result, "results") && Prop(r.value, "documentType") == Prop(p, "documentType")
      && Prop(r.value, "message") == Str("Created " + Text(Prop(result, "created")) + " " + Text(Prop(p, "documentType")) + "(s)")
  {
    Reading(result, "created", Obj(map[
      "success" := Bool(true), "documentType" := Prop(p, "documentType"),
      "created" := Prop(result, "created"),
      "message" := Str("Created " + Text(Prop(result, "created")) + " " + Text(Prop(p, "documentType")) + "(s)"),
      "results" := Prop(result, "results")]))
  }

  /** The batch-create-documents tool: rejected exactly when its arguments do not parse, otherwise one
      `batchCreateDocuments` query. */
  function HandleBatchCreate(args: Value, bridge: Request -> Outcome): (r: Run)
    ensures r.result.Rejected? <==> !ParseBatchCreate(args).Ok?
    ensures r.sent == if ParseBatchCreate(args).Ok? then [Request(QueryName("batchCreateDocuments"), BatchCreateParams(ParseBatchCreate(args).value))] else []
  {
    Invoke(ParseBatchCreate(args), "batch-create-documents", "batch document creation", "batchCreateDocuments",
      BatchCreateParams, BatchCreateResponse, bridge)
  }

  // ----- update-document -----

  const UpdateRefinement := "At least one of updates, addItems, or removeItemIds must be provided"

  function UpdateDocumentShape(args: Value): seq<(string, Parse)> {
    var updates := Prop(args, "updates");
    var addItems := Prop(args, "addItems");
    var removeItemIds := Prop(args, "removeItemIds");
    [("documentType", Enum(Prop(args, "documentType"), [Field("documentType")], DocumentTypes)),
     ("documentId", NonEmpty(Prop(args, "documentId"), [Field("documentId")], Some("Document ID is required"))),
     ("updates", Optional(updates, Record(updates, [Field("updates")]))),
     ("addItems", Optional(addItems, ArrayOf(addItems, [Field("addItems")], ItemData, AnyLength))),
     ("removeItemIds", Optional(removeItemIds, ArrayOf(removeItemIds, [Field("removeItemIds")],
        ItemId, AnyLength)))]
  }

  /** `data.updates || data.addItems || data.removeItemIds` */
  predicate RequestsAChange(p: Value) {
    Truthy(Prop(p, "updates")) || Truthy(Prop(p, "addItems")) || Truthy(Prop(p, "removeItemIds"))
  }

  function ParseUpdateDocument(args: Value): Parse {
    Refine(ObjectOf(args, [], UpdateDocumentShape(args), false), [], RequestsAChange, UpdateRefinement)
  }

  predicate OptionalItems(v: Value) {
    v.Undefined? || (v.Arr? && forall i | 0 <= i < |v.items| :: HasNameAndType(v.items[i]))
  }

  predicate OptionalIds(v: Value) {
    v.Undefined? || (v.Arr? && forall i | 0 <= i < |v.items| :: NonEmptyString(v.items[i]))
  }

  /** update-document needs a non-empty document id and at least one of updates, items to
      add or item ids to remove (an empty list counts: it is truthy). */
  lemma UpdateDocumentAccepts(args: Value)
    ensures ParseUpdateDocument(args).Ok? <==>
      args.Obj? && IsDocumentType(Prop(args, "documentType"))
      && NonEmptyString(Prop(args, "documentId"))
      && (Prop(args, "updates").Undefined? || Prop(args, "updates").Obj?)
      && OptionalItems(Prop(args, "addItems")) && OptionalIds(Prop(args, "removeItemIds"))
      && RequestsAChange(args)
  {
    DocumentTypeEnum(Prop(args, "documentType"), [Field("documentType")]);
    var shape := UpdateDocumentShape(args);
    ObjectClean(args, [], shape, false);
    var e0, e1, e2, e3, e4 := shape[0], shape[1], shape[2], shape[3], shape[4]; // one term per entry, for the solver
    ItemsClean(Prop(args, "addItems"), [Field("addItems")]);
    IdsClean(Prop(args, "removeItemIds"), [Field("removeItemIds")]);
    var inner := ObjectOf(args, [], shape, false);
    if !inner.Aborted? {
      UpdateTruthiness(args, shape);
    }
  }

  lemma ItemsClean(items: Value, path: seq<Key>)
    ensures (items.Undefined? || ArrayOf(items, path, ItemData, AnyLength).Ok?) <==> OptionalItems(items)
  {
    ArrayClean(items, path, ItemData, AnyLength);
    if items.Arr? {
      forall i | 0 <= i < |items.items|
        ensures ItemData(items.items[i], path + [Index(i)]).Ok? <==> HasNameAndType(items.items[i])
      {
        NameAndTypeClean(items.items[i], path + [Index(i)], None, None);
      }
    }
  }

  lemma IdsClean(ids: Value, path: seq<Key>)
    ensures (ids.Undefined? || ArrayOf(ids, path, ItemId, AnyLength).Ok?) <==> OptionalIds(ids)
  {
    ArrayClean(ids, path, ItemId, AnyLength);
  }

  /** The refinement sees the same truthiness as the raw arguments: records are copied and
      arrays stay arrays. */
  lemma UpdateTruthiness(args: Value, shape: seq<(string, Parse)>)
    requires shape == UpdateDocumentShape(args)
    requires !ObjectOf(args, [], shape, false).Aborted?
    ensures RequestsAChange(ObjectOf(args, [], shape, false).value) <==> RequestsAChange(args)
  {
    UpdatesKept(args, shape);
    ItemsKept(args, shape);
    IdsKept(args, shape);
  }

  lemma UpdatesKept(args: Value, shape: seq<(string, Parse)>)
    requires shape == UpdateDocumentShape(args)
    requires !ObjectOf(args, [], shape, false).Aborted?
    ensures Truthy(Prop(ObjectOf(args, [], shape, false).value, "updates")) <==> Truthy(Prop(args, "updates"))
  {
    ObjectProp(args, [], shape, false, 2);
    UpdatesTruthiness(Prop(args, "updates"), [Field("updates")]);
  }

  lemma ItemsKept(args: Value, shape: seq<(string, Parse)>)
    requires shape == UpdateDocumentShape(args)
    requires !ObjectOf(args, [], shape, false).Aborted?
    ensures Truthy(Prop(ObjectOf(args, [], shape, false).value, "addItems")) <==> Truthy(Prop(args, "addItems"))
  {
    ObjectProp(args, [], shape, false, 3);
    ItemsTruthiness(Prop(args, "addItems"), [Field("addItems")]);
  }

  lemma IdsKept(args: Value, shape: seq<(string, Parse)>)
    requires shape == UpdateDocumentShape(args)
    requires !ObjectOf(args, [], shape, false).Aborted?
    ensures Truthy(Prop(ObjectOf(args, [], shape, false).value, "removeItemIds")) <==> Truthy(Prop(args, "removeItemIds"))
  {
    ObjectProp(args, [], shape, false, 4);
    IdsTruthiness(Prop(args, "removeItemIds"), [Field("removeItemIds")]);
  }

  /** An accepted `updates` record is kept as it is. */
  lemma UpdatesTruthiness(u: Value, path: seq<Key>)
    requires !Optional(u, Record(u, path)).Aborted?
    ensures Truthy(Optional(u, Record(u, path)).value) <==> Truthy(u)
  {
  }

  /** An accepted `addItems` list is parsed to a list, and lists are truthy. */
  lemma ItemsTruthiness(u: Value, path: seq<Key>)
    requires !Optional(u, ArrayOf(u, path, ItemData, AnyLength)).Aborted?
    ensures Truthy(Optional(u, ArrayOf(u, path, ItemData, AnyLength)).value) <==> Truthy(u)
  {
    if !u.Undefined? {
      ArrayKept(u, path, ItemData, AnyLength);
    }
  }

  /** The same for `removeItemIds`. */
  lemma IdsTruthiness(u: Value, path: seq<Key>)
    requires !Optional(u, ArrayOf(u, path, ItemId, AnyLength)).Aborted?
    ensures Truthy(Optional(u, ArrayOf(u, path, ItemId, AnyLength)).value) <==> Truthy(u)
  {
    if !u.Undefined? {
      ArrayKept(u, path, ItemId, AnyLength);
    }
  }

  function UpdateDocumentParams(p: Value): Value {
    Obj(map[
      "documentType" := Prop(p, "documentType"), "documentId" := Prop(p, "documentId"),
      "updates" := Prop(p, "updates"), "addItems" := Prop(p, "addItems"),
      "removeItemIds" := Prop(p, "removeItemIds")])
  }

  /** `if (present) parts.push(part)` */
  function PushIf(parts: seq<string>, present: bool, part: string): seq<string> {
    if present then parts + [part] else parts
  }

  function UpdateHead(documentType: Value, documentId: Value, result: Value): string {
    "Updated " + Text(documentType) + " " + Quoted(Prop(result, "name")) + " (ID: " + Text(documentId) + ")"
  }

  /** The parts of the update message, in the order they are pushed. */
  function UpdateParts(documentType: Value, documentId: Value, result: Value): seq<string> {
    var fields := Prop(result, "updatedFields");
    var added := Prop(result, "itemsAdded");
    var removed := Prop(result, "itemsRemoved");
    PushIf(PushIf(PushIf([UpdateHead(documentType, documentId, result)],
      Truthy(fields), "Fields updated: " + Text(fields)),
      Truthy(added), "Items added: " + Text(added)),
      Truthy(removed), "Items removed: " + Text(removed))
  }

  /** Builds the update message by pushing onto a list of parts and joining it with '. '. */
  method UpdateMessage(documentType: Value, documentId: Value, result: Value) returns (message: string)
    ensures message == Join(UpdateParts(documentType, documentId, result), ". ")
  {
    var fields := Prop(result, "updatedFields");
    var added := Prop(result, "itemsAdded");
    var removed := Prop(result, "itemsRemoved");
    var parts := [UpdateHead(documentType, documentId, result)];
    ghost var p0 := parts;
    if Truthy(fields) {
      parts := parts + ["Fields updated: " + Text(fields)];
    }
    assert parts == PushIf(p0, Truthy(fields), "Fields updated: " + Text(fields));
    ghost var p1 := parts;
    if Truthy(added) {
      parts := parts + ["Items added: " + Text(added)];
    }
    assert parts == PushIf(p1, Truthy(added), "Items added: " + Text(added));
    ghost var p2 := parts;
    if Truthy(removed) {
      parts := parts + ["Items removed: " + Text(removed)];
    }
    assert parts == PushIf(p2, Truthy(removed), "Items removed: " + Text(removed));
    assert parts == UpdateParts(documentType, documentId, result);
    message := Join(parts, ". ");
  }

  /** What a pushed part adds to the joined message. */
  function Tail(present: bool, part: string): string {
    if present then ". " + part else ""
  }

  lemma {:induction false} JoinAppend(parts: seq<string>, x: string, sep: string)
    requires parts != []
    ensures Join(parts + [x], sep) == Join(parts, sep) + sep + x
  {
    if |parts| > 1 {
      assert (parts + [x])[1..] == parts[1..] + [x];
      JoinAppend(parts[1..], x, sep);
    }
  }

  lemma JoinPushIf(parts: seq<string>, present: bool, part: string)
    requires parts != []
    ensures Join(PushIf(parts, present, part), ". ") == Join(parts, ". ") + Tail(present, part)
  {
    if present {
      JoinAppend(parts, part, ". ");
    }
  }

  /** The update message is the head `Updated <type> "<name>" (ID: <id>)` followed, in order,
      by each of the three parts whose value is truthy, each after '. '. */
  lemma UpdateMessageShape(documentType: Value, documentId: Value, result: Value)
    ensures var fields := Prop(result, "updatedFields");
      var added := Prop(result, "itemsAdded");
      var removed := Prop(result, "itemsRemoved");
      Join(UpdateParts(documentType, documentId, result), ". ") ==
        UpdateHead(documentType, documentId, result)
        + Tail(Truthy(fields), "Fields updated: " + Text(fields))
        + Tail(Truthy(added), "Items added: " + Text(added))
        + Tail(Truthy(removed), "Items removed: " + Text(removed))
  {
    var fields := Prop(result, "updatedFields");
    var added := Prop(result, "itemsAdded");
    var removed := Prop(result, "itemsRemoved");
    var p0 := [UpdateHead(documentType, documentId, result)];
    var p1 := PushIf(p0, Truthy(fields), "Fields updated: " + Text(fields));
    var p2 := PushIf(p1, Truthy(added), "Items added: " + Text(added));
    JoinPushIf(p0, Truthy(fields), "Fields updated: " + Text(fields));
    JoinPushIf(p1, Truthy(added), "Items added: " + Text(added));
    JoinPushIf(p2, Truthy(removed), "Items removed: " + Text(removed));
  }

  function UpdateDocumentResponse(p: Value, result: Value): (r: Outcome)
    ensures r.Returned? <==> !Nullish(result)
    ensures r.Returned? ==>
      Prop(r.value, "success") == Bool(true) && Prop(r.value, "id") == Prop(p, "documentId")
      && Prop(r.value, "name") == Prop(result, "name") && Prop(r.value, "documentType") == Prop(p, "documentType")
      && Prop(r.value, "updatedFields") == Prop(result, "updatedFields")
      && Prop(r.value, "itemsAdded") == Prop(result, "itemsAdded")
      && Prop(r.value, "itemsRemoved") == Prop(result, "itemsRemoved")
      && Prop(r.value, "message") == Str(Join(UpdateParts(Prop(p, "documentType"), Prop(p, "documentId"), result), ". "))
  {
    Reading(result, "name", Obj(map[
      "success" := Bool(true), "documentType" := Prop(p, "documentType"), "id" := Prop(p, "documentId"),
      "name" := Prop(result, "name"), "updatedFields" := Prop(result, "updatedFields"),
      "itemsAdded" := Prop(result, "itemsAdded"), "itemsRemoved" := Prop(result, "itemsRemoved"),
      "message" := Str(Join(UpdateParts(Prop(p, "documentType"), Prop(p, "documentId"), result), ". "))]))
  }

  /** The update-document tool: rejected exactly when its arguments do not parse, otherwise one
      `updateDocument` query. */
  function HandleUpdateDocument(args: Value, bridge: Request -> Outcome): (r: Run)
    ensures r.result.Rejected? <==> !ParseUpdateDocument(args).Ok?
    ensures r.sent == if ParseUpdateDocument(args).Ok? then [Request(QueryName("updateDocument"), UpdateDocumentParams(ParseUpdateDocument(args).value))] else []
  {
    Invoke(ParseUpdateDocument(args), "update-document", "document update", "updateDocument",
      UpdateDocumentParams, UpdateDocumentResponse, bridge)
  }

  // ----- delete-document -----

  function DeleteDocumentShape(args: Value): seq<(string, Parse)> {
    [("documentType", Enum(Prop(args, "documentType"), [Field("documentType")], DocumentTypes)),
     ("documentId", NonEmpty(Prop(args, "documentId"), [Field("documentId")], Some("Document ID is required")))]
  }

  function ParseDeleteDocument(args: Value): Parse {
    ObjectOf(args, [], DeleteDocumentShape(args), false)
  }

  lemma DeleteDocumentAccepts(args: Value)
    ensures ParseDeleteDocument(args).Ok? <==>
      args.Obj? && IsDocumentType(Prop(args, "documentType")) && NonEmptyString(Prop(args, "documentId"))
  {
    DocumentTypeEnum(Prop(args, "documentType"), [Field("documentType")]);
    var shape := DeleteDocumentShape(args);
    ObjectClean(args, [], shape, false);
    var e0, e1 := shape[0], shape[1]; // one term per entry, for the solver
  }

  function DeleteDocumentParams(p: Value): Value {
    Obj(map["documentType" := Prop(p, "documentType"), "documentId" := Prop(p, "documentId")])
  }

  function DeleteDocumentResponse(p: Value, result: Value): (r: Outcome)
    ensures r.Returned? <==> !Nullish(result)
    ensures r.Returned? ==>
      Prop(r.value, "success") == Bool(true) && Prop(r.value, "id") == Prop(p, "documentId")
      && Prop(r.value, "name") == Prop(result, "name")
      && Prop(r.value, "message") == Str("Deleted " + Text(Prop(p, "documentType")) + " " + Quoted(Prop(result, "name")) + " (ID: " + Text(Prop(p, "documentId")) + ")")
  {
    Reading(result, "name", Obj(map[
      "success" := Bool(true), "documentType" := Prop(p, "documentType"), "id" := Prop(p, "documentId"),
      "name" := Prop(result, "name"),
      "message" := Str("Deleted " + Text(Prop(p, "documentType")) + " " + Quoted(Prop(result, "name")) + " (ID: " + Text(Prop(p, "documentId")) + ")")]))
  }

  /** The delete-document tool: rejected exactly when its arguments do not parse, otherwise one
      `deleteDocument` query. */
  function HandleDeleteDocument(args: Value, bridge: Request -> Outcome): (r: Run)
    ensures r.result.Rejected? <==> !ParseDeleteDocument(args).Ok?
    ensures r.sent == if ParseDeleteDocument(args).Ok? then [Request(QueryName("deleteDocument"), DeleteDocumentParams(ParseDeleteDocument(args).value))] else []
  {
    Invoke(ParseDeleteDocument(args), "delete-document", "document deletion", "deleteDocument",
      DeleteDocumentParams, DeleteDocumentResponse, bridge)
  }

  // ----- browse-files -----

  function BrowseFilesShape(args: Value): seq<(string, Parse)> {
    var source := Prop(args, "source");
    var target := Prop(args, "target");
    var extensions := Prop(args, "extensions");
    [("source", Default(source, Str("public"), Enum(source, [Field("source")], ["public", "data"]))),
     ("target", Default(target, Str(""), String(target, [Field("target")]))),
     ("extensions", Optional(extensions, ArrayOf(extensions, [Field("extensions")], String, AnyLength)))]
  }

  function ParseBrowseFiles(args: Value): Parse {
    ObjectOf(args, [], BrowseFilesShape(args), false)
  }

  /** browse-files: the source defaults to 'public' and the target to ''; given values are kept. */
  lemma BrowseFilesDefaults(args: Value)
    ensures ParseBrowseFiles(args).Ok? <==>
      args.Obj? && (Prop(args, "source") in {Undefined, Str("public"), Str("data")})
      && OptionalString(Prop(args, "target"))
      && (Prop(args, "extensions").Undefined? ||
          (Prop(args, "extensions").Arr? && forall i | 0 <= i < |Prop(args, "extensions").items| :: Prop(args, "extensions").items[i].Str?))
    ensures ParseBrowseFiles(args).Ok? ==>
      Prop(ParseBrowseFiles(args).value, "source") == Coalesce(Prop(args, "source"), Str("public"))
      && Prop(ParseBrowseFiles(args).value, "target") == Coalesce(Prop(args, "target"), Str(""))
  {
    var shape := BrowseFilesShape(args);
    ObjectClean(args, [], shape, false);
    var e0, e1, e2 := shape[0], shape[1], shape[2]; // one term per entry, for the solver
    if ParseBrowseFiles(args).Ok? {
      AssembleShapeKey(args.fields, shape, false, 0);
      AssembleShapeKey(args.fields, shape, false, 1);
    }
  }

  function BrowseFilesParams(p: Value): Value {
    Obj(map["source" := Prop(p, "source"), "target" := Prop(p, "target"), "extensions" := Prop(p, "extensions")])
  }

  /** The listing with its two counts; reading the length of missing files or directories throws. */
  function BrowseFilesResponse(p: Value, result: Value): (r: Outcome)
    ensures r.Returned? <==>
      !Nullish(result) && !Nullish(Prop(result, "files")) && !Nullish(Prop(result, "dirs"))
    ensures r.Returned? ==>
      Prop(r.value, "target") == Prop(result, "target") && Prop(r.value, "files") == Prop(result, "files")
      && Prop(r.value, "dirs") == Prop(result, "dirs")
      && Prop(r.value, "fileCount") == LengthOf(Prop(result, "files")).value
      && Prop(r.value, "dirCount") == LengthOf(Prop(result, "dirs")).value
  {
    if Nullish(result) then Reading(result, "target", Undefined)
    else
      match LengthOf(Prop(result, "files"))
      case Threw(t) => Threw(t)
      case Returned(fileCount) =>
        match LengthOf(Prop(result, "dirs"))
        case Threw(t) => Threw(t)
        case Returned(dirCount) =>
          Returned(Obj(map[
            "target" := Prop(result, "target"), "dirs" := Prop(result, "dirs"), "files" := Prop(result, "files"),
            "fileCount" := fileCount, "dirCount" := dirCount]))
  }

  /** The browse-files tool: rejected exactly when its arguments do not parse, otherwise one
      `browseFiles` query. */
  function HandleBrowseFiles(args: Value, bridge: Request -> Outcome): (r: Run)
    ensures r.result.Rejected? <==> !ParseBrowseFiles(args).Ok?
    ensures r.sent == if ParseBrowseFiles(args).Ok? then [Request(QueryName("browseFiles"), BrowseFilesParams(ParseBrowseFiles(args).value))] else []
  {
    Invoke(ParseBrowseFiles(args), "browse-files", "file browsing", "browseFiles",
      BrowseFilesParams, BrowseFilesResponse, bridge)
  }

  // ----- create-folder -----

  function CreateFolderShape(args: Value): seq<(string, Parse)> {
    var parent := Prop(args, "parent");
    [("name", NonEmpty(Prop(args, "name"), [Field("name")], Some("Folder name is required"))),
     ("type", NonEmpty(Prop(args, "type"), [Field("type")], Some("Folder type is required"))),
     ("parent", Optional(parent, String(parent, [Field("parent")])))]
  }

  function ParseCreateFolder(args: Value): Parse {
    ObjectOf(args, [], CreateFolderShape(args), false)
  }

  /** `{ name, type, parent: parent || null }` */
  function CreateFolderParams(p: Value): Value {
    Obj(map["name" := Prop(p, "name"), "type" := Prop(p, "type"), "parent" := Or(Prop(p, "parent"), Null)])
  }

  /** create-folder accepts a non-empty name and type and an optional string parent, and
      sends the parent as null when it is omitted or empty. */
  lemma CreateFolderParent(args: Value)
    ensures ParseCreateFolder(args).Ok? <==>
      args.Obj? && NonEmptyString(Prop(args, "name")) && NonEmptyString(Prop(args, "type"))
      && OptionalString(Prop(args, "parent"))
    ensures ParseCreateFolder(args).Ok? ==>
      Prop(CreateFolderParams(ParseCreateFolder(args).value), "parent") ==
        (if Prop(args, "parent") in {Undefined, Str("")} then Null else Prop(args, "parent"))
  {
    var shape := CreateFolderShape(args);
    ObjectClean(args, [], shape, false);
    var e0, e1, e2 := shape[0], shape[1], shape[2]; // one term per entry, for the solver
    if ParseCreateFolder(args).Ok? {
      AssembleShapeKey(args.fields, shape, false, 2);
    }
  }

  function CreateFolderResponse(p: Value, result: Value): (r: Outcome)
    ensures r.Returned? <==> !Nullish(result)
    ensures r.Returned? ==>
      Prop(r.value, "success") == Bool(true) && Prop(r.value, "id") == Prop(result, "id")
      && Prop(r.value, "name") == Prop(result, "name") && Prop(r.value, "type") == Prop(result, "type")
      && Prop(r.value, "parent") == Prop(result, "parent")
      && Prop(r.value, "message") == Str("Created " + Text(Prop(p, "type")) + " folder " + Quoted(Prop(result, "name")) + " (ID: " + Text(Prop(result, "id")) + ")")
  {
    Reading(result, "id", Obj(map[
      "success" := Bool(true), "id" := Prop(result, "id"), "name" := Prop(result, "name"),
      "type" := Prop(result, "type"), "parent" := Prop(result, "parent"),
      "message" := Str("Created " + Text(Prop(p, "type")) + " folder " + Quoted(Prop(result, "name")) + " (ID: " + Text(Prop(result, "id")) + ")")]))
  }

  /** The create-folder tool: rejected exactly when its arguments do not parse, otherwise one
      `createFolder` query. */
  function HandleCreateFolder(args: Value, bridge: Request -> Outcome): (r: Run)
    ensures r.result.Rejected? <==> !ParseCreateFolder(args).Ok?
    ensures r.sent == if ParseCreateFolder(args).Ok? then [Request(QueryName("createFolder"), CreateFolderParams(ParseCreateFolder(args).value))] else []
  {
    Invoke(ParseCreateFolder(args), "create-folder", "folder creation", "createFolder",
      CreateFolderParams, CreateFolderResponse, bridge)
  }

  // ----- list-folders -----

  function ListFoldersShape(args: Value): seq<(string, Parse)> {
    var kind := Prop(args, "type");
    [("type", Optional(kind, String(kind, [Field("type")])))]
  }

  function ParseListFolders(args: Value): Parse {
    ObjectOf(args, [], ListFoldersShape(args), false)
  }

  lemma ListFoldersAccepts(args: Value)
    ensures ParseListFolders(args).Ok? <==> args.Obj? && OptionalString(Prop(args, "type"))
  {
    var shape := ListFoldersShape(args);
    ObjectClean(args, [], shape, false);
    var e0 := shape[0]; // one term per entry, for the solver
  }

  function ListFoldersParams(p: Value): Value {
    Obj(map["type" := Prop(p, "type")])
  }

  function ListFoldersResponse(p: Value, result: Value): (r: Outcome)
    ensures r.Returned? <==> !Nullish(result) && !Nullish(Prop(result, "folders"))
    ensures r.Returned? ==>
      Prop(r.value, "folders") == Prop(result, "folders")
      && Prop(r.value, "count") == LengthOf(Prop(result, "folders")).value
  {
    if Nullish(result) then Reading(result, "folders", Undefined)
    else
      match LengthOf(Prop(result, "folders"))
      case Threw(t) => Threw(t)
      case Returned(count) => Returned(Obj(map["folders" := Prop(result, "folders"), "count" := count]))
  }

  /** The list-folders tool: rejected exactly when its arguments do not parse, otherwise one
      `listFolders` query. */
  function HandleListFolders(args: Value, bridge: Request -> Outcome): (r: Run)
    ensures r.result.Rejected? <==> !ParseListFolders(args).Ok?
    ensures r.sent == if ParseListFolders(args).Ok? then [Request(QueryName("listFolders"), ListFoldersParams(ParseListFolders(args).value))] else []
  {
    Invoke(ParseListFolders(args), "list-folders", "folder listing", "listFolders",
      ListFoldersParams, ListFoldersResponse, bridge)
  }

  // ----- delete-folder -----

  function DeleteFolderShape(args: Value): seq<(string, Parse)> {
    var deleteContents := Prop(args, "deleteContents");
    [("folderId", NonEmpty(Prop(args, "folderId"), [Field("folderId")], Some("Folder ID is required"))),
     ("deleteContents", Default(deleteContents, Bool(false), Boolean(deleteContents, [Field("deleteContents")])))]
  }

  function ParseDeleteFolder(args: Value): Parse {
    ObjectOf(args, [], DeleteFolderShape(args), false)
  }

  /** delete-folder: `deleteContents` defaults to false. */
  lemma DeleteFolderDefaults(args: Value)
    ensures ParseDeleteFolder(args).Ok? <==>
      args.Obj? && NonEmptyString(Prop(args, "folderId"))
      && (Prop(args, "deleteContents").Undefined? || Prop(args, "deleteContents").Bool?)
    ensures ParseDeleteFolder(args).Ok? ==>
      Prop(ParseDeleteFolder(args).value, "deleteContents") == Coalesce(Prop(args, "deleteContents"), Bool(false))
  {
    var shape := DeleteFolderShape(args);
    ObjectClean(args, [], shape, false);
    var e0, e1 := shape[0], shape[1]; // one term per entry, for the solver
    if ParseDeleteFolder(args).Ok? {
      AssembleShapeKey(args.fields, shape, false, 1);
    }
  }

  function DeleteFolderParams(p: Value): Value {
    Obj(map["folderId" := Prop(p, "folderId"), "deleteContents" := Prop(p, "deleteContents")])
  }

  function DeleteFolderMessage(name: Value, folderId: Value, deleteContents: Value): string {
    "Deleted folder " + Quoted(name) + " (ID: " + Text(folderId) + ")" + (if Truthy(deleteContents) then " and all contents" else "")
  }

  /** The delete-folder message ends with ' and all contents' exactly when contents were deleted. */
  lemma DeleteFolderMessageSuffix(name: Value, folderId: Value, deleteContents: bool)
    ensures EndsWith(DeleteFolderMessage(name, folderId, Bool(deleteContents)), " and all contents") <==> deleteContents
  {
    var m := DeleteFolderMessage(name, folderId, Bool(deleteContents));
    if !deleteContents {
      assert m[|m| - 1] == ')';
      assert " and all contents"[16] == 's';
    }
  }

  function DeleteFolderResponse(p: Value, result: Value): (r: Outcome)
    ensures r.Returned? <==> !Nullish(result)
    ensures r.Returned? ==>
      Prop(r.value, "success") == Bool(true) && Prop(r.value, "id") == Prop(p, "folderId")
      && Prop(r.value, "name") == Prop(result, "name")
      && Prop(r.value, "message") == Str(DeleteFolderMessage(Prop(result, "name"), Prop(p, "folderId"), Prop(p, "deleteContents")))
  {
    Reading(result, "name", Obj(map[
      "success" := Bool(true), "id" := Prop(p, "folderId"), "name" := Prop(result, "name"),
      "message" := Str(DeleteFolderMessage(Prop(result, "name"), Prop(p, "folderId"), Prop(p, "deleteContents")))]))
  }

  /** The delete-folder tool: rejected exactly when its arguments do not parse, otherwise one
      `deleteFolder` query. */
  function HandleDeleteFolder(args: Value, bridge: Request -> Outcome): (r: Run)
    ensures r.result.Rejected? <==> !ParseDeleteFolder(args).Ok?
    ensures r.sent == if ParseDeleteFolder(args).Ok? then [Request(QueryName("deleteFolder"), DeleteFolderParams(ParseDeleteFolder(args).value))] else []
  {
    Invoke(ParseDeleteFolder(args), "delete-folder", "folder deletion", "deleteFolder",
      DeleteFolderParams, DeleteFolderResponse, bridge)
  }

  // ----- export-folder-to-compendium -----

  function ExportShape(args: Value): seq<(string, Parse)> {
    var recursive := Prop(args, "recursive");
    var clearFirst := Prop(args, "clearFirst");
    [("folderId", NonEmpty(Prop(args, "folderId"), [Field("folderId")], Some("Folder ID is required"))),
     ("packId", NonEmpty(Prop(args, "packId"), [Field("packId")], Some("Pack ID is required"))),
     ("recursive", Default(recursive, Bool(true), Boolean(recursive, [Field("recursive")]))),
     ("clearFirst", Default(clearFirst, Bool(false), Boolean(clearFirst, [Field("clearFirst")])))]
  }

  function ParseExport(args: Value): Parse {
    ObjectOf(args, [], ExportShape(args), false)
  }

  /** export-folder-to-compendium: `recursive` defaults to true and `clearFirst` to false. */
  lemma ExportDefaults(args: Value)
    ensures ParseExport(args).Ok? <==>
      args.Obj? && NonEmptyString(Prop(args, "folderId")) && NonEmptyString(Prop(args, "packId"))
      && (Prop(args, "recursive").Undefined? || Prop(args, "recursive").Bool?)
      && (Prop(args, "clearFirst").Undefined? || Prop(args, "clearFirst").Bool?)
    ensures ParseExport(args).Ok? ==>
      Prop(ParseExport(args).value, "recursive") == Coalesce(Prop(args, "recursive"), Bool(true))
      && Prop(ParseExport(args).value, "clearFirst") == Coalesce(Prop(args, "clearFirst"), Bool(false))
  {
    var shape := ExportShape(args);
    ObjectClean(args, [], shape, false);
    var e0, e1, e2, e3 := shape[0], shape[1], shape[2], shape[3]; // one term per entry, for the solver
    if ParseExport(args).Ok? {
      AssembleShapeKey(args.fields, shape, false, 2);
      AssembleShapeKey(args.fields, shape, false, 3);
    }
  }

  function ExportParams(p: Value): Value {
    Obj(map[
      "folderId" := Prop(p, "folderId"), "packId" := Prop(p, "packId"),
      "recursive" := Prop(p, "recursive"), "clearFirst" := Prop(p, "clearFirst")])
  }

  function ExportResponse(p: Value, result: Value): (r: Outcome)
    ensures r.Returned? <==> !Nullish(result)
    ensures r.Returned? ==>
      Prop(r.value, "success") == Bool(true) && Prop(r.value, "exported") == Prop(result, "exported")
      && Prop(r.value, "folderName") == Prop(result, "folderName") && Prop(r.value, "packId") == Prop(result, "packId")
      && Prop(r.value, "message") == Prop(result, "message")
  {
    Reading(result, "exported", Obj(map[
      "success" := Bool(true), "exported" := Prop(result, "exported"), "folderName" := Prop(result, "folderName"),
      "packId" := Prop(result, "packId"), "message" := Prop(result, "message")]))
  }

  /** The export-folder-to-compendium tool: rejected exactly when its arguments do not parse, otherwise one
      `exportFolderToCompendium` query. */
  function HandleExport(args: Value, bridge: Request -> Outcome): (r: Run)
    ensures r.result.Rejected? <==> !ParseExport(args).Ok?
    ensures r.sent == if ParseExport(args).Ok? then [Request(QueryName("exportFolderToCompendium"), ExportParams(ParseExport(args).value))] else []
  {
    Invoke(ParseExport(args), "export-folder-to-compendium", "folder export to compendium", "exportFolderToCompendium",
      ExportParams, ExportResponse, bridge)
  }

  // ----- update-folder -----

  function UpdateFolderShape(args: Value): seq<(string, Parse)> {
    var name := Prop(args, "name");
    var parent := Prop(args, "parent");
    [("folderId", NonEmpty(Prop(args, "folderId"), [Field("folderId")], Some("Folder ID is required"))),
     ("name", Optional(name, String(name, [Field("name")]))),
     ("parent", Optional(parent, Nullable(parent, String(parent, [Field("parent")]))))]
  }

  function ParseUpdateFolder(args: Value): Parse {
    ObjectOf(args, [], UpdateFolderShape(args), false)
  }

  /** update-folder: a non-empty folder id, an optional string name, and a parent that may
      also be null (move to the top level). */
  lemma UpdateFolderAccepts(args: Value)
    ensures ParseUpdateFolder(args).Ok? <==>
      args.Obj? && NonEmptyString(Prop(args, "folderId")) && OptionalString(Prop(args, "name"))
      && (Prop(args, "parent").Null? || OptionalString(Prop(args, "parent")))
  {
    var shape := UpdateFolderShape(args);
    ObjectClean(args, [], shape, false);
    var e0, e1, e2 := shape[0], shape[1], shape[2]; // one term per entry, for the solver
  }

  function UpdateFolderParams(p: Value): Value {
    Obj(map["folderId" := Prop(p, "folderId"), "name" := Prop(p, "name"), "parent" := Prop(p, "parent")])
  }

  function UpdateFolderResponse(p: Value, result: Value): (r: Outcome)
    ensures r.Returned? <==> !Nullish(result)
    ensures r.Returned? ==>
      Prop(r.value, "success") == Bool(true) && Prop(r.value, "id") == Prop(result, "id")
      && Prop(r.value, "name") == Prop(result, "name") && Prop(r.value, "type") == Prop(result, "type")
      && Prop(r.value, "parent") == Prop(result, "parent")
      && Prop(r.value, "message") == Str("Updated folder " + Quoted(Prop(result, "name")) + " (ID: " + Text(Prop(result, "id")) + ")")
  {
    Reading(result, "id", Obj(map[
      "success" := Bool(true), "id" := Prop(result, "id"), "name" := Prop(result, "name"),
      "type" := Prop(result, "type"), "parent" := Prop(result, "parent"),
      "message" := Str("Updated folder " + Quoted(Prop(result, "name")) + " (ID: " + Text(Prop(result, "id")) + ")")]))
  }

  /** The update-folder tool: rejected exactly when its arguments do not parse, otherwise one
      `updateFolder` query. */
  function HandleUpdateFolder(args: Value, bridge: Request -> Outcome): (r: Run)
    ensures r.result.Rejected? <==> !ParseUpdateFolder(args).Ok?
    ensures r.sent == if ParseUpdateFolder(args).Ok? then [Request(QueryName("updateFolder"), UpdateFolderParams(ParseUpdateFolder(args).value))] else []
  {
    Invoke(ParseUpdateFolder(args), "update-folder", "folder update", "updateFolder",
      UpdateFolderParams, UpdateFolderResponse, bridge)
  }
}
