/** World folders as the bridge reads them: listing, lookup by id, find-or-create by type and
    name, the descendant closure of the export-to-compendium handler, the Foundry id check and
    the cleaning of exported records. */
module Folders {
  import opened Js
  import opened Strings

  /** A world folder: its id, name, document type and the id of its parent folder, if any. */
  datatype Folder = Folder(id: string, name: string, kind: string, parent: Option<string>)

  /** A world document: the id of its folder, if any, and what `toObject()` returns. */
  datatype Doc = Doc(folder: Option<string>, data: map<string, Value>)

  /** `f.folder?.id` as a value. */
  function ParentValue(f: Folder): Value {
    match f.parent
    case Some(p) => Str(p)
    case None => Undefined
  }

  /** `f.folder?.id || null` */
  function ParentOrNull(f: Folder): (r: Value)
    ensures r == Null || (r.Str? && r.s != "" && f.parent == Some(r.s))
  {
    Or(ParentValue(f), Null)
  }

  /** `{ id, name, type, parent: f.folder?.id || null }`, the folder listing entry. */
  function Describe(f: Folder): (r: Value)
    ensures r.Obj? && r.fields.Keys == {"id", "name", "type", "parent"}
  {
    Obj(map["id" := Str(f.id), "name" := Str(f.name), "type" := Str(f.kind), "parent" := ParentOrNull(f)])
  }

  /** The folders the listing shows: all of them, or those whose type equals a truthy filter. */
  function FilterByType(folders: seq<Folder>, kind: Value): (r: seq<Folder>)
    ensures |r| <= |folders|
    ensures forall f | f in r :: f in folders
  {
    if !Truthy(kind) then folders
    else if folders == [] then []
    else
      var rest := FilterByType(folders[1..], kind);
      if StrictEquals(Str(folders[0].kind), kind) then [folders[0]] + rest else rest
  }

  /** With a truthy filter a folder is listed exactly when its type equals the filter;
      without one every folder is listed. */
  lemma {:induction false} FilterByTypeMembers(folders: seq<Folder>, kind: Value, f: Folder)
    ensures f in FilterByType(folders, kind) <==>
      f in folders && (!Truthy(kind) || kind == Str(f.kind))
  {
    if Truthy(kind) && folders != [] {
      FilterByTypeMembers(folders[1..], kind, f);
    }
  }

  function DescribeAll(folders: seq<Folder>): (r: seq<Value>)
    ensures |r| == |folders|
    ensures forall i | 0 <= i < |folders| :: r[i] == Describe(folders[i])
  {
    if folders == [] then [] else [Describe(folders[0])] + DescribeAll(folders[1..])
  }

  /** `game.folders.get(id)`: the folder with that id. */
  function FindById(folders: seq<Folder>, id: Value): (r: Option<Folder>)
    ensures r.Some? ==> r.value in folders && id == Str(r.value.id)
    ensures r.None? ==> forall f | f in folders :: id != Str(f.id)
  {
    if folders == [] then None
    else if id == Str(folders[0].id) then Some(folders[0])
    else FindById(folders[1..], id)
  }

  /** `game.folders.find(f => f.type === kind && f.name === name)`: the first match. */
  function FindByTypeAndName(folders: seq<Folder>, kind: string, name: Value): (r: Option<Folder>)
    ensures r.Some? ==> r.value in folders && r.value.kind == kind && name == Str(r.value.name)
    ensures r.None? ==> forall f | f in folders :: !(f.kind == kind && name == Str(f.name))
  {
    if folders == [] then None
    else if folders[0].kind == kind && name == Str(folders[0].name) then Some(folders[0])
    else FindByTypeAndName(folders[1..], kind, name)
  }

  predicate Named(f: Folder, kind: string, name: Value) {
    f.kind == kind && name == Str(f.name)
  }

  /** `find` returns the first folder of the list with that type and name. */
  lemma {:induction false} FindByTypeAndNameFirst(folders: seq<Folder>, kind: string, name: Value)
    ensures var r := FindByTypeAndName(folders, kind, name);
      r.Some? ==> exists j | 0 <= j < |folders| :: folders[j] == r.value && forall k | 0 <= k < j :: !Named(folders[k], kind, name)
  {
    var r := FindByTypeAndName(folders, kind, name);
    if folders == [] {
    } else if Named(folders[0], kind, name) {
      assert folders[0] == r.value;
    } else {
      FindByTypeAndNameFirst(folders[1..], kind, name);
      if r.Some? {
        var tail := folders[1..];
        var j :| 0 <= j < |tail| && tail[j] == r.value && forall k | 0 <= k < j :: !Named(tail[k], kind, name);
        assert folders[j + 1] == r.value;
        forall k | 0 <= k < j + 1
          ensures !Named(folders[k], kind, name)
        {
          if k > 0 {
            assert folders[k] == tail[k - 1];
          }
        }
      }
    }
  }

  /** How the journal, roll-table and scene handlers choose the folder of a new document. */
  datatype FolderChoice =
    | Given(id: Value)          // `data.folder` was truthy
    | Existing(folderId: string) // a folder of the right type already has that name
    | Create(folderName: Value) // `Folder.create({ name, type })` is called
    | NoFolder

  /** `let folderId = data.folder || null; if (!folderId && data.folderName) { find or create }`.
      An explicit folder wins; otherwise an existing folder of the same type and name is
      reused, and a folder is created only when there is none. */
  function ResolveFolder(folders: seq<Folder>, kind: string, folder: Value, folderName: Value): (c: FolderChoice)
    ensures Truthy(folder) <==> c == Given(folder)
    ensures c.Existing? ==> exists f | f in folders :: f.id == c.folderId && f.kind == kind && folderName == Str(f.name)
    ensures c.Create? <==> (!Truthy(folder) && Truthy(folderName)
                            && forall f | f in folders :: !(f.kind == kind && folderName == Str(f.name)))
    ensures c.Create? ==> c.folderName == folderName
    ensures c == NoFolder <==> (!Truthy(folder) && !Truthy(folderName))
  {
    if Truthy(folder) then Given(folder)
    else if !Truthy(folderName) then NoFolder
    else match FindByTypeAndName(folders, kind, folderName)
      case Some(f) => Existing(f.id)
      case None => Create(folderName)
  }

  // ----- Descendant closure of export-to-compendium -----

  /** `f.folder?.id && ids.has(f.folder.id)`: the folder's parent is a member. */
  predicate ChildOf(f: Folder, ids: set<string>) {
    f.parent.Some? && f.parent.value != "" && f.parent.value in ids
  }

  /** No folder of the list has its parent in the set without being in it. */
  predicate Closed(ids: set<string>, folders: seq<Folder>) {
    forall f | f in folders :: ChildOf(f, ids) ==> f.id in ids
  }

  /** The ids the closure can ever hold. */
  function Universe(root: string, folders: seq<Folder>): set<string> {
    {root} + set f | f in folders :: f.id
  }

  /** One round: add every folder whose parent is already a member. */
  function Grow(ids: set<string>, folders: seq<Folder>): set<string> {
    ids + set f | f in folders && ChildOf(f, ids) :: f.id
  }

  /** Repeat rounds until nothing is added. */
  function Saturate(ids: set<string>, root: string, folders: seq<Folder>): (r: set<string>)
    requires root in ids && ids <= Universe(root, folders)
    ensures ids <= r <= Universe(root, folders)
    decreases |Universe(root, folders) - ids|
  {
    var next := Grow(ids, folders);
    if next == ids then ids
    else
      assert |Universe(root, folders) - next| < |Universe(root, folders) - ids| by {
        ShrinkingDifference(Universe(root, folders), ids, next);
      }
      Saturate(next, root, folders)
  }

  /** Growing a subset of a finite universe leaves fewer elements outside it. */
  lemma ShrinkingDifference(universe: set<string>, small: set<string>, large: set<string>)
    requires small < large <= universe
    ensures |universe - large| < |universe - small|
  {
    assert !(large <= small);
    var x :| x in large && x !in small;
    var outside := universe - small;
    var added := large - small;
    assert universe - large == outside - added;
    assert outside * added == added;
    assert x in added;
  }

  /** The folder and all its descendants among the given folders. */
  function Descendants(root: string, folders: seq<Folder>): (r: set<string>)
    ensures root in r && r <= Universe(root, folders)
  {
    Saturate({root}, root, folders)
  }

  lemma {:induction false} SaturateClosed(ids: set<string>, root: string, folders: seq<Folder>)
    requires root in ids && ids <= Universe(root, folders)
    ensures Closed(Saturate(ids, root, folders), folders)
    decreases |Universe(root, folders) - ids|
  {
    var next := Grow(ids, folders);
    if next == ids {
      forall f | f in folders && ChildOf(f, ids)
        ensures f.id in ids
      {
        assert f.id in next;
      }
    } else {
      ShrinkingDifference(Universe(root, folders), ids, next);
      SaturateClosed(next, root, folders);
    }
  }

  lemma {:induction false} SaturateLeast(ids: set<string>, root: string, folders: seq<Folder>, bound: set<string>)
    requires root in ids && ids <= Universe(root, folders)
    requires ids <= bound && Closed(bound, folders)
    ensures Saturate(ids, root, folders) <= bound
    decreases |Universe(root, folders) - ids|
  {
    var next := Grow(ids, folders);
    if next != ids {
      assert next <= bound;
      ShrinkingDifference(Universe(root, folders), ids, next);
      SaturateLeast(next, root, folders, bound);
    }
  }

  /** The descendants are the least closed set holding the root folder. */
  lemma DescendantsLeastClosed(root: string, folders: seq<Folder>)
    ensures root in Descendants(root, folders)
    ensures Closed(Descendants(root, folders), folders)
    ensures forall bound: set<string> | root in bound && Closed(bound, folders) :: Descendants(root, folders) <= bound
  {
    SaturateClosed({root}, root, folders);
    forall bound: set<string> | root in bound && Closed(bound, folders)
      ensures Descendants(root, folders) <= bound
    {
      SaturateLeast({root}, root, folders, bound);
    }
  }

  /** The `while (changed)` loop of export-to-compendium: passes over the folders of the
      exported type, adding each folder whose parent is already collected, until a pass adds
      nothing. */
  method CollectDescendants(root: string, folders: seq<Folder>) returns (ids: set<string>)
    ensures ids == Descendants(root, folders)
  {
    ids := {root};
    var changed := true;
    ghost var universe := Universe(root, folders);
    while changed
      invariant root in ids && ids <= universe
      invariant forall bound: set<string> | root in bound && Closed(bound, folders) :: ids <= bound
      invariant !changed ==> Closed(ids, folders)
      decreases |universe - ids| + (if changed then 1 else 0)
    {
      var next;
      next, changed := AddChildren(ids, folders);
      if changed {
        ShrinkingDifference(universe, ids, next);
      }
      ids := next;
    }
    DescendantsLeastClosed(root, folders);
  }

  /** One pass of the inner `for` loop: every folder whose parent is collected by the time the
      pass reaches it is added. The pass adds only folders of the list, only what every closed
      superset holds anyway, and reports a change exactly when it added something; a pass that
      adds nothing finds the set closed. */
  method AddChildren(ids: set<string>, folders: seq<Folder>) returns (next: set<string>, changed: bool)
    ensures ids <= next <= ids + set f | f in folders :: f.id
    ensures forall bound: set<string> | ids <= bound && Closed(bound, folders) :: next <= bound
    ensures changed <==> next != ids
    ensures !changed ==> Closed(ids, folders)
  {
    next := ids;
    changed := false;
    for i := 0 to |folders|
      invariant ids <= next <= ids + set f | f in folders :: f.id
      invariant forall bound: set<string> | ids <= bound && Closed(bound, folders) :: next <= bound
      invariant changed <==> next != ids
      invariant !changed ==> forall j | 0 <= j < i :: !(ChildOf(folders[j], ids) && folders[j].id !in ids)
    {
      var f := folders[i];
      if ChildOf(f, next) && f.id !in next {
        next := next + {f.id};
        changed := true;
      }
    }
    if !changed {
      forall f | f in folders && ChildOf(f, ids)
        ensures f.id in ids
      {
        var j :| 0 <= j < |folders| && folders[j] == f;
      }
    }
  }

  /** The folders of the exported document type: `game.folders.filter(f => f.type === docType)`. */
  function OfKind(folders: seq<Folder>, kind: string): (r: seq<Folder>)
    ensures forall f | f in r :: f in folders && f.kind == kind
    ensures forall f | f in folders && f.kind == kind :: f in r
  {
    if folders == [] then []
    else if folders[0].kind == kind then [folders[0]] + OfKind(folders[1..], kind)
    else OfKind(folders[1..], kind)
  }

  /** The export collects from the actors for an Actor folder and from the items otherwise. */
  function SourceCollection(kind: string, actors: seq<Doc>, items: seq<Doc>): seq<Doc> {
    if kind == "Actor" then actors else items
  }

  /** Documents whose folder is in the set (`d.folder?.id && ids.has(d.folder.id)`). */
  function InFolders(docs: seq<Doc>, ids: set<string>): (r: seq<Doc>)
    ensures forall d | d in r :: d in docs
    ensures forall d | d in docs :: d in r <==> (d.folder.Some? && d.folder.value != "" && d.folder.value in ids)
  {
    if docs == [] then []
    else
      var rest := InFolders(docs[1..], ids);
      var d := docs[0];
      if d.folder.Some? && d.folder.value != "" && d.folder.value in ids then [d] + rest else rest
  }

  /** Documents directly in the folder (`d.folder?.id === folderId`). */
  function InFolder(docs: seq<Doc>, id: string): (r: seq<Doc>)
    ensures forall d | d in r :: d in docs
    ensures forall d | d in docs :: d in r <==> d.folder == Some(id)
  {
    if docs == [] then []
    else
      var rest := InFolder(docs[1..], id);
      if docs[0].folder == Some(id) then [docs[0]] + rest else rest
  }

  /** The documents an export takes: from the folder and its descendants unless `recursive`
      is exactly `false`. */
  function ExportedDocuments(folder: Folder, folders: seq<Folder>, docs: seq<Doc>, recursive: Value): seq<Doc> {
    if recursive != Bool(false) then InFolders(docs, Descendants(folder.id, OfKind(folders, folder.kind)))
    else InFolder(docs, folder.id)
  }

  /** Only `recursive: false` restricts the export to the folder's own documents; any other
      value, including a missing one, also takes the documents of its same-type subfolders. */
  lemma ExportScope(folder: Folder, folders: seq<Folder>, docs: seq<Doc>, recursive: Value, d: Doc)
    requires d in docs
    ensures recursive == Bool(false) ==> (d in ExportedDocuments(folder, folders, docs, recursive) <==> d.folder == Some(folder.id))
    ensures recursive != Bool(false) && d.folder == Some(folder.id) && folder.id != "" ==> d in ExportedDocuments(folder, folders, docs, recursive)
  {
    DescendantsLeastClosed(folder.id, OfKind(folders, folder.kind));
  }

  // ----- Cleaning exported records -----

  /** `typeof id === 'string' && /^[a-zA-Z0-9]{16}$/.test(id)` */
  predicate IsValidFoundryId(id: Value) {
    id.Str? && |id.s| == 16 && forall i | 0 <= i < 16 :: AsciiAlnum(id.s[i])
  }

  function Field(r: map<string, Value>, k: string): Value {
    if k in r then r[k] else Undefined
  }

  /** Drop an invalid `_id`, drop `folder` and set `_key` to undefined. */
  function CleanRecord(r: map<string, Value>): (c: map<string, Value>)
    ensures "_id" in c <==> ("_id" in r && IsValidFoundryId(r["_id"]))
    ensures "folder" !in c
    ensures "_key" in c && c["_key"] == Undefined
    ensures forall k | k in r && k !in {"_id", "folder", "_key"} :: k in c && c[k] == r[k]
    ensures forall k | k in c && k != "_key" :: k in r && c[k] == r[k]
  {
    var kept := if IsValidFoundryId(Field(r, "_id")) then r else r - {"_id"};
    (kept - {"folder"})["_key" := Undefined]
  }

  function CleanAll(docs: seq<Doc>): (r: seq<Value>)
    ensures |r| == |docs|
    ensures forall i | 0 <= i < |docs| :: r[i] == Obj(CleanRecord(docs[i].data))
  {
    if docs == [] then [] else [Obj(CleanRecord(docs[0].data))] + CleanAll(docs[1..])
  }

  /** The closing message of a successful export. */
  function ExportMessage(clearFirst: Value, cleared: nat, exported: nat, folderName: string, packLabel: string): string {
    (if Truthy(clearFirst) then "Cleared " + IntText(cleared) + " existing entries. " else "")
    + "Exported " + IntText(exported) + " documents from \"" + folderName + "\" to compendium \"" + packLabel + "\""
  }
}
