/** The payloads the adventure-import handlers hand to Foundry: journal pages with their sort
    keys, roll-table results, wall segments, and the journal and roll-table documents around
    them. Each list is built with `Array.prototype.map`; an element that is null or undefined
    makes its first property read throw a TypeError, which ends the build. */
module Builders {
  import opened Js

  /** A built list, or the message of the TypeError that stopped the build. */
  datatype Built = Built(items: seq<Value>) | Failed(message: string)

  /** The first null or undefined element, if any. */
  function FirstNullish(xs: seq<Value>): (r: Option<nat>)
    ensures r.Some? ==> r.value < |xs| && Nullish(xs[r.value]) && forall j | 0 <= j < r.value :: !Nullish(xs[j])
    ensures r.None? ==> forall j | 0 <= j < |xs| :: !Nullish(xs[j])
  {
    if xs == [] then None
    else if Nullish(xs[0]) then Some(0)
    else match FirstNullish(xs[1..])
      case Some(i) => Some(i + 1)
      case None => None
  }

  /** `xs.map((x, index) => build(x, index))`, where `build` first reads `x[firstKey]`. */
  function MapElements(xs: seq<Value>, firstKey: string, build: (Value, nat) -> Value): (r: Built)
    ensures r.Built? <==> forall j | 0 <= j < |xs| :: !Nullish(xs[j])
    ensures r.Built? ==> |r.items| == |xs| && forall j | 0 <= j < |xs| :: r.items[j] == build(xs[j], j)
    ensures r.Failed? ==> exists j | 0 <= j < |xs| :: Nullish(xs[j]) && r.message == ReadErrorMessage(xs[j], firstKey)
  {
    match FirstNullish(xs)
    case Some(i) => Failed(ReadErrorMessage(xs[i], firstKey))
    case None => Built(seq(|xs|, j requires 0 <= j < |xs| => build(xs[j], j)))
  }

  // ----- Journal pages -----

  /** Pages are spaced this far apart in sort order. */
  const SortStep: nat := 100000

  /** One page: name, type and sort key; a text page gets `text.content` (default ''), an image
      page gets `src` (default '') and an `image.caption` only when the caption is truthy. */
  function PageData(page: Value, index: nat): (r: Value)
    ensures r.Obj? && Prop(r, "name") == Prop(page, "name") && Prop(r, "type") == Prop(page, "type")
    ensures Prop(r, "sort") == Num((index + 1) * SortStep)
    ensures "text" in r.fields <==> Prop(page, "type") == Str("text")
    ensures "text" in r.fields ==>
      r.fields["text"] == Obj(map["content" := if Truthy(Prop(page, "content")) then Prop(page, "content") else Str("")])
    ensures "src" in r.fields <==> Prop(page, "type") == Str("image")
    ensures "src" in r.fields ==> r.fields["src"] == (if Truthy(Prop(page, "src")) then Prop(page, "src") else Str(""))
    ensures "image" in r.fields <==> (Prop(page, "type") == Str("image") && Truthy(Prop(page, "caption")))
  {
    var kind := Prop(page, "type");
    var base := map["name" := Prop(page, "name"), "type" := kind, "sort" := Num((index + 1) * SortStep)];
    if StrictEquals(kind, Str("text")) then
      Obj(base["text" := Obj(map["content" := Or(Prop(page, "content"), Str(""))])])
    else if StrictEquals(kind, Str("image")) then
      var withSrc := base["src" := Or(Prop(page, "src"), Str(""))];
      var caption := Prop(page, "caption");
      Obj(if Truthy(caption) then withSrc["image" := Obj(map["caption" := caption])] else withSrc)
    else Obj(base)
  }

  /** The pages are built exactly when no page is null or undefined, one per input page;
      otherwise the build stops with the TypeError of reading `name` from the first such page. */
  function BuildPages(pages: seq<Value>): (r: Built)
    ensures r.Built? <==> forall j | 0 <= j < |pages| :: !Nullish(pages[j])
    ensures r.Built? ==> |r.items| == |pages| && forall j | 0 <= j < |pages| :: r.items[j] == PageData(pages[j], j)
    ensures r.Failed? ==> exists j | 0 <= j < |pages| :: Nullish(pages[j]) && r.message == ReadErrorMessage(pages[j], "name")
  {
    MapElements(pages, "name", PageData)
  }

  /** One page per input page, in input order, under strictly increasing sort keys
      `(i + 1) * 100000`, each keeping its page's name and type. */
  lemma PagesInOrder(pages: seq<Value>)
    requires forall j | 0 <= j < |pages| :: !Nullish(pages[j])
    ensures var b := BuildPages(pages);
      b.Built? && |b.items| == |pages|
      && (forall j | 0 <= j < |pages| ::
            b.items[j].Obj? && "sort" in b.items[j].fields && b.items[j].fields["sort"] == Num((j + 1) * SortStep)
            && b.items[j].fields["name"] == Prop(pages[j], "name")
            && b.items[j].fields["type"] == Prop(pages[j], "type"))
      && (forall i, j | 0 <= i < j < |pages| :: b.items[i].fields["sort"].n < b.items[j].fields["sort"].n)
  {
  }

  // ----- Roll-table results -----

  /** One result: `type ?? 0` and `weight ?? 1`, so an explicit 0 weight is kept; the document
      reference and image are copied only when truthy. */
  function ResultData(r: Value, index: nat): (d: Value)
    ensures d.Obj? && {"range", "text", "type", "weight"} <= d.fields.Keys
    ensures Prop(d, "range") == Prop(r, "range") && Prop(d, "text") == Prop(r, "text")
    ensures Prop(d, "type") == (if Nullish(Prop(r, "type")) then Num(0) else Prop(r, "type"))
    ensures Prop(d, "weight") == (if Nullish(Prop(r, "weight")) then Num(1) else Prop(r, "weight"))
    ensures "documentCollection" in d.fields <==> Truthy(Prop(r, "documentCollection"))
    ensures "documentId" in d.fields <==> Truthy(Prop(r, "documentId"))
    ensures "img" in d.fields <==> Truthy(Prop(r, "img"))
  {
    var base := map[
      "range" := Prop(r, "range"), "text" := Prop(r, "text"),
      "type" := Coalesce(Prop(r, "type"), Num(0)), "weight" := Coalesce(Prop(r, "weight"), Num(1))];
    var withCollection := if Truthy(Prop(r, "documentCollection")) then base["documentCollection" := Prop(r, "documentCollection")] else base;
    var withId := if Truthy(Prop(r, "documentId")) then withCollection["documentId" := Prop(r, "documentId")] else withCollection;
    Obj(if Truthy(Prop(r, "img")) then withId["img" := Prop(r, "img")] else withId)
  }

  /** The results are built exactly when none is null or undefined, one per input result;
      otherwise the build stops with the TypeError of reading `range`. */
  function BuildResults(results: seq<Value>): (r: Built)
    ensures r.Built? <==> forall j | 0 <= j < |results| :: !Nullish(results[j])
    ensures r.Built? ==> |r.items| == |results| && forall j | 0 <= j < |results| :: r.items[j] == ResultData(results[j], j)
    ensures r.Failed? ==> exists j | 0 <= j < |results| :: Nullish(results[j]) && r.message == ReadErrorMessage(results[j], "range")
  {
    MapElements(results, "range", ResultData)
  }

  // ----- Walls -----

  /** One wall: its coordinates, and `?? ` defaults of 20 for movement and sight (the input
      calls the latter `sense`) and 0 for door, door state and direction. Every field the input
      leaves null or undefined gets its default; any other value, 0 included, is kept. */
  function WallData(w: Value, index: nat): (d: Value)
    ensures d.Obj? && d.fields.Keys == {"c", "move", "sight", "door", "ds", "dir"}
    ensures d.fields["c"] == Prop(w, "c")
    ensures d.fields["move"] == (if Nullish(Prop(w, "move")) then Num(20) else Prop(w, "move"))
    ensures d.fields["sight"] == (if Nullish(Prop(w, "sense")) then Num(20) else Prop(w, "sense"))
    ensures d.fields["door"] == (if Nullish(Prop(w, "door")) then Num(0) else Prop(w, "door"))
    ensures d.fields["ds"] == (if Nullish(Prop(w, "ds")) then Num(0) else Prop(w, "ds"))
    ensures d.fields["dir"] == (if Nullish(Prop(w, "dir")) then Num(0) else Prop(w, "dir"))
  {
    Obj(map[
      "c" := Prop(w, "c"),
      "move" := Coalesce(Prop(w, "move"), Num(20)),
      "sight" := Coalesce(Prop(w, "sense"), Num(20)),
      "door" := Coalesce(Prop(w, "door"), Num(0)),
      "ds" := Coalesce(Prop(w, "ds"), Num(0)),
      "dir" := Coalesce(Prop(w, "dir"), Num(0))])
  }

  /** The walls are built exactly when none is null or undefined, one per input wall; otherwise
      the build stops with the TypeError of reading `c`. */
  function BuildWalls(walls: seq<Value>): (r: Built)
    ensures r.Built? <==> forall j | 0 <= j < |walls| :: !Nullish(walls[j])
    ensures r.Built? ==> |r.items| == |walls| && forall j | 0 <= j < |walls| :: r.items[j] == WallData(walls[j], j)
    ensures r.Failed? ==> exists j | 0 <= j < |walls| :: Nullish(walls[j]) && r.message == ReadErrorMessage(walls[j], "c")
  {
    MapElements(walls, "c", WallData)
  }

  // ----- Documents -----

  /** `if (folderId) data.folder = folderId`: only the folder key can change. */
  function WithFolder(fields: map<string, Value>, folderId: Value): (r: map<string, Value>)
    ensures "folder" in r <==> ("folder" in fields || Truthy(folderId))
    ensures Truthy(folderId) ==> r["folder"] == folderId
    ensures forall k | k in fields && k != "folder" :: k in r && r[k] == fields[k]
    ensures forall k | k in r && k != "folder" :: k in fields
  {
    if Truthy(folderId) then fields["folder" := folderId] else fields
  }

  /** The journal handed to `JournalEntry.create`: `ownership` defaults to `{ default: 0 }`. */
  function JournalData(name: Value, pages: seq<Value>, ownership: Value, folderId: Value): (r: Value)
    ensures r.Obj? && Prop(r, "pages") == Arr(pages) && Prop(r, "name") == name
    ensures "folder" in r.fields <==> Truthy(folderId)
    ensures Prop(r, "ownership") == (if Truthy(ownership) then ownership else Obj(map["default" := Num(0)]))
  {
    Obj(WithFolder(map["name" := name, "pages" := Arr(pages), "ownership" := Or(ownership, Obj(map["default" := Num(0)]))], folderId))
  }

  /** The fields every table gets. */
  function TableFields(data: Value, results: seq<Value>): (m: map<string, Value>)
    ensures m.Keys == {"name", "formula", "description", "results", "replacement", "displayRoll"}
    ensures m["name"] == Prop(data, "name") && m["formula"] == Prop(data, "formula")
    ensures m["description"] == (if Truthy(Prop(data, "description")) then Prop(data, "description") else Str(""))
    ensures m["results"] == Arr(results)
    ensures m["replacement"] == Bool(Prop(data, "replacement") != Bool(false))
    ensures m["displayRoll"] == Bool(Prop(data, "displayRoll") != Bool(false))
  {
    map[
      "name" := Prop(data, "name"), "formula" := Prop(data, "formula"),
      "description" := Or(Prop(data, "description"), Str("")), "results" := Arr(results),
      "replacement" := NotFalse(Prop(data, "replacement")), "displayRoll" := NotFalse(Prop(data, "displayRoll"))]
  }

  /** The table handed to `RollTable.create`: the description defaults to '', `replacement`
      and `displayRoll` are true unless exactly false, and the image is set only when truthy. */
  function TableData(data: Value, results: seq<Value>, folderId: Value): (r: Value)
    ensures r.Obj? && Prop(r, "results") == Arr(results)
    ensures Prop(r, "replacement") == Bool(Prop(data, "replacement") != Bool(false))
    ensures Prop(r, "displayRoll") == Bool(Prop(data, "displayRoll") != Bool(false))
    ensures "img" in r.fields <==> Truthy(Prop(data, "img"))
    ensures "folder" in r.fields <==> Truthy(folderId)
  {
    var base := TableFields(data, results);
    Obj(WithFolder(if Truthy(Prop(data, "img")) then base["img" := Prop(data, "img")] else base, folderId))
  }

  /** The table keeps the input's name, formula and truthy image, its description defaults
      to '' with `||` (so an empty description is replaced too), and a truthy folder id is
      stored as given. */
  lemma TableDataCopies(data: Value, results: seq<Value>, folderId: Value)
    ensures var r := TableData(data, results, folderId);
      Prop(r, "name") == Prop(data, "name") && Prop(r, "formula") == Prop(data, "formula")
      && Prop(r, "description") == (if Truthy(Prop(data, "description")) then Prop(data, "description") else Str(""))
      && (Truthy(Prop(data, "img")) ==> Prop(r, "img") == Prop(data, "img"))
      && (Truthy(folderId) ==> Prop(r, "folder") == folderId)
  {
  }
}
