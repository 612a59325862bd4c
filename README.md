# foundryvtt-mcp bridge core in Dafny

This project models the core of foundryvtt-mcp. The system has two halves:

- **The Foundry VTT module** (`packages/foundry-module/src/queries.ts`). Its `QueryHandlers`
  class registers about sixty query handlers in Foundry's `CONFIG.queries` table, under keys
  `<module id>.<name>`. It dispatches queries to them. Every handler runs the same pipeline:
  a game-master check, then field checks that use JavaScript truthiness, then its work with
  the host. Errors are re-wrapped as `Failed to <operation>: <message>`. Most handlers make
  one call into the host and answer with its result unchanged. Four reshape that result:
  `listActors` filters it by type, `listCreaturesByCriteria` wraps it as `{response}`, and
  `browseFiles` and `createFolder` pick some of its fields. The rest compute something
  themselves:
  - the filename sanitisers and the MIME lookup of the two upload handlers;
  - the directory chain of a file upload;
  - the folder-descendant closure and the record cleaning of export-to-compendium;
  - the journal-page, roll-table-result and wall builders;
  - folder find-or-create;
  - folder listing, and the folder lookup that comes before folder deletion and update;
  - the pack checks of the compendium-entry update.
- **The MCP server's tool classes** (`packages/mcp-server/src/tools/document-management.ts`
  and `adventure-import.ts`). Each tool parses its arguments with a zod schema. It sends one
  query named `foundry-mcp-bridge.<name>` to the module and shapes the bridge's answer into
  the tool's response. The static tool-definition tables describe each tool's arguments as a
  JSON Schema.

The modules of the project follow that structure:

| module | file | what it holds |
|---|---|---|
| `Js` | js.dfy | JavaScript values and the operators the code relies on: truthiness, `||` versus `??`, strict equality, property reads on `null`/`undefined` (which throw), template-literal text, `trim`. |
| `Strings` | strings.dfy | `split`, `join`, `startsWith`/`endsWith`, ASCII lower-casing. |
| `Ops` | ops.dfy | The handlers as a datatype. The 66 registrations of `registerHandlers` in order. Which handlers are guarded, which check Foundry state, and which re-wrap errors under which label. |
| `Validation` | validation.dfy | The guard-and-check prefix of every handler, as a decision `Denied`, `Invalid(message)` or `Forward(arguments)`. |
| `Files` | files.dfy | The two filename sanitisers, extension extraction, the MIME table, slash trimming and the directory chain. |
| `Folders` | folders.dfy | Folder listing, lookup, find-or-create, the descendant closure (also as an imperative fixpoint loop), export scope and record cleaning. |
| `Builders` | builders.dfy | The payloads built for `JournalEntry.create`, `RollTable.create` and `createEmbeddedDocuments('Wall', …)`. |
| `Handlers` | handlers.dfy | One handler invocation: the reply and the sequence of host calls made, given a host that answers each call. |
| `Registry` | registry.dfy | `QueryHandlers` as a class over the query table (`map<string, Entry>`), with the registration, removal, introspection and dispatch methods. |
| `Zod` | zod.dfy | The part of zod's parsing semantics the schemas use: issues, abort versus continue, optional, nullable, default, refine, passthrough. |
| `ToolRuns` | tool_runs.dfy | One tool call: parse, send the query, shape the answer, or report the parse issues. |
| `DocumentTools`, `AdventureTools` | document_tools.dfy, adventure_tools.dfy | The schema, parameters and response of every tool handler. |
| `ToolDefinitions` | tool_definitions.dfy | The fourteen tool-definition tables and their agreement with the parsers. |
| `Wiring` | wiring.dfy | Every query a server tool sends names a handler the module registers, under the id the server uses. |

The module id is a parameter of the registry, because `constants.js` is not part of this
model. The server side addresses the bridge as `foundry-mcp-bridge`
(document-management.ts:275), and `Wiring` proves the end-to-end facts under that id.

Everything the handlers ask of Foundry, of the data-access layer, of the map backend or of
the MCP transport is a call. The model keeps the sequence of calls, and a host function
(`Handlers.Host.respond`) answers each call with a value or a throw, which carries an `Error` or any other value,
`null` and `undefined` included (`Js.Thrown`). Lemmas then speak
about which calls are made, in which order, with which arguments.

## Model

| member | source | states |
|---|---|---|
| Registry.Key | packages/foundry-module/src/queries.ts:29-32 | A registry key starts with the module id followed by a dot. |
| Registry.Registrations | packages/foundry-module/src/queries.ts:28-132 | The registration list holds exactly the 66 (name, handler) pairs of `registerHandlers`, in source order. |
| Registry.Unregistered | packages/foundry-module/src/queries.ts:137-145 | Removal leaves no key that starts with the module id. Every other key keeps its value. No key is added. |
| Registry.QueryRegistry.constructor | packages/foundry-module/src/queries.ts:9-12 | A registry starts from the given module id and query table. |
| Registry.QueryRegistry.RegisterHandlers | packages/foundry-module/src/queries.ts:28-132 | The method's loop leaves the table equal to assigning every registration in order over the old table. |
| Registry.QueryRegistry.UnregisterHandlers | packages/foundry-module/src/queries.ts:137-145 | The method's loop deletes exactly the keys that start with the module id, and keeps the rest of the table. |
| Registry.QueryRegistry.HandleQuery | packages/foundry-module/src/queries.ts:150-165 | An entry that is not a function, or a name that is neither in the table nor a method inherited from `Object.prototype`, yields `{error: 'Query handler not found: <name>', success: false}`. A name not in the table is answered as `Object.prototype` answers it. |
| Registry.RegisteredKeys | packages/foundry-module/src/queries.ts:28-132 | After registration, every listed name's key holds a handler. Keys outside the module prefix keep their old value. No old key disappears. |
| Registry.RegisteredKeysAreListed | packages/foundry-module/src/queries.ts:28-132 | Registration adds no key except the keys of listed names. |
| Registry.KeyInjective | packages/foundry-module/src/queries.ts:29-32 | Two names share a key exactly when they are equal. |
| Registry.LastRegistrationWins | packages/foundry-module/src/queries.ts:28-132 | A name registered for the last time at position i ends bound to the handler of position i. |
| Registry.AllNamesRegistered | packages/foundry-module/src/queries.ts:387-390 | After registration, `isMethodRegistered` holds for every listed name. |
| Registry.MoveTokenAliases | packages/foundry-module/src/queries.ts:82-125 | After `registerHandlers`, both `moveToken` and `move-token` are bound to the move-token handler. |
| Registry.MethodsAreNames | packages/foundry-module/src/queries.ts:377-382 | On a table with no other keys under the prefix, `getRegisteredMethods` (as a set) is exactly the registered names with `<module id>.` stripped. |
| Registry.UnregisterUndoesRegister | packages/foundry-module/src/queries.ts:137-145 | Unregistering after registering restores a table that had no keys under the prefix. |
| Registry.LookalikeKeysRemoved | packages/foundry-module/src/queries.ts:139 | The prefix test has no dot. So any key that merely starts with the module id is also removed, such as the key of another module whose id extends this one. |
| Registry.MissingHandler | packages/foundry-module/src/queries.ts:152-155 | Dispatching a non-function entry, or a name that is neither in the table nor inherited, answers `Query handler not found: <name>`. |
| Registry.Unowned | packages/foundry-module/src/queries.ts:151-155 | A name not in the table and not inherited from `Object.prototype` answers `Query handler not found: <name>`. |
| Registry.InheritedNamesAnswer | packages/foundry-module/src/queries.ts:151-163 | A name not in the table but inherited from `Object.prototype` reaches that method, called without a receiver: `constructor` answers the data (`{}` for nullish data), `toString` answers `[object Undefined]`, `isPrototypeOf` of a non-object answers false, and the others throw, which becomes an error reply. |
| Registry.ListedWhenStored | packages/foundry-module/src/queries.ts:377-390 | Every key under the prefix is listed by `getRegisteredMethods`, and so is every name `isMethodRegistered` accepts. A key holding a non-function is listed but not registered. |
| Registry.DispatchRefusesNonGm | packages/foundry-module/src/queries.ts:17-23 | Through dispatch, a non-GM caller of a guarded handler gets `{error: 'Access denied', success: false}`. The compendium-entry update instead gets its thrown `Only GM can update compendium entries` as an error reply. |
| Registry.DispatchReportsInvalid | packages/foundry-module/src/queries.ts:157-163 | Through dispatch, a failed field check of a wrapping handler reaches the caller as `{error: 'Failed to <label>: <message>', success: false}`. |
| Ops.MoveTokenNamesLast | packages/foundry-module/src/queries.ts:82-125 | `moveToken` is registered at position 29 and `move-token` at 60, and neither name is registered again after that. |
| Ops.ServerNamesLast | packages/foundry-module/src/queries.ts:102-117 | None of the fourteen names the server tools send is registered again after its position. |
| Validation.GuardComesFirst | packages/foundry-module/src/queries.ts:1149-1152 | A guarded handler denies a non-GM caller before any field check. |
| Validation.Validate | packages/foundry-module/src/queries.ts:1147-1161 | With null or undefined data, a handler whose first check reads a field fails with the TypeError of that read. Otherwise the decision is that of its own checks. |
| Validation.PingAlwaysAnswers | packages/foundry-module/src/queries.ts:363-372 | `ping` forwards for every caller and every input. |
| Validation.NullishDataFailsFirstRead | packages/foundry-module/src/queries.ts:1156-1158 | With `data` null or undefined, a handler whose first check reads a field fails with the TypeError of that read. Otherwise it runs its own checks. |
| Validation.CreateDocumentChecks | packages/foundry-module/src/queries.ts:1390-1401 | Create-document passes its checks exactly when `data` is an object with non-empty string `name` and `type`, and `documentType` is `Actor` or `Item`. |
| Validation.CreateDocumentForwards | packages/foundry-module/src/queries.ts:1403-1407 | A passing create-document forwards exactly `{documentType, data, folderName}`. |
| Validation.UpdateDocumentChecks | packages/foundry-module/src/queries.ts:1466-1476 | Update-document passes exactly when `documentId` is a non-empty string, the type is `Actor` or `Item`, and one of `updates`, `addItems`, `removeItemIds` is truthy. |
| Validation.CompendiumActorDefaults | packages/foundry-module/src/queries.ts:418-428 | Quantity, custom names and add-to-scene default with `||`, so 0, `''` and `false` are replaced too. Placement is copied exactly when truthy. |
| Validation.MoveTokenChecks | packages/foundry-module/src/queries.ts:1156-1161 | Move-token passes exactly when `tokenId` is truthy and both coordinates are numbers. |
| Validation.GenerateMapForwards | packages/foundry-module/src/queries.ts:901-912 | Map generation forwards the trimmed prompt and scene name, size defaulting to `medium` and grid size to 70 (both with `||`). |
| Validation.MapUploadChecks | packages/foundry-module/src/queries.ts:1047-1062 | A forwarded generated-map upload carries exactly two arguments, the first a string. |
| Validation.MapUploadNeedsImageName | packages/foundry-module/src/queries.ts:1059-1062 | With a filename and image data present, the upload forwards the sanitised name exactly when it ends in `.png`, `.jpg` or `.jpeg`. Otherwise it fails with `Only PNG and JPEG images are supported`. |
| Validation.MapUploadArguments | packages/foundry-module/src/queries.ts:1047-1062 | Whatever the full pipeline forwards for the generated-map upload has two arguments, the first a string. |
| Validation.UploadFileChecks | packages/foundry-module/src/queries.ts:1994-2029 | The file upload passes exactly when filename, data and target path are non-empty strings and the sanitised name's extension is in the MIME table. |
| Validation.UploadFileForwards | packages/foundry-module/src/queries.ts:2005-2042 | A passing upload forwards the sanitised name, its MIME type, the data and the slash-trimmed target path. |
| Validation.UploadFileArguments | packages/foundry-module/src/queries.ts:1994-2042 | Whatever the full pipeline forwards for the file upload has four arguments, with name, MIME type and path strings. |
| Validation.UploadTargetForwards | packages/foundry-module/src/queries.ts:2026-2042 | The MIME step forwards exactly when the extension maps to a type, and then forwards the name, the type, the data and the trimmed path. |
| Validation.UploadTargetAsWritten | packages/foundry-module/src/queries.ts:2026-2042 | As written, the MIME step never denies. It forwards exactly when the lookup with inherited properties finds a truthy value, and otherwise fails with `Unsupported file extension` and the list of supported extensions. |
| Validation.UploadTargetAsWrittenDiffers | packages/foundry-module/src/queries.ts:2026-2028 | Off `constructor` and `__proto__` the MIME step as written equals the corrected one. On them the step as written forwards while the corrected one refuses. |
| Validation.UploadChecksAsWrittenDiffers | packages/foundry-module/src/queries.ts:1994-2028 | The upload checks as written and corrected agree unless the three fields are present and the sanitised extension is an inherited name. |
| Validation.SceneContentChecks | packages/foundry-module/src/queries.ts:2239-2244 | Placing notes, walls, lights or tokens passes exactly when `sceneId` is truthy and the content array is a non-empty array. |
| Files.Sanitize | packages/foundry-module/src/queries.ts:1059 | Every character of a sanitised name is one the rule keeps. |
| Files.SanitizeLength | packages/foundry-module/src/queries.ts:2005 | Sanitising preserves the length in UTF-16 code units, which is the string length JavaScript reports. |
| Files.SanitizeReplacesEachChar | packages/foundry-module/src/queries.ts:2005 | On a name of single code units, each character is kept when the rule keeps it and replaced by `_` otherwise, position by position. |
| Files.SanitizeSplitsAstral | packages/foundry-module/src/queries.ts:2005 | A character outside the basic plane, which is two UTF-16 code units, becomes `__`, and the text on either side is sanitised independently. |
| Files.SanitizeKeepsCleanNames | packages/foundry-module/src/queries.ts:2005 | A name made only of kept characters is unchanged. |
| Files.SanitizeIdempotent | packages/foundry-module/src/queries.ts:1059 | Sanitising twice equals sanitising once. |
| Files.MapRuleRefinesUploadRule | packages/foundry-module/src/queries.ts:1059 | The map rule applied after the upload rule equals the map rule alone. The upload variant differs only in also keeping whitespace. |
| Files.SanitizeAppend | packages/foundry-module/src/queries.ts:2005 | Sanitising distributes over concatenation. |
| Files.SanitizedHasNoSeparator | packages/foundry-module/src/queries.ts:1058-1059 | A sanitised name contains no `/` and no `\`. |
| Files.Extension | packages/foundry-module/src/queries.ts:2008 | An extension contains no dot. |
| Files.ExtensionIsSuffix | packages/foundry-module/src/queries.ts:2008 | The extension is the lower-cased text after the last dot, and the whole name when there is no dot. |
| Files.MimeKeysListTable | packages/foundry-module/src/queries.ts:2009-2028 | The key list in the error message names exactly the 14 entries of the table. |
| Files.MimeTypeListed | packages/foundry-module/src/queries.ts:2026-2028 | The intended lookup accepts exactly the listed extensions. |
| Files.InheritedExtensionAccepted | packages/foundry-module/src/queries.ts:2026-2028 | As written, a file named `<stem>.constructor` passes the MIME check although its extension is not listed. |
| Files.LookupsAgreeOffPrototype | packages/foundry-module/src/queries.ts:2026-2028 | Off the inherited property names, the lookup as written and the intended lookup agree. |
| Files.LookupsDifferOnPrototype | packages/foundry-module/src/queries.ts:2026-2028 | On `constructor` and `__proto__`, the lookup as written accepts and the intended lookup refuses. |
| Files.TrimLeadingSlashes | packages/foundry-module/src/queries.ts:2042 | Only slashes are removed from the front, and the result does not start with one. |
| Files.TrimTrailingSlashes | packages/foundry-module/src/queries.ts:2042 | Only slashes are removed from the end, and the result does not end with one. |
| Files.TrimSlashes | packages/foundry-module/src/queries.ts:2042 | A trimmed path neither starts nor ends with `/`. |
| Files.DirectoryChain | packages/foundry-module/src/queries.ts:2046-2049 | There is one directory per path part. |
| Files.CreateDirectories | packages/foundry-module/src/queries.ts:2046-2058 | The loop visits exactly the directory chain of the split path. |
| Files.ChainIsPrefixes | packages/foundry-module/src/queries.ts:2047-2049 | The k-th directory is the first k+1 parts joined by `/`. |
| Files.ChainEndsAtTarget | packages/foundry-module/src/queries.ts:2042-2049 | For every target, the last directory visited is the trimmed path, and every directory visited is a prefix of it. |
| Folders.ParentOrNull | packages/foundry-module/src/queries.ts:1607 | The listed parent is `null` or the folder's own non-empty parent id. |
| Folders.Describe | packages/foundry-module/src/queries.ts:1603-1608 | A listing entry has exactly the keys `id`, `name`, `type`, `parent`. |
| Folders.FilterByType | packages/foundry-module/src/queries.ts:1598-1601 | The filter only drops folders. |
| Folders.FilterByTypeMembers | packages/foundry-module/src/queries.ts:1598-1601 | With a truthy type, a folder is listed exactly when its type equals it. Without one, every folder is listed. |
| Folders.DescribeAll | packages/foundry-module/src/queries.ts:1602-1609 | There is one entry per folder, in order. |
| Folders.FindById | packages/foundry-module/src/queries.ts:1656 | The lookup returns a folder with that id, or none exists. |
| Folders.FindByTypeAndName | packages/foundry-module/src/queries.ts:1829-1831 | The lookup returns a folder of that type and name, or none exists. |
| Folders.FindByTypeAndNameFirst | packages/foundry-module/src/queries.ts:1829-1831 | The folder found is the first folder in the list with that type and name, as `find` returns. |
| Folders.ResolveFolder | packages/foundry-module/src/queries.ts:1826-1841 | An explicit folder wins. Otherwise an existing folder of the type and name is reused. A folder is created, with the requested name, exactly when none exists and a name is given. Otherwise there is no folder. |
| Folders.Saturate | packages/foundry-module/src/queries.ts:1675-1684 | Repeating passes until nothing changes only adds ids, and only the root and ids of given folders. |
| Folders.Descendants | packages/foundry-module/src/queries.ts:1671-1684 | The closure contains the root and only ids of given folders. |
| Folders.DescendantsLeastClosed | packages/foundry-module/src/queries.ts:1671-1684 | The closure contains the root. It is closed: every folder whose parent is in it is in it. It lies inside every closed set that contains the root. |
| Folders.CollectDescendants | packages/foundry-module/src/queries.ts:1673-1684 | The `while (changed)` fixpoint loop terminates with exactly the closure. |
| Folders.AddChildren | packages/foundry-module/src/queries.ts:1677-1683 | One pass only adds folder ids and stays inside every closed superset. It reports a change exactly when it added one. An unchanged pass means the set was closed. |
| Folders.OfKind | packages/foundry-module/src/queries.ts:1674 | The result holds exactly the folders of the given type. |
| Folders.InFolders | packages/foundry-module/src/queries.ts:1685 | A document is taken exactly when its folder id is non-empty and in the set. |
| Folders.InFolder | packages/foundry-module/src/queries.ts:1687 | A document is taken exactly when its folder is the given one. |
| Folders.ExportScope | packages/foundry-module/src/queries.ts:1671-1688 | Only `recursive: false` restricts the export to the folder's own documents. Any other value also takes them. |
| Folders.CleanRecord | packages/foundry-module/src/queries.ts:1700-1710 | `_id` is kept exactly when it is 16 ASCII alphanumerics. `folder` is dropped. `_key` is set to undefined. Every other field is unchanged. |
| Folders.CleanAll | packages/foundry-module/src/queries.ts:1703-1711 | There is one cleaned record per document, in order. |
| Builders.FirstNullish | packages/foundry-module/src/queries.ts:1804 | Finds the first null-or-undefined element, or shows there is none. |
| Builders.MapElements | packages/foundry-module/src/queries.ts:1804-1823 | The map succeeds exactly when no element is nullish, with one built item per element. Otherwise it fails with the TypeError of reading a nullish element. |
| Builders.BuildPages | packages/foundry-module/src/queries.ts:1804-1823 | The pages build exactly when no input page is nullish, one page per input in order. Otherwise the error is the TypeError of reading `name` from a nullish page. |
| Builders.BuildResults | packages/foundry-module/src/queries.ts:1910-1929 | The results build exactly when no input result is nullish, one per input in order. Otherwise the error is that of reading `range` from a nullish result. |
| Builders.BuildWalls | packages/foundry-module/src/queries.ts:2316-2323 | The walls build exactly when no input wall is nullish, one per input in order. Otherwise the error is that of reading `c` from a nullish wall. |
| Builders.PagesInOrder | packages/foundry-module/src/queries.ts:1804-1823 | There is one page per input, in order, with name and type copied and sort key `(i+1)*100000`. The sort keys strictly increase. |
| Builders.PageData | packages/foundry-module/src/queries.ts:1805-1822 | A page copies name and type and gets the sort key `(i+1)*100000`. It has `text` exactly for type `text`, holding `content` (defaulting to `''` with `\|\|`). It has `src` exactly for type `image`, defaulting to `''`, and an `image` caption exactly for an image with a truthy caption. |
| Builders.ResultData | packages/foundry-module/src/queries.ts:1910-1929 | A result copies range and text. Type and weight default with `??` to 0 and 1. Collection, document id and image are copied exactly when truthy. |
| Builders.WallData | packages/foundry-module/src/queries.ts:2316-2323 | A wall has exactly the keys c, move, sight, door, ds and dir. It copies `c`. Move and sight (from `sense`) default to 20, and door, ds and dir to 0, all with `??`. |
| Builders.JournalData | packages/foundry-module/src/queries.ts:1843-1850 | The journal payload holds the pages and name. `folder` is present exactly when the resolved id is truthy. Ownership defaults to `{default: 0}`. |
| Builders.TableData | packages/foundry-module/src/queries.ts:1948-1961 | Replacement and display-roll are false only for an explicit `false`. `img` and `folder` are present exactly when truthy. |
| Builders.TableFields | packages/foundry-module/src/queries.ts:1947-1954 | The table payload has name, formula, description, results, replacement and display-roll. Name and formula are copied, the description defaults to `''` with `\|\|`, and the two flags are false only for an explicit `false`. |
| Builders.TableDataCopies | packages/foundry-module/src/queries.ts:1947-1961 | The payload copies name and formula, defaults the description, and carries `img` and `folder` as given whenever they are truthy. |
| Builders.WithFolder | packages/foundry-module/src/queries.ts:1959-1961 | Adding the folder sets `folder` to the id exactly when it is truthy, and keeps every other field. |
| Handlers.Fail | packages/foundry-module/src/queries.ts:1164-1166 | A wrapping handler rethrows `Failed to <label>: <message>`, with `Unknown error` for a thrown value that is not an `Error`. The map handlers instead return `success: false` with the thrown value's `message` (the map upload defaults it with `||`), and throw the TypeError of that read when the thrown value is `null` or `undefined`. The calls made so far are kept. |
| Handlers.Run | packages/foundry-module/src/queries.ts:1147-1154 | A non-GM caller of a guarded handler causes no call. Every other handler that checks Foundry state makes that check before any other call. |
| Handlers.RunWithoutStateCheck | packages/foundry-module/src/queries.ts:1523-1532 | For a GM, a handler with no state check goes straight to its checks and its work. |
| Handlers.Proceed | packages/foundry-module/src/queries.ts:1156-1166 | Nothing is called when the checks do not forward, and a failed check is re-wrapped. Calls are only ever appended. |
| Handlers.Perform | packages/foundry-module/src/queries.ts:1163 | Each handler's work only appends calls after those already made. |
| Handlers.Delegated | packages/foundry-module/src/queries.ts:1163-1166 | A delegating handler makes exactly one further call, with the checked arguments. A thrown answer is re-wrapped. A returned answer is the reply, reshaped by the four handlers that reshape it. |
| Handlers.Reshaped | packages/foundry-module/src/queries.ts:278-282 | Only four handlers reshape. `listCreaturesByCriteria` wraps the answer as `{response}`. `listActors` filters by type (reading `type` of nullish data throws). `browseFiles` and `createFolder` throw exactly on a nullish answer and otherwise pick its fields. |
| Handlers.ActorsOfType | packages/foundry-module/src/queries.ts:206-211 | Without a truthy type the actors pass unchanged. With one, an array keeps exactly the actors of that type (by `===`), unless a nullish actor makes the read throw. A nullish or non-array value throws, as `filter` would. |
| Handlers.OfType | packages/foundry-module/src/queries.ts:208 | The filter keeps exactly the actors whose type equals the given one. |
| Handlers.BrowseReply | packages/foundry-module/src/queries.ts:1542-1546 | The reply has exactly target, dirs and files. Target is copied, and dirs and files default to `[]` with `\|\|`. |
| Handlers.CreatedFolderReply | packages/foundry-module/src/queries.ts:1575-1580 | The reply has exactly id, name, type and parent. The first three are copied, and parent is the folder's parent id or `null`. |
| Handlers.RunDeleteFolder | packages/foundry-module/src/queries.ts:1618-1641 | An unknown folder id fails with `Folder not found: <id>` and no call. Otherwise the folder is deleted with `deleteContents` defaulting to false with `\|\|`, and the reply is `{name}`. |
| Handlers.DeleteFolderNeedsFolder | packages/foundry-module/src/queries.ts:1623-1631 | Through the whole handler, a GM deleting an unknown folder gets the wrapped `Folder not found` error and no call is made. |
| Handlers.RunUpdateFolder | packages/foundry-module/src/queries.ts:1738-1770 | An unknown folder id fails with `Folder not found: <id>` and no call. Otherwise one update call is made with the computed updates, and the reply describes the folder with them applied. |
| Handlers.FolderUpdateDescribed | packages/foundry-module/src/queries.ts:1753-1764 | After an update, id and type are unchanged. The name is the new name when a string is given. The parent is a given non-empty parent, `null` for an empty or `null` parent, and otherwise the old parent. |
| Handlers.RunExport | packages/foundry-module/src/queries.ts:1656-1664 | An unknown folder fails with `Folder not found: <id>`, and an unknown pack with `Compendium pack not found: <id>`, both with no call. |
| Handlers.RunJournal | packages/foundry-module/src/queries.ts:1775-1870 | A nullish page fails before any creation. A reply comes from a truthy created journal, made last with one page per input page and the given name, whose pages are a collection; it reports that journal's id, its page count, and one page id entry per page, so the count is the number of ids. |
| Handlers.CreateJournal | packages/foundry-module/src/queries.ts:1851-1866 | The journal is created with exactly the payload. A thrown or falsy answer fails the handler, a truthy one is described by `JournalReply`, and every error of that description fails the handler wrapped. |
| Handlers.RunRollTable | packages/foundry-module/src/queries.ts:1872-1977 | A nullish result fails before any creation. A reply comes from a truthy created table with non-nullish results, made last with one result per input; it reports that table's id, formula and result count. |
| Handlers.CreateTable | packages/foundry-module/src/queries.ts:1963-1977 | The table is created with exactly the payload. A thrown or falsy answer fails the handler, a truthy one is described by `TableReply`, and the `size` read error fails the handler wrapped. |
| Handlers.RunWalls | packages/foundry-module/src/queries.ts:2285-2333 | An unknown scene fails with `Scene not found: <id>`. Otherwise one wall creation on that scene with one wall per input; a thrown answer, and every error of `WallsReply`, fail the handler wrapped, and a reply reports the count and ids of the created walls. |
| Handlers.RunMapUpload | packages/foundry-module/src/queries.ts:1032-1136 | The map upload creates the world's map directory. A directory failure its `catch` cannot absorb ends the handler with `success: false` and no upload. Otherwise it uploads the PNG there with the checked image data as its content; it throws exactly when the upload rejects with `null` or `undefined`, and otherwise reports success exactly when the upload returned a non-nullish response. |
| Handlers.RunUploadFile | packages/foundry-module/src/queries.ts:2042-2077 | The directory chain is created up to the first failure its `catch` cannot absorb, which fails the upload wrapped with no upload call. Without one, the last call is the upload into the target path with the sanitised name, the MIME type and the checked base64 data. A reply needs the upload to return a non-nullish response and reports success, the sanitised filename and the response's path. |
| Handlers.RunCompendiumUpdate | packages/foundry-module/src/queries.ts:2490-2520 | A non-GM caller gets the thrown `Only GM can update compendium entries` with no call. A locked pack throws with no call. A reply means the pack exists and is unlocked, the document was fetched and updated, and reports success with the item id. |
| Handlers.PingReply | packages/foundry-module/src/queries.ts:363-372 | Ping answers status `ok` and the module id. |
| Handlers.CampaignReply | packages/foundry-module/src/queries.ts:686-690 | The campaign update answers success and the message `Campaign progress updated: <part> is now <status>`. |
| Handlers.FolderListing | packages/foundry-module/src/queries.ts:1598-1609 | The listing describes exactly the filtered folders. |
| Handlers.FolderUpdates | packages/foundry-module/src/queries.ts:1753-1756 | The update carries `name` and `folder` (from `parent`) exactly when each is not undefined. A `null` parent is passed through. |
| Handlers.Applied | packages/foundry-module/src/queries.ts:1758-1764 | An update never changes a folder's id or type. |
| Handlers.IndexIds | packages/foundry-module/src/queries.ts:1716 | There is one id per index entry. |
| Handlers.ExportReply | packages/foundry-module/src/queries.ts:1725-1732 | The reply reports success with the exported and cleared counts. |
| Handlers.ExportRecords | packages/foundry-module/src/queries.ts:1714-1727 | The pack index is read first exactly when `clearFirst` is truthy. The last call creates the records. `exported` is their number. |
| Handlers.CreateRecords | packages/foundry-module/src/queries.ts:1723 | Creation is one call with all records. |
| Handlers.FolderIdFor | packages/foundry-module/src/queries.ts:1826-1841 | Folder resolution makes no call, or exactly one folder creation with the requested name and type, after the calls already made. |
| Handlers.PageIds | packages/foundry-module/src/queries.ts:1862 | There is one `{id, name}` entry per page, in order, copying that page's id and name. |
| Handlers.SizeOf | packages/foundry-module/src/queries.ts:1861 | `size` is a collection's element count, and reading it off `null` or `undefined` throws the `size` read error. |
| Handlers.JournalReply | packages/foundry-module/src/queries.ts:1858-1863 | Describing a created journal succeeds exactly when its pages are a collection with no nullish page. Nullish pages fail the `size` read, pages of another kind have no `map`, and a nullish page fails its `id` read. A reply copies id and name and its page count equals the number of page id entries. |
| Handlers.TableReply | packages/foundry-module/src/queries.ts:1969-1974 | Describing a created table fails exactly when its results are nullish, with the `size` read error. A reply copies id, name and formula, and counts a collection of results. |
| Handlers.WallsReply | packages/foundry-module/src/queries.ts:2327-2330 | Describing the created walls succeeds exactly when they are an array with no nullish wall. Nullish fails the `length` read, another value has no `map`, and a nullish wall fails its `id` read. A reply's count equals the number of wall ids. |
| Handlers.DirectoryFailure | packages/foundry-module/src/queries.ts:2052-2057 | The directory `catch` absorbs every `Error`. A thrown `null` or `undefined` fails its `message` read, and a message that is not a string, an array or missing has no `includes`. |
| Handlers.FirstStop | packages/foundry-module/src/queries.ts:2048-2058 | The loop stops at the first directory whose failure the `catch` does not absorb, and at none when no directory stops it. |
| Handlers.UploadInto | packages/foundry-module/src/queries.ts:2061-2073 | One upload call, and a reply only from a non-nullish response, reporting success, the filename and the response's path. |
| Handlers.UploadIsOnlyUpload | packages/foundry-module/src/queries.ts:2042-2073 | The only upload call the file upload adds is the upload of its checked arguments. |
| Handlers.WallIds | packages/foundry-module/src/queries.ts:2329 | There is one wall id per created wall, in order, each that wall's `id`. |
| Handlers.DirectoryCalls | packages/foundry-module/src/queries.ts:2048-2051 | There is one directory creation per path, in order. |
| Handlers.JobReply | packages/foundry-module/src/queries.ts:917-939 | Success is the boolean `success` if there is one, else `status === 'success'`. A failure carries error, else message, else the fixed text, and its status defaults with `??` to `error`. A success's status defaults to `success`. |
| Handlers.RunMapJob | packages/foundry-module/src/queries.ts:888-1026 | The map-job handlers make exactly one call to the map backend with the checked arguments. A response is shaped by `JobReply`; a rejection answers `{error: error.message, success: false}`, and the handler throws exactly when the backend rejects with `null` or `undefined`. |
| Handlers.GuardBeforeEverything | packages/foundry-module/src/queries.ts:17-23 | A non-GM caller of a guarded handler gets `Access denied` with no call made. The exception is a generated-map upload with null data, which throws first. |
| Handlers.CompendiumUpdateGuard | packages/foundry-module/src/queries.ts:2495-2497 | The compendium-entry update throws `Only GM can update compendium entries` to a non-GM caller, with no call made. |
| Handlers.PingAnswersEveryone | packages/foundry-module/src/queries.ts:363-372 | Ping answers every caller with no call made. |
| Handlers.InvalidIsWrapped | packages/foundry-module/src/queries.ts:1156-1166 | For a GM, a failed check of a wrapping handler throws `Failed to <label>: <message>`, after the state check if the handler makes one. |
| Handlers.StateCheckFirst | packages/foundry-module/src/queries.ts:1154 | When the Foundry state check throws, the handler fails with that error, and the state check is the only call made. |
| Handlers.EmptyExportTouchesNoPack | packages/foundry-module/src/queries.ts:1690-1696 | An export with no documents answers `exported: 0` and makes no call. |
| Handlers.ExportCreatesCleanedRecords | packages/foundry-module/src/queries.ts:1703-1727 | A successful export creates exactly the cleaned records of the collected documents. `exported` is their number. |
| Handlers.UndefinedWallsFail | packages/foundry-module/src/queries.ts:2325-2333 | Walls answered as `undefined` fail the handler with the wrapped `length` read error, after the one creation call, instead of counting zero walls. |
| Handlers.NullRejectionThrows | packages/foundry-module/src/queries.ts:936-941 | A map backend that rejects with `null` makes the handler throw `Cannot read properties of null (reading 'message')`. |
| Handlers.UploadWalksDirectories | packages/foundry-module/src/queries.ts:2042-2067 | If no directory failure stops it, an upload creates every directory of the chain of the trimmed path, in order, then uploads the file there. Otherwise the first stopping directory is the last call, and the handler fails wrapped with that failure's message. |
| Handlers.UploadSendsBase64 | packages/foundry-module/src/queries.ts:2031-2061 | Every upload call the file upload makes carries the handler's `base64data` field as its content. |
| Handlers.MapUploadSendsImageData | packages/foundry-module/src/queries.ts:1066-1112 | Every upload call the map upload makes carries the handler's `imageData` field as its content. |
| Js.OrCoalesceDisagreement | packages/foundry-module/src/queries.ts:1914-1915 | `x \|\| d` and `x ?? d` differ exactly when `x` is 0, `''` or `false` and not `d`. |
| Js.MessageRead | packages/foundry-module/src/queries.ts:936-941 | `error.message` is an `Error`'s message or another thrown value's `message` property, and throws exactly when the thrown value is `null` or `undefined`. |
| Js.NatDigitsRoundTrip | packages/foundry-module/src/queries.ts:1731 | The decimal text of a count reads back as the count. |
| Js.TrimIsCore | packages/foundry-module/src/queries.ts:908-909 | A trimmed string is one contiguous piece of the input that neither starts nor ends with whitespace, and everything cut on either side is whitespace. |
| Strings.SplitPieces | packages/foundry-module/src/queries.ts:2046 | No piece of split contains the separator. There is a single piece exactly when the separator is absent. |
| Strings.JoinSplit | packages/foundry-module/src/queries.ts:2046-2049 | Joining the pieces of split with the separator gives back the string. |
| Strings.SplitLast | packages/foundry-module/src/queries.ts:2008 | The last piece is a separator-free suffix preceded by the last separator. |
| Strings.LowerAscii | packages/foundry-module/src/queries.ts:2008 | Lower-casing maps each character and keeps the length. |
| Zod.Combine | packages/mcp-server/src/tools/document-management.ts:256-265 | An object parse is clean exactly when it and all its parts are clean. It aborts exactly when a part aborted. Its issues are its own followed by its parts', in order. |
| Zod.ObjectClean | packages/mcp-server/src/tools/document-management.ts:256-263 | `z.object` is clean exactly when the input is an object and every field parse is clean. |
| Zod.ObjectProp | packages/mcp-server/src/tools/document-management.ts:256-265 | Each declared field of a parsed object holds its field parse's value. |
| Zod.ObjectEntry | packages/mcp-server/src/tools/document-management.ts:256-265 | A declared field is present in the parsed object exactly when its value is defined or the key was given. |
| Zod.AssembleOtherKey | packages/mcp-server/src/tools/document-management.ts:258-261 | An undeclared key survives exactly under `.passthrough()`, unchanged. |
| Zod.ArrayClean | packages/mcp-server/src/tools/document-management.ts:309-312 | `z.array` is clean exactly when the input is an array of the right length whose elements all parse cleanly. |
| DocumentTools.DocumentTypeEnum | packages/mcp-server/src/tools/document-management.ts:257 | The document-type enum accepts exactly `Actor` and `Item`. |
| DocumentTools.NameAndTypeClean | packages/mcp-server/src/tools/document-management.ts:258-261 | The document object parses exactly when it is an object with non-empty string name and type, and then it passes through unchanged. |
| DocumentTools.CreateDocumentAccepts | packages/mcp-server/src/tools/document-management.ts:256-265 | Create-document parses exactly when the type is `Actor` or `Item`, the data has non-empty name and type, and any folder name is a string. The data is passed on unchanged. |
| DocumentTools.CreateDocumentResponse | packages/mcp-server/src/tools/document-management.ts:287-300 | The create-document response needs a result. It copies id and name, with the message `Created <type> "<name>" (ID: <id>)`. |
| DocumentTools.HandleCreateDocument | packages/mcp-server/src/tools/document-management.ts:255-304 | An unparsed call is rejected without a query. A parsed one sends exactly one `foundry-mcp-bridge.createDocument` query. |
| DocumentTools.BatchCreateAccepts | packages/mcp-server/src/tools/document-management.ts:307-316 | Batch creation parses exactly when the type is valid, and `documents` is a non-empty array of objects with non-empty name and type. |
| DocumentTools.DocumentsClean | packages/mcp-server/src/tools/document-management.ts:309-312 | The documents array is clean exactly when it is a non-empty array of such objects. |
| DocumentTools.BatchCreateResponse | packages/mcp-server/src/tools/document-management.ts:336-342 | The response copies `created` and `results`, echoes the document type, and has the message `Created <n> <type>(s)`. |
| DocumentTools.HandleBatchCreate | packages/mcp-server/src/tools/document-management.ts:306-346 | It is rejected exactly when the parse fails. Otherwise it sends one `batchCreateDocuments` query. |
| DocumentTools.UpdateDocumentAccepts | packages/mcp-server/src/tools/document-management.ts:349-363 | Update-document parses exactly when the type is valid, `documentId` is non-empty, every given part has its type, and one of updates, addItems or removeItemIds is truthy. |
| DocumentTools.ItemsClean | packages/mcp-server/src/tools/document-management.ts:353-356 | `addItems` is clean exactly when it is absent or an array of objects with non-empty name and type. |
| DocumentTools.IdsClean | packages/mcp-server/src/tools/document-management.ts:357 | `removeItemIds` is clean exactly when it is absent or an array of non-empty strings. |
| DocumentTools.UpdateTruthiness | packages/mcp-server/src/tools/document-management.ts:358-361 | The refinement reads the parsed object, and is true there exactly when it is true of the raw arguments. |
| DocumentTools.UpdateMessage | packages/mcp-server/src/tools/document-management.ts:388-407 | The method's pushes build the parts joined with `'. '`. |
| DocumentTools.UpdateMessageShape | packages/mcp-server/src/tools/document-management.ts:388-407 | The message is `Updated <type> "<name>" (ID: <id>)`, followed by `. Fields updated: …`, `. Items added: …` and `. Items removed: …`, each exactly when that result field is truthy. |
| DocumentTools.UpdateDocumentResponse | packages/mcp-server/src/tools/document-management.ts:399-408 | The response copies id, name, the document type and the three change fields, with the joined message. |
| DocumentTools.HandleUpdateDocument | packages/mcp-server/src/tools/document-management.ts:348-412 | It is rejected exactly when the parse fails. Otherwise it sends one `updateDocument` query. |
| DocumentTools.DeleteDocumentAccepts | packages/mcp-server/src/tools/document-management.ts:415-420 | Delete-document parses exactly when the type is valid and the id is non-empty. |
| DocumentTools.DeleteDocumentResponse | packages/mcp-server/src/tools/document-management.ts:436-442 | The response copies the id and name, with the message `Deleted <type> "<name>" (ID: <id>)`. |
| DocumentTools.HandleDeleteDocument | packages/mcp-server/src/tools/document-management.ts:414-446 | It is rejected exactly when the parse fails. Otherwise it sends one `deleteDocument` query. |
| DocumentTools.BrowseFilesDefaults | packages/mcp-server/src/tools/document-management.ts:449-455 | Browse-files parses exactly when source is absent, `public` or `data`, target is an optional string and extensions an optional string array. Source defaults to `public` and target to `''`. |
| DocumentTools.BrowseFilesResponse | packages/mcp-server/src/tools/document-management.ts:466-472 | The response needs `files` and `dirs`. It copies them with their lengths as the counts. |
| DocumentTools.HandleBrowseFiles | packages/mcp-server/src/tools/document-management.ts:448-476 | It is rejected exactly when the parse fails. Otherwise it sends one `browseFiles` query. |
| DocumentTools.CreateFolderParent | packages/mcp-server/src/tools/document-management.ts:479-494 | Create-folder parses exactly when name and type are non-empty and parent is an optional string. An omitted or empty parent is sent as `null`. |
| DocumentTools.CreateFolderResponse | packages/mcp-server/src/tools/document-management.ts:496-503 | The response copies id, name, type and parent from the result. |
| DocumentTools.HandleCreateFolder | packages/mcp-server/src/tools/document-management.ts:478-507 | It is rejected exactly when the parse fails. Otherwise it sends one `createFolder` query. |
| DocumentTools.ListFoldersAccepts | packages/mcp-server/src/tools/document-management.ts:510-514 | List-folders parses exactly when `type` is an optional string. |
| DocumentTools.ListFoldersResponse | packages/mcp-server/src/tools/document-management.ts:523-526 | The response needs `folders`. It copies them, with their length as `count`. |
| DocumentTools.HandleListFolders | packages/mcp-server/src/tools/document-management.ts:509-530 | It is rejected exactly when the parse fails. Otherwise it sends one `listFolders` query. |
| DocumentTools.DeleteFolderDefaults | packages/mcp-server/src/tools/document-management.ts:533-538 | Delete-folder parses exactly when the id is non-empty and `deleteContents` is an optional boolean, which defaults to `false`. |
| DocumentTools.DeleteFolderMessageSuffix | packages/mcp-server/src/tools/document-management.ts:552 | The message ends in ` and all contents` exactly when `deleteContents` is set. |
| DocumentTools.DeleteFolderResponse | packages/mcp-server/src/tools/document-management.ts:548-553 | The response copies the id and name, with that message. |
| DocumentTools.HandleDeleteFolder | packages/mcp-server/src/tools/document-management.ts:532-557 | It is rejected exactly when the parse fails. Otherwise it sends one `deleteFolder` query. |
| DocumentTools.ExportDefaults | packages/mcp-server/src/tools/document-management.ts:560-567 | Export parses exactly when folder and pack ids are non-empty and the flags are optional booleans. `recursive` defaults to `true` and `clearFirst` to `false`. |
| DocumentTools.ExportResponse | packages/mcp-server/src/tools/document-management.ts:579-585 | The response copies exported, folder name, pack id and message. |
| DocumentTools.HandleExport | packages/mcp-server/src/tools/document-management.ts:559-589 | It is rejected exactly when the parse fails. Otherwise it sends one `exportFolderToCompendium` query. |
| DocumentTools.UpdateFolderAccepts | packages/mcp-server/src/tools/document-management.ts:592-598 | Update-folder parses exactly when the id is non-empty, the name is an optional string, and the parent is an optional string or `null`. |
| DocumentTools.UpdateFolderResponse | packages/mcp-server/src/tools/document-management.ts:609-616 | The response copies id, name, type and parent, with the message `Updated folder "<name>" (ID: <id>)`. |
| DocumentTools.HandleUpdateFolder | packages/mcp-server/src/tools/document-management.ts:591-620 | It is rejected exactly when the parse fails. Otherwise it sends one `updateFolder` query. |
| AdventureTools.PageClean | packages/mcp-server/src/tools/adventure-import.ts:259-265 | A page parses exactly when it has a non-empty name, type `text` or `image`, and optional string content, src and caption. |
| AdventureTools.PagesClean | packages/mcp-server/src/tools/adventure-import.ts:269 | The pages parse exactly when they form a non-empty array of such pages. |
| AdventureTools.JournalAccepts | packages/mcp-server/src/tools/adventure-import.ts:267-275 | Create-journal-entry parses exactly when the name is non-empty, there is at least one valid page, folder and folder name are optional strings, and ownership is an optional object. |
| AdventureTools.JournalResponse | packages/mcp-server/src/tools/adventure-import.ts:299-306 | The response copies id, name, page count and page ids. |
| AdventureTools.HandleJournal | packages/mcp-server/src/tools/adventure-import.ts:258-310 | It is rejected exactly when the parse fails. Otherwise it sends one `createJournalEntryMultiPage` query. |
| AdventureTools.RangeClean | packages/mcp-server/src/tools/adventure-import.ts:314 | A range parses exactly when it is an array of exactly two numbers. |
| AdventureTools.ResultDefaults | packages/mcp-server/src/tools/adventure-import.ts:313-321 | A result parses exactly when its fields have their types. Type defaults to 0 and weight to 1. |
| AdventureTools.ResultsClean | packages/mcp-server/src/tools/adventure-import.ts:327 | The results parse exactly when they form a non-empty array of valid results. |
| AdventureTools.RollTableAccepts | packages/mcp-server/src/tools/adventure-import.ts:323-335 | Create-roll-table parses exactly when name and formula are non-empty, there is at least one valid result, and the optional fields have their types. |
| AdventureTools.RollTableDefaults | packages/mcp-server/src/tools/adventure-import.ts:326-332 | Description defaults to `''`, and replacement and display-roll to `true`. |
| AdventureTools.RollTableResponse | packages/mcp-server/src/tools/adventure-import.ts:362-369 | The response copies id, name, formula and result count. |
| AdventureTools.HandleRollTable | packages/mcp-server/src/tools/adventure-import.ts:312-373 | It is rejected exactly when the parse fails. Otherwise it sends one `createRollTable` query. |
| AdventureTools.UploadAccepts | packages/mcp-server/src/tools/adventure-import.ts:376-382 | Upload-file parses exactly when filename, data and target path are non-empty strings. |
| AdventureTools.UploadResponse | packages/mcp-server/src/tools/adventure-import.ts:402-407 | The response copies path and filename, with the message `Uploaded "<file>" to <path>`. |
| AdventureTools.HandleUpload | packages/mcp-server/src/tools/adventure-import.ts:375-411 | It is rejected exactly when the parse fails. Otherwise it sends one `uploadFile` query. |
| AdventureTools.ViewPositionClean | packages/mcp-server/src/tools/adventure-import.ts:424-428 | The view position parses exactly when it is an object with numeric x and y and an optional numeric scale. |
| AdventureTools.SceneAccepts | packages/mcp-server/src/tools/adventure-import.ts:414-435 | Create-scene parses exactly when name and background image are non-empty and every optional field has its type. |
| AdventureTools.SceneDefaults | packages/mcp-server/src/tools/adventure-import.ts:417-432 | Grid size defaults to 100, grid type to 1, padding to 0.25, global light to `true`, grid units to `ft` and grid distance to 5. Width and height stay absent when omitted. |
| AdventureTools.SceneWidthLeftOut | packages/mcp-server/src/tools/adventure-import.ts:419 | An omitted width stays absent from the parsed scene. |
| AdventureTools.SceneHeightLeftOut | packages/mcp-server/src/tools/adventure-import.ts:420 | An omitted height stays absent from the parsed scene. |
| AdventureTools.SceneResponse | packages/mcp-server/src/tools/adventure-import.ts:454-462 | The response copies id, name, width, height and grid size, with the message `Created scene "<name>" (<w>x<h>, grid: <g>px) (ID: <id>)`. |
| AdventureTools.HandleScene | packages/mcp-server/src/tools/adventure-import.ts:413-466 | It is rejected exactly when the parse fails. Otherwise it sends one `createScene` query with the whole parsed object. |
| ToolRuns.Invoke | packages/mcp-server/src/tools/document-management.ts:265-303 | A failed parse is rejected with its issues and nothing sent. A clean parse sends one query, and answers exactly when the bridge and the response shaping both return. |
| ToolRuns.Reading | packages/mcp-server/src/tools/document-management.ts:290-291 | Reading fields of a nullish bridge result throws the read's TypeError. Otherwise it yields the response. |
| ToolRuns.LengthOf | packages/mcp-server/src/tools/document-management.ts:470-471 | `.length` throws on a nullish value and is the length of an array. |
| ToolDefinitions.DocumentTablesWellFormed | packages/mcp-server/src/tools/document-management.ts:22-252 | Every document-management table is an object schema, and its required names are declared properties. |
| ToolDefinitions.AdventureTablesWellFormed | packages/mcp-server/src/tools/adventure-import.ts:22-255 | The same holds for the adventure-import tables, the nested page and result schemas included. |
| ToolDefinitions.DocumentRequiredEnforced | packages/mcp-server/src/tools/document-management.ts:24-124 | For the document tools, leaving out a name the table marks required makes the parse fail. |
| ToolDefinitions.FolderRequiredEnforced | packages/mcp-server/src/tools/document-management.ts:149-251 | So it does for the folder tools. |
| ToolDefinitions.AdventureRequiredEnforced | packages/mcp-server/src/tools/adventure-import.ts:24-254 | So it does for every adventure-import tool. |
| ToolDefinitions.BrowseFilesTargetDefaults | packages/mcp-server/src/tools/document-management.ts:146 | Browse-files marks `target` required, yet its parse accepts `{}` with target `''`. |
| Wiring.ToolQueriesListed | packages/foundry-module/src/queries.ts:102-117 | The query of each of the fourteen tools is registered for the handler meant for it. |
| Wiring.ToolQueriesAnswered | packages/mcp-server/src/tools/document-management.ts:275 | Under the id `foundry-mcp-bridge`, every tool's query is in the registered table and bound to its handler. Dispatching it runs that handler. |

## Left out

- `FoundryDataAccess`, `ComfyUIManager`, the Foundry document APIs and `foundryClient.query` are not part of this model. Each call to them is an entry in the call sequence, answered by the host function or by the bridge function.
- The handlers whose work is a single data-access call are modelled by their guard and checks followed by that one call, whose answer is the reply (`Handlers.Delegated`). The four that reshape the answer (`listActors`, `listCreaturesByCriteria`, `browseFiles`, `createFolder`) have their reshaping in `Handlers.Reshaped`. The payloads of `browseFiles` (its source, target and extensions options) and `createFolder` (its name, type and parent) are the checked arguments of that call, not the exact objects the code builds.
- Handlers.Delegated: scene creation, notes, lights and tokens (`createScene`, `placeNotes`, `createLights`, `createTokens`) are modelled only by their guard and field checks followed by one call whose answer is the reply. Their scene lookup, the payloads they build, the image-dimension loading, thumbnail and folder code of `handleCreateScene`, and the summaries they return are not modelled.
- Base64 decoding (`atob`), `Blob`/`File` construction and image loading are left out. An upload call carries the directory, the name, the type and the base64 text the file is decoded from, not the decoded bytes.
- A Foundry collection (a journal's `pages`, a roll table's `results`) is represented by the array of its elements: its `size` is their count and its `map` maps over them. Collection methods other than `size` and `map` are not modelled.
- The text of a TypeError raised by calling a missing method (`journal.pages.map is not a function`, `created.map is not a function`, `dirError.message?.includes is not a function`) is V8's rendering of the source expression. A build that renames or rewrites that expression reports a different text.
- `Date.now()`, `game.version`, `game.world` beyond its id, and the map-quality setting are left out or are host fields, because they are clocks, environment or settings.
- Floating-point values are opaque `Frac` texts (for example the scene padding default 0.25), because JavaScript doubles are not modelled.
- `console.*`, `this.logger.*` and `ErrorHandler.handleToolError` are left out, because they only log. A failing bridge call or response becomes `ToolFailed(tool, operation, error)`.
- Promises and async ordering are left out. Handlers run sequentially.
- Registry.QueryRegistry.RegisteredMethods: the result is a set, so the key order of `Object.keys` is not modelled.
- Registry.QueryRegistry.HandleQuery: an answer is a value. How the transport serialises `undefined` fields is not modelled.
- Validation.Validate: for the file upload it runs the corrected MIME lookup (`Validation.UploadChecks`), and so do `Handlers.Run` and `Registry.QueryRegistry.HandleQuery`, which dispatch through it. A file whose extension is `constructor` or `__proto__` is refused there, although the code as written uploads it. That behaviour is modelled separately by `Validation.UploadChecksAsWritten` (see Findings).
- Handlers.FolderUpdateDescribed: a given parent id is reported as the new parent. The source reports `folder.folder?.id || null` after the update, as Foundry resolves it, so an id that names no folder reports `null` there. `Handlers.Applied` shares this.
- Registry.QueryRegistry.HandleQuery: `CONFIG.queries` is taken to be a plain object whose only inherited properties are the eleven methods of `Object.prototype`. For `constructor`, primitive data is answered as itself rather than as its wrapper object. The `TypeError` text of the other inherited methods is the one V8 gives for a missing receiver, `Cannot convert undefined or null to object`, and is not exact for every method.
- Validation.UploadFileChecks: states the corrected MIME lookup. As written, the lookup also finds inherited properties (see Findings). The behaviour as written is `Validation.UploadChecksAsWritten`, with `Validation.UploadChecksAsWrittenDiffers` relating the two.
- Validation.UploadFileForwards: states the forwarding with the corrected lookup, so an extension such as `constructor` is refused here but forwarded by the code as written (`Validation.UploadTargetAsWritten`).
- Validation.UploadFileArguments: the argument shape is that of the corrected upload. As written, an inherited extension forwards the text of an inherited property as the MIME type. That text is still a string, so the shape holds for the code as written too (`Validation.UploadTargetAsWritten`).
- Validation.UploadTargetForwards: states the corrected lookup. The lookup as written is `Validation.UploadTargetAsWritten`, and `Validation.UploadTargetAsWrittenDiffers` shows where the two part. `Blob` construction, and the lower-casing of its type, are not modelled.
- ToolRuns.LengthAboveZero: a `length` that is not a number (a string such as `'3'`, a boolean) is taken as not above zero. JavaScript's `>` would convert it to a number first. Numbers are integers in this model, so a fractional length is not represented.
- Zod.Combine: issues carry their path and kind, but not zod's default message texts.
- ToolDefinitions.DocumentRequiredEnforced: the tables keep names, types, nesting and required lists, not the description texts.
- The link between a tool and its parser goes by table position (`DocumentParse`, `AdventureParse`), not by the MCP server's tool routing. That routing is not part of this model.
- `scripts/mcp-schema-smoke-test.mjs` is left out, because it is file-system and dynamic-import plumbing.

## Findings

| source | as written | input that shows it | evidently intended | confidence | as-written member | corrected member |
|---|---|---|---|---|---|---|
| packages/foundry-module/src/queries.ts:2026-2028 | `mimeTypes[ext]` reads a plain object literal, so inherited properties of `Object.prototype` are found too. | A file named `map.constructor`: its extension `constructor` yields the truthy `Object` constructor, and the upload proceeds with that as its MIME type. | Only the fourteen listed extensions are accepted, and `map.constructor` fails with `Unsupported file extension`. | not executed | Files.InheritedExtensionAccepted | Files.MimeTypeListed |

The validation of the file upload (`Validation.UploadFileChecks`) uses the corrected lookup
`Files.MimeType`. `Files.LookupsAgreeOffPrototype` shows that the two lookups agree on every
extension except `constructor` and `__proto__`. The upload step as written is
`Validation.UploadTargetAsWritten`, and `Validation.UploadTargetAsWrittenDiffers` shows that it
forwards those two extensions where the corrected step refuses them.
