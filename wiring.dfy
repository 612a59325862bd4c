/** How the two halves meet: every query a server tool sends is the full key of a handler the
    Foundry module registers, so the bridge answers it with that handler. */
module Wiring {
  import Js
  import Ops
  import Registry
  import Handlers
  import ToolRuns

  /** The position in `registerHandlers` of the name the i-th tool sends. */
  function Position(i: nat): nat
    requires i < 14
  {
    match i
    case 8 => 50   // exportFolderToCompendium is registered after updateFolder
    case 9 => 49
    case _ => 41 + i
  }

  /** The name of the query the i-th tool sends. */
  function ToolQuery(i: nat): string
    requires i < 14
  {
    match i
    case 0 => "createDocument"
    case 1 => "batchCreateDocuments"
    case 2 => "updateDocument"
    case 3 => "deleteDocument"
    case 4 => "browseFiles"
    case 5 => "createFolder"
    case 6 => "listFolders"
    case 7 => "deleteFolder"
    case 8 => "exportFolderToCompendium"
    case 9 => "updateFolder"
    case 10 => "createJournalEntryMultiPage"
    case 11 => "createRollTable"
    case 12 => "uploadFile"
    case _ => "createScene"
  }

  /** The handler the i-th tool's query is meant for. */
  function ToolOp(i: nat): Ops.Op
    requires i < 14
  {
    match i
    case 0 => Ops.CreateDocument
    case 1 => Ops.BatchCreateDocuments
    case 2 => Ops.UpdateDocument
    case 3 => Ops.DeleteDocument
    case 4 => Ops.BrowseFiles
    case 5 => Ops.CreateFolder
    case 6 => Ops.ListFolders
    case 7 => Ops.DeleteFolder
    case 8 => Ops.ExportFolderToCompendium
    case 9 => Ops.UpdateFolder
    case 10 => Ops.CreateJournalEntryMultiPage
    case 11 => Ops.CreateRollTable
    case 12 => Ops.UploadFile
    case _ => Ops.CreateScene
  }

  /** Each of those names is registered, at Position(i), for the handler meant. */
  lemma ToolQueriesListed(i: nat)
    requires i < 14
    ensures Ops.Registration(Position(i)) == (ToolQuery(i), ToolOp(i))
  {
  }

  /** With the module registered under the id the server uses, the query of every tool
      is present in the table, bound to the handler meant for it, and dispatching it runs
      that handler. */
  lemma ToolQueriesAnswered(r: Registry.QueryRegistry, base: map<string, Registry.Entry>, i: nat,
                            host: Handlers.Host, params: Js.Value)
    requires r.moduleId == ToolRuns.BridgeModule
    requires r.queries == Registry.Registered(base, r.moduleId, Registry.Registrations())
    requires i < 14
    ensures ToolRuns.QueryName(ToolQuery(i)) in r.queries
    ensures r.queries[ToolRuns.QueryName(ToolQuery(i))] == Registry.Handler(ToolOp(i))
    ensures r.HandleQuery(ToolRuns.QueryName(ToolQuery(i)), host, params)
      == Registry.Answer(Handlers.Run(ToolOp(i), host, params).outcome)
  {
    var p := Position(i);
    var regs := Registry.Registrations();
    Ops.ServerNamesLast();
    forall j | p < j < |regs|
      ensures regs[j].0 != regs[p].0
    {
      assert regs[j] == Ops.Registration(j);
    }
    Registry.LastRegistrationWins(base, r.moduleId, regs, p);
    ToolQueriesListed(i);
  }
}
