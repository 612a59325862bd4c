/** The query handlers of the Foundry module: which handler each `CONFIG.queries` key is bound
    to, the operation named in each handler's `Failed to <operation>: ` error prefix, and
    which handlers check the GM and the world state first. */
module Ops {

  /** One constructor per `handle*` method of `QueryHandlers`. */
  datatype Op =
    | GetCharacterInfo
    | ListActors
    | SearchCompendium
    | ListCreaturesByCriteria
    | GetAvailablePacks
    | ListCompendiumEntries
    | GetActiveScene
    | ListScenes
    | SwitchScene
    | GetWorldInfo
    | Ping
    | CreateActorFromCompendium
    | GetCompendiumDocumentFull
    | AddActorsToScene
    | ValidateWritePermissions
    | CreateJournalEntry
    | ListJournals
    | GetJournalContent
    | UpdateJournalContent
    | RequestPlayerRolls
    | GetEnhancedCreatureIndex
    | UpdateCampaignProgress
    | SetActorOwnership
    | GetActorOwnership
    | GetFriendlyNpcs
    | GetPartyCharacters
    | GetConnectedPlayers
    | FindPlayers
    | FindActor
    | MoveToken
    | UpdateToken
    | DeleteTokens
    | GetTokenDetails
    | ToggleTokenCondition
    | GetAvailableConditions
    | GenerateMap
    | CheckMapStatus
    | CancelMapJob
    | UploadGeneratedMap
    | UseItem
    | SearchCharacterItems
    | CreateDocument
    | BatchCreateDocuments
    | UpdateDocument
    | DeleteDocument
    | BrowseFiles
    | CreateFolder
    | ListFolders
    | DeleteFolder
    | UpdateFolder
    | ExportFolderToCompendium
    | CreateJournalEntryMultiPage
    | CreateRollTable
    | UploadFile
    | CreateScene
    | PlaceNotes
    | CreateWalls
    | CreateLights
    | CreateTokens
    | UpdateCompendiumEntry

  /** Number of `CONFIG.queries` assignments `registerHandlers` makes. */
  const RegistrationCount: nat := 66

  /** The i-th assignment of `registerHandlers`: the key suffix after `MODULE_ID.` and the
      handler bound to it. The last six are kebab-case aliases of the token handlers. */
  function Registration(i: nat): (string, Op)
    requires i < RegistrationCount
  {
    match i
    case 0 => ("getCharacterInfo", GetCharacterInfo)
    case 1 => ("listActors", ListActors)
    case 2 => ("searchCompendium", SearchCompendium)
    case 3 => ("listCreaturesByCriteria", ListCreaturesByCriteria)
    case 4 => ("getAvailablePacks", GetAvailablePacks)
    case 5 => ("listCompendiumEntries", ListCompendiumEntries)
    case 6 => ("getActiveScene", GetActiveScene)
    case 7 => ("list-scenes", ListScenes)
    case 8 => ("switch-scene", SwitchScene)
    case 9 => ("getWorldInfo", GetWorldInfo)
    case 10 => ("ping", Ping)
    case 11 => ("createActorFromCompendium", CreateActorFromCompendium)
    case 12 => ("getCompendiumDocumentFull", GetCompendiumDocumentFull)
    case 13 => ("addActorsToScene", AddActorsToScene)
    case 14 => ("validateWritePermissions", ValidateWritePermissions)
    case 15 => ("createJournalEntry", CreateJournalEntry)
    case 16 => ("listJournals", ListJournals)
    case 17 => ("getJournalContent", GetJournalContent)
    case 18 => ("updateJournalContent", UpdateJournalContent)
    case 19 => ("request-player-rolls", RequestPlayerRolls)
    case 20 => ("getEnhancedCreatureIndex", GetEnhancedCreatureIndex)
    case 21 => ("updateCampaignProgress", UpdateCampaignProgress)
    case 22 => ("setActorOwnership", SetActorOwnership)
    case 23 => ("getActorOwnership", GetActorOwnership)
    case 24 => ("getFriendlyNPCs", GetFriendlyNpcs)
    case 25 => ("getPartyCharacters", GetPartyCharacters)
    case 26 => ("getConnectedPlayers", GetConnectedPlayers)
    case 27 => ("findPlayers", FindPlayers)
    case 28 => ("findActor", FindActor)
    case 29 => ("moveToken", MoveToken)
    case 30 => ("updateToken", UpdateToken)
    case 31 => ("deleteTokens", DeleteTokens)
    case 32 => ("getTokenDetails", GetTokenDetails)
    case 33 => ("toggleTokenCondition", ToggleTokenCondition)
    case 34 => ("getAvailableConditions", GetAvailableConditions)
    case 35 => ("generate-map", GenerateMap)
    case 36 => ("check-map-status", CheckMapStatus)
    case 37 => ("cancel-map-job", CancelMapJob)
    case 38 => ("upload-generated-map", UploadGeneratedMap)
    case 39 => ("useItem", UseItem)
    case 40 => ("searchCharacterItems", SearchCharacterItems)
    case 41 => ("createDocument", CreateDocument)
    case 42 => ("batchCreateDocuments", BatchCreateDocuments)
    case 43 => ("updateDocument", UpdateDocument)
    case 44 => ("deleteDocument", DeleteDocument)
    case 45 => ("browseFiles", BrowseFiles)
    case 46 => ("createFolder", CreateFolder)
    case 47 => ("listFolders", ListFolders)
    case 48 => ("deleteFolder", DeleteFolder)
    case 49 => ("updateFolder", UpdateFolder)
    case 50 => ("exportFolderToCompendium", ExportFolderToCompendium)
    case 51 => ("createJournalEntryMultiPage", CreateJournalEntryMultiPage)
    case 52 => ("createRollTable", CreateRollTable)
    case 53 => ("uploadFile", UploadFile)
    case 54 => ("createScene", CreateScene)
    case 55 => ("placeNotes", PlaceNotes)
    case 56 => ("createWalls", CreateWalls)
    case 57 => ("createLights", CreateLights)
    case 58 => ("createTokens", CreateTokens)
    case 59 => ("updateCompendiumEntry", UpdateCompendiumEntry)
    case 60 => ("move-token", MoveToken)
    case 61 => ("update-token", UpdateToken)
    case 62 => ("delete-tokens", DeleteTokens)
    case 63 => ("get-token-details", GetTokenDetails)
    case 64 => ("toggle-token-condition", ToggleTokenCondition)
    case 65 => ("get-available-conditions", GetAvailableConditions)
    case _ => ("get-available-conditions", GetAvailableConditions)
  }

  /** The handlers that are not wrapped as `Failed to <operation>: ` (ping, the three map job
      handlers and the generated-map upload, which answer with an error object instead). */
  predicate Wrapped(op: Op) {
    !(op.Ping? || op.GenerateMap? || op.CheckMapStatus? || op.CancelMapJob? || op.UploadGeneratedMap?)
  }

  /** The operation named in the handler's error prefix. */
  function Label(op: Op): string
    requires Wrapped(op)
  {
    match op
    case GetCharacterInfo => "get character info"
    case ListActors => "list actors"
    case SearchCompendium => "search compendium"
    case ListCreaturesByCriteria => "list creatures by criteria"
    case GetAvailablePacks => "get available packs"
    case ListCompendiumEntries => "list compendium entries"
    case GetActiveScene => "get active scene"
    case ListScenes => "list scenes"
    case SwitchScene => "switch scene"
    case GetWorldInfo => "get world info"
    case CreateActorFromCompendium => "create actor from compendium"
    case GetCompendiumDocumentFull => "get compendium document"
    case AddActorsToScene => "add actors to scene"
    case ValidateWritePermissions => "validate write permissions"
    case CreateJournalEntry => "create journal entry"
    case ListJournals => "list journals"
    case GetJournalContent => "get journal content"
    case UpdateJournalContent => "update journal content"
    case RequestPlayerRolls => "request player rolls"
    case GetEnhancedCreatureIndex => "get enhanced creature index"
    case UpdateCampaignProgress => "update campaign progress"
    case SetActorOwnership => "set actor ownership"
    case GetActorOwnership => "get actor ownership"
    case GetFriendlyNpcs => "get friendly NPCs"
    case GetPartyCharacters => "get party characters"
    case GetConnectedPlayers => "get connected players"
    case FindPlayers => "find players"
    case FindActor => "find actor"
    case MoveToken => "move token"
    case UpdateToken => "update token"
    case DeleteTokens => "delete tokens"
    case GetTokenDetails => "get token details"
    case ToggleTokenCondition => "toggle token condition"
    case GetAvailableConditions => "get available conditions"
    case UseItem => "use item"
    case SearchCharacterItems => "search character items"
    case CreateDocument => "create document"
    case BatchCreateDocuments => "batch create documents"
    case UpdateDocument => "update document"
    case DeleteDocument => "delete document"
    case BrowseFiles => "browse files"
    case CreateFolder => "create folder"
    case ListFolders => "list folders"
    case DeleteFolder => "delete folder"
    case UpdateFolder => "update folder"
    case ExportFolderToCompendium => "export folder to compendium"
    case CreateJournalEntryMultiPage => "create journal entry"
    case CreateRollTable => "create roll table"
    case UploadFile => "upload file"
    case CreateScene => "create scene"
    case PlaceNotes => "place notes"
    case CreateWalls => "create walls"
    case CreateLights => "create lights"
    case CreateTokens => "create tokens"
    case UpdateCompendiumEntry => "update compendium entry"
  }

  /** `this.dataAccess.validateFoundryState()` runs right after the GM check. */
  predicate ChecksState(op: Op) {
    !(op.Ping? || op.CreateJournalEntry? || op.GenerateMap? || op.CheckMapStatus? || op.CancelMapJob?
      || op.UploadGeneratedMap? || op.BrowseFiles? || op.CreateFolder? || op.ListFolders?
      || op.DeleteFolder? || op.ExportFolderToCompendium? || op.UpdateFolder? || op.UploadFile?
      || op.UpdateCompendiumEntry?)
  }

  /** Every handler but `ping` starts with the GM check. */
  predicate Guarded(op: Op) {
    !op.Ping?
  }

  /** `moveToken` (position 29) and its alias `move-token` (position 60) are both bound to the
      token move, and neither key is assigned again later. */
  lemma MoveTokenNamesLast()
    ensures Registration(29) == ("moveToken", MoveToken) && Registration(60) == ("move-token", MoveToken)
    ensures forall j | 29 < j < RegistrationCount :: Registration(j).0 != "moveToken"
    ensures forall j | 60 < j < RegistrationCount :: Registration(j).0 != "move-token"
  {
  }

  /** The queries the server's document and adventure tools send (positions 41 to 54) are not
      assigned again later. */
  lemma ServerNamesLast()
    ensures forall i, j | 41 <= i <= 54 && i < j < RegistrationCount :: Registration(j).0 != Registration(i).0
  {
  }
}
