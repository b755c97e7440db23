/**
 * The campaign document and the game state of the campaign viewer
 * (src/types/campaign.ts and src/types/game.ts).
 *
 * Numbers are JavaScript numbers in the source; they are integers here. Members that
 * hold free-form or deeply structured data that no core operation inspects (NPCs,
 * encounters, interactions, requirements, completion conditions, global data, party
 * members, inventory items, quests, world-state values) are `Opaque` payloads.
 */
module CampaignTypes {

  import opened Wrappers

  /** A value whose structure no modelled operation looks at, kept as its JSON text. */
  datatype Opaque = Opaque(json: string)

  datatype Difficulty = Beginner | Intermediate | Advanced | Expert

  datatype SceneType = Town | Exploration | Combat | Dungeon | Social | Puzzle

  datatype TransitionTrigger = Automatic | QuestCompleted | AreaExplored | ItemFound | ChoiceMade

  datatype Position = Position(x: int, y: int)

  /** An edge to the scene named `to`; `caption` is the source's `label` field (a reserved
      word here). The trigger and requirements are declared by the document but evaluated
      nowhere in the system. */
  datatype Transition = Transition(
    to: string,
    trigger: TransitionTrigger,
    position: Position,
    caption: string,
    requirements: Option<seq<Opaque>>)

  datatype Scene = Scene(
    id: string,
    sceneType: SceneType,
    title: string,
    background: string,
    music: Option<string>,
    description: string,
    npcs: Option<seq<Opaque>>,
    encounters: Option<seq<Opaque>>,
    interactions: Option<seq<Opaque>>,
    transitions: seq<Transition>,
    requiredItems: Option<seq<string>>,
    completionConditions: Option<seq<Opaque>>)

  datatype Campaign = Campaign(
    campaignId: string,
    title: string,
    description: string,
    difficulty: Difficulty,
    estimatedDuration: string,
    playerLevels: (int, int),
    scenes: seq<Scene>,
    globalData: Opaque)

  datatype CampaignProgress = CampaignProgress(
    completedScenes: seq<string>,
    discoveredClues: seq<string>,
    npcRelationships: map<string, int>,
    choicesMade: map<string, string>,
    timeElapsed: int)

  /** The session record; `currentCampaign` and `currentScene` are `string | null`. */
  datatype GameState = GameState(
    currentCampaign: Option<string>,
    currentScene: Option<string>,
    party: seq<Opaque>,
    inventory: seq<Opaque>,
    questLog: seq<Opaque>,
    worldState: map<string, Opaque>,
    campaignProgress: CampaignProgress)

  /** The empty progress record of a fresh or reset session. */
  const EmptyProgress: CampaignProgress := CampaignProgress([], [], map[], map[], 0)

  /** The game state of a fresh or reset session. */
  const InitialGameState: GameState := GameState(None, None, [], [], [], map[], EmptyProgress)
}
