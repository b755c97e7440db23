/**
 * The campaign session store (src/stores/campaignStore.ts): one object holding the loaded
 * campaign, the current scene, the game state, a loading flag and the last error, and the
 * actions that overwrite them.
 *
 * The fetch of the campaign document is an input (`FetchResult`); the browser's local
 * storage is a `SnapshotSlot` holding a game state or nothing. Each action runs to
 * completion: the awaits inside `loadCampaign` do not interleave with other actions here.
 */
module CampaignStore {

  import opened Wrappers
  import opened CampaignTypes

  /** What fetching and parsing the document `/data/campaigns/<id>.json` gives. */
  datatype FetchResult =
    | Fetched(campaign: Campaign)       // the response was ok and its body parsed
    | NotOk                             // the response was not ok
    | Rejected(message: Option<string>) // fetch or parsing threw: the Error's message, or None for a non-Error value

  /** The message of the TypeError raised by reading `.id` of `scenes[0]` when `scenes` is empty,
      in the wording of V8-based engines (Chrome, Edge, Node); other engines word it differently. */
  const UndefinedSceneMessage: string := "Cannot read properties of undefined (reading 'id')"

  /** A load gets past reading the first scene's id. */
  predicate LoadSucceeds(fetched: FetchResult) {
    fetched.Fetched? && |fetched.campaign.scenes| > 0
  }

  /** The message a failed load leaves in `error`. */
  function LoadErrorMessage(campaignId: string, fetched: FetchResult): string
    requires !LoadSucceeds(fetched)
  {
    match fetched
    case NotOk => "Campaign " + campaignId + " not found"
    case Rejected(message) => if message.Some? then message.value else "Failed to load campaign"
    case Fetched(_) => UndefinedSceneMessage
  }

  /** A JavaScript-truthy `string | null`: present and not empty. */
  predicate Truthy(s: Option<string>) {
    s.Some? && s.value != ""
  }

  /** Position of the first scene whose id is exactly `sceneId`, or `|scenes|` when there is none. */
  function FirstSceneIndex(scenes: seq<Scene>, sceneId: string): (i: nat)
    ensures i <= |scenes|
    ensures forall j :: 0 <= j < i ==> scenes[j].id != sceneId
    ensures i < |scenes| ==> scenes[i].id == sceneId
  {
    if scenes == [] then 0
    else if scenes[0].id == sceneId then 0
    else 1 + FirstSceneIndex(scenes[1..], sceneId)
  }

  /** `scenes.find(s => s.id === sceneId)`: the first scene with exactly that id, if any. */
  function FindScene(scenes: seq<Scene>, sceneId: string): (r: Option<Scene>)
    ensures r.None? <==> forall j :: 0 <= j < |scenes| ==> scenes[j].id != sceneId
    ensures r.Some? ==>
      exists i :: 0 <= i < |scenes| && scenes[i] == r.value && r.value.id == sceneId
        && forall j :: 0 <= j < i ==> scenes[j].id != sceneId
  {
    var i := FirstSceneIndex(scenes, sceneId);
    if i < |scenes| then Some(scenes[i]) else None
  }

  /** The progress after leaving the scene named by `leaving` (the game state's current
      scene): a truthy id is appended to `completedScenes`, even when it is already there. */
  function RecordSceneLeft(progress: CampaignProgress, leaving: Option<string>): (r: CampaignProgress)
    ensures r.completedScenes == progress.completedScenes + (if Truthy(leaving) then [leaving.value] else [])
    ensures r.(completedScenes := progress.completedScenes) == progress
  {
    if Truthy(leaving) then progress.(completedScenes := progress.completedScenes + [leaving.value])
    else progress
  }

  /** The game state after a successful transition to `sceneId`. */
  function EnterScene(g: GameState, sceneId: string): (r: GameState)
    ensures r.currentScene == Some(sceneId)
    ensures r.campaignProgress == RecordSceneLeft(g.campaignProgress, g.currentScene)
    ensures r.(currentScene := g.currentScene, campaignProgress := g.campaignProgress) == g
  {
    g.(currentScene := Some(sceneId), campaignProgress := RecordSceneLeft(g.campaignProgress, g.currentScene))
  }

  /** The game state after successful transitions to each id of `path` in turn. */
  function Walk(g: GameState, path: seq<string>): GameState {
    if path == [] then g else EnterScene(Walk(g, path[..|path| - 1]), path[|path| - 1])
  }

  /** Along successful transitions from a current scene, every scene left is recorded once per
      departure and in order: `completedScenes` grows by exactly one id per transition, with no
      de-duplication, and nothing else in the game state moves except the current scene. */
  lemma {:induction false} WalkRecordsEveryDeparture(g: GameState, path: seq<string>)
    requires Truthy(g.currentScene)
    requires forall k :: 0 <= k < |path| ==> path[k] != ""
    ensures Walk(g, path).currentScene == if path == [] then g.currentScene else Some(path[|path| - 1])
    ensures Walk(g, path).campaignProgress.completedScenes
      == g.campaignProgress.completedScenes + ([g.currentScene.value] + path)[..|path|]
    ensures Walk(g, path).(currentScene := g.currentScene,
                           campaignProgress := g.campaignProgress.(completedScenes := g.campaignProgress.completedScenes))
      == g
    decreases |path|
  {
    if path != [] {
      var p := path[..|path| - 1];
      WalkRecordsEveryDeparture(g, p);
      var w := Walk(g, p);
      assert Truthy(w.currentScene);
      var trail := [g.currentScene.value] + path;
      assert trail[..|path|] == trail[..|p|] + [w.currentScene.value];
      assert ([g.currentScene.value] + p)[..|p|] == trail[..|p|];
    }
  }

  /** `Partial<GameState>`: the fields an update supplies (`None` for a field left out). */
  datatype GameStatePatch = GameStatePatch(
    currentCampaign: Option<Option<string>>,
    currentScene: Option<Option<string>>,
    party: Option<seq<Opaque>>,
    inventory: Option<seq<Opaque>>,
    questLog: Option<seq<Opaque>>,
    worldState: Option<map<string, Opaque>>,
    campaignProgress: Option<CampaignProgress>)

  const EmptyPatch: GameStatePatch := GameStatePatch(None, None, None, None, None, None, None)

  /** The supplied value of a field, or the current one. */
  function Pick<T>(supplied: Option<T>, current: T): T {
    if supplied.Some? then supplied.value else current
  }

  /** `{ ...g, ...patch }`: a shallow merge in which the supplied fields win. */
  function Merge(g: GameState, patch: GameStatePatch): GameState {
    GameState(
      Pick(patch.currentCampaign, g.currentCampaign),
      Pick(patch.currentScene, g.currentScene),
      Pick(patch.party, g.party),
      Pick(patch.inventory, g.inventory),
      Pick(patch.questLog, g.questLog),
      Pick(patch.worldState, g.worldState),
      Pick(patch.campaignProgress, g.campaignProgress))
  }

  /** `{ ...p, ...q }` on patches: the fields of either, those of `q` winning. */
  function Combine(p: GameStatePatch, q: GameStatePatch): GameStatePatch {
    GameStatePatch(
      if q.currentCampaign.Some? then q.currentCampaign else p.currentCampaign,
      if q.currentScene.Some? then q.currentScene else p.currentScene,
      if q.party.Some? then q.party else p.party,
      if q.inventory.Some? then q.inventory else p.inventory,
      if q.questLog.Some? then q.questLog else p.questLog,
      if q.worldState.Some? then q.worldState else p.worldState,
      if q.campaignProgress.Some? then q.campaignProgress else p.campaignProgress)
  }

  /** A merge overwrites exactly the supplied fields: a field takes the patch's value when
      it is supplied and keeps its value otherwise. */
  lemma MergeOverwritesExactlySupplied(g: GameState, patch: GameStatePatch)
    ensures var r := Merge(g, patch);
      && r.currentCampaign == (if patch.currentCampaign.Some? then patch.currentCampaign.value else g.currentCampaign)
      && r.currentScene == (if patch.currentScene.Some? then patch.currentScene.value else g.currentScene)
      && r.party == (if patch.party.Some? then patch.party.value else g.party)
      && r.inventory == (if patch.inventory.Some? then patch.inventory.value else g.inventory)
      && r.questLog == (if patch.questLog.Some? then patch.questLog.value else g.questLog)
      && r.worldState == (if patch.worldState.Some? then patch.worldState.value else g.worldState)
      && r.campaignProgress == (if patch.campaignProgress.Some? then patch.campaignProgress.value else g.campaignProgress)
  {
  }

  /** Applying the same update twice is the same as applying it once. */
  lemma MergeIdempotent(g: GameState, patch: GameStatePatch)
    ensures Merge(Merge(g, patch), patch) == Merge(g, patch)
  {
  }

  /** An update that supplies nothing changes nothing. */
  lemma MergeEmpty(g: GameState)
    ensures Merge(g, EmptyPatch) == g
  {
  }

  /** Two updates in a row are one update with the fields of both, the later winning. */
  lemma MergeCompose(g: GameState, p: GameStatePatch, q: GameStatePatch)
    ensures Merge(Merge(g, p), q) == Merge(g, Combine(p, q))
  {
  }

  /** A restored game state names a campaign to load (a truthy `currentCampaign`). */
  predicate ResumesCampaign(g: GameState) {
    Truthy(g.currentCampaign)
  }

  /** The single storage slot under the key `dnd-campaign-save`. */
  class SnapshotSlot {
    var saved: Option<GameState>

    constructor(initial: Option<GameState>)
      ensures saved == initial
    {
      saved := initial;
    }
  }

  /** The store. Between actions it is never loading, and a current scene always belongs to
      the current campaign. */
  class Store {
    var currentCampaign: Option<Campaign>
    var currentScene: Option<Scene>
    var gameState: GameState
    var isLoading: bool
    var error: Option<string>

    ghost predicate Valid()
      reads this
    {
      && !isLoading
      && (currentScene.Some? ==> currentCampaign.Some? && currentScene.value in currentCampaign.value.scenes)
    }

    /** The initial state: nothing loaded, the empty game state, no error. */
    constructor()
      ensures Valid()
      ensures currentCampaign == None && currentScene == None
      ensures gameState == InitialGameState && !isLoading && error == None
    {
      currentCampaign := None;
      currentScene := None;
      gameState := InitialGameState;
      isLoading := false;
      error := None;
    }

    /** `loadCampaign(campaignId)`, with the fetched document as `fetched`. A load either
        replaces campaign, scene and the game state's two ids together, or leaves all three
        as they were and sets `error`. */
    method LoadCampaign(campaignId: string, fetched: FetchResult)
      requires Valid()
      modifies this
      ensures Valid()
      ensures LoadSucceeds(fetched) ==>
        && currentCampaign == Some(fetched.campaign)
        && currentScene == Some(fetched.campaign.scenes[0])
        && gameState == old(gameState).(currentCampaign := Some(campaignId),
                                         currentScene := Some(fetched.campaign.scenes[0].id))
        && error == None
      ensures !LoadSucceeds(fetched) ==>
        && currentCampaign == old(currentCampaign)
        && currentScene == old(currentScene)
        && gameState == old(gameState)
        && error == Some(LoadErrorMessage(campaignId, fetched))
    {
      isLoading := true;
      error := None;
      match fetched {
        case NotOk =>
          error := Some("Campaign " + campaignId + " not found");
          isLoading := false;
        case Rejected(message) =>
          error := Some(if message.Some? then message.value else "Failed to load campaign");
          isLoading := false;
        case Fetched(campaign) =>
          if |campaign.scenes| == 0 {
            error := Some(UndefinedSceneMessage);
            isLoading := false;
          } else {
            var initialScene := campaign.scenes[0];
            currentCampaign := Some(campaign);
            currentScene := Some(initialScene);
            gameState := gameState.(currentCampaign := Some(campaignId), currentScene := Some(initialScene.id));
            isLoading := false;
          }
      }
    }

    /** `transitionToScene(sceneId)`. Without a campaign nothing changes; an unknown id only
        sets `error`; otherwise the scene and the game state's scene id change together, the
        scene being left is recorded, and a previous `error` stays. */
    method TransitionToScene(sceneId: string)
      requires Valid()
      modifies this
      ensures Valid()
      ensures old(currentCampaign).None? ==> unchanged(this)
      ensures currentCampaign == old(currentCampaign) && isLoading == old(isLoading)
      ensures old(currentCampaign).Some? && FindScene(old(currentCampaign).value.scenes, sceneId).None? ==>
        && currentScene == old(currentScene)
        && gameState == old(gameState)
        && error == Some("Scene " + sceneId + " not found")
      ensures old(currentCampaign).Some? && FindScene(old(currentCampaign).value.scenes, sceneId).Some? ==>
        && currentScene == FindScene(old(currentCampaign).value.scenes, sceneId)
        && currentScene.value.id == sceneId
        && gameState == EnterScene(old(gameState), sceneId)
        && error == old(error)
    {
      if currentCampaign.None? {
        return;
      }
      var scene := FindScene(currentCampaign.value.scenes, sceneId);
      if scene.None? {
        error := Some("Scene " + sceneId + " not found");
        return;
      }
      var updatedProgress := RecordSceneLeft(gameState.campaignProgress, gameState.currentScene);
      currentScene := scene;
      gameState := gameState.(currentScene := Some(sceneId), campaignProgress := updatedProgress);
    }

    /** `updateGameState(updates)`: a shallow merge into the game state and nothing else. */
    method UpdateGameState(patch: GameStatePatch)
      requires Valid()
      modifies this
      ensures Valid()
      ensures gameState == Merge(old(gameState), patch)
      ensures currentCampaign == old(currentCampaign) && currentScene == old(currentScene)
      ensures isLoading == old(isLoading) && error == old(error)
    {
      gameState := Merge(gameState, patch);
    }

    /** `saveProgress()`: the whole game state goes to the slot; a failed write is only logged. */
    method SaveProgress(slot: SnapshotSlot, writeSucceeds: bool)
      modifies slot
      ensures slot.saved == if writeSucceeds then Some(gameState) else old(slot.saved)
    {
      if writeSucceeds {
        slot.saved := Some(gameState);
      }
    }

    /** `loadProgress()`: a saved game state replaces the current one wholesale; when it names
        a campaign, that campaign is then loaded, and a successful load overwrites the restored
        scene id with the campaign's first scene. */
    method LoadProgress(slot: SnapshotSlot, fetched: FetchResult)
      requires Valid()
      modifies this
      ensures Valid()
      ensures slot.saved.None? ==> unchanged(this)
      ensures slot.saved.Some? && !ResumesCampaign(slot.saved.value) ==>
        && gameState == slot.saved.value
        && currentCampaign == old(currentCampaign) && currentScene == old(currentScene)
        && error == old(error)
      ensures slot.saved.Some? && ResumesCampaign(slot.saved.value) && LoadSucceeds(fetched) ==>
        && gameState == slot.saved.value.(currentScene := Some(fetched.campaign.scenes[0].id))
        && currentCampaign == Some(fetched.campaign)
        && currentScene == Some(fetched.campaign.scenes[0])
        && error == None
      ensures slot.saved.Some? && ResumesCampaign(slot.saved.value) && !LoadSucceeds(fetched) ==>
        && gameState == slot.saved.value
        && currentCampaign == old(currentCampaign) && currentScene == old(currentScene)
        && error == Some(LoadErrorMessage(slot.saved.value.currentCampaign.value, fetched))
    {
      var saved := slot.saved;
      if saved.Some? {
        var restored := saved.value;
        gameState := restored;
        if ResumesCampaign(restored) {
          LoadCampaign(restored.currentCampaign.value, fetched);
        }
      }
    }

    /** `resetCampaign()`: back to the initial campaign, scene and game state with no error;
        the loading flag is left as it is. */
    method ResetCampaign()
      requires Valid()
      modifies this
      ensures Valid()
      ensures currentCampaign == None && currentScene == None
      ensures gameState == InitialGameState && error == None
      ensures isLoading == old(isLoading)
    {
      currentCampaign := None;
      currentScene := None;
      gameState := InitialGameState;
      error := None;
    }
  }

  /** The scene at `i` is what `FindScene` returns when no earlier scene has its id. */
  lemma FindSceneAt(scenes: seq<Scene>, i: nat)
    requires i < |scenes|
    requires forall j :: 0 <= j < i ==> scenes[j].id != scenes[i].id
    ensures FindScene(scenes, scenes[i].id) == Some(scenes[i])
  {
  }

  /** The three-scene campaign the walkthroughs below play through. */
  function MerchantScenes(): (scenes: seq<Scene>)
    ensures |scenes| == 3
    ensures forall i :: 0 <= i < 3 ==> FindScene(scenes, scenes[i].id) == Some(scenes[i])
  {
    var town := Scene("town_square", Town, "Town Square", "town.png", None, "", None, None, None, [], None, None);
    var forest := Scene("forest_road", Exploration, "Forest Road", "forest.png", None, "", None, None, None, [], None, None);
    var merchant := Scene("merchant_camp", Social, "Merchant Camp", "camp.png", None, "", None, None, None, [], None, None);
    var scenes := [town, forest, merchant];
    assert town.id[0] == 't' && forest.id[0] == 'f' && merchant.id[0] == 'm';
    FindSceneAt(scenes, 0);
    FindSceneAt(scenes, 1);
    FindSceneAt(scenes, 2);
    scenes
  }

  /** Loading a campaign opens its first scene; each transition records the scene left. */
  method WalkthroughForward()
  {
    var scenes := MerchantScenes();
    var campaign := Campaign("missing_merchant", "The Missing Merchant", "", Beginner, "2 hours", (1, 3),
                             scenes, Opaque("{}"));
    var store := new Store();
    store.LoadCampaign("missing_merchant", Fetched(campaign));
    assert store.currentScene == Some(scenes[0]);
    assert store.gameState.currentScene == Some("town_square");

    store.TransitionToScene(scenes[1].id);
    assert store.currentScene == Some(scenes[1]);
    assert store.gameState.campaignProgress.completedScenes == ["town_square"];

    store.TransitionToScene(scenes[2].id);
    assert store.gameState.campaignProgress.completedScenes == ["town_square", "forest_road"];
  }

  /** An unknown scene sets the error and stays put, and the error survives a later
      successful transition. */
  method WalkthroughUnknownScene()
  {
    var scenes := MerchantScenes();
    var campaign := Campaign("missing_merchant", "The Missing Merchant", "", Beginner, "2 hours", (1, 3),
                             scenes, Opaque("{}"));
    var store := new Store();
    store.LoadCampaign("missing_merchant", Fetched(campaign));
    assert store.currentCampaign == Some(campaign);

    var missing := "nonexistent_scene";
    assert forall j :: 0 <= j < |scenes| ==> scenes[j].id[0] != missing[0];
    store.TransitionToScene(missing);
    assert store.currentScene == Some(scenes[0]);
    assert store.error == Some("Scene " + missing + " not found");

    store.TransitionToScene(scenes[1].id);
    assert store.currentScene == Some(scenes[1]);
    assert store.error == Some("Scene " + missing + " not found");
  }

  /** Re-entering the current scene records it again: `completedScenes` keeps duplicates. */
  method WalkthroughRevisit()
  {
    var scenes := MerchantScenes();
    var campaign := Campaign("missing_merchant", "The Missing Merchant", "", Beginner, "2 hours", (1, 3),
                             scenes, Opaque("{}"));
    var store := new Store();
    store.LoadCampaign("missing_merchant", Fetched(campaign));
    store.TransitionToScene(scenes[0].id);
    store.TransitionToScene(scenes[1].id);
    assert store.gameState.campaignProgress.completedScenes == ["town_square", "town_square"];
  }
}
