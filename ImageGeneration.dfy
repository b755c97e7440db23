/**
 * The image generation manager (src/components/tools/ImageGenerationManager.tsx): a fixed
 * catalogue of character and background prompts, a type filter, the selection of prompts
 * (toggled one at a time or by type), and the batch that requests one image per selected
 * prompt in catalogue order, recording a status per prompt and the progress of the batch.
 *
 * The image service is not modelled: the outcome of the request for the `i`-th prompt of a
 * batch (generation, download and save together) is the input `outcome(i)`, and the
 * requests the batch makes are returned so that their contents can be stated.
 */
module ImageGeneration {

  import opened Wrappers
  import opened JsStrings
  import opened Sequences
  import opened ImageTypes

  datatype PromptType = Character | Background

  /** `selectedType`: `'all'` or one prompt type. */
  datatype TypeFilter = All | OnlyType(kind: PromptType)

  /** A catalogue entry; `kind` is the source's `type` field. */
  datatype SimplifiedPrompt = SimplifiedPrompt(
    id: string,
    kind: PromptType,
    title: string,
    prompt: string,
    filename: string,
    recommendedSize: ImageSize)

  /** The per-prompt status shown next to each prompt; a prompt never processed has none. */
  datatype Status = Idle | Generating | Downloading | Completed | Error

  /** `generationProgress` while a batch runs: the 1-based position of the prompt being
      processed, the number of prompts in the batch, and that prompt's title. */
  datatype Progress = Progress(current: nat, total: nat, currentPrompt: string)

  /** One call of the image generator: the prompt text, the file name and the options. */
  datatype ImageRequest = ImageRequest(prompt: string, filename: string, options: GenerationOptions)

  /** How `handleGenerateSelected` ended: refused for a blank key, refused for an empty
      selection, or ran the batch. */
  datatype BatchResult = MissingApiKey | NothingSelected | Finished

  /** The prompt catalogue: five character cards, then five backgrounds. */
  const Catalogue: seq<SimplifiedPrompt> := [
    SimplifiedPrompt(
      "goblin-warrior", Character, "Goblin Warrior",
      "Create a goblin warrior character for D&D combat. Small humanoid with green skin, pointed ears, wearing crude leather armor. Carries a rusty short sword and small shield. Looks cunning and aggressive but not too threatening. Fantasy monster art style suitable for a character card. Portrait orientation, full body view, detailed but clean art style.",
      "goblin_warrior.png", Size1024x1792),
    SimplifiedPrompt(
      "town-guard", Character, "Town Guard Captain",
      "Create a human male guard captain character. He wears practical chain mail armor with a tabard showing simple heraldry. Has a sword at his side and looks experienced but not battle-scarred. Reliable and professional appearance. Dark hair, clean-shaven or light beard. Portrait orientation, full body view, suitable for NPC character card.",
      "town_guard_captain.png", Size1024x1792),
    SimplifiedPrompt(
      "wizard-apprentice", Character, "Wizard Apprentice",
      "Create a young human male wizard apprentice character. Wears simple robes with minor magical accessories like a component pouch. Looks nervous and guilty, has made a mistake with magic. Young adult, bookish appearance, holds a simple staff or wand. Expression shows regret and worry. Fantasy wizard aesthetic but clearly inexperienced. Portrait orientation, full body view.",
      "wizard_apprentice.png", Size1024x1792),
    SimplifiedPrompt(
      "merchant", Character, "Captured Merchant",
      "Create a human male merchant character who appears to have been a prisoner but maintains dignity. Slightly disheveled clothing that was once fine quality. Has rope marks on wrists but is unbound. Grateful but shaken expression. Middle-aged, well-fed appearance suggesting successful trade. Portrait orientation, full body view.",
      "captured_merchant.png", Size1024x1792),
    SimplifiedPrompt(
      "dwarf-innkeeper", Character, "Dwarf Innkeeper",
      "Create a friendly dwarf innkeeper character in fantasy D&D style. He has a magnificent braided beard, kind eyes, and wears a leather apron over simple brown clothes. He should look welcoming and trustworthy. Holds a wooden mug. Warm, earthy colors. Portrait orientation, full body view, detailed but clean art style.",
      "dwarf_innkeeper.png", Size1024x1792),
    SimplifiedPrompt(
      "tavern-interior", Background, "Cozy Tavern Interior",
      "Create a warm, inviting medieval tavern interior. The scene shows wooden tables and chairs scattered around a large common room. A massive stone fireplace dominates one wall with a roaring fire casting dancing shadows. Heavy wooden beams support the ceiling. Warm yellow and orange lighting from lanterns and candles creates a cozy atmosphere. The bar area is visible in the background with kegs and bottles. Medieval fantasy art style, detailed but not cluttered.",
      "tavern_interior.png", Size1792x1024),
    SimplifiedPrompt(
      "forest-path", Background, "Dark Forest Path",
      "Create a mysterious forest path winding through ancient trees. Thick canopy blocks most sunlight, creating dappled shadows on the forest floor. The path is clearly visible but disappears into darkness ahead. Massive oak and pine trees tower on both sides. Thick undergrowth and ferns line the path. The atmosphere should feel mysterious but not threatening. Fantasy art style with rich greens and browns.",
      "forest_path.png", Size1792x1024),
    SimplifiedPrompt(
      "cave-entrance", Background, "Cave Entrance",
      "Create a cave entrance nestled between two massive oak trees in a forest setting. The cave mouth is dark and foreboding, with rough stone walls visible inside. Crude wooden fortifications and barriers suggest goblin occupation - sharpened stakes, rope barriers, and primitive warning signs. The forest around is dense with thick undergrowth. Ominous but not horror-themed.",
      "cave_entrance.png", Size1792x1024),
    SimplifiedPrompt(
      "village-square", Background, "Village Festival Square",
      "Create a charming medieval village square decorated for a harvest festival. Colorful banners and bunting stretch between timber-framed buildings. Market stalls with bright awnings display pies, crafts, and produce. A central well serves as the focal point. Cobblestone streets, flower boxes in windows, and bundles of wheat as decorations. Cheerful and inviting with warm afternoon lighting.",
      "village_square.png", Size1792x1024),
    SimplifiedPrompt(
      "alchemist-shop", Background, "Alchemist Shop Interior",
      "Create an alchemist shop interior with shelves lined with colorful bottles and vials. A large work table in the center has bubbling potions, ancient books, and alchemical equipment. Arched windows let in natural light. Stone walls, wooden shelves, and hanging herbs create a magical atmosphere. Warm candlelight illuminates the space. Fantasy medieval aesthetic.",
      "alchemist_shop.png", Size1792x1024)
  ]

  /** No two prompts share an id. */
  predicate UniqueIds(ps: seq<SimplifiedPrompt>) {
    forall i, j :: 0 <= i < j < |ps| ==> ps[i].id != ps[j].id
  }

  /** The catalogue ids are distinct. */
  lemma CatalogueUniqueIds()
    ensures UniqueIds(Catalogue)
  {
    var ids: seq<string> := ["goblin-warrior", "town-guard", "wizard-apprentice", "merchant", "dwarf-innkeeper", "tavern-interior", "forest-path", "cave-entrance", "village-square", "alchemist-shop"];
    assert forall k :: 0 <= k < |Catalogue| ==> Catalogue[k].id == ids[k];
    var keys: seq<(char, int)> := seq(|ids|, k requires 0 <= k < |ids| => (ids[k][0], |ids[k]|));
    assert keys == [('g', 14), ('t', 10), ('w', 17), ('m', 8), ('d', 15),
                    ('t', 15), ('f', 11), ('c', 13), ('v', 14), ('a', 14)];
    assert forall i, j :: 0 <= i < j < |keys| ==> keys[i] != keys[j];
    forall i, j | 0 <= i < j < |Catalogue|
      ensures Catalogue[i].id != Catalogue[j].id
    {
      assert keys[i] != keys[j];
    }
  }

  /** Each catalogue entry recommends the size the batch requests for its type. */
  lemma CatalogueSizesAgree()
    ensures forall k :: 0 <= k < |Catalogue| ==>
      RequestOptions(GenerationOptions(Size1024x1024, Standard, Vivid), Catalogue[k].kind).size
        == Catalogue[k].recommendedSize
  {
  }

  // ---------------------------------------------------------------------------------------
  // Filtering, selection and sizes

  /** `filteredPrompts`: the whole catalogue for `'all'`, otherwise its prompts of one type. */
  function FilteredPrompts(ps: seq<SimplifiedPrompt>, filter: TypeFilter): (r: seq<SimplifiedPrompt>)
    ensures filter.All? ==> r == ps
    ensures filter.OnlyType? ==> forall i :: 0 <= i < |r| ==> r[i] in ps && r[i].kind == filter.kind
  {
    if filter.All? then ps else Filter(ps, (p: SimplifiedPrompt) => p.kind == filter.kind)
  }

  /** Filtering by type drops no prompt of that type. */
  lemma FilteredPromptsComplete(ps: seq<SimplifiedPrompt>, kind: PromptType)
    ensures forall k :: 0 <= k < |ps| && ps[k].kind == kind ==> ps[k] in FilteredPrompts(ps, OnlyType(kind))
  {
    FilterComplete(ps, (p: SimplifiedPrompt) => p.kind == kind);
  }

  /** Filtering by type keeps the catalogue order. */
  lemma FilteredPromptsInOrder(ps: seq<SimplifiedPrompt>, filter: TypeFilter)
    requires UniqueIds(ps)
    ensures var r := FilteredPrompts(ps, filter);
      forall i, j :: 0 <= i < j < |r| ==> FirstIndex(ps, r[i]) < FirstIndex(ps, r[j])
  {
    if filter.OnlyType? {
      FilterKeepsOrder(ps, (p: SimplifiedPrompt) => p.kind == filter.kind);
    } else {
      forall i, j | 0 <= i < j < |ps|
        ensures FirstIndex(ps, ps[i]) < FirstIndex(ps, ps[j])
      {
        assert FirstIndex(ps, ps[i]) == i;
        assert FirstIndex(ps, ps[j]) == j;
      }
    }
  }

  /** `newSelected` after `handleSelectPrompt(id)`: the id's membership flipped. */
  function Toggled(selected: set<string>, id: string): (r: set<string>)
    ensures forall x :: x in r <==> (if x == id then x !in selected else x in selected)
  {
    if id in selected then selected - {id} else selected + {id}
  }

  /** Toggling the same id twice restores the selection. */
  lemma ToggleTwice(selected: set<string>, id: string)
    ensures Toggled(Toggled(selected, id), id) == selected
  {
    var once := Toggled(selected, id);
    var twice := Toggled(once, id);
    assert forall x :: x in twice <==> x in selected;
  }

  /** `simplifiedPrompts.filter(p => p.type === type).map(p => p.id)`. */
  function TypeIds(ps: seq<SimplifiedPrompt>, kind: PromptType): (r: seq<string>)
    ensures forall i :: 0 <= i < |r| ==> exists k :: 0 <= k < |ps| && ps[k].kind == kind && ps[k].id == r[i]
  {
    if ps == [] then []
    else
      var init := ps[..|ps| - 1];
      var p := ps[|ps| - 1];
      var ids := TypeIds(init, kind);
      assert forall k :: 0 <= k < |init| ==> init[k] == ps[k];
      ids + (if p.kind == kind then [p.id] else [])
  }

  /** The first `n` ids of `ids`, as a set. */
  function IdSet(ids: seq<string>, n: nat): set<string>
    requires n <= |ids|
  {
    if n == 0 then {} else IdSet(ids, n - 1) + {ids[n - 1]}
  }

  /** `IdSet(ids, n)` holds exactly the first `n` ids. */
  lemma {:induction false} IdSetMembers(ids: seq<string>, n: nat)
    requires n <= |ids|
    ensures forall x :: x in IdSet(ids, n) <==> exists k :: 0 <= k < n && ids[k] == x
  {
    if n > 0 {
      IdSetMembers(ids, n - 1);
    }
  }

  /** Every prompt of the type has its id listed. */
  lemma {:induction false} TypeIdsComplete(ps: seq<SimplifiedPrompt>, kind: PromptType)
    ensures forall k :: 0 <= k < |ps| && ps[k].kind == kind ==> ps[k].id in TypeIds(ps, kind)
  {
    if ps != [] {
      TypeIdsComplete(ps[..|ps| - 1], kind);
      assert forall k :: 0 <= k < |ps| - 1 ==> ps[k] == ps[..|ps| - 1][k];
    }
  }

  /** `newSelected` after `handleSelectAllByType`: when every id of the type is selected they
      are all removed, otherwise they are all added; other ids keep their membership. */
  function SelectAllByType(selected: set<string>, ids: seq<string>): (r: set<string>)
    ensures (forall k :: 0 <= k < |ids| ==> ids[k] in selected) ==>
      forall k :: 0 <= k < |ids| ==> ids[k] !in r
    ensures !(forall k :: 0 <= k < |ids| ==> ids[k] in selected) ==>
      forall k :: 0 <= k < |ids| ==> ids[k] in r
    ensures forall x :: x !in ids ==> (x in r <==> x in selected)
  {
    var typeSet := IdSet(ids, |ids|);
    IdSetMembers(ids, |ids|);
    if forall k :: 0 <= k < |ids| ==> ids[k] in selected then selected - typeSet
    else selected + typeSet
  }

  /** After selecting by type, either all or none of that type's ids are selected. */
  lemma SelectAllByTypeAllOrNone(selected: set<string>, ids: seq<string>)
    ensures var r := SelectAllByType(selected, ids);
      (forall k :: 0 <= k < |ids| ==> ids[k] in r) || (forall k :: 0 <= k < |ids| ==> ids[k] !in r)
  {
  }

  /** Selecting one type leaves the ids of the other type as they were. */
  lemma SelectAllByTypeKeepsOtherType(ps: seq<SimplifiedPrompt>, selected: set<string>, kind: PromptType, k: nat)
    requires UniqueIds(ps)
    requires k < |ps| && ps[k].kind != kind
    ensures ps[k].id in SelectAllByType(selected, TypeIds(ps, kind)) <==> ps[k].id in selected
  {
  }

  /** `options` for a prompt: the chosen quality and style with the size its type calls for,
      portrait for characters and landscape for backgrounds. */
  function RequestOptions(options: GenerationOptions, kind: PromptType): (r: GenerationOptions)
    ensures r.quality == options.quality && r.style == options.style
    ensures kind == Character ==> r.size == Size1024x1792
    ensures kind == Background ==> r.size == Size1792x1024
  {
    options.(size := if kind == Character then Size1024x1792 else Size1792x1024)
  }

  /** `selectedPromptList`: the selected prompts in catalogue order. */
  function SelectedInCatalogueOrder(ps: seq<SimplifiedPrompt>, selected: set<string>): (r: seq<SimplifiedPrompt>)
    ensures forall i :: 0 <= i < |r| ==> r[i] in ps && r[i].id in selected
  {
    Filter(ps, (p: SimplifiedPrompt) => p.id in selected)
  }

  /** Every selected catalogue prompt is in the batch. */
  lemma SelectedComplete(ps: seq<SimplifiedPrompt>, selected: set<string>)
    ensures forall k :: 0 <= k < |ps| && ps[k].id in selected ==> ps[k] in SelectedInCatalogueOrder(ps, selected)
  {
    FilterComplete(ps, (p: SimplifiedPrompt) => p.id in selected);
  }

  /** The batch follows the catalogue order, whatever order the prompts were selected in. */
  lemma SelectedFollowCatalogueOrder(ps: seq<SimplifiedPrompt>, selected: set<string>)
    requires UniqueIds(ps)
    ensures var r := SelectedInCatalogueOrder(ps, selected);
      forall i, j :: 0 <= i < j < |r| ==> FirstIndex(ps, r[i]) < FirstIndex(ps, r[j])
  {
    FilterKeepsOrder(ps, (p: SimplifiedPrompt) => p.id in selected);
  }

  /** The requests of a batch, one per prompt in order. */
  function BatchRequests(batch: seq<SimplifiedPrompt>, options: GenerationOptions): seq<ImageRequest>
  {
    if batch == [] then []
    else
      var p := batch[|batch| - 1];
      BatchRequests(batch[..|batch| - 1], options) + [ImageRequest(p.prompt, p.filename, RequestOptions(options, p.kind))]
  }

  /** The progress values a batch of `total` prompts goes through: position 0 with no
      title, then at step `i` the position `i + 1` and the title of the `i`-th prompt. */
  function ProgressLog(batch: seq<SimplifiedPrompt>, total: nat): seq<Progress>
  {
    if batch == [] then [Progress(0, total, "")]
    else ProgressLog(batch[..|batch| - 1], total) + [Progress(|batch|, total, batch[|batch| - 1].title)]
  }

  /** The final status of a processed prompt. */
  function FinalStatus(succeeded: bool): Status {
    if succeeded then Completed else Error
  }

  /** The statuses after processing `batch`, the `i`-th prompt with outcome `outcome(i)`. */
  function ApplyOutcomes(status: map<string, Status>, batch: seq<SimplifiedPrompt>, outcome: nat -> bool): map<string, Status> {
    if batch == [] then status
    else ApplyOutcomes(status, batch[..|batch| - 1], outcome)[batch[|batch| - 1].id := FinalStatus(outcome(|batch| - 1))]
  }

  /** The `i`-th request asks for the `i`-th prompt's text and file name, with the chosen
      options and the size of its type. */
  lemma {:induction false} BatchRequestsShape(batch: seq<SimplifiedPrompt>, options: GenerationOptions)
    ensures var r := BatchRequests(batch, options);
      && |r| == |batch|
      && forall i :: 0 <= i < |batch| ==>
           r[i] == ImageRequest(batch[i].prompt, batch[i].filename, RequestOptions(options, batch[i].kind))
  {
    if batch != [] {
      BatchRequestsShape(batch[..|batch| - 1], options);
    }
  }

  /** The progress starts at 0 of `total` with no title; after step `i` it is at `i + 1`
      with the title of the `i`-th prompt. */
  lemma {:induction false} ProgressLogShape(batch: seq<SimplifiedPrompt>, total: nat)
    ensures var r := ProgressLog(batch, total);
      && |r| == |batch| + 1 && r[0] == Progress(0, total, "")
      && forall i :: 0 <= i < |batch| ==> r[i + 1] == Progress(i + 1, total, batch[i].title)
  {
    if batch != [] {
      ProgressLogShape(batch[..|batch| - 1], total);
    }
  }

  /** Processing one more prompt adds its request and its progress value. */
  lemma BatchStep(batch: seq<SimplifiedPrompt>, i: nat, options: GenerationOptions, total: nat)
    requires i < |batch|
    ensures BatchRequests(batch[..i + 1], options) == BatchRequests(batch[..i], options)
      + [ImageRequest(batch[i].prompt, batch[i].filename, RequestOptions(options, batch[i].kind))]
    ensures ProgressLog(batch[..i + 1], total) == ProgressLog(batch[..i], total)
      + [Progress(i + 1, total, batch[i].title)]
  {
    assert batch[..i + 1][..i] == batch[..i];
  }

  /** Processing one more prompt sets that prompt's final status. */
  lemma ApplyOutcomesStep(status: map<string, Status>, batch: seq<SimplifiedPrompt>, i: nat, outcome: nat -> bool)
    requires i < |batch|
    ensures ApplyOutcomes(status, batch[..i + 1], outcome)
      == ApplyOutcomes(status, batch[..i], outcome)[batch[i].id := FinalStatus(outcome(i))]
  {
    assert batch[..i + 1][..i] == batch[..i];
  }

  /** After a batch over prompts with distinct ids, each processed prompt has the status of its
      own outcome and every other status is unchanged. */
  lemma {:induction false} ApplyOutcomesResult(status: map<string, Status>, batch: seq<SimplifiedPrompt>, outcome: nat -> bool)
    requires UniqueIds(batch)
    ensures var r := ApplyOutcomes(status, batch, outcome);
      forall i :: 0 <= i < |batch| ==> batch[i].id in r && r[batch[i].id] == FinalStatus(outcome(i))
    ensures var r := ApplyOutcomes(status, batch, outcome);
      forall id :: (forall i :: 0 <= i < |batch| ==> batch[i].id != id) ==>
        (id in r <==> id in status) && (id in status ==> r[id] == status[id])
  {
    if batch != [] {
      var init := batch[..|batch| - 1];
      assert UniqueIds(init);
      ApplyOutcomesResult(status, init, outcome);
    }
  }

  // ---------------------------------------------------------------------------------------
  // The component state

  /** The default generation options. */
  const DefaultOptions: GenerationOptions := GenerationOptions(Size1024x1024, Standard, Vivid)

  /** The state of the component and its handlers. */
  class ImageGenerationManager {
    var apiKey: string
    var selectedPrompts: set<string>
    var generationStatus: map<string, Status>
    var generationProgress: Option<Progress>
    var isGenerating: bool
    var selectedType: TypeFilter
    var generationOptions: GenerationOptions
    /** `simplifiedPrompts`: the catalogue, the same on every render. */
    const simplifiedPrompts: seq<SimplifiedPrompt>

    /** The initial state: no key, nothing selected, no statuses, no batch running. */
    constructor ()
      ensures apiKey == "" && selectedPrompts == {} && generationStatus == map[]
      ensures generationProgress == None && !isGenerating
      ensures selectedType == All && generationOptions == DefaultOptions
      ensures simplifiedPrompts == Catalogue && UniqueIds(simplifiedPrompts)
    {
      apiKey := "";
      selectedPrompts := {};
      generationStatus := map[];
      generationProgress := None;
      isGenerating := false;
      selectedType := All;
      generationOptions := DefaultOptions;
      simplifiedPrompts := Catalogue;
      CatalogueUniqueIds();
    }

    /** The key input's `onChange`, and its clear button with `key` empty. */
    method SetApiKey(key: string)
      modifies this
      ensures apiKey == key
      ensures selectedPrompts == old(selectedPrompts) && generationStatus == old(generationStatus)
      ensures generationProgress == old(generationProgress) && isGenerating == old(isGenerating)
      ensures selectedType == old(selectedType) && generationOptions == old(generationOptions)
    {
      apiKey := key;
    }

    /** The quality selector's `onChange`: replaces the quality, keeps size and style. */
    method SetQuality(quality: Quality)
      modifies this
      ensures generationOptions == old(generationOptions).(quality := quality)
      ensures apiKey == old(apiKey) && selectedPrompts == old(selectedPrompts)
      ensures generationStatus == old(generationStatus)
      ensures generationProgress == old(generationProgress) && isGenerating == old(isGenerating)
      ensures selectedType == old(selectedType)
    {
      generationOptions := generationOptions.(quality := quality);
    }

    /** The style selector's `onChange`: replaces the style, keeps size and quality. */
    method SetStyle(style: Style)
      modifies this
      ensures generationOptions == old(generationOptions).(style := style)
      ensures apiKey == old(apiKey) && selectedPrompts == old(selectedPrompts)
      ensures generationStatus == old(generationStatus)
      ensures generationProgress == old(generationProgress) && isGenerating == old(isGenerating)
      ensures selectedType == old(selectedType)
    {
      generationOptions := generationOptions.(style := style);
    }

    /** `filteredPrompts`: the prompts listed under the current filter. */
    function Listed(): (r: seq<SimplifiedPrompt>)
      reads this
      ensures selectedType.All? ==> r == simplifiedPrompts
      ensures selectedType.OnlyType? ==> forall i :: 0 <= i < |r| ==> r[i].kind == selectedType.kind
    {
      FilteredPrompts(simplifiedPrompts, selectedType)
    }

    /** `handleSelectPrompt(promptId)`: flips the membership of `promptId` and of nothing else. */
    method HandleSelectPrompt(promptId: string)
      modifies this
      ensures selectedPrompts == Toggled(old(selectedPrompts), promptId)
      ensures apiKey == old(apiKey) && generationStatus == old(generationStatus)
      ensures generationProgress == old(generationProgress) && isGenerating == old(isGenerating)
      ensures selectedType == old(selectedType) && generationOptions == old(generationOptions)
    {
      var newSelected := selectedPrompts;
      if promptId in newSelected {
        newSelected := newSelected - {promptId};
      } else {
        newSelected := newSelected + {promptId};
      }
      selectedPrompts := newSelected;
    }

    /** `handleSelectAllByType(type)`: deselects every prompt of the type when all are
        selected, otherwise selects them all; `every` is checked before any change. */
    method HandleSelectAllByType(kind: PromptType)
      modifies this
      ensures selectedPrompts == SelectAllByType(old(selectedPrompts), TypeIds(simplifiedPrompts, kind))
      ensures apiKey == old(apiKey) && generationStatus == old(generationStatus)
      ensures generationProgress == old(generationProgress) && isGenerating == old(isGenerating)
      ensures selectedType == old(selectedType) && generationOptions == old(generationOptions)
    {
      var typeIds := TypeIds(simplifiedPrompts, kind);
      var newSelected := selectedPrompts;
      var allSelected := forall k :: 0 <= k < |typeIds| ==> typeIds[k] in newSelected;
      if allSelected {
        for i := 0 to |typeIds|
          invariant newSelected == selectedPrompts - IdSet(typeIds, i)
        {
          newSelected := newSelected - {typeIds[i]};
        }
      } else {
        for i := 0 to |typeIds|
          invariant newSelected == selectedPrompts + IdSet(typeIds, i)
        {
          newSelected := newSelected + {typeIds[i]};
        }
      }
      selectedPrompts := newSelected;
    }

    /** The body of the generation loop: each selected prompt in turn is announced in the
        progress record, marked `generating`, sent as one request, and ends `completed` or
        `error` according to `outcome`. */
    method RunBatch(batch: seq<SimplifiedPrompt>, outcome: nat -> bool)
      returns (requests: seq<ImageRequest>, progressLog: seq<Progress>)
      modifies this`generationStatus, this`generationProgress
      ensures generationStatus == ApplyOutcomes(old(generationStatus), batch, outcome)
      ensures requests == BatchRequests(batch, generationOptions)
      ensures progressLog == ProgressLog(batch, |batch|)
      ensures progressLog != [] && generationProgress == Some(progressLog[|progressLog| - 1])
    {
      var n := |batch|;
      requests := [];
      generationProgress := Some(Progress(0, n, ""));
      progressLog := [generationProgress.value];
      assert batch[..0] == [];
      for i := 0 to n
        invariant generationStatus == ApplyOutcomes(old(generationStatus), batch[..i], outcome)
        invariant requests == BatchRequests(batch[..i], generationOptions)
        invariant progressLog == ProgressLog(batch[..i], n)
        invariant progressLog != [] && generationProgress == Some(progressLog[|progressLog| - 1])
      {
        ghost var before := generationStatus;
        var prompt := batch[i];
        generationProgress := Some(Progress(i + 1, n, prompt.title));
        progressLog := progressLog + [generationProgress.value];
        generationStatus := generationStatus[prompt.id := Generating];
        var options := RequestOptions(generationOptions, prompt.kind);
        requests := requests + [ImageRequest(prompt.prompt, prompt.filename, options)];
        if outcome(i) {
          generationStatus := generationStatus[prompt.id := Downloading];
          generationStatus := generationStatus[prompt.id := Completed];
        } else {
          generationStatus := generationStatus[prompt.id := Error];
        }
        assert generationStatus == before[prompt.id := FinalStatus(outcome(i))];
        ApplyOutcomesStep(old(generationStatus), batch, i, outcome);
        BatchStep(batch, i, generationOptions, n);
      }
      assert batch[..n] == batch;
    }

    /** `handleGenerateSelected()`: refuses a blank key, then an empty selection; otherwise
        requests one image per selected prompt in catalogue order, the `i`-th with outcome
        `outcome(i)`, and returns the requests made and the successive progress values. */
    method HandleGenerateSelected(outcome: nat -> bool)
      returns (result: BatchResult, requests: seq<ImageRequest>, progressLog: seq<Progress>)
      modifies this
      ensures result == MissingApiKey <==> Trim(old(apiKey)) == ""
      ensures result == NothingSelected <==> Trim(old(apiKey)) != "" && old(selectedPrompts) == {}
      ensures result != Finished ==>
        && requests == [] && progressLog == []
        && generationStatus == old(generationStatus) && isGenerating == old(isGenerating)
        && generationProgress == old(generationProgress)
      ensures result == Finished ==>
        var batch := SelectedInCatalogueOrder(simplifiedPrompts, old(selectedPrompts));
        && requests == BatchRequests(batch, old(generationOptions))
        && progressLog == ProgressLog(batch, |batch|)
        && generationStatus == ApplyOutcomes(old(generationStatus), batch, outcome)
        && !isGenerating && generationProgress == None
      ensures apiKey == old(apiKey) && selectedPrompts == old(selectedPrompts)
      ensures selectedType == old(selectedType) && generationOptions == old(generationOptions)
    {
      requests, progressLog := [], [];
      if Trim(apiKey) == "" {
        return MissingApiKey, requests, progressLog;
      }
      if |selectedPrompts| == 0 {
        return NothingSelected, requests, progressLog;
      }
      isGenerating := true;
      var batch := SelectedInCatalogueOrder(simplifiedPrompts, selectedPrompts);
      requests, progressLog := RunBatch(batch, outcome);
      isGenerating := false;
      generationProgress := None;
      result := Finished;
    }
  }

  /** The batch of a catalogue with distinct ids has distinct ids. */
  lemma FilterUniqueIds(ps: seq<SimplifiedPrompt>, selected: set<string>)
    requires UniqueIds(ps)
    ensures UniqueIds(SelectedInCatalogueOrder(ps, selected))
  {
    assert Distinct(ps);
    var keep := (p: SimplifiedPrompt) => p.id in selected;
    FilterDistinct(ps, keep);
    FilterKeepsOrder(ps, keep);
    var r := SelectedInCatalogueOrder(ps, selected);
    forall i, j | 0 <= i < j < |r|
      ensures r[i].id != r[j].id
    {
      var a, b := FirstIndex(ps, r[i]), FirstIndex(ps, r[j]);
      assert a < b;
    }
  }

  /** A generation run over the selected catalogue prompts leaves each of them `completed`
      or `error` by its own outcome and the status of every unselected id as it was. */
  lemma GenerationStatuses(ps: seq<SimplifiedPrompt>, selected: set<string>, status: map<string, Status>, outcome: nat -> bool)
    requires UniqueIds(ps)
    ensures var batch := SelectedInCatalogueOrder(ps, selected);
      var r := ApplyOutcomes(status, batch, outcome);
      forall i :: 0 <= i < |batch| ==> batch[i].id in r && r[batch[i].id] == FinalStatus(outcome(i))
    ensures var r := ApplyOutcomes(status, SelectedInCatalogueOrder(ps, selected), outcome);
      forall id :: id !in selected ==>
        (id in r <==> id in status) && (id in status ==> r[id] == status[id])
  {
    var batch := SelectedInCatalogueOrder(ps, selected);
    FilterUniqueIds(ps, selected);
    ApplyOutcomesResult(status, batch, outcome);
  }

}
