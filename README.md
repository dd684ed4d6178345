# Realistic Car Controller: recorder, tag/layer installer and demo materials

This project models the three pieces of engine-independent logic in the Realistic Car
Controller Unity plugin and proves properties of them in Dafny.

- **Record/replay** (`recorder.dfy`, module `RecordReplay`). A vehicle's recorder has three
  modes: Neutral, Record and Play. While it records, every physics step appends the
  vehicle's inputs, pose and rigid-body velocities to three index-aligned buffers. Stopping
  the recording freezes them into a `RecordedClip`, which becomes the clip to replay and is
  appended to the shared record list. Playback runs two coroutines. Replay writes the
  clip's inputs onto the vehicle and Revel writes its velocities. Each is resumed once per
  physics step until its array runs out or the mode leaves Play. Each coroutine is modelled
  as a cursor plus a running flag, and one resumption is one method call. `RunPlayback`
  drives the steps until playback ends. The recorder's `Valid()` invariant says three
  things: the buffers have equal lengths, a running coroutine has a clip, and while playing
  both coroutines run with equal cursors.
- **Tag and layer tables** (`installation.dfy`, module `Installation`). Unity's TagManager
  asset is a `TagManager` object. Its tag table is a `seq<string>` that grows and shrinks.
  Its layer table is a 32-slot array. Each editing method is proved equal to a function
  of the old table (`WithTag`, `WithoutTag`, `WithLayer`, `WithoutLayer`). Lemmas relate
  these functions: removal undoes addition, CheckLayer is idempotent, and the empty layer
  name never changes the table. The prefab de-duplication pass is `CollectDistinct`.
- **Demo materials** (`demo_materials.dfy`, module `Materials`). This covers cleaning the
  two nullable material arrays and switching the car-body shader. The engine's shader
  lookup is passed in as a `map<string, Shader>` and the render-pipeline test as a `bool`.

Two behaviours of the code are kept as written:
- A coroutine that leaves its loop always sets the mode to Neutral and releases the
  vehicle. A recording started during playback, or right after a playback that left Replay
  pending, is therefore ended by the next physics step without being saved
  (`ResumePlayback`, `RunPlayback`).
- `NewLayer`'s guard `name != null || name != ""` always holds, so `CheckLayer` always runs.
  `WithLayerEmptyName` shows that this is harmless for the empty name. The null name is
  not modelled (see Left out).

The tag search bound is a discrepancy in the code itself (see Findings). The model's
`TagExists` scans the table's real size. `TagExistsAsWritten` keeps the fixed bound and
shows what goes wrong.

## Model

| member | source | states |
|---|---|---|
| RecordReplay.Recorder.constructor | CarSimulator/Assets/RealisticCarControllerV4/Scripts/RCC_Recorder.cs:187-198 | A fresh recorder is Neutral, has no clip, has three empty buffers and runs no coroutine |
| RecordReplay.Recorder.SaveRecord | CarSimulator/Assets/RealisticCarControllerV4/Scripts/RCC_Recorder.cs:234-249 | The clip holds exactly the current buffers and is named prior record count + "_" + vehicle name. It becomes `recorded`, and the shared list grows by exactly that clip with earlier records unchanged |
| RecordReplay.Recorder.Record | CarSimulator/Assets/RealisticCarControllerV4/Scripts/RCC_Recorder.cs:206-229 | From Neutral or Play: enters Record with all three buffers empty and saves nothing. From Record: returns to Neutral and saves once (the list grows by one), with the buffers kept |
| RecordReplay.Recorder.FixedUpdate | CarSimulator/Assets/RealisticCarControllerV4/Scripts/RCC_Recorder.cs:405-452 | With no vehicle, or in Neutral, nothing changes. In Play only `externalController` is set. In Record each buffer gets exactly one new entry (the vehicle's current inputs, pose and velocities), so the lengths stay equal |
| RecordReplay.Recorder.ReplayStep | CarSimulator/Assets/RealisticCarControllerV4/Scripts/RCC_Recorder.cs:350-380 | While in Play and below the input count, it applies `inputs[cursor]` and advances the cursor by exactly one. Otherwise it leaves the loop: mode Neutral, `externalController` false, cursor unchanged |
| RecordReplay.Recorder.RevelStep | CarSimulator/Assets/RealisticCarControllerV4/Scripts/RCC_Recorder.cs:389-399 | The same over `rigids`: it applies velocity and angular velocity of `rigids[cursor]`, or leaves with Neutral and `externalController` false |
| RecordReplay.Recorder.ResumePlayback | CarSimulator/Assets/RealisticCarControllerV4/Scripts/RCC_Recorder.cs:347-401 | In Play both cursors advance in lockstep over index c, or playback ends in Neutral with `externalController` false. When it ends, the velocities are kept and Revel is finished. Replay is still pending, having applied `inputs[c]`, exactly when only `rigids` ran out; otherwise it is finished and the controls are kept. Out of Play, a running coroutine ends and sets Neutral, whatever the mode was |
| RecordReplay.Recorder.RunPlayback | CarSimulator/Assets/RealisticCarControllerV4/Scripts/RCC_Recorder.cs:350-399 | Each step runs FixedUpdate, the physics update and then the coroutines. Playback always ends in Neutral with `externalController` false, and the buffers and clip are unchanged; the vehicle's pose is left to physics. From in-range cursors, Replay stops at min(#inputs, #rigids + 1) and Revel at min(#inputs, #rigids). Revel is finished, and Replay is left pending exactly when the inputs outnumber the rigids |
| RecordReplay.Recorder.TogglePlayback | CarSimulator/Assets/RealisticCarControllerV4/Scripts/RCC_Recorder.cs:264-288 | Toggles Play and Neutral, and afterwards `externalController == (mode == Play)`. Entering Play applies `inputs[0]` and `rigids[0]`. The vehicle moves to `transforms[0]` only when that array is non-empty. The mode is Play if both inputs and rigids are non-empty and Neutral otherwise, so a failed entry also ends a recording. Replay is pending iff there are inputs, and Revel iff both arrays are non-empty |
| RecordReplay.Recorder.Play | CarSimulator/Assets/RealisticCarControllerV4/Scripts/RCC_Recorder.cs:258-290 | With no recorded clip nothing changes, with or without a vehicle. Otherwise it toggles playback as above |
| RecordReplay.Recorder.PlayClip | CarSimulator/Assets/RealisticCarControllerV4/Scripts/RCC_Recorder.cs:296-332 | `recorded` becomes the given clip, then playback toggles as above |
| RecordReplay.Recorder.Stop | CarSimulator/Assets/RealisticCarControllerV4/Scripts/RCC_Recorder.cs:337-342 | Always leaves mode Neutral and `externalController` false |
| RecordReplay.NatToString | CarSimulator/Assets/RealisticCarControllerV4/Scripts/RCC_Recorder.cs:243 | The record count's text is a non-empty string of decimal digits |
| RecordReplay.NatToStringRoundTrip | CarSimulator/Assets/RealisticCarControllerV4/Scripts/RCC_Recorder.cs:243 | Reading the digits back gives the count |
| RecordReplay.RecordNameInjective | CarSimulator/Assets/RealisticCarControllerV4/Scripts/RCC_Recorder.cs:243 | A record name determines its count and vehicle name, so saves at different counts get different names |
| Installation.PropertyExists | CarSimulator/Assets/RealisticCarControllerV4/Editor/InitLoad/RCC_Installation.cs:243-256 | Answers true iff some index in [start, end) holds the value. An empty range needs no bounds |
| Installation.IndexOf | CarSimulator/Assets/RealisticCarControllerV4/Editor/InitLoad/RCC_Installation.cs:130-141 | The first index holding the value, or the length when absent. No earlier index holds it |
| Installation.FirstFreeUserSlot | CarSimulator/Assets/RealisticCarControllerV4/Editor/InitLoad/RCC_Installation.cs:171-187 | The lowest empty slot in 8..30, or 31 iff that range is full |
| Installation.WithLayer | CarSimulator/Assets/RealisticCarControllerV4/Editor/InitLoad/RCC_Installation.cs:159-193 | A name already in slots 0..30 leaves the table unchanged. Otherwise at most one slot changes: the lowest empty slot of 8..30 receives the name. Slots 0..7 and 31 never change. Afterwards the name is listed iff it was listed or a user slot was free |
| Installation.WithoutLayer | CarSimulator/Assets/RealisticCarControllerV4/Editor/InitLoad/RCC_Installation.cs:204-233 | The length is kept. Only the first slot holding the name is blanked, and an absent name changes nothing |
| Installation.WithTag | CarSimulator/Assets/RealisticCarControllerV4/Editor/InitLoad/RCC_Installation.cs:82-108 | The tag is present afterwards. A missing tag is appended at the end, so the length grows by one and earlier entries are kept |
| Installation.WithoutTag | CarSimulator/Assets/RealisticCarControllerV4/Editor/InitLoad/RCC_Installation.cs:121-149 | A present tag shortens the table by one. Entries before its first occurrence stay in place and later ones move down by one. An absent tag changes nothing |
| Installation.RemoveTagCounts | CarSimulator/Assets/RealisticCarControllerV4/Editor/InitLoad/RCC_Installation.cs:126-141 | Removing takes away exactly one copy of the tag and keeps every other entry |
| Installation.RemoveTagUndoesCheckTag | CarSimulator/Assets/RealisticCarControllerV4/Editor/InitLoad/RCC_Installation.cs:90-141 | Removing a tag that CheckTag has just appended restores the table |
| Installation.RemoveLayerUndoesCheckLayer | CarSimulator/Assets/RealisticCarControllerV4/Editor/InitLoad/RCC_Installation.cs:167-232 | Removing a layer name that was in no slot and that CheckLayer has just added restores the table |
| Installation.CheckLayerIdempotent | CarSimulator/Assets/RealisticCarControllerV4/Editor/InitLoad/RCC_Installation.cs:159-193 | A second CheckLayer with the same name changes nothing |
| Installation.WithLayerEmptyName | CarSimulator/Assets/RealisticCarControllerV4/Editor/InitLoad/RCC_Installation.cs:195-202 | CheckLayer with the empty name never changes the table, which NewLayer's always-true guard allows |
| Installation.WithLayerSettles | CarSimulator/Assets/RealisticCarControllerV4/Editor/InitLoad/RCC_Installation.cs:159-193 | After CheckLayer the name is listed, or the user range is full |
| Installation.WithLayerKeepsSettled | CarSimulator/Assets/RealisticCarControllerV4/Editor/InitLoad/RCC_Installation.cs:48-51 | A later CheckLayer keeps an earlier non-empty name listed, and keeps a full user range full |
| Installation.WithLayers | CarSimulator/Assets/RealisticCarControllerV4/Editor/InitLoad/RCC_Installation.cs:48-51 | The table keeps its 32 slots after CheckLayer is applied to each name in turn |
| Installation.WithLayersFillsOnlyEmpty | CarSimulator/Assets/RealisticCarControllerV4/Editor/InitLoad/RCC_Installation.cs:48-51 | Every slot the calls change was an empty slot of 8..30 and now holds one of the names. Built-in slots, slot 31 and named slots are never overwritten |
| Installation.WithLayersKeepsSettled | CarSimulator/Assets/RealisticCarControllerV4/Editor/InitLoad/RCC_Installation.cs:48-51 | A non-empty name that is listed, or a full user range, survives any sequence of CheckLayer calls |
| Installation.WithLayersSettles | CarSimulator/Assets/RealisticCarControllerV4/Editor/InitLoad/RCC_Installation.cs:48-51 | After the calls every name is listed, unless the user range is full |
| Installation.TagExistsAsWrittenFails | CarSimulator/Assets/RealisticCarControllerV4/Editor/InitLoad/RCC_Installation.cs:151-157 | Take the fixed 0..10000 scan and a table shorter than 10000. A present tag gives true. A missing tag makes the scan read past the end, so it fails instead of answering false |
| Installation.TagOrUntagged | CarSimulator/Assets/RealisticCarControllerV4/Editor/InitLoad/RCC_Installation.cs:114-117 | A null or empty name gives "Untagged" and any other name gives itself. The result is never empty |
| Installation.CollectDistinct | CarSimulator/Assets/RealisticCarControllerV4/Editor/InitLoad/RCC_Installation.cs:304-311 | The result has no duplicates and holds exactly the found items. They appear in the order of their first occurrence in the found list |
| Installation.TagManager.TagExists | CarSimulator/Assets/RealisticCarControllerV4/Editor/InitLoad/RCC_Installation.cs:151-157 | True iff the tag is in the table (the scan is bounded by the table's size) |
| Installation.TagManager.LayerExists | CarSimulator/Assets/RealisticCarControllerV4/Editor/InitLoad/RCC_Installation.cs:235-241 | True iff one of slots 0..30 holds the name. Slot 31 is never searched |
| Installation.TagManager.CheckTag | CarSimulator/Assets/RealisticCarControllerV4/Editor/InitLoad/RCC_Installation.cs:82-108 | Always answers true. The table becomes `WithTag` of the old table |
| Installation.TagManager.NewTag | CarSimulator/Assets/RealisticCarControllerV4/Editor/InitLoad/RCC_Installation.cs:110-119 | Registers a given name with CheckTag and answers `TagOrUntagged(name)` |
| Installation.TagManager.RemoveTag | CarSimulator/Assets/RealisticCarControllerV4/Editor/InitLoad/RCC_Installation.cs:121-149 | Answers true iff the tag was present. The table becomes `WithoutTag` of the old table |
| Installation.TagManager.CheckLayer | CarSimulator/Assets/RealisticCarControllerV4/Editor/InitLoad/RCC_Installation.cs:159-193 | Answers true iff the name was listed or a user slot was free. The table becomes `WithLayer` of the old table, so an unlisted name with a full user range gives false and leaves the table unchanged |
| Installation.TagManager.NewLayer | CarSimulator/Assets/RealisticCarControllerV4/Editor/InitLoad/RCC_Installation.cs:195-202 | Always runs CheckLayer and answers the name |
| Installation.TagManager.RemoveLayer | CarSimulator/Assets/RealisticCarControllerV4/Editor/InitLoad/RCC_Installation.cs:204-233 | Answers true iff one of the 32 slots holds the name. The table becomes `WithoutLayer` of the old table |
| Installation.TagManager.AddRequiredLayers | CarSimulator/Assets/RealisticCarControllerV4/Editor/InitLoad/RCC_Installation.cs:48-51 | The table becomes `WithLayers` of the old table over the four RCC layer names, in the source's order |
| Installation.TagManager.Check | CarSimulator/Assets/RealisticCarControllerV4/Editor/InitLoad/RCC_Installation.cs:18-57 | `missingLayers[k]` is null iff layer k is listed, and otherwise holds its name. When a layer is missing and the dialog is confirmed, the table becomes `WithLayers` over the four names; otherwise nothing changes. Afterwards only empty user slots have changed, each to an RCC layer name. After a confirmation every RCC layer is listed or the user range is full |
| Materials.NonNullHasNoNull | CarSimulator/Assets/RealisticCarControllerV4/Scripts/ScriptableObjects/RCC_DemoMaterials.cs:123-153 | A cleaned array has no null entry |
| Materials.NonNullCounts | CarSimulator/Assets/RealisticCarControllerV4/Scripts/ScriptableObjects/RCC_DemoMaterials.cs:128-135 | Cleaning keeps every non-null entry with its multiplicity and drops every null. The new length is the old length minus the number of nulls |
| Materials.NonNullAppend | CarSimulator/Assets/RealisticCarControllerV4/Scripts/ScriptableObjects/RCC_DemoMaterials.cs:130-133 | Cleaning distributes over concatenation, so non-null entries keep their relative order |
| Materials.NonNullOfClean | CarSimulator/Assets/RealisticCarControllerV4/Scripts/ScriptableObjects/RCC_DemoMaterials.cs:142-149 | An array without nulls is left as it is |
| Materials.NonNullIdempotent | CarSimulator/Assets/RealisticCarControllerV4/Scripts/ScriptableObjects/RCC_DemoMaterials.cs:123-153 | Cleaning twice equals cleaning once |
| Materials.CollectNonNull | CarSimulator/Assets/RealisticCarControllerV4/Scripts/ScriptableObjects/RCC_DemoMaterials.cs:128-133 | The loop builds exactly the cleaned sequence of the array |
| Materials.ToArray | CarSimulator/Assets/RealisticCarControllerV4/Scripts/ScriptableObjects/RCC_DemoMaterials.cs:135 | A fresh array with the list's entries |
| Materials.DemoMaterials.constructor | CarSimulator/Assets/RealisticCarControllerV4/Scripts/ScriptableObjects/RCC_DemoMaterials.cs:49-64 | The asset starts with the given arrays and the two default car-body shader names |
| Materials.DemoMaterials.ConvertCarBodyShadersToURP | CarSimulator/Assets/RealisticCarControllerV4/Scripts/ScriptableObjects/RCC_DemoMaterials.cs:69-102 | When the shader is found, every non-null vehicle material gets it and nulls are skipped. With a null array or a failed lookup no material changes. Only vehicle materials may change |
| Materials.DemoMaterials.SelectEnvironmentShadersForURP | CarSimulator/Assets/RealisticCarControllerV4/Scripts/ScriptableObjects/RCC_DemoMaterials.cs:110-118 | Answers `demoMaterials` itself, null included |
| Materials.DemoMaterials.CleanEmptyMaterials | CarSimulator/Assets/RealisticCarControllerV4/Scripts/ScriptableObjects/RCC_DemoMaterials.cs:123-153 | A null array stays null. A non-null one is replaced by a fresh array holding its non-null entries in order. The shader names are kept |

## Left out

- The engine's coroutine scheduler: `StartCoroutine` and `WaitForFixedUpdate` are modelled as one resumption per call. Replay is resumed before Revel, in the order they were started.
- RecordReplay.Recorder.PhysicsStep: the engine's physics update is not modelled. It is a step that may set the vehicle's pose and velocities to anything, so nothing is proved about where a replay leaves the vehicle.
- RecordReplay.Recorder: `SaveRecord`, `Record`, `TogglePlayback`, `Play`, `PlayClip` and `Stop` require a vehicle wherever the source dereferences `CarController`. Without one the source throws a NullReferenceException after partial work: `Stop` sets Neutral and then throws; `Record` from Record sets Neutral and throws inside `SaveRecord` before anything is saved; `Play()` with a clip toggles the mode and throws; `Play(clip)` replaces `recorded`, toggles the mode and throws. These failing paths are not modelled. Only `FixedUpdate`, `Record()` from Neutral or Play, and `Play()` without a clip accept a missing vehicle.
- RecordReplay.Recorder.constructor: `recorded` starts as None, following the field's C# declaration. In a scene, the engine's serializer may instead fill that field with an empty clip. `Play()` before any recording would then toggle through Play back to Neutral instead of doing nothing, which the model does not capture.
- Overlapping coroutines: in the engine, starting playback while an older Replay or Revel is still pending leaves the old coroutine alive next to the new one. Examples: Play→Neutral→Play within one physics step; `Stop()` or `Record()` during playback followed by `Play()` in the same step; a playback that ended with Replay pending, followed by `Play()`. The model keeps one of each, and restarting replaces the old one.
- RecordReplay.Recorder.ReplayStep: the fourteen input, gear and light fields of the vehicle are one `PlayerInput` value (`controls`), written and read as a whole.
- RecordReplay.Recorder.RunPlayback: the final cursor values are stated only for a starting cursor within both arrays of the clip. A cursor left past the end of a clip that `SaveRecord` replaced during playback is not covered; for it the model proves only that playback ends in Neutral.
- Float, `Vector3` and `Quaternion` payloads are carried as reals and are never computed with. `IndicatorsOn` is carried as its underlying integer, because RCC_CarControllerV4.cs is not part of this model.
- `Debug.Log` and `Debug.LogError` messages, including the "All allowed layers have been filled" message. That message sits behind the test `i == j` inside a loop whose guard is `i < j`, so it can never run.
- The record count is an unbounded natural. C#'s `int` count cannot realistically overflow here.
- Installation.TagManager.NewLayer: names are non-null strings. The always-true guard also lets a null name through, and the source then runs `CheckLayer(null)`: `LayerExists(null)` is false because `Equals(null)` is false, so `null` is written into the first free user slot. That call is not modelled.
- Installation.TagManager.NewTag: for a null name the model skips the `CheckTag(null)` call, because a null string cannot be stored in the tag table.
- Prefab scanning in `CheckAll*Layers` (AssetDatabase search and load, progress bar and cancellation, layer assignment through `GetComponentsInChildren`, `Resources.UnloadUnusedAssets`, asset saving). These are editor APIs; only the de-duplication pass `CollectDistinct` is modelled.
- `CollisionMatrix` (physics engine settings), `SearchByFilter`, and the `DisplayDialog` in `Check`. The dialog's answer is the `addConfirmed` parameter.
- Loading the TagManager asset and `ApplyModifiedProperties`: the asset is one `TagManager` object edited in place.
- `Shader.Find`, `IsURP` and the render-pipeline detection are parameters, and so is the asset's singleton loader `Instance`.
- The other files of the plugin (input manager, pipeline checks, editor windows, emission, fuel and repair stations, customizers, UI and scene scripts) are engine glue and are not part of this model.

## Findings

| source | as written | input that shows it | evidently intended | confidence | as-written member | corrected member |
|---|---|---|---|---|---|---|
| CarSimulator/Assets/RealisticCarControllerV4/Editor/InitLoad/RCC_Installation.cs:155 | `TagExists` scans indices 0..10000 whatever the table's size. Past the end, `GetArrayElementAtIndex` gives no element and reading `stringValue` throws. So `CheckTag` on a missing tag fails before its append branch | an empty tag table `[]`, as in a fresh project, and tag `"RCC"` | scan `[0, arraySize)`, as `CheckTag` and `RemoveTag` already do, so that a missing tag is appended | not executed; medium (relies on the engine's out-of-range behaviour) | Installation.TagExistsAsWrittenFails | Installation.TagManager.TagExists, Installation.TagManager.CheckTag |
