# Lens makeup scripts: a verified model

This project models the two decision-making scripts of the `bw3k` makeup lens.
The lens host runtime does the face tracking, rendering and landmark geometry;
these scripts only configure components and react to host events.

- **LipsController** (`lips_controller.dfy`) switches the opacity texture of a
  face-mask material between "mouth open" and "mouth closed". On every frame
  while a face is tracked, it divides the lip gap by the face height and
  compares the ratio with a dead-zone band around `BOUND_EPS = 0.02` of
  half-width `DELTA = 0.005`:
  - below 0.015, the closed-mouth texture is shown;
  - above 0.025, the texture captured from the material at initialisation is shown;
  - in between, both bounds included, nothing changes.

  The face found/lost events turn tracking on and off. `initialize` arms the
  three events only when both the closed-mouth texture and a face mask with a
  material are set. The script's module state is a class, `Controller`. Each
  event handler is proved to follow a pure transition, `Handle`. The lemmas
  about `Run` (`Handle` over a sequence of events) state hysteresis,
  idempotence, freezing while untracked, and which textures can ever be shown.
- **MakeupController** (`makeup_controller.dfy`) is a one-shot pass of guarded
  writes, run when the lens loads:
  - For lips, lip gloss, blush, eyeliner, mascara and eyebrows: if the
    component is assigned, it copies the enable flag, the face index and the
    colour. If it is missing, it reports an error only when the layer is enabled.
  - The three eyeshadow components are set from a four-row table indexed by
    `eyeshadowType`, behind a guard on the array's shape.

  `Configure` is the script as written, block by block. It is proved equal to
  the functions `Applied` (the resulting components) and `Problems` (the
  printed errors, in order). Lemmas about those functions state the rules above,
  which errors appear and when, and that running the script twice gives the
  same result.
- `host.dfy` holds the opaque host values: textures, colours, and unset inputs
  (`Option`).

Two points of the code's behaviour that are easy to misread, modelled as the code has them:
- The code does not skip a frame whose face height is zero. The division then
  yields +Infinity or NaN. `Ratio` models exactly these two outcomes: a positive
  lip gap over zero selects the open texture, and 0/0 changes nothing.
- There is no separate `Unknown` mouth state. The initial "state" is whatever
  texture the material had when it was captured.

## Model

| member | source | states |
|---|---|---|
| `LipsController.Ratio` | bw3k/Public/Scripts/LipsController.js:36 | the ratio is finite iff the face height is non-zero, and then it is non-negative and times the face height gives back the lip gap; +Infinity iff the height is zero and the gap positive; NaN otherwise |
| `LipsController.Decide` | bw3k/Public/Scripts/LipsController.js:38-42 | closed iff the ratio is finite and below 0.015; opened iff it is +Infinity or above 0.025; hold iff it is in [0.015, 0.025], both bounds included, or NaN |
| `LipsController.Handle` | bw3k/Public/Scripts/LipsController.js:28-54 | found/lost set tracking and keep the texture; an update keeps tracking and changes nothing while untracked; the texture after any event is the previous one, the closed one or the captured one |
| `LipsController.RunIsLastDecision` | bw3k/Public/Scripts/LipsController.js:28-54 | hysteresis over any event sequence: the texture shown is the one picked by the last update that arrived while tracked and lay outside the band, and tracking is set by the last found/lost event |
| `LipsController.RunShowsOnlyKnownTextures` | bw3k/Public/Scripts/LipsController.js:38-42 | after any event sequence, the texture shown is the initial one, the closed-mouth texture or the captured one |
| `LipsController.RunUntrackedIsStill` | bw3k/Public/Scripts/LipsController.js:28-44 | while untracked, a sequence without a face-found event changes nothing at all |
| `LipsController.RunInBandKeepsTexture` | bw3k/Public/Scripts/LipsController.js:38-42 | if every ratio stays in the band, the texture never changes, whatever tracking events come in between |
| `LipsController.RepeatedUpdateIsOneUpdate` | bw3k/Public/Scripts/LipsController.js:38-42 | idempotence: k >= 1 updates with the same ratio have the effect of one |
| `LipsController.SwitchCrossesBand` | bw3k/Public/Scripts/LipsController.js:5-6 | a ratio that selects "closed" and one that selects "opened" are more than 2 * DELTA apart |
| `LipsController.DesignScenarios` | bw3k/Public/Scripts/LipsController.js:36-42 | gap 0.2, 0.6, 0.4 over height 20 give closed, opened, hold; 0/0 holds and a positive gap over zero height opens |
| `LipsController.Head.constructor` | bw3k/Public/Scripts/LipsController.js:14 | the created head component starts on face 0 |
| `LipsController.Event.constructor` | bw3k/Public/Scripts/LipsController.js:16-26 | each event is created disabled |
| `LipsController.Controller.constructor` | bw3k/Public/Scripts/LipsController.js:5-26 | loading the script, including the final call to initialize() on line 100: tracking is off; the events are armed iff the closed texture, the face mask and its material are all set; once armed, the material's texture at that moment is captured and shown |
| `LipsController.Controller.Initialize` | bw3k/Public/Scripts/LipsController.js:56-86 | a missing closed texture returns early with nothing changed; a missing face mask changes nothing; otherwise the face index is taken from the mask; only when the material is also set are its texture captured and all three events enabled; otherwise the capture and the events stay as they were; the error printed is the first missing input |
| `LipsController.Controller.SetFaceIndex` | bw3k/Public/Scripts/LipsController.js:88-95 | writes the index to the script's face index, the head and the found/lost events, and to nothing else |
| `LipsController.Controller.OnFaceFound` | bw3k/Public/Scripts/LipsController.js:46-49 | sets tracking on and changes nothing else |
| `LipsController.Controller.OnFaceLost` | bw3k/Public/Scripts/LipsController.js:51-54 | sets tracking off and changes nothing else |
| `LipsController.Controller.OnUpdate` | bw3k/Public/Scripts/LipsController.js:28-44 | follows Handle for the frame's ratio; untracked, it changes nothing; it modifies only the material's texture, which stays the captured or the closed-mouth texture |
| `MakeupController.SetColor` | bw3k/Public/Scripts/MakeupController.js:86-94 | with a material, the base colour becomes (x, y, z, alpha) and the opacity texture is kept; without one, the component is unchanged and the missing material is reported |
| `MakeupController.Tinted` | bw3k/Public/Scripts/MakeupController.js:86-94 | setColor's effect: flags and face index kept, the material present iff it was, and then holding the new base colour and its old opacity texture |
| `MakeupController.EyeshadowPlan` | bw3k/Public/Scripts/MakeupController.js:151-182 | the type table is defined exactly for types 0 to 3, with one entry per slot 0, 1 and 2 |
| `MakeupController.ConfigureLips` | bw3k/Public/Scripts/MakeupController.js:96-113 | the lips block: the single-layer rule for the lips, and the lips-fix script set to applyLipsFix only when both it and the lips are assigned |
| `MakeupController.ConfigureLayer` | bw3k/Public/Scripts/MakeupController.js:115-140 | one single-layer block: only that layer's component changes, to its flag, the face index and its tint; the errors are those of that layer |
| `MakeupController.ConfigureEyeshadow` | bw3k/Public/Scripts/MakeupController.js:143-187 | the eyeshadow block, with its four sequential `if type == k` tests, yields exactly the table's effect and errors |
| `MakeupController.Configure` | bw3k/Public/Scripts/MakeupController.js:96-206 | the whole script, run block by block, yields Applied and prints Problems |
| `MakeupController.LayerFollowsInputs` | bw3k/Public/Scripts/MakeupController.js:96-140 | an assigned layer ends with its enable flag, the script's face index and its tint; its material's other properties are untouched; an unassigned layer stays unassigned |
| `MakeupController.LipsFixFollowsInput` | bw3k/Public/Scripts/MakeupController.js:100-108 | the lips-fix script's flag equals applyLipsFix when it and the lips are assigned, and is untouched otherwise |
| `MakeupController.EyeshadowOffUntouched` | bw3k/Public/Scripts/MakeupController.js:143 | with eyeshadow disabled, the eyeshadow components are untouched (their flags are not cleared) and no error mentions them |
| `MakeupController.EyeshadowGuard` | bw3k/Public/Scripts/MakeupController.js:144-186 | enabled, with fewer than three components or an unset slot among 0 to 2: nothing is modified, and exactly one error is printed |
| `MakeupController.EyeshadowTableCharacterised` | bw3k/Public/Scripts/MakeupController.js:151-182 | slot 0 is on for types 1 and 3, slot 1 for types 0 and 1, slot 2 for types 2 and 3; an enabled slot takes colour 1, except slot 1 of type 1 (colour 2) and slot 2 of type 3 (colour 3) |
| `MakeupController.EyeshadowFollowsTable` | bw3k/Public/Scripts/MakeupController.js:147-182 | behind the guard, each of slots 0 to 2 gets the face index and its table entry's flag and tint (an "off" slot keeps its material); the array keeps its length and its entries past slot 2 |
| `MakeupController.EyeshadowUnknownType` | bw3k/Public/Scripts/MakeupController.js:147-182 | for a type outside 0..3, only the face indices of slots 0 to 2 change |
| `MakeupController.UniformFaceIndex` | bw3k/Public/Scripts/MakeupController.js:96-206 | every assigned layer, and every eyeshadow slot behind the guard, ends on the script's face index |
| `MakeupController.LayerProblemsShape` | bw3k/Public/Scripts/MakeupController.js:109-113 | a single-layer block's errors name only that layer: "not assigned" iff it is enabled and missing, "no material" iff it is assigned without one |
| `MakeupController.EyeshadowProblemsShape` | bw3k/Public/Scripts/MakeupController.js:143-187 | the eyeshadow block's errors name the array iff the guard fails while enabled, and name slot i iff the guard passes, the table turns slot i on, and it has no material |
| `MakeupController.InProblems` | bw3k/Public/Scripts/MakeupController.js:96-206 | the printed errors are exactly those of the seven blocks |
| `MakeupController.NotAssignedExplained` | bw3k/Public/Scripts/MakeupController.js:111-113 | a layer is reported unassigned iff it is enabled and missing |
| `MakeupController.LayerMaterialExplained` | bw3k/Public/Scripts/MakeupController.js:86-94 | a layer's material is reported missing iff the layer is assigned and has none |
| `MakeupController.EyeshadowArrayExplained` | bw3k/Public/Scripts/MakeupController.js:184-186 | the eyeshadow array is reported iff eyeshadow is enabled and the array fails the guard |
| `MakeupController.EyeshadowMaterialExplained` | bw3k/Public/Scripts/MakeupController.js:151-182 | an eyeshadow slot's material is reported missing iff the guard passes, the table turns that slot on, and it has no material |
| `MakeupController.ConfigureIdempotent` | bw3k/Public/Scripts/MakeupController.js:96-206 | running the script again on its own result changes nothing and prints the same errors |

## Left out

- Landmark retrieval and geometry (`head.getLandmark`, `distance`): host calls. `Controller.OnUpdate` takes the lip gap and the face height as `real` parameters. The lip gap is a distance, so it is required to be non-negative.
- Floating point: ratios are exact reals. Only the outcomes of a division by zero (+Infinity, NaN) and how they compare are modelled.
- Event creation and binding (`createEvent`, `bind`): each event is an object with an `enabled` flag, and each handler is a method. The host fires a handler only while its event is enabled. `Controller.OnFaceFound` therefore requires the face-found event to be enabled, which is what makes tracking imply an armed controller.
- LipsController.Controller.Initialize: the script inputs (`mouthClosedMask`, `faceMask`) are constants of the controller. A call through `script.api.initialize` after another script has reassigned these inputs is not modelled.
- Other scripts writing the material's opacity texture between frames: not modelled. The invariant that only the captured or the closed texture is shown relies on that.
- `print`: LipsController's messages are the `SetupError` result of `Initialize`, and MakeupController's are the `Report` sequence. The message texts, which include scene-object names, are not modelled.
- The `@input` / `@ui` annotation blocks: editor metadata. Only the input values are modelled, as `Inputs` and the controller's constants.
- Colour construction (`vec3`, `vec4`) and rendering: colours are records of reals, and textures are opaque identities.
- MakeupController aliasing: each input slot owns its component record. The same component assigned to two inputs, or a material shared by two components, is not modelled. In the source, the later block's writes would win.
- JavaScript truthiness of inputs: an unset component or array is `None`. Any array, even an empty one, counts as set, and is then rejected by the length test.
- The third script of the repository (`ml modern painting/Public/Scripts/StyleTransferController.js`) is not part of this model.
