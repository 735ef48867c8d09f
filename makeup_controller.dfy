/** The one-shot makeup configuration of the lens
    (bw3k/Public/Scripts/MakeupController.js).

    When the script loads it walks the makeup layers in a fixed order: lips,
    lip gloss, blush, eyeliner, eyeshadow, mascara, eyebrows. For each layer
    whose face-mask component is assigned, it copies the enable flag and the
    face index and writes the colour into the component's material. The three
    eyeshadow components are set from a table indexed by the eyeshadow type.
    Every missing component or material is reported.

    Components are records here. Configure is the script as a sequence of
    guarded writes. Applied and Problems give its effect as functions, and the
    lemmas below state what that effect is. */
module MakeupController {
  import opened Host

  /** A material pass: its base colour, which this script writes, and its
      opacity texture, which it never touches. */
  datatype Material = Material(baseColor: Vec4, opacityTex: Option<Texture>)

  /** A `Component.FaceMaskVisual`. */
  datatype Visual = Visual(enabled: bool, faceIndex: int, mainPass: Option<Material>)

  /** The `Component.ScriptComponent` that runs the lips-gap fix. */
  datatype ScriptComponent = ScriptComponent(enabled: bool)

  /** The layers that have one component each. */
  datatype Layer = Lips | Lipgloss | Blush | Eyeliner | Mascara | Eyebrows

  /** A colour input with its intensity slider. */
  datatype Tint = Tint(color: Vec3, alpha: real)

  /** The inputs of one single-component layer: the enable flag and the tint. */
  datatype LayerInput = LayerInput(enable: bool, tint: Tint)

  /** The script's `@input` values. */
  datatype Inputs = Inputs(
    faceIndex: int,
    lips: LayerInput, applyLipsFix: bool,
    lipgloss: LayerInput,
    blush: LayerInput,
    eyeliner: LayerInput,
    enableEyeshadow: bool, eyeshadowType: int,
    eyeshadow1: Tint, eyeshadow2: Tint, eyeshadow3: Tint,
    mascara: LayerInput,
    eyebrows: LayerInput)
  {
    function Setting(l: Layer): LayerInput
    {
      match l
      case Lips => lips
      case Lipgloss => lipgloss
      case Blush => blush
      case Eyeliner => eyeliner
      case Mascara => mascara
      case Eyebrows => eyebrows
    }
  }

  /** The components assigned in the Advanced section. A layer missing from
      `layers` is unassigned; `eyeshadow` is the component array, itself
      possibly unset, whose entries may be unset too. */
  datatype Scene = Scene(
    layers: map<Layer, Visual>,
    lipsController: Option<ScriptComponent>,
    eyeshadow: Option<seq<Option<Visual>>>)

  /** The component an error message names. */
  datatype Target = LayerTarget(layer: Layer) | EyeshadowSlot(index: nat)

  /** The error messages the script prints. */
  datatype Report =
    | NotAssigned(layer: Layer)
    | MaterialNotSet(target: Target)
    | EyeshadowsNotAssigned

  // ---------------------------------------------------------------------
  // The effect of the script, as functions.
  // ---------------------------------------------------------------------

  /** The component after `setColor`. If it has no material, it is unchanged. */
  function Tinted(v: Visual, t: Tint): (r: Visual)
    ensures r.enabled == v.enabled && r.faceIndex == v.faceIndex
    ensures r.mainPass.Some? <==> v.mainPass.Some?
    ensures v.mainPass.Some? ==>
              r.mainPass.value == Material(Vec4(t.color.x, t.color.y, t.color.z, t.alpha), v.mainPass.value.opacityTex)
  {
    match v.mainPass
    case None => v
    case Some(m) => v.(mainPass := Some(m.(baseColor := Vec4(t.color.x, t.color.y, t.color.z, t.alpha))))
  }

  /** The component after one single-layer block. */
  function Painted(v: Visual, enable: bool, faceIndex: int, t: Tint): Visual
  {
    Tinted(v.(enabled := enable, faceIndex := faceIndex), t)
  }

  /** What one eyeshadow slot receives. */
  datatype SlotPlan = Off | On(tint: Tint)

  /** The eyeshadow type table: what slots 0, 1 and 2 receive. None for a
      type outside 0..3. */
  function EyeshadowPlan(inp: Inputs): (plan: Option<seq<SlotPlan>>)
    ensures plan.Some? <==> 0 <= inp.eyeshadowType <= 3
    ensures plan.Some? ==> |plan.value| == 3
  {
    match inp.eyeshadowType
    case 0 => Some([Off, On(inp.eyeshadow1), Off])
    case 1 => Some([On(inp.eyeshadow1), On(inp.eyeshadow2), Off])
    case 2 => Some([Off, Off, On(inp.eyeshadow1)])
    case 3 => Some([On(inp.eyeshadow1), Off, On(inp.eyeshadow3)])
    case _ => None
  }

  /** The eyeshadow array has at least three entries and slots 0 to 2 are set. */
  predicate EyeshadowReady(slots: Option<seq<Option<Visual>>>)
  {
    slots.Some? && |slots.value| > 2 && slots.value[0].Some? && slots.value[1].Some? && slots.value[2].Some?
  }

  /** Eyeshadow slot `i` after the eyeshadow block. */
  function SlotApplied(v: Visual, inp: Inputs, i: nat): Visual
    requires i < 3
  {
    var v' := v.(faceIndex := inp.faceIndex);
    match EyeshadowPlan(inp)
    case None => v'
    case Some(plan) =>
      match plan[i]
      case Off => v'.(enabled := false)
      case On(t) => Tinted(v'.(enabled := true), t)
  }

  function EyeshadowApplied(inp: Inputs, slots: Option<seq<Option<Visual>>>): Option<seq<Option<Visual>>>
  {
    if inp.enableEyeshadow && EyeshadowReady(slots) then
      var s := slots.value;
      Some([Some(SlotApplied(s[0].value, inp, 0)),
            Some(SlotApplied(s[1].value, inp, 1)),
            Some(SlotApplied(s[2].value, inp, 2))] + s[3..])
    else slots
  }

  /** The single-layer components once the blocks of the layers in `done`
      have run. */
  function LayersApplied(inp: Inputs, layers: map<Layer, Visual>, done: set<Layer>): map<Layer, Visual>
  {
    map l | l in layers :: if l in done then Painted(layers[l], inp.Setting(l).enable, inp.faceIndex, inp.Setting(l).tint) else layers[l]
  }

  /** Every single layer. */
  const AllLayers: set<Layer> := {Lips, Lipgloss, Blush, Eyeliner, Mascara, Eyebrows}

  /** The scene after the script has run. */
  function Applied(inp: Inputs, scene: Scene): Scene
  {
    Scene(
      LayersApplied(inp, scene.layers, AllLayers),
      if Lips in scene.layers && scene.lipsController.Some?
        then Some(scene.lipsController.value.(enabled := inp.applyLipsFix))
        else scene.lipsController,
      EyeshadowApplied(inp, scene.eyeshadow))
  }

  /** The errors `setColor` prints for component `v`. */
  function MaterialProblems(v: Visual, target: Target): seq<Report>
  {
    if v.mainPass.None? then [MaterialNotSet(target)] else []
  }

  /** The errors one single-layer block prints. */
  function LayerProblems(inp: Inputs, layers: map<Layer, Visual>, l: Layer): seq<Report>
  {
    if l in layers then MaterialProblems(layers[l], LayerTarget(l))
    else if inp.Setting(l).enable then [NotAssigned(l)]
    else []
  }

  /** The errors the `setColor` call for eyeshadow slot `i` prints, if the table calls it. */
  function SlotProblems(v: Visual, inp: Inputs, i: nat): seq<Report>
    requires i < 3
  {
    match EyeshadowPlan(inp)
    case Some(plan) => if plan[i].On? then MaterialProblems(v, EyeshadowSlot(i)) else []
    case None => []
  }

  function EyeshadowProblems(inp: Inputs, slots: Option<seq<Option<Visual>>>): seq<Report>
  {
    if !inp.enableEyeshadow then []
    else if !EyeshadowReady(slots) then [EyeshadowsNotAssigned]
    else
      var s := slots.value;
      SlotProblems(s[0].value, inp, 0) + SlotProblems(s[1].value, inp, 1) + SlotProblems(s[2].value, inp, 2)
  }

  /** The errors the script prints, in the order it prints them. */
  function Problems(inp: Inputs, scene: Scene): seq<Report>
  {
    LayerProblems(inp, scene.layers, Lips)
    + LayerProblems(inp, scene.layers, Lipgloss)
    + LayerProblems(inp, scene.layers, Blush)
    + LayerProblems(inp, scene.layers, Eyeliner)
    + EyeshadowProblems(inp, scene.eyeshadow)
    + LayerProblems(inp, scene.layers, Mascara)
    + LayerProblems(inp, scene.layers, Eyebrows)
  }

  /** Running the block of one more layer `x` on the components. */
  lemma LayersAppliedStep(inp: Inputs, base: map<Layer, Visual>, done: set<Layer>, x: Layer)
    requires x !in done
    ensures LayerProblems(inp, LayersApplied(inp, base, done), x) == LayerProblems(inp, base, x)
    ensures var before := LayersApplied(inp, base, done);
            LayersApplied(inp, base, done + {x})
            == if x in base then before[x := Painted(base[x], inp.Setting(x).enable, inp.faceIndex, inp.Setting(x).tint)] else before
  {
  }

  // ---------------------------------------------------------------------
  // What the script does, as lemmas about Applied and Problems.
  // ---------------------------------------------------------------------

  /** Single-layer rule: an assigned layer ends with its enable flag, the
      script's face index and its tint in the material (the material's other
      properties untouched); an unassigned one stays unassigned. */
  lemma LayerFollowsInputs(inp: Inputs, scene: Scene, l: Layer)
    ensures var after := Applied(inp, scene).layers;
            && (l in after <==> l in scene.layers)
            && (l in scene.layers ==>
                  var v, v', t := scene.layers[l], after[l], inp.Setting(l).tint;
                  && v'.enabled == inp.Setting(l).enable
                  && v'.faceIndex == inp.faceIndex
                  && (v'.mainPass.Some? <==> v.mainPass.Some?)
                  && (v.mainPass.Some? ==>
                        v'.mainPass.value == Material(Vec4(t.color.x, t.color.y, t.color.z, t.alpha), v.mainPass.value.opacityTex)))
  {
  }

  /** The lips-gap fix script is switched to `applyLipsFix` only when both
      the lips and the fix script are assigned; otherwise it is untouched. */
  lemma LipsFixFollowsInput(inp: Inputs, scene: Scene)
    ensures Lips in scene.layers && scene.lipsController.Some? ==>
              Applied(inp, scene).lipsController == Some(ScriptComponent(inp.applyLipsFix))
    ensures !(Lips in scene.layers && scene.lipsController.Some?) ==>
              Applied(inp, scene).lipsController == scene.lipsController
  {
  }

  /** With eyeshadow disabled, no eyeshadow component is touched (their
      enable flags are not cleared) and nothing about them is reported. */
  lemma EyeshadowOffUntouched(inp: Inputs, scene: Scene)
    requires !inp.enableEyeshadow
    ensures Applied(inp, scene).eyeshadow == scene.eyeshadow
    ensures EyeshadowProblems(inp, scene.eyeshadow) == []
  {
  }

  /** With eyeshadow enabled but fewer than three components, or one of slots
      0 to 2 unset, the array is untouched and only that error is reported. */
  lemma EyeshadowGuard(inp: Inputs, scene: Scene)
    requires inp.enableEyeshadow && !EyeshadowReady(scene.eyeshadow)
    ensures Applied(inp, scene).eyeshadow == scene.eyeshadow
    ensures EyeshadowProblems(inp, scene.eyeshadow) == [EyeshadowsNotAssigned]
  {
  }

  /** The type table, characterised slot by slot: slot 0 is on for the
      two-colour types 1 and 3, slot 1 for the light types 0 and 1, slot 2
      for the heavy types 2 and 3; an enabled slot takes the first colour,
      except the second colour of the two-colour types (slot 1 of type 1,
      slot 2 of type 3). */
  lemma EyeshadowTableCharacterised(inp: Inputs, i: nat)
    requires 0 <= inp.eyeshadowType <= 3 && i < 3
    ensures var t, p := inp.eyeshadowType, EyeshadowPlan(inp).value[i];
            && (p.On? <==> (i == 0 && t % 2 == 1) || (i == 1 && t <= 1) || (i == 2 && t >= 2))
            && (p.On? && i == 1 && t == 1 ==> p.tint == inp.eyeshadow2)
            && (p.On? && i == 2 && t == 3 ==> p.tint == inp.eyeshadow3)
            && (p.On? && !(i == 1 && t == 1) && !(i == 2 && t == 3) ==> p.tint == inp.eyeshadow1)
  {
  }

  /** Behind the guard, each of slots 0 to 2 gets the script's face index and
      the flag and tint of its table entry; the array keeps its length and the
      entries after slot 2 are untouched. */
  lemma EyeshadowFollowsTable(inp: Inputs, scene: Scene, i: nat)
    requires inp.enableEyeshadow && EyeshadowReady(scene.eyeshadow)
    requires 0 <= inp.eyeshadowType <= 3 && i < 3
    ensures var s, s' := scene.eyeshadow.value, Applied(inp, scene).eyeshadow.value;
            var v, v', p := s[i].value, s'[i].value, EyeshadowPlan(inp).value[i];
            && |s'| == |s| && s'[3..] == s[3..] && s'[i].Some?
            && v'.faceIndex == inp.faceIndex
            && v'.enabled == p.On?
            && (v'.mainPass.Some? <==> v.mainPass.Some?)
            && (p.Off? ==> v'.mainPass == v.mainPass)
            && (p.On? && v.mainPass.Some? ==>
                  v'.mainPass.value == Material(Vec4(p.tint.color.x, p.tint.color.y, p.tint.color.z, p.tint.alpha), v.mainPass.value.opacityTex))
  {
  }

  /** An eyeshadow type outside 0..3 changes only the face indices of slots
      0 to 2. */
  lemma EyeshadowUnknownType(inp: Inputs, scene: Scene, i: nat)
    requires inp.enableEyeshadow && EyeshadowReady(scene.eyeshadow)
    requires !(0 <= inp.eyeshadowType <= 3) && i < |scene.eyeshadow.value|
    ensures var s, s' := scene.eyeshadow.value, Applied(inp, scene).eyeshadow.value;
            |s'| == |s| && s'[i] == if i < 3 then Some(s[i].value.(faceIndex := inp.faceIndex)) else s[i]
  {
  }

  /** Every component the script configures ends on the same face, the
      script's `faceIndex`. */
  lemma UniformFaceIndex(inp: Inputs, scene: Scene)
    ensures forall l :: l in Applied(inp, scene).layers ==> Applied(inp, scene).layers[l].faceIndex == inp.faceIndex
    ensures inp.enableEyeshadow && EyeshadowReady(scene.eyeshadow) ==>
              forall i :: 0 <= i < 3 ==> Applied(inp, scene).eyeshadow.value[i].value.faceIndex == inp.faceIndex
  {
    forall l | l in Applied(inp, scene).layers ensures Applied(inp, scene).layers[l].faceIndex == inp.faceIndex {
      LayerFollowsInputs(inp, scene, l);
    }
  }

  /** The errors one single-layer block prints name that layer only. */
  lemma LayerProblemsShape(inp: Inputs, layers: map<Layer, Visual>, x: Layer)
    ensures forall r :: r in LayerProblems(inp, layers, x) ==> r == NotAssigned(x) || r == MaterialNotSet(LayerTarget(x))
    ensures NotAssigned(x) in LayerProblems(inp, layers, x) <==> inp.Setting(x).enable && x !in layers
    ensures MaterialNotSet(LayerTarget(x)) in LayerProblems(inp, layers, x) <==> x in layers && layers[x].mainPass.None?
  {
  }

  /** The errors of the eyeshadow block name the array or one of its slots. */
  lemma EyeshadowProblemsShape(inp: Inputs, slots: Option<seq<Option<Visual>>>, i: nat)
    ensures forall r :: r in EyeshadowProblems(inp, slots) ==> r == EyeshadowsNotAssigned || (r.MaterialNotSet? && r.target.EyeshadowSlot?)
    ensures EyeshadowsNotAssigned in EyeshadowProblems(inp, slots) <==> inp.enableEyeshadow && !EyeshadowReady(slots)
    ensures MaterialNotSet(EyeshadowSlot(i)) in EyeshadowProblems(inp, slots) <==>
              && inp.enableEyeshadow && EyeshadowReady(slots) && i < 3
              && EyeshadowPlan(inp).Some? && EyeshadowPlan(inp).value[i].On?
              && slots.value[i].value.mainPass.None?
  {
  }

  /** A report is in Problems iff it is in the part printed by some block. */
  lemma InProblems(inp: Inputs, scene: Scene, r: Report)
    ensures r in Problems(inp, scene) <==>
              || r in LayerProblems(inp, scene.layers, Lips)
              || r in LayerProblems(inp, scene.layers, Lipgloss)
              || r in LayerProblems(inp, scene.layers, Blush)
              || r in LayerProblems(inp, scene.layers, Eyeliner)
              || r in EyeshadowProblems(inp, scene.eyeshadow)
              || r in LayerProblems(inp, scene.layers, Mascara)
              || r in LayerProblems(inp, scene.layers, Eyebrows)
  {
  }

  /** A layer is reported unassigned iff it is enabled and missing. */
  lemma NotAssignedExplained(inp: Inputs, scene: Scene, l: Layer)
    ensures NotAssigned(l) in Problems(inp, scene) <==> inp.Setting(l).enable && l !in scene.layers
  {
    InProblems(inp, scene, NotAssigned(l));
    EyeshadowProblemsShape(inp, scene.eyeshadow, 0);
    forall x { LayerProblemsShape(inp, scene.layers, x); }
  }

  /** A layer's material is reported missing iff the layer is assigned and
      has none. */
  lemma LayerMaterialExplained(inp: Inputs, scene: Scene, l: Layer)
    ensures MaterialNotSet(LayerTarget(l)) in Problems(inp, scene) <==>
              l in scene.layers && scene.layers[l].mainPass.None?
  {
    InProblems(inp, scene, MaterialNotSet(LayerTarget(l)));
    EyeshadowProblemsShape(inp, scene.eyeshadow, 0);
    forall x { LayerProblemsShape(inp, scene.layers, x); }
  }

  /** The eyeshadow array is reported iff eyeshadow is enabled and the array
      fails the guard. */
  lemma EyeshadowArrayExplained(inp: Inputs, scene: Scene)
    ensures EyeshadowsNotAssigned in Problems(inp, scene) <==> inp.enableEyeshadow && !EyeshadowReady(scene.eyeshadow)
  {
    InProblems(inp, scene, EyeshadowsNotAssigned);
    EyeshadowProblemsShape(inp, scene.eyeshadow, 0);
    forall x { LayerProblemsShape(inp, scene.layers, x); }
  }

  /** An eyeshadow slot's material is reported missing iff the guard passes,
      the table switches that slot on, and it has no material. */
  lemma EyeshadowMaterialExplained(inp: Inputs, scene: Scene, i: nat)
    ensures MaterialNotSet(EyeshadowSlot(i)) in Problems(inp, scene) <==>
              && inp.enableEyeshadow && EyeshadowReady(scene.eyeshadow) && i < 3
              && EyeshadowPlan(inp).Some? && EyeshadowPlan(inp).value[i].On?
              && scene.eyeshadow.value[i].value.mainPass.None?
  {
    InProblems(inp, scene, MaterialNotSet(EyeshadowSlot(i)));
    EyeshadowProblemsShape(inp, scene.eyeshadow, i);
    forall x { LayerProblemsShape(inp, scene.layers, x); }
  }

  /** Running the script a second time on its own result changes nothing and
      prints the same errors. */
  lemma {:induction false} ConfigureIdempotent(inp: Inputs, scene: Scene)
    ensures Applied(inp, Applied(inp, scene)) == Applied(inp, scene)
    ensures Problems(inp, Applied(inp, scene)) == Problems(inp, scene)
  {
    var once := Applied(inp, scene);
    var twice := Applied(inp, once);
    assert twice.layers == once.layers by {
      assert twice.layers.Keys == once.layers.Keys;
      forall l | l in once.layers ensures twice.layers[l] == once.layers[l] {
      }
    }
    if inp.enableEyeshadow && EyeshadowReady(scene.eyeshadow) {
      var s, s1 := scene.eyeshadow.value, once.eyeshadow.value;
      assert EyeshadowReady(once.eyeshadow);
      assert s1[3..] == s[3..];
      assert twice.eyeshadow == once.eyeshadow;
      forall i | 0 <= i < 3 ensures SlotProblems(s1[i].value, inp, i) == SlotProblems(s[i].value, inp, i) {
      }
    }
    forall l ensures LayerProblems(inp, once.layers, l) == LayerProblems(inp, scene.layers, l) {
    }
  }

  // ---------------------------------------------------------------------
  // The script.
  // ---------------------------------------------------------------------

  /** `setColor`: write `(color.x, color.y, color.z, alpha)` into the
      material's base colour, or report that the component has no material. */
  method SetColor(component: Visual, color: Vec3, alpha: real, target: Target) returns (updated: Visual, reports: seq<Report>)
    ensures updated.enabled == component.enabled && updated.faceIndex == component.faceIndex
    ensures updated.mainPass.Some? <==> component.mainPass.Some?
    ensures component.mainPass.Some? ==>
              && updated.mainPass.value.baseColor == Vec4(color.x, color.y, color.z, alpha)
              && updated.mainPass.value.opacityTex == component.mainPass.value.opacityTex
    ensures reports == if component.mainPass.None? then [MaterialNotSet(target)] else []
  {
    var pass := component.mainPass;
    if pass.Some? {
      updated := component.(mainPass := Some(pass.value.(baseColor := Vec4(color.x, color.y, color.z, alpha))));
      reports := [];
    } else {
      updated := component;
      reports := [MaterialNotSet(target)];
    }
  }

  /** One single-layer block: if the component is assigned, copy the flag and
      the face index and set the colour; otherwise report it if the layer is
      enabled. The other layers are untouched. */
  method ConfigureLayer(inp: Inputs, layers: map<Layer, Visual>, layer: Layer)
    returns (result: map<Layer, Visual>, reports: seq<Report>)
    ensures result == if layer in layers then layers[layer := Painted(layers[layer], inp.Setting(layer).enable, inp.faceIndex, inp.Setting(layer).tint)] else layers
    ensures reports == LayerProblems(inp, layers, layer)
  {
    var setting := inp.Setting(layer);
    result := layers;
    reports := [];
    if layer in layers {
      var component := layers[layer];
      component := component.(enabled := setting.enable);
      component := component.(faceIndex := inp.faceIndex);
      component, reports := SetColor(component, setting.tint.color, setting.tint.alpha, LayerTarget(layer));
      result := layers[layer := component];
    } else if setting.enable {
      reports := [NotAssigned(layer)];
    }
  }

  /** The eyeshadow block: behind the guard on the array, set the face index
      of slots 0 to 2, then apply the row of the type table. */
  method ConfigureEyeshadow(inp: Inputs, slots: Option<seq<Option<Visual>>>)
    returns (result: Option<seq<Option<Visual>>>, reports: seq<Report>)
    ensures result == EyeshadowApplied(inp, slots)
    ensures reports == EyeshadowProblems(inp, slots)
  {
    result := slots;
    reports := [];
    if inp.enableEyeshadow {
      if EyeshadowReady(slots) {
        var s := slots.value;
        var e0, e1, e2 := s[0].value, s[1].value, s[2].value;
        var r0, r1, r2: seq<Report> := [], [], [];

        e0 := e0.(faceIndex := inp.faceIndex);
        e1 := e1.(faceIndex := inp.faceIndex);
        e2 := e2.(faceIndex := inp.faceIndex);

        if inp.eyeshadowType == 0 {
          e0 := e0.(enabled := false);
          e1 := e1.(enabled := true);
          e1, r1 := SetColor(e1, inp.eyeshadow1.color, inp.eyeshadow1.alpha, EyeshadowSlot(1));

          e2 := e2.(enabled := false);
        }

        if inp.eyeshadowType == 1 {
          e0 := e0.(enabled := true);
          e0, r0 := SetColor(e0, inp.eyeshadow1.color, inp.eyeshadow1.alpha, EyeshadowSlot(0));

          e1 := e1.(enabled := true);
          e1, r1 := SetColor(e1, inp.eyeshadow2.color, inp.eyeshadow2.alpha, EyeshadowSlot(1));

          e2 := e2.(enabled := false);
        }

        if inp.eyeshadowType == 2 {
          e0 := e0.(enabled := false);
          e1 := e1.(enabled := false);
          e2 := e2.(enabled := true);
          e2, r2 := SetColor(e2, inp.eyeshadow1.color, inp.eyeshadow1.alpha, EyeshadowSlot(2));
        }

        if inp.eyeshadowType == 3 {
          e0 := e0.(enabled := true);
          e1 := e1.(enabled := false);
          e2 := e2.(enabled := true);
          e0, r0 := SetColor(e0, inp.eyeshadow1.color, inp.eyeshadow1.alpha, EyeshadowSlot(0));
          e2, r2 := SetColor(e2, inp.eyeshadow3.color, inp.eyeshadow3.alpha, EyeshadowSlot(2));
        }

        result := Some([Some(e0), Some(e1), Some(e2)] + s[3..]);
        reports := r0 + r1 + r2;
      } else {
        reports := [EyeshadowsNotAssigned];
      }
    }
  }

  /** The lips block: the single-layer rule, plus the lips-gap fix switch,
      which is written only when both the lips and its script are assigned. */
  method ConfigureLips(inp: Inputs, layers: map<Layer, Visual>, lipsController: Option<ScriptComponent>)
    returns (result: map<Layer, Visual>, controller: Option<ScriptComponent>, reports: seq<Report>)
    ensures result == if Lips in layers then layers[Lips := Painted(layers[Lips], inp.lips.enable, inp.faceIndex, inp.lips.tint)] else layers
    ensures Lips in layers && lipsController.Some? ==> controller == Some(ScriptComponent(inp.applyLipsFix))
    ensures !(Lips in layers && lipsController.Some?) ==> controller == lipsController
    ensures reports == LayerProblems(inp, layers, Lips)
  {
    result, controller, reports := layers, lipsController, [];
    if Lips in layers {
      var lips := layers[Lips];
      lips := lips.(enabled := inp.lips.enable);
      lips := lips.(faceIndex := inp.faceIndex);

      if controller.Some? {
        if inp.applyLipsFix {
          controller := Some(controller.value.(enabled := true));
        } else {
          controller := Some(controller.value.(enabled := false));
        }
      }
      lips, reports := SetColor(lips, inp.lips.tint.color, inp.lips.tint.alpha, LayerTarget(Lips));
      result := layers[Lips := lips];
    } else if inp.lips.enable {
      reports := [NotAssigned(Lips)];
    }
  }

  /** The whole script, block by block, in source order. */
  method Configure(inp: Inputs, scene: Scene) returns (result: Scene, reports: seq<Report>)
    ensures result == Applied(inp, scene)
    ensures reports == Problems(inp, scene)
  {
    var base := scene.layers;
    var layers, lipsController, r;
    // `done` is the set of single layers whose block has run
    ghost var done: set<Layer> := {};
    assert LayersApplied(inp, base, done) == base;

    layers, lipsController, reports := ConfigureLips(inp, base, scene.lipsController);
    LayersAppliedStep(inp, base, done, Lips);
    done := done + {Lips};

    LayersAppliedStep(inp, base, done, Lipgloss);
    layers, r := ConfigureLayer(inp, layers, Lipgloss);
    reports, done := reports + r, done + {Lipgloss};

    LayersAppliedStep(inp, base, done, Blush);
    layers, r := ConfigureLayer(inp, layers, Blush);
    reports, done := reports + r, done + {Blush};

    LayersAppliedStep(inp, base, done, Eyeliner);
    layers, r := ConfigureLayer(inp, layers, Eyeliner);
    reports, done := reports + r, done + {Eyeliner};

    var eyeshadow;
    eyeshadow, r := ConfigureEyeshadow(inp, scene.eyeshadow);
    reports := reports + r;

    LayersAppliedStep(inp, base, done, Mascara);
    layers, r := ConfigureLayer(inp, layers, Mascara);
    reports, done := reports + r, done + {Mascara};

    LayersAppliedStep(inp, base, done, Eyebrows);
    layers, r := ConfigureLayer(inp, layers, Eyebrows);
    reports, done := reports + r, done + {Eyebrows};
    assert done == AllLayers;

    result := Scene(layers, lipsController, eyeshadow);
  }
}
