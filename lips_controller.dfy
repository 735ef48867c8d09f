/** The mouth-state switcher of the lens (bw3k/Public/Scripts/LipsController.js).

    While a face is tracked, every frame compares the lip gap, divided by the
    face height, with a dead-zone band around BOUND_EPS: below the band the face
    mask shows the closed-mouth opacity texture, above it the texture the mask
    had when the script was initialised, and inside it nothing changes.

    The first half of the module is the decision logic as pure functions, with
    a trace semantics (Run) and the lemmas about it; the second half is the
    script's module state as a class whose handlers are proved to follow Handle. */
module LipsController {
  import opened Host

  /** Centre of the dead-zone band. */
  const BOUND_EPS: real := 0.02
  /** Half-width of the dead-zone band. */
  const DELTA: real := 0.005

  function Abs(x: real): real
  {
    if x < 0.0 then -x else x
  }

  /** The value of the script's floating-point division of two distances:
      a finite ratio, or what JavaScript yields when the divisor is zero
      (+Infinity for a positive dividend, NaN for 0/0). */
  datatype Quotient = Finite(value: real) | PosInfinity | NaN

  /** `lipGap / Math.abs(faceHeight)`, where `lipGap` is a distance and hence
      never negative. */
  function Ratio(lipGap: real, faceHeight: real): (q: Quotient)
    requires lipGap >= 0.0
    ensures q.Finite? <==> faceHeight != 0.0
    ensures q.Finite? ==> q.value >= 0.0 && q.value * Abs(faceHeight) == lipGap
    ensures q.PosInfinity? <==> faceHeight == 0.0 && lipGap > 0.0
  {
    if faceHeight != 0.0 then Finite(lipGap / Abs(faceHeight))
    else if lipGap > 0.0 then PosInfinity
    else NaN
  }

  /** JavaScript's `q < bound`: false for NaN and for +Infinity. */
  predicate Below(q: Quotient, bound: real)
  {
    q.Finite? && q.value < bound
  }

  /** JavaScript's `q > bound`: false for NaN, true for +Infinity. */
  predicate Above(q: Quotient, bound: real)
  {
    q.PosInfinity? || (q.Finite? && q.value > bound)
  }

  /** Inside the dead zone, boundaries included, or not a number. */
  predicate InBand(q: Quotient)
  {
    q.NaN? || (q.Finite? && 0.015 <= q.value <= 0.025)
  }

  datatype Decision = ShowClosed | ShowOpened | Hold

  /** What one update does with a ratio: the if / else-if of onUpdate. */
  function Decide(q: Quotient): (d: Decision)
    ensures d == ShowClosed <==> q.Finite? && q.value < 0.015
    ensures d == ShowOpened <==> q.PosInfinity? || (q.Finite? && q.value > 0.025)
    ensures d == Hold <==> InBand(q)
  {
    if Below(q, BOUND_EPS - DELTA) then ShowClosed
    else if Above(q, BOUND_EPS + DELTA) then ShowOpened
    else Hold
  }

  /** What the host can observe of the switcher: whether a face is tracked,
      and the opacity texture of the face-mask pass. */
  datatype MouthView = MouthView(tracking: bool, shown: Option<Texture>)

  /** The host events the script is bound to. */
  datatype Signal = FaceFound | FaceLost | Update(ratio: Quotient)

  /** One handler call, given the closed-mouth texture and the texture
      captured at initialisation. */
  function Handle(m: MouthView, s: Signal, closed: Option<Texture>, captured: Option<Texture>): (r: MouthView)
    ensures s.FaceFound? ==> r == MouthView(true, m.shown)
    ensures s.FaceLost? ==> r == MouthView(false, m.shown)
    ensures s.Update? ==> r.tracking == m.tracking
    ensures s.Update? && !m.tracking ==> r == m
    ensures r.shown == m.shown || r.shown == closed || r.shown == captured
  {
    match s
    case FaceFound => m.(tracking := true)
    case FaceLost => m.(tracking := false)
    case Update(q) =>
      if !m.tracking then m
      else match Decide(q)
        case ShowClosed => m.(shown := closed)
        case ShowOpened => m.(shown := captured)
        case Hold => m
  }

  /** The handlers called one after another, in the order of `ss`. */
  function Run(m: MouthView, ss: seq<Signal>, closed: Option<Texture>, captured: Option<Texture>): MouthView
    decreases |ss|
  {
    if ss == [] then m else Run(Handle(m, ss[0], closed, captured), ss[1..], closed, captured)
  }

  /** Whether a face is tracked after `ss`: decided by the last found/lost event. */
  function TrackedAfter(tracking: bool, ss: seq<Signal>): bool
  {
    if ss == [] then tracking
    else match ss[|ss| - 1]
      case FaceFound => true
      case FaceLost => false
      case Update(_) => TrackedAfter(tracking, ss[..|ss| - 1])
  }

  /** The texture chosen by the last update that arrived while a face was
      tracked and whose ratio lay outside the band; `m.shown` if there is none. */
  function LastDecided(m: MouthView, ss: seq<Signal>, closed: Option<Texture>, captured: Option<Texture>): Option<Texture>
  {
    if ss == [] then m.shown
    else
      var prefix, last := ss[..|ss| - 1], ss[|ss| - 1];
      if last.Update? && TrackedAfter(m.tracking, prefix) && Decide(last.ratio) != Hold then
        (if Decide(last.ratio) == ShowClosed then closed else captured)
      else LastDecided(m, prefix, closed, captured)
  }

  lemma {:induction false} RunSnoc(m: MouthView, ss: seq<Signal>, s: Signal, closed: Option<Texture>, captured: Option<Texture>)
    ensures Run(m, ss + [s], closed, captured) == Handle(Run(m, ss, closed, captured), s, closed, captured)
    decreases |ss|
  {
    if ss == [] {
      assert [] + [s] == [s];
    } else {
      assert (ss + [s])[0] == ss[0];
      assert (ss + [s])[1..] == ss[1..] + [s];
      RunSnoc(Handle(m, ss[0], closed, captured), ss[1..], s, closed, captured);
    }
  }

  /** Hysteresis, stated as a whole-trace property: the texture on display is
      the one selected by the last tracked update outside the band, and tracking
      is whatever the last found/lost event made it. */
  lemma {:induction false} RunIsLastDecision(m: MouthView, ss: seq<Signal>, closed: Option<Texture>, captured: Option<Texture>)
    ensures Run(m, ss, closed, captured) == MouthView(TrackedAfter(m.tracking, ss), LastDecided(m, ss, closed, captured))
    decreases |ss|
  {
    if ss != [] {
      var prefix, last := ss[..|ss| - 1], ss[|ss| - 1];
      assert ss == prefix + [last];
      RunIsLastDecision(m, prefix, closed, captured);
      RunSnoc(m, prefix, last, closed, captured);
    }
  }

  /** Only the initial texture, the closed-mouth texture and the captured
      texture can ever be on display. */
  lemma {:induction false} RunShowsOnlyKnownTextures(m: MouthView, ss: seq<Signal>, closed: Option<Texture>, captured: Option<Texture>)
    ensures var r := Run(m, ss, closed, captured); r.shown == m.shown || r.shown == closed || r.shown == captured
    decreases |ss|
  {
    if ss != [] {
      RunShowsOnlyKnownTextures(Handle(m, ss[0], closed, captured), ss[1..], closed, captured);
    }
  }

  /** While no face is tracked and none is found, updates change nothing. */
  lemma {:induction false} RunUntrackedIsStill(m: MouthView, ss: seq<Signal>, closed: Option<Texture>, captured: Option<Texture>)
    requires !m.tracking
    requires forall i :: 0 <= i < |ss| ==> ss[i] != FaceFound
    ensures Run(m, ss, closed, captured) == m
    decreases |ss|
  {
    if ss != [] {
      RunUntrackedIsStill(Handle(m, ss[0], closed, captured), ss[1..], closed, captured);
    }
  }

  /** Ratios that stay inside the band never change the texture, whatever
      the tracking events in between. */
  lemma {:induction false} RunInBandKeepsTexture(m: MouthView, ss: seq<Signal>, closed: Option<Texture>, captured: Option<Texture>)
    requires forall i :: 0 <= i < |ss| && ss[i].Update? ==> InBand(ss[i].ratio)
    ensures Run(m, ss, closed, captured).shown == m.shown
    decreases |ss|
  {
    if ss != [] {
      RunInBandKeepsTexture(Handle(m, ss[0], closed, captured), ss[1..], closed, captured);
    }
  }

  /** Idempotence: any positive number of updates with the same ratio has the
      effect of one. */
  lemma {:induction false} RepeatedUpdateIsOneUpdate(m: MouthView, q: Quotient, k: nat, closed: Option<Texture>, captured: Option<Texture>)
    requires k >= 1
    ensures Run(m, seq(k, _ => Update(q)), closed, captured) == Handle(m, Update(q), closed, captured)
    decreases k
  {
    var ss := seq(k, _ => Update(q));
    var once := Handle(m, Update(q), closed, captured);
    assert ss[0] == Update(q);
    if k == 1 {
      assert ss[1..] == [];
    } else {
      assert ss[1..] == seq(k - 1, _ => Update(q));
      RepeatedUpdateIsOneUpdate(once, q, k - 1, closed, captured);
      assert Handle(once, Update(q), closed, captured) == once;
    }
  }

  /** To switch from the closed to the opened texture the ratio must move by
      more than the width of the band, 2 * DELTA. */
  lemma SwitchCrossesBand(a: real, b: real)
    requires Decide(Finite(a)) == ShowClosed && Decide(Finite(b)) == ShowOpened
    ensures b - a > 2.0 * DELTA
  {
  }

  /** Worked frames with BOUND_EPS = 0.02 and DELTA = 0.005:
      a lip gap of 0.2, 0.6 and 0.4 over a face height of 20, and a zero face
      height. */
  lemma DesignScenarios()
    ensures Decide(Ratio(0.2, 20.0)) == ShowClosed
    ensures Decide(Ratio(0.6, 20.0)) == ShowOpened
    ensures Decide(Ratio(0.4, 20.0)) == Hold
    ensures Decide(Ratio(0.0, 0.0)) == Hold && Decide(Ratio(0.4, 0.0)) == ShowOpened
  {
  }

  // ---------------------------------------------------------------------
  // The host objects the script touches and its module-level state.
  // ---------------------------------------------------------------------

  /** The configuration errors `initialize` prints. */
  datatype SetupError = ClosedMaskNotSet | FaceMaskNotSet | MaterialNotSet

  /** The `Component.Head` the script creates; only its face index is used. */
  class Head {
    var faceIndex: int

    constructor ()
      ensures faceIndex == 0
    {
      faceIndex := 0;
    }
  }

  /** A script event (update, face found, face lost); the host calls its
      bound handler only while it is enabled. */
  class Event {
    var enabled: bool
    var faceIndex: int

    /** `createEvent` followed by `enabled = false`. */
    constructor ()
      ensures !enabled && faceIndex == 0
    {
      enabled := false;
      faceIndex := 0;
    }
  }

  /** A material pass; only its opacity texture is used here. */
  class Pass {
    var opacityTex: Option<Texture>
  }

  /** The `Component.FaceMaskVisual` given as a script input. */
  class FaceMaskVisual {
    var faceIndex: int
    var mainPass: Pass?
  }

  /** The script instance. `inputClosedMask` and `inputFaceMask` are its
      `@input` values; the remaining fields are its module-level variables. */
  class Controller {
    const inputClosedMask: Option<Texture>
    const inputFaceMask: FaceMaskVisual?

    const head: Head
    const updateEvent: Event
    const faceFoundEvent: Event
    const faceLostEvent: Event

    var isFaceTracking: bool
    var faceIndex: int
    var faceMaskPass: Pass?
    var mouthClosedMask: Option<Texture>
    var mouthOpenedMask: Option<Texture>

    /** The handlers are live: initialisation succeeded. */
    predicate Armed()
      reads this, updateEvent
    {
      updateEvent.enabled
    }

    ghost function Shown(): Option<Texture>
      reads this, faceMaskPass
    {
      if faceMaskPass == null then None else faceMaskPass.opacityTex
    }

    ghost function View(): MouthView
      reads this, faceMaskPass
    {
      MouthView(isFaceTracking, Shown())
    }

    ghost predicate Valid()
      reads this, updateEvent, faceFoundEvent, faceLostEvent, faceMaskPass
    {
      && updateEvent != faceFoundEvent && updateEvent != faceLostEvent && faceFoundEvent != faceLostEvent
      && mouthClosedMask == inputClosedMask
      // the three events are always enabled together
      && faceFoundEvent.enabled == updateEvent.enabled
      && faceLostEvent.enabled == updateEvent.enabled
      // once armed, the pass shows the captured or the closed-mouth texture
      && (updateEvent.enabled ==>
            && faceMaskPass != null && mouthClosedMask.Some?
            && (faceMaskPass.opacityTex == mouthOpenedMask || faceMaskPass.opacityTex == mouthClosedMask))
      // a face can only be tracked once the found event is live
      && (isFaceTracking ==> updateEvent.enabled)
    }

    /** Loading the script: module-level initialisers, event creation with
        the events disabled, then the call to initialize() at the end. */
    constructor (closedMask: Option<Texture>, faceMask: FaceMaskVisual?)
      ensures Valid()
      ensures inputClosedMask == closedMask && inputFaceMask == faceMask
      ensures fresh(head) && fresh(updateEvent) && fresh(faceFoundEvent) && fresh(faceLostEvent)
      ensures !isFaceTracking
      ensures Armed() <==> closedMask.Some? && faceMask != null && faceMask.mainPass != null
      ensures Armed() ==> faceMaskPass == faceMask.mainPass && mouthOpenedMask == faceMask.mainPass.opacityTex
      ensures Armed() ==> Shown() == mouthOpenedMask
      ensures closedMask.Some? && faceMask != null ==> FaceIndexIs(faceMask.faceIndex)
    {
      inputClosedMask := closedMask;
      inputFaceMask := faceMask;
      isFaceTracking := false;
      faceIndex := 0;
      faceMaskPass := null;
      mouthClosedMask := closedMask;
      mouthOpenedMask := None;
      head := new Head();
      updateEvent := new Event();
      faceFoundEvent := new Event();
      faceLostEvent := new Event();
      new;
      var _ := Initialize();
    }

    /** Every face index the script keeps equals `i`. */
    predicate FaceIndexIs(i: int)
      reads this, head, faceFoundEvent, faceLostEvent
    {
      faceIndex == i && head.faceIndex == i && faceFoundEvent.faceIndex == i && faceLostEvent.faceIndex == i
    }

    /** `initialize`, also exported as `script.api.initialize`. */
    method Initialize() returns (error: Option<SetupError>)
      requires Valid()
      modifies this, head, updateEvent, faceFoundEvent, faceLostEvent
      ensures Valid()
      ensures isFaceTracking == old(isFaceTracking)
      ensures error == if inputClosedMask.None? then Some(ClosedMaskNotSet)
                       else if inputFaceMask == null then Some(FaceMaskNotSet)
                       else if inputFaceMask.mainPass == null then Some(MaterialNotSet)
                       else None
      // no closed-mouth texture, or no face mask: nothing else changes
      ensures inputClosedMask.None? || inputFaceMask == null ==>
                unchanged(this, head, updateEvent, faceFoundEvent, faceLostEvent)
      ensures inputClosedMask.Some? && inputFaceMask != null ==> FaceIndexIs(inputFaceMask.faceIndex)
      // a material: capture its texture and arm the three events
      ensures inputClosedMask.Some? && inputFaceMask != null && inputFaceMask.mainPass != null ==>
                && Armed() && faceMaskPass == inputFaceMask.mainPass
                && mouthOpenedMask == inputFaceMask.mainPass.opacityTex
      // no material: the capture and the events stay as they were
      ensures !(inputClosedMask.Some? && inputFaceMask != null && inputFaceMask.mainPass != null) ==>
                && faceMaskPass == old(faceMaskPass) && mouthOpenedMask == old(mouthOpenedMask)
                && updateEvent.enabled == old(updateEvent.enabled)
    {
      error := None;
      if inputClosedMask.Some? {
        mouthClosedMask := inputClosedMask;
      } else {
        error := Some(ClosedMaskNotSet);
        return;
      }

      if inputFaceMask != null {
        SetFaceIndex(inputFaceMask.faceIndex);

        if inputFaceMask.mainPass != null {
          faceMaskPass := inputFaceMask.mainPass;
          mouthOpenedMask := faceMaskPass.opacityTex;

          updateEvent.enabled := true;

          faceFoundEvent.enabled := true;
          faceLostEvent.enabled := true;
        } else {
          error := Some(MaterialNotSet);
        }
      } else {
        error := Some(FaceMaskNotSet);
      }
    }

    /** `setFaceIndex`, also exported as `script.api.setFaceIndex`. */
    method SetFaceIndex(index: int)
      requires Valid()
      modifies this`faceIndex, head`faceIndex, faceFoundEvent`faceIndex, faceLostEvent`faceIndex
      ensures Valid()
      ensures FaceIndexIs(index)
    {
      faceIndex := index;

      head.faceIndex := faceIndex;

      faceFoundEvent.faceIndex := faceIndex;
      faceLostEvent.faceIndex := faceIndex;
    }

    /** `onFaceFound`, bound to the face-found event. */
    method OnFaceFound()
      requires Valid() && faceFoundEvent.enabled
      modifies this`isFaceTracking
      ensures Valid()
      ensures View() == Handle(old(View()), FaceFound, mouthClosedMask, mouthOpenedMask)
    {
      isFaceTracking := true;
    }

    /** `onFaceLost`, bound to the face-lost event. */
    method OnFaceLost()
      requires Valid()
      modifies this`isFaceTracking
      ensures Valid()
      ensures View() == Handle(old(View()), FaceLost, mouthClosedMask, mouthOpenedMask)
    {
      isFaceTracking := false;
    }

    /** `onUpdate`, bound to the update event; the host's landmark distances
        are the parameters. */
    method OnUpdate(lipGap: real, faceHeight: real)
      requires Valid()
      requires lipGap >= 0.0
      modifies faceMaskPass
      ensures Valid()
      ensures View() == Handle(old(View()), Update(Ratio(lipGap, faceHeight)), mouthClosedMask, mouthOpenedMask)
      ensures !isFaceTracking && faceMaskPass != null ==> unchanged(faceMaskPass)
      ensures Armed() ==> Shown() == mouthOpenedMask || Shown() == mouthClosedMask
    {
      if isFaceTracking {
        var dist := Ratio(lipGap, faceHeight);

        if Below(dist, BOUND_EPS - DELTA) {
          faceMaskPass.opacityTex := mouthClosedMask;
        } else if Above(dist, BOUND_EPS + DELTA) {
          faceMaskPass.opacityTex := mouthOpenedMask;
        }
      }
    }
  }
}
