/**
 * The editor session (hooks/useBIMState.ts): the point draft, the faces
 * cached for the next commit, the catalogue of committed objects, the placed
 * instances and the interface flags, with every handler as a pure transition.
 */
module Session {
  import opened Wrappers
  import opened Numerics
  import opened Types
  import opened Polar
  import opened Topology
  import Analysis
  import NeuroCore
  import opened Text

  const INITIAL_LAYER: real := 32.5
  /** Distance under which a new point closes the draft onto its first point. */
  const CLOSURE_THRESHOLD: real := 2.0
  const INITIAL_REVOLUTION: real := 360.0
  /** A face needs more than this many points to be kept. */
  const MIN_FACE_POINTS: nat := 2

  datatype Session = Session(
    mode: AppMode,
    layer: real,
    points: seq<Vec3>,
    stagedFaces: seq<seq<Vec3>>,
    isClosed: bool,
    precisionLines: bool,
    stagedObjects: seq<StagedObject>,
    instances: seq<AssemblyInstance>,
    selectedBlueprintId: Option<string>,
    showWorkflowModal: bool,
    showDomainModal: bool,
    currentDomain: Option<ISODomain>,
    currentManifestation: Manifestation,
    currentRenderMode: RenderMode,
    revolutionAngle: real,
    navTarget: Vec3)

  /** The state a fresh editor starts in. */
  const Initial: Session := Session(
    mode := Lathe, layer := INITIAL_LAYER, points := [], stagedFaces := [], isClosed := false,
    precisionLines := true, stagedObjects := [], instances := [], selectedBlueprintId := None,
    showWorkflowModal := false, showDomainModal := false, currentDomain := None,
    currentManifestation := Wireframe, currentRenderMode := Euclidian,
    revolutionAngle := INITIAL_REVOLUTION, navTarget := Origin)

  /** `activeRadius`: the sphere on which drafting happens, 2.5 units per layer. */
  function ActiveRadius(s: Session): (r: real)
    ensures NeuroCore.LayerOf(r) == s.layer
    ensures s.layer > 0.0 <==> r > 0.0
  {
    s.layer * 2.5
  }

  /** The point actually drafted for a click: snapped onto the precision grid when enabled. */
  function Drafted(m: MathOps, s: Session, point: Vec3): (p: Vec3)
    ensures !s.precisionLines ==> p == point
    ensures s.precisionLines ==> p == SnapToPrecisionLines(m, point, ActiveRadius(s))
    ensures s.precisionLines && m.Valid() ==> NormSq(p) == ActiveRadius(s) * ActiveRadius(s)
  {
    if s.precisionLines then SnapToPrecisionLines(m, point, ActiveRadius(s)) else point
  }

  /**
   * `addPoint`. Without a domain only the domain dialog opens; a closed
   * draft ignores clicks; a point that closes the loop is not appended but
   * marks the draft closed and opens the workflow dialog.
   */
  function AddPoint(m: MathOps, s: Session, point: Vec3): (s': Session)
    ensures s.currentDomain.None? ==> s' == s.(showDomainModal := true)
    ensures s.currentDomain.Some? && s.isClosed ==> s' == s
    ensures s.currentDomain.Some? && !s.isClosed ==>
      var p := Drafted(m, s, point);
      && (IsClosedLoop(s.points + [p], CLOSURE_THRESHOLD) <==> s'.isClosed)
      && (s'.isClosed ==> s' == s.(isClosed := true, showWorkflowModal := true) && |s.points| >= 2)
      && (!s'.isClosed ==> s'.points == s.points + [p] && s' == s.(points := s'.points))
    ensures s'.stagedFaces == s.stagedFaces && s'.stagedObjects == s.stagedObjects
         && s'.instances == s.instances && s'.layer == s.layer
  {
    if s.currentDomain.None? then s.(showDomainModal := true)
    else if s.isClosed then s
    else
      var p := Drafted(m, s, point);
      var candidate := s.points + [p];
      if IsClosedLoop(candidate, CLOSURE_THRESHOLD) then
        s.(isClosed := true, showWorkflowModal := true)
      else
        s.(points := candidate)
  }

  /** `continueDrawing`: a draft of more than two points is cached as a face. */
  function ContinueDrawing(s: Session): (s': Session)
    ensures |s.points| <= MIN_FACE_POINTS ==> s' == s
    ensures |s.points| > MIN_FACE_POINTS ==>
      && s'.stagedFaces == s.stagedFaces + [s.points]
      && s'.points == [] && !s'.isClosed && !s'.showWorkflowModal
    ensures s' == s.(stagedFaces := s'.stagedFaces, points := s'.points, isClosed := s'.isClosed,
                     showWorkflowModal := s'.showWorkflowModal)
  {
    if |s.points| > MIN_FACE_POINTS then
      s.(stagedFaces := s.stagedFaces + [s.points], points := [], isClosed := false, showWorkflowModal := false)
    else s
  }

  /** The faces with more than two points, in order. */
  function LongFaces(faces: seq<seq<Vec3>>): (kept: seq<seq<Vec3>>)
    ensures |kept| <= |faces|
    ensures forall i :: 0 <= i < |kept| ==> |kept[i]| > MIN_FACE_POINTS
    ensures forall i :: 0 <= i < |faces| && |faces[i]| > MIN_FACE_POINTS ==> faces[i] in kept
    ensures forall f :: f in kept ==> f in faces
  {
    if |faces| == 0 then []
    else
      var init := faces[..|faces| - 1];
      var last := faces[|faces| - 1];
      assert forall i :: 0 <= i < |init| ==> init[i] == faces[i];
      LongFaces(init) + (if |last| > MIN_FACE_POINTS then [last] else [])
  }

  /**
   * `filter(f => f.length > 2)` distributes over appending one face: the
   * kept faces keep their order and their multiplicity.
   */
  lemma LongFacesAppend(faces: seq<seq<Vec3>>, face: seq<Vec3>)
    ensures LongFaces(faces + [face]) == LongFaces(faces) + (if |face| > MIN_FACE_POINTS then [face] else [])
  {
    assert (faces + [face])[..|faces|] == faces;
  }

  /** The filter distributes over concatenation. */
  lemma {:induction false} LongFacesConcat(a: seq<seq<Vec3>>, b: seq<seq<Vec3>>)
    ensures LongFaces(a + b) == LongFaces(a) + LongFaces(b)
    decreases |b|
  {
    if |b| == 0 {
      assert a + b == a;
    } else {
      var init := b[..|b| - 1];
      var last := b[|b| - 1];
      var tail := if |last| > MIN_FACE_POINTS then [last] else [];
      assert b == init + [last];
      assert a + b == (a + init) + [last];
      LongFacesAppend(a + init, last);
      LongFacesConcat(a, init);
      LongFacesAppend(init, last);
      calc {
        LongFaces(a + b);
      ==
        LongFaces(a + init) + tail;
      ==
        (LongFaces(a) + LongFaces(init)) + tail;
      ==
        LongFaces(a) + (LongFaces(init) + tail);
      ==
        LongFaces(a) + LongFaces(b);
      }
    }
  }

  /** All faces' points, one face after the other (`flat()`). */
  function Flatten(faces: seq<seq<Vec3>>): (points: seq<Vec3>)
    ensures |faces| == 0 ==> points == []
    ensures |faces| == 1 ==> points == faces[0]
  {
    if |faces| == 0 then [] else Flatten(faces[..|faces| - 1]) + faces[|faces| - 1]
  }

  /** Flattening distributes over concatenation, so the faces' points appear in face order. */
  lemma {:induction false} FlattenConcat(a: seq<seq<Vec3>>, b: seq<seq<Vec3>>)
    ensures Flatten(a + b) == Flatten(a) + Flatten(b)
    decreases |b|
  {
    if |b| == 0 {
      assert a + b == a;
    } else {
      var init := b[..|b| - 1];
      assert (a + b)[..|a + b| - 1] == a + init;
      FlattenConcat(a, init);
    }
  }

  /** The unit label a sub-folder implies. */
  function UnitFor(subFolder: string): (unit: string)
    ensures unit in {"m", "\U{03BC}m", "mm"}
    ensures unit == "m" <==> subFolder == "m"
    ensures unit == "\U{03BC}m" <==> subFolder == "Micrometer"
  {
    if subFolder == "m" then "m" else if subFolder == "Micrometer" then "\U{03BC}m" else "mm"
  }

  const ID_PREFIX: string := "ISO-"
  const NAME_PREFIX: string := "UNIT-"
  const NAME_SUFFIX: string := "F"

  /** The name of an object consolidating `faceCount` faces. */
  function UnitName(faceCount: nat): string {
    NAME_PREFIX + NatToString(faceCount) + NAME_SUFFIX
  }

  /** The face count can be read back from the object's name. */
  lemma UnitNameRoundTrip(faceCount: nat)
    ensures var name := UnitName(faceCount);
      |name| > |NAME_PREFIX| + |NAME_SUFFIX|
      && name[..|NAME_PREFIX|] == NAME_PREFIX
      && name[|name| - 1..] == NAME_SUFFIX
      && ParseDecimal(name[|NAME_PREFIX|..|name| - 1]) == faceCount
  {
    var name := UnitName(faceCount);
    assert name[|NAME_PREFIX|..|name| - 1] == NatToString(faceCount);
    ParseNatToString(faceCount);
  }

  /**
   * `saveToISOStock`: the cached faces plus the current draft, keeping only
   * faces of more than two points, become one catalogue entry placed at the
   * head of the catalogue, and the draft is cleared. With nothing to keep,
   * nothing changes. The random identifier and the clock are parameters.
   */
  function SaveToISOStock(s: Session, domain: ISODomain, subFolder: string, uuid: string, now: int): (s': Session)
    ensures var faces := LongFaces(s.stagedFaces + [s.points]);
      && (|faces| == 0 ==> s' == s)
      && (|faces| > 0 ==>
        && |s'.stagedObjects| == |s.stagedObjects| + 1
        && s'.stagedObjects[1..] == s.stagedObjects
        && var obj := s'.stagedObjects[0];
        && obj.points == Flatten(faces)
        && obj.name == UnitName(|faces|)
        && obj.id == ID_PREFIX + IdTag(uuid)
        && obj.layer == s.layer && obj.domain == domain && obj.subFolder == subFolder
        && obj.unit == UnitFor(subFolder)
        && obj.description == "ISO " + DomainName(domain) + " Active Topology"
        && Analysis.MIN_SCORE <= obj.recoveryScore <= Analysis.MAX_SCORE
        && obj.recoveryScore == Analysis.AnalyzeDisassembly(obj.points)
        && obj.timestamp == now
        && obj.polarInstructions.None? && obj.revolutionAngle.None? && obj.isLathe.None? && obj.ghostMode.None?
        && s' == s.(stagedObjects := s'.stagedObjects, stagedFaces := [], points := [],
                    isClosed := false, showWorkflowModal := false))
  {
    var faces := LongFaces(s.stagedFaces + [s.points]);
    if |faces| == 0 then s
    else
      var consolidated := Flatten(faces);
      var obj := StagedObject(
        id := ID_PREFIX + IdTag(uuid),
        name := UnitName(|faces|),
        points := consolidated,
        layer := s.layer,
        domain := domain,
        subFolder := subFolder,
        description := "ISO " + DomainName(domain) + " Active Topology",
        recoveryScore := Analysis.AnalyzeDisassembly(consolidated),
        timestamp := now,
        unit := UnitFor(subFolder),
        polarInstructions := None,
        revolutionAngle := None,
        isLathe := None,
        ghostMode := None);
      s.(stagedObjects := [obj] + s.stagedObjects, stagedFaces := [], points := [],
         isClosed := false, showWorkflowModal := false)
  }

  /** Every kept face contributes at least three points to the consolidated object. */
  lemma {:induction false} FlattenLength(faces: seq<seq<Vec3>>)
    requires forall i :: 0 <= i < |faces| ==> |faces[i]| > MIN_FACE_POINTS
    ensures |Flatten(faces)| >= (MIN_FACE_POINTS + 1) * |faces|
  {
    if |faces| > 0 {
      var init := faces[..|faces| - 1];
      assert forall i :: 0 <= i < |init| ==> init[i] == faces[i];
      FlattenLength(init);
    }
  }

  /** A saved object holds at least three points per face it consolidates. */
  lemma SavedObjectSize(s: Session, domain: ISODomain, subFolder: string, uuid: string, now: int)
    requires |LongFaces(s.stagedFaces + [s.points])| > 0
    ensures var s' := SaveToISOStock(s, domain, subFolder, uuid, now);
      |s'.stagedObjects[0].points| >= 3 * |LongFaces(s.stagedFaces + [s.points])|
  {
    FlattenLength(LongFaces(s.stagedFaces + [s.points]));
  }

  /** An empty draft adds no face. */
  lemma LongFacesDropsEmpty(faces: seq<seq<Vec3>>)
    ensures LongFaces(faces + [[]]) == LongFaces(faces)
  {
    assert (faces + [[]])[..|faces|] == faces;
  }

  /**
   * Caching the draft as a face first and then saving commits exactly what
   * saving directly commits, and leaves the same session.
   */
  lemma ContinueThenSave(s: Session, domain: ISODomain, subFolder: string, uuid: string, now: int)
    requires |s.points| > MIN_FACE_POINTS
    ensures SaveToISOStock(ContinueDrawing(s), domain, subFolder, uuid, now)
         == SaveToISOStock(s, domain, subFolder, uuid, now)
  {
    LongFacesDropsEmpty(s.stagedFaces + [s.points]);
  }

  /** `instantiate`: places a blueprint, unrotated, with the current layer and modes. */
  function Instantiate(s: Session, id: string, position: Vec3): (s': Session)
    ensures |s'.instances| == |s.instances| + 1 && s'.instances[..|s.instances|] == s.instances
    ensures var placed := s'.instances[|s.instances|];
      placed.blueprintId == id && placed.position == position && placed.rotation == 0.0
      && placed.layer == s.layer && placed.renderMode == s.currentRenderMode
      && placed.manifestation == s.currentManifestation
    ensures s' == s.(instances := s'.instances)
  {
    s.(instances := s.instances + [AssemblyInstance(id, position, 0.0, s.layer, s.currentRenderMode, s.currentManifestation)])
  }

  /** `undo`: drops the last drafted point (`slice(0, -1)`); the closed flag is left as it is. */
  function Undo(s: Session): (s': Session)
    ensures |s'.points| == if |s.points| == 0 then 0 else |s.points| - 1
    ensures s'.points <= s.points
    ensures s' == s.(points := s'.points)
  {
    if |s.points| == 0 then s else s.(points := s.points[..|s.points| - 1])
  }

  /** Undo reverts a point that `addPoint` appended. */
  lemma UndoRevertsAddPoint(m: MathOps, s: Session, point: Vec3)
    requires |AddPoint(m, s, point).points| == |s.points| + 1
    ensures Undo(AddPoint(m, s, point)) == s
  {
    var s' := AddPoint(m, s, point);
    assert s'.points[..|s.points|] == s.points;
  }

  /** `clear`: the draft, the cached faces, the closed flag and the workflow dialog. */
  function Clear(s: Session): (s': Session)
    ensures s'.points == [] && s'.stagedFaces == [] && !s'.isClosed && !s'.showWorkflowModal
    ensures s' == s.(points := s'.points, stagedFaces := s'.stagedFaces, isClosed := s'.isClosed,
                     showWorkflowModal := s'.showWorkflowModal)
  {
    s.(points := [], stagedFaces := [], isClosed := false, showWorkflowModal := false)
  }

  /** Clearing twice is clearing once, and a cleared session has nothing to save. */
  lemma ClearIdempotent(s: Session, domain: ISODomain, subFolder: string, uuid: string, now: int)
    ensures Clear(Clear(s)) == Clear(s)
    ensures SaveToISOStock(Clear(s), domain, subFolder, uuid, now) == Clear(s)
  {
    assert LongFaces([] + [[]]) == [];
  }

  /** `addObject`: an externally built object goes to the head of the catalogue. */
  function AddObject(s: Session, obj: StagedObject): (s': Session)
    ensures |s'.stagedObjects| == |s.stagedObjects| + 1
    ensures s'.stagedObjects[0] == obj && s'.stagedObjects[1..] == s.stagedObjects
    ensures s' == s.(stagedObjects := s'.stagedObjects)
  {
    s.(stagedObjects := [obj] + s.stagedObjects)
  }

  /** Every handler the session exposes, with its argument. */
  datatype Step =
    | AddPointStep(point: Vec3)
    | ContinueDrawingStep
    | SaveStep(domain: ISODomain, subFolder: string, uuid: string, now: int)
    | InstantiateStep(id: string, position: Vec3)
    | UndoStep
    | ClearStep
    | AddObjectStep(obj: StagedObject)
    | SetStep(setting: Setting)

  /** The plain state setters the session hands out, with the value each one stores. */
  datatype Setting =
    | ModeSetting(mode: AppMode)
    | LayerSetting(layer: real)
    | PrecisionLinesSetting(enabled: bool)
    | SelectedBlueprintSetting(selected: Option<string>)
    | WorkflowModalSetting(visible: bool)
    | DomainModalSetting(visible: bool)
    | DomainSetting(current: Option<ISODomain>)
    | RevolutionAngleSetting(angle: real)
    | NavTargetSetting(target: Vec3)
    | ManifestationSetting(manifestation: Manifestation)
    | RenderModeSetting(renderMode: RenderMode)

  /** The value the session currently holds for the field a setting writes, as a setting of the same kind. */
  function Current(s: Session, setting: Setting): Setting {
    match setting
    case ModeSetting(_) => ModeSetting(s.mode)
    case LayerSetting(_) => LayerSetting(s.layer)
    case PrecisionLinesSetting(_) => PrecisionLinesSetting(s.precisionLines)
    case SelectedBlueprintSetting(_) => SelectedBlueprintSetting(s.selectedBlueprintId)
    case WorkflowModalSetting(_) => WorkflowModalSetting(s.showWorkflowModal)
    case DomainModalSetting(_) => DomainModalSetting(s.showDomainModal)
    case DomainSetting(_) => DomainSetting(s.currentDomain)
    case RevolutionAngleSetting(_) => RevolutionAngleSetting(s.revolutionAngle)
    case NavTargetSetting(_) => NavTargetSetting(s.navTarget)
    case ManifestationSetting(_) => ManifestationSetting(s.currentManifestation)
    case RenderModeSetting(_) => RenderModeSetting(s.currentRenderMode)
  }

  /** Which session field a setting writes, one number per kind of setter. */
  function Field(setting: Setting): nat {
    match setting
    case ModeSetting(_) => 0
    case LayerSetting(_) => 1
    case PrecisionLinesSetting(_) => 2
    case SelectedBlueprintSetting(_) => 3
    case WorkflowModalSetting(_) => 4
    case DomainModalSetting(_) => 5
    case DomainSetting(_) => 6
    case RevolutionAngleSetting(_) => 7
    case NavTargetSetting(_) => 8
    case ManifestationSetting(_) => 9
    case RenderModeSetting(_) => 10
  }

  /**
   * A setter stores its one value, leaves every field another setter writes
   * as it was, and leaves the draft, the faces and the stock alone.
   */
  function Set(s: Session, setting: Setting): (s': Session)
    ensures Current(s', setting) == setting
    ensures forall other :: Field(other) != Field(setting) ==> Current(s', other) == Current(s, other)
    ensures s'.points == s.points && s'.stagedFaces == s.stagedFaces && s'.isClosed == s.isClosed
    ensures s'.stagedObjects == s.stagedObjects && s'.instances == s.instances
  {
    match setting
    case ModeSetting(mode) => s.(mode := mode)
    case LayerSetting(layer) => s.(layer := layer)
    case PrecisionLinesSetting(enabled) => s.(precisionLines := enabled)
    case SelectedBlueprintSetting(selected) => s.(selectedBlueprintId := selected)
    case WorkflowModalSetting(visible) => s.(showWorkflowModal := visible)
    case DomainModalSetting(visible) => s.(showDomainModal := visible)
    case DomainSetting(current) => s.(currentDomain := current)
    case RevolutionAngleSetting(angle) => s.(revolutionAngle := angle)
    case NavTargetSetting(target) => s.(navTarget := target)
    case ManifestationSetting(manifestation) => s.(currentManifestation := manifestation)
    case RenderModeSetting(renderMode) => s.(currentRenderMode := renderMode)
  }

  /**
   * Writing back the value a setter replaced restores the session exactly,
   * so a setter changes its own field and nothing else.
   */
  lemma SetRestore(s: Session, setting: Setting)
    ensures Set(Set(s, setting), Current(s, setting)) == s
  {
  }

  /** A second setter of the same kind overrides the first. */
  lemma SetOverwrite(s: Session, first: Setting, second: Setting)
    requires Current(s, first) == Current(s, second)
    ensures Set(Set(s, first), second) == Set(s, second)
  {
  }

  function Apply(m: MathOps, s: Session, step: Step): Session {
    match step
    case AddPointStep(point) => AddPoint(m, s, point)
    case ContinueDrawingStep => ContinueDrawing(s)
    case SaveStep(domain, subFolder, uuid, now) => SaveToISOStock(s, domain, subFolder, uuid, now)
    case InstantiateStep(id, position) => Instantiate(s, id, position)
    case UndoStep => Undo(s)
    case ClearStep => Clear(s)
    case AddObjectStep(obj) => AddObject(s, obj)
    case SetStep(setting) => Set(s, setting)
  }

  function Run(m: MathOps, s: Session, steps: seq<Step>): Session
    decreases |steps|
  {
    if |steps| == 0 then s else Run(m, Apply(m, s, steps[0]), steps[1..])
  }

  /** No prefix of the draft long enough to be a loop is closed: the closing point is never stored. */
  predicate DraftOpen(points: seq<Vec3>) {
    forall k :: MIN_FACE_POINTS < k <= |points| ==> !IsClosedLoop(points[..k], CLOSURE_THRESHOLD)
  }

  /** Every cached face has more than two points. */
  predicate FacesLong(faces: seq<seq<Vec3>>) {
    forall i :: 0 <= i < |faces| ==> |faces[i]| > MIN_FACE_POINTS
  }

  predicate Invariant(s: Session) {
    DraftOpen(s.points) && FacesLong(s.stagedFaces)
  }

  lemma InitialInvariant()
    ensures Invariant(Initial)
  {
  }

  /** Appending a point that does not close the draft keeps it open. */
  lemma DraftOpenAppend(points: seq<Vec3>, p: Vec3)
    requires DraftOpen(points)
    requires !IsClosedLoop(points + [p], CLOSURE_THRESHOLD)
    ensures DraftOpen(points + [p])
  {
    var extended := points + [p];
    forall k | MIN_FACE_POINTS < k <= |extended|
      ensures !IsClosedLoop(extended[..k], CLOSURE_THRESHOLD)
    {
      if k <= |points| {
        assert extended[..k] == points[..k];
      } else {
        assert extended[..k] == extended;
      }
    }
  }

  /** A prefix of an open draft is open. */
  lemma DraftOpenPrefix(points: seq<Vec3>, n: nat)
    requires DraftOpen(points) && n <= |points|
    ensures DraftOpen(points[..n])
  {
    forall k | MIN_FACE_POINTS < k <= n
      ensures !IsClosedLoop(points[..n][..k], CLOSURE_THRESHOLD)
    {
      assert points[..n][..k] == points[..k];
    }
  }

  /** Every handler preserves the invariant. */
  lemma StepKeepsInvariant(m: MathOps, s: Session, step: Step)
    requires Invariant(s)
    ensures Invariant(Apply(m, s, step))
  {
    match step {
      case AddPointStep(point) => AddPointKeepsInvariant(m, s, point);
      case UndoStep => UndoKeepsInvariant(s);
      case SaveStep(domain, subFolder, uuid, now) => SaveKeepsInvariant(s, domain, subFolder, uuid, now);
      case ContinueDrawingStep =>
      case InstantiateStep(id, position) =>
      case ClearStep =>
      case AddObjectStep(obj) =>
      case SetStep(setting) =>
    }
  }

  lemma SaveKeepsInvariant(s: Session, domain: ISODomain, subFolder: string, uuid: string, now: int)
    requires Invariant(s)
    ensures Invariant(SaveToISOStock(s, domain, subFolder, uuid, now))
  {
  }

  lemma AddPointKeepsInvariant(m: MathOps, s: Session, point: Vec3)
    requires Invariant(s)
    ensures Invariant(AddPoint(m, s, point))
  {
    if s.currentDomain.Some? && !s.isClosed {
      var p := Drafted(m, s, point);
      if !IsClosedLoop(s.points + [p], CLOSURE_THRESHOLD) {
        DraftOpenAppend(s.points, p);
      }
    }
  }

  lemma UndoKeepsInvariant(s: Session)
    requires Invariant(s)
    ensures Invariant(Undo(s))
  {
    if |s.points| > 0 {
      DraftOpenPrefix(s.points, |s.points| - 1);
    }
  }

  lemma {:induction false} RunKeepsInvariant(m: MathOps, s: Session, steps: seq<Step>)
    requires Invariant(s)
    ensures Invariant(Run(m, s, steps))
    decreases |steps|
  {
    if |steps| > 0 {
      StepKeepsInvariant(m, s, steps[0]);
      RunKeepsInvariant(m, Apply(m, s, steps[0]), steps[1..]);
    }
  }

  /** In any reachable session, a stored draft of three or more points is itself not a closed loop. */
  lemma StoredDraftNeverClosed(m: MathOps, steps: seq<Step>)
    ensures var s := Run(m, Initial, steps);
      !IsClosedLoop(s.points, CLOSURE_THRESHOLD)
  {
    InitialInvariant();
    RunKeepsInvariant(m, Initial, steps);
    var s := Run(m, Initial, steps);
    if |s.points| > MIN_FACE_POINTS {
      assert s.points[..|s.points|] == s.points;
    }
  }

  /** The session the drafting scenario starts from: a domain chosen, precision lines off. */
  const ScenarioStart: Session := Initial.(currentDomain := Some(BIM), precisionLines := false)

  /** The clicks of the drafting scenario. */
  const ClickA: Vec3 := Vec3(0.0, 0.0, 1.0)
  const ClickB: Vec3 := Vec3(1.0, 0.0, 0.0)
  const ClickC: Vec3 := Vec3(0.0, 0.0, -1.0)
  const ClickD: Vec3 := Vec3(0.0, 0.0, 0.5)

  /** The session after the four clicks. */
  function ScenarioDrafted(m: MathOps): Session {
    AddPoint(m, AddPoint(m, AddPoint(m, AddPoint(m, ScenarioStart, ClickA), ClickB), ClickC), ClickD)
  }

  /**
   * Drafting (0,0,1), (1,0,0), (0,0,-1) and then (0,0,0.5) without precision
   * lines: the third point is exactly 2 from the first, which is not within
   * the threshold, while the fourth is 0.5 from it, so it closes the draft
   * without being stored.
   */
  lemma ScenarioDraft(m: MathOps)
    ensures ScenarioDrafted(m)
         == ScenarioStart.(points := [ClickA, ClickB, ClickC], isClosed := true, showWorkflowModal := true)
  {
    FirstClick(m);
    SecondClick(m);
    ThirdClick(m);
    FourthClick(m);
  }

  /** The drafts after one, two and three clicks of the scenario. */
  const DraftOne: Session := ScenarioStart.(points := [ClickA])
  const DraftTwo: Session := ScenarioStart.(points := [ClickA, ClickB])
  const DraftThree: Session := ScenarioStart.(points := [ClickA, ClickB, ClickC])

  lemma FirstClick(m: MathOps)
    ensures AddPoint(m, ScenarioStart, ClickA) == DraftOne
  {
    PlainAppend(m, ScenarioStart, ClickA);
  }

  lemma SecondClick(m: MathOps)
    ensures AddPoint(m, DraftOne, ClickB) == DraftTwo
  {
    PlainAppend(m, DraftOne, ClickB);
    assert DraftOne.points + [ClickB] == DraftTwo.points;
  }

  lemma ThirdClick(m: MathOps)
    ensures AddPoint(m, DraftTwo, ClickC) == DraftThree
  {
    assert Sub(ClickA, ClickC) == Vec3(0.0, 0.0, 2.0);
    assert NormSq(Vec3(0.0, 0.0, 2.0)) == 4.0;
    PlainAppend(m, DraftTwo, ClickC);
    assert DraftTwo.points + [ClickC] == DraftThree.points;
  }

  lemma FourthClick(m: MathOps)
    ensures AddPoint(m, DraftThree, ClickD) == DraftThree.(isClosed := true, showWorkflowModal := true)
  {
    DraftThreeClosesOnD();
    PlainClose(m, DraftThree, ClickD);
  }

  /** The fourth click lies 0.5 from the first point of the three-point draft, inside the closing threshold. */
  lemma DraftThreeClosesOnD()
    ensures DraftThree.currentDomain.Some? && !DraftThree.isClosed && !DraftThree.precisionLines
    ensures |DraftThree.points| >= 2 && WithinDistance(DraftThree.points[0], ClickD, CLOSURE_THRESHOLD)
  {
    assert DraftThree.points[0] == ClickA;
    assert Sub(ClickA, ClickD) == Vec3(0.0, 0.0, 0.5);
    assert NormSq(Vec3(0.0, 0.0, 0.5)) == 0.25;
  }

  /** A click without snapping that does not close the draft appends it. */
  lemma PlainAppend(m: MathOps, s: Session, p: Vec3)
    requires s.currentDomain.Some? && !s.isClosed && !s.precisionLines
    requires |s.points| < 2 || !WithinDistance(s.points[0], p, CLOSURE_THRESHOLD)
    ensures AddPoint(m, s, p) == s.(points := s.points + [p])
  {
    if |s.points| > 0 {
      assert (s.points + [p])[0] == s.points[0];
    }
  }

  /** A click without snapping that closes the draft only marks it closed. */
  lemma PlainClose(m: MathOps, s: Session, p: Vec3)
    requires s.currentDomain.Some? && !s.isClosed && !s.precisionLines
    requires |s.points| >= 2 && WithinDistance(s.points[0], p, CLOSURE_THRESHOLD)
    ensures AddPoint(m, s, p) == s.(isClosed := true, showWorkflowModal := true)
  {
    assert (s.points + [p])[0] == s.points[0];
  }

  /** Saving the closed scenario draft commits one three-point face with the full score. */
  lemma ScenarioSave(m: MathOps, uuid: string, now: int)
    ensures var s := SaveToISOStock(ScenarioDrafted(m), BIM, "m", uuid, now);
      && |s.stagedObjects| == 1
      && s.stagedObjects[0].points == [ClickA, ClickB, ClickC]
      && s.stagedObjects[0].name == UnitName(1)
      && s.stagedObjects[0].recoveryScore == 1.0
      && s.stagedObjects[0].unit == "m"
      && s.points == [] && !s.isClosed
  {
    ScenarioDraft(m);
    var face := [ClickA, ClickB, ClickC];
    assert LongFaces([] + [face]) == [face];
    assert Flatten([face]) == face;
  }
}
