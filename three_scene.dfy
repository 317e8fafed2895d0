/**
 * The state machine left of `ThreeSceneManager` once rendering is abstracted:
 * a running flag with a frame-handle slot, a nullable model slot with its
 * transform setters and getters, extension-based loader dispatch and load-time
 * re-centring, the wireframe-room geometry, and the debug helpers.
 */
module ThreeScene {
  import opened Common
  import opened HeadPoseTracking
  import opened FileExtension

  /** The shoe's placement; also what the getters report when no model is loaded. */
  const DefaultPosition: Vec3 := Vec3(0.0, -0.09, -0.03)
  const DefaultRotation: Vec3 := Vec3(0.0, -0.628, 0.0)
  const DefaultScale: real := 0.071
  /** The uniform scale given to every uploaded model. */
  const LoadedScale: real := 0.071

  const RoomDepth: real := 0.35
  const GridDivisions: nat := 8
  const ScreenFrameOffset: real := 0.001
  const Origin: Vec3 := Vec3(0.0, 0.0, 0.0)

  /** A displayed Three.js object: its identity and the transform the manager reads and writes. */
  datatype SceneModel = SceneModel(id: nat, position: Vec3, rotation: Vec3, scale: Vec3)

  /** The loader families of the dispatch. */
  datatype Loader = GltfLoader | ObjLoader | FbxLoader | StlLoader

  /** What `loadModelFromFile` does synchronously: reject, or hand the file to a loader. */
  datatype LoadStart = Rejected(extension: string) | Dispatched(loader: Loader)

  datatype HelperKind = AxesHelper | HeadPositionMarker
  datatype DebugHelper = DebugHelper(kind: HelperKind, visible: bool, position: Vec3)

  /** The quarter turns the room's walls are given (+-PI/2 about x or y). */
  datatype QuarterTurn = Upright | PlusX | MinusX | PlusY | MinusY

  datatype RoomObject =
    | GridWall(vertices: seq<real>, position: Vec3, turn: QuarterTurn)
    | ScreenFrame(width: real, height: real, position: Vec3)

  /** The `switch (extension)` of `loadModelFromFile`. */
  function LoaderFor(ext: string): (l: Option<Loader>)
    ensures l.Some? <==> ext in {".glb", ".gltf", ".obj", ".fbx", ".stl"}
    ensures ext == ".glb" || ext == ".gltf" ==> l == Some(GltfLoader)
  {
    match ext
    case ".glb" => Some(GltfLoader)
    case ".gltf" => Some(GltfLoader)
    case ".obj" => Some(ObjLoader)
    case ".fbx" => Some(FbxLoader)
    case ".stl" => Some(StlLoader)
    case _ => None
  }

  function Dispatch(name: string): (start: LoadStart)
    ensures start.Rejected? <==> LoaderFor(Extension(name)).None?
    ensures start.Rejected? ==> start.extension == Extension(name)
  {
    match LoaderFor(Extension(name))
    case None => Rejected(Extension(name))
    case Some(l) => Dispatched(l)
  }

  /**
   * Where `onLoad` puts a model whose bounding box is centred at `centre`: after
   * scaling by 0.071 that centre lands on the shoe's anchor in x and y.
   */
  function RecentredPosition(centre: Vec3): (p: Vec3)
    ensures p.x + LoadedScale * centre.x == DefaultPosition.x
    ensures p.y + LoadedScale * centre.y == DefaultPosition.y
    ensures p.z == DefaultPosition.z
  {
    Vec3(-centre.x * LoadedScale, -centre.y * LoadedScale - 0.09, -0.03)
  }

  // ---------------------------------------------------------------- grid walls

  /** The i-th grid line across a side of the given size: -size/2 + (i/8)*size. */
  function GridLine(size: real, i: nat): (c: real)
    ensures i == 0 ==> c == -size / 2.0
    ensures i == GridDivisions ==> c == size / 2.0
  {
    -size / 2.0 + ((i as real) / (GridDivisions as real)) * size
  }

  /** The i-th vertical segment of a width x height grid, as two (x, y, z) vertices. */
  function VerticalSegment(width: real, height: real, i: nat): seq<real>
  {
    [GridLine(width, i), -height / 2.0, 0.0, GridLine(width, i), height / 2.0, 0.0]
  }

  function HorizontalSegment(width: real, height: real, i: nat): seq<real>
  {
    [-width / 2.0, GridLine(height, i), 0.0, width / 2.0, GridLine(height, i), 0.0]
  }

  /** The first n vertical segments, in the order they are pushed. */
  function VerticalSegments(width: real, height: real, n: nat): seq<real>
  {
    if n == 0 then [] else VerticalSegments(width, height, n - 1) + VerticalSegment(width, height, n - 1)
  }

  function HorizontalSegments(width: real, height: real, n: nat): seq<real>
  {
    if n == 0 then [] else HorizontalSegments(width, height, n - 1) + HorizontalSegment(width, height, n - 1)
  }

  /** The vertex array of one grid wall: all vertical segments, then all horizontal ones. */
  function GridVertices(width: real, height: real): (v: seq<real>)
    ensures |v| == 12 * (GridDivisions + 1)
  {
    SegmentsLength(width, height, GridDivisions + 1);
    VerticalSegments(width, height, GridDivisions + 1) + HorizontalSegments(width, height, GridDivisions + 1)
  }

  /** `createGridWall`'s two loops. */
  method CreateGridWall(width: real, height: real) returns (vertices: seq<real>)
    ensures vertices == GridVertices(width, height)
    ensures |vertices| == 12 * (GridDivisions + 1)
  {
    vertices := [];
    for i := 0 to GridDivisions + 1
      invariant vertices == VerticalSegments(width, height, i)
    {
      var x := GridLine(width, i);
      ghost var before := vertices;
      vertices := vertices + [x, -height / 2.0, 0.0];
      vertices := vertices + [x, height / 2.0, 0.0];
      PushTwice(before, [x, -height / 2.0, 0.0], [x, height / 2.0, 0.0]);
    }
    for i := 0 to GridDivisions + 1
      invariant vertices == VerticalSegments(width, height, GridDivisions + 1) + HorizontalSegments(width, height, i)
    {
      var y := GridLine(height, i);
      ghost var before := vertices;
      vertices := vertices + [-width / 2.0, y, 0.0];
      vertices := vertices + [width / 2.0, y, 0.0];
      PushTwice(before, [-width / 2.0, y, 0.0], [width / 2.0, y, 0.0]);
    }
    GridVertexCount(width, height);
  }

  /** Two pushes of three numbers append one six-number segment. */
  lemma PushTwice(s: seq<real>, a: seq<real>, b: seq<real>)
    requires |a| == 3 && |b| == 3
    ensures (s + a) + b == s + [a[0], a[1], a[2], b[0], b[1], b[2]]
  {
    assert a == [a[0], a[1], a[2]] && b == [b[0], b[1], b[2]];
  }

  lemma {:induction false} SegmentsLength(width: real, height: real, n: nat)
    ensures |VerticalSegments(width, height, n)| == 6 * n
    ensures |HorizontalSegments(width, height, n)| == 6 * n
  {
    if n > 0 {
      SegmentsLength(width, height, n - 1);
    }
  }

  /** A grid wall has 2 (n + 1) segments: 12 (n + 1) = 108 numbers for n = 8. */
  lemma GridVertexCount(width: real, height: real)
    ensures |GridVertices(width, height)| == 12 * (GridDivisions + 1) == 108
  {
    SegmentsLength(width, height, GridDivisions + 1);
  }

  /** Vertex j of a flat (x, y, z) array lies in the wall's rectangle on the plane z = 0. */
  predicate VertexInWall(s: seq<real>, j: int, width: real, height: real)
  {
    0 <= j && 3 * j + 2 < |s|
    && -width / 2.0 <= s[3 * j] <= width / 2.0
    && -height / 2.0 <= s[3 * j + 1] <= height / 2.0
    && s[3 * j + 2] == 0.0
  }

  predicate AllVerticesInWall(s: seq<real>, width: real, height: real)
  {
    |s| % 3 == 0 && forall j :: 0 <= j < |s| / 3 ==> VertexInWall(s, j, width, height)
  }

  lemma AllVerticesInWallAppend(a: seq<real>, b: seq<real>, width: real, height: real)
    requires AllVerticesInWall(a, width, height) && AllVerticesInWall(b, width, height)
    ensures AllVerticesInWall(a + b, width, height)
  {
    var q := |a| / 3;
    assert |a| == 3 * q;
    forall j | 0 <= j < |a + b| / 3 ensures VertexInWall(a + b, j, width, height) {
      if j < q {
        assert VertexInWall(a, j, width, height);
        assert (a + b)[3 * j] == a[3 * j] && (a + b)[3 * j + 1] == a[3 * j + 1] && (a + b)[3 * j + 2] == a[3 * j + 2];
      } else {
        var k := j - q;
        assert VertexInWall(b, k, width, height);
        assert (a + b)[3 * j] == b[3 * k] && (a + b)[3 * j + 1] == b[3 * k + 1] && (a + b)[3 * j + 2] == b[3 * k + 2];
      }
    }
  }

  /** The grid coordinate -size/2 + (i/8)*size stays in [-size/2, size/2]. */
  lemma GridCoordinateInRange(size: real, i: nat)
    requires size >= 0.0 && i <= GridDivisions
    ensures -size / 2.0 <= GridLine(size, i) <= size / 2.0
  {
    var t := (i as real) / (GridDivisions as real);
    MulBetween(t, size);
    assert GridLine(size, i) == -size / 2.0 + t * size;
  }

  lemma VerticalSegmentInWall(width: real, height: real, i: nat)
    requires width >= 0.0 && height >= 0.0 && i <= GridDivisions
    ensures AllVerticesInWall(VerticalSegment(width, height, i), width, height)
  {
    GridCoordinateInRange(width, i);
    var x := GridLine(width, i);
    var vs := VerticalSegment(width, height, i);
    assert vs == [x, -height / 2.0, 0.0, x, height / 2.0, 0.0];
    assert VertexInWall(vs, 0, width, height);
    assert VertexInWall(vs, 1, width, height);
  }

  lemma HorizontalSegmentInWall(width: real, height: real, i: nat)
    requires width >= 0.0 && height >= 0.0 && i <= GridDivisions
    ensures AllVerticesInWall(HorizontalSegment(width, height, i), width, height)
  {
    GridCoordinateInRange(height, i);
    var y := GridLine(height, i);
    var hs := HorizontalSegment(width, height, i);
    assert hs == [-width / 2.0, y, 0.0, width / 2.0, y, 0.0];
    assert VertexInWall(hs, 0, width, height);
    assert VertexInWall(hs, 1, width, height);
  }

  lemma {:induction false} SegmentsPrefixInWall(width: real, height: real, n: nat)
    requires width >= 0.0 && height >= 0.0 && n <= GridDivisions + 1
    ensures AllVerticesInWall(VerticalSegments(width, height, n), width, height)
    ensures AllVerticesInWall(HorizontalSegments(width, height, n), width, height)
  {
    if n > 0 {
      SegmentsPrefixInWall(width, height, n - 1);
      VerticalSegmentInWall(width, height, n - 1);
      HorizontalSegmentInWall(width, height, n - 1);
      AllVerticesInWallAppend(VerticalSegments(width, height, n - 1), VerticalSegment(width, height, n - 1), width, height);
      AllVerticesInWallAppend(HorizontalSegments(width, height, n - 1), HorizontalSegment(width, height, n - 1), width, height);
    }
  }

  /** Every vertex of a grid wall has z = 0, x in [-w/2, w/2] and y in [-h/2, h/2]. */
  lemma GridVerticesInWall(width: real, height: real)
    requires width >= 0.0 && height >= 0.0
    ensures AllVerticesInWall(GridVertices(width, height), width, height)
  {
    SegmentsPrefixInWall(width, height, GridDivisions + 1);
    AllVerticesInWallAppend(VerticalSegments(width, height, GridDivisions + 1),
                            HorizontalSegments(width, height, GridDivisions + 1), width, height);
  }

  /** The six objects `createWireframeRoom` builds for a screen of the given size. */
  function RoomFor(width: real, height: real): (room: seq<RoomObject>)
    ensures |room| == 6
    ensures forall k :: 0 <= k < 5 ==> room[k].GridWall? && |room[k].vertices| == 108
    ensures room[5] == ScreenFrame(width, height, Vec3(0.0, 0.0, ScreenFrameOffset))
  {
    GridVertexCount(width, height);
    GridVertexCount(RoomDepth, height);
    GridVertexCount(width, RoomDepth);
    [ GridWall(GridVertices(width, height), Vec3(0.0, 0.0, -RoomDepth), Upright),
      GridWall(GridVertices(RoomDepth, height), Vec3(-width / 2.0, 0.0, -RoomDepth / 2.0), PlusY),
      GridWall(GridVertices(RoomDepth, height), Vec3(width / 2.0, 0.0, -RoomDepth / 2.0), MinusY),
      GridWall(GridVertices(width, RoomDepth), Vec3(0.0, -height / 2.0, -RoomDepth / 2.0), PlusX),
      GridWall(GridVertices(width, RoomDepth), Vec3(0.0, height / 2.0, -RoomDepth / 2.0), MinusX),
      ScreenFrame(width, height, Vec3(0.0, 0.0, ScreenFrameOffset)) ]
  }

  /** The two helpers `createDebugHelpers` adds, both hidden. */
  const InitialHelpers: seq<DebugHelper> :=
    [DebugHelper(AxesHelper, false, Origin), DebugHelper(HeadPositionMarker, false, Origin)]

  class ThreeSceneManager {
    var model: Option<SceneModel>
    var animationFrameId: Option<nat>
    var isRunning: bool
    var currentHeadPose: HeadPose
    var debugMode: bool
    var debugHelpers: seq<DebugHelper>
    var roomObjects: seq<RoomObject>
    /** What the off-axis camera's `getScreenDimensions` reports for the current calibration. */
    var screenWidth: real
    var screenHeight: real
    /** Frames handed to the renderer so far. */
    var framesRendered: nat
    /** Models whose geometry and materials have been disposed. */
    var releasedModels: set<nat>
    var rendererDisposed: bool

    ghost predicate Valid()
      reads this
    {
      && (!isRunning ==> animationFrameId.None?)
      && |debugHelpers| == 2
      && debugHelpers[0].kind == AxesHelper && debugHelpers[1].kind == HeadPositionMarker
      && (forall k :: 0 <= k < |debugHelpers| ==> debugHelpers[k].visible == debugMode)
      && roomObjects == RoomFor(screenWidth, screenHeight)
    }

    /**
     * Scene, camera and renderer are opaque; the shoe arrives later through
     * `ShoeModelLoaded`. Builds the room, then the hidden debug helpers.
     */
    constructor (screenWidth: real, screenHeight: real)
      ensures Valid()
      ensures model == None && !isRunning && animationFrameId == None
      ensures currentHeadPose == CentrePose && !debugMode
      ensures this.screenWidth == screenWidth && this.screenHeight == screenHeight
      ensures |roomObjects| == 6
      ensures debugHelpers == InitialHelpers
      ensures framesRendered == 0 && releasedModels == {} && !rendererDisposed
    {
      this.model := None;
      this.animationFrameId := None;
      this.isRunning := false;
      this.currentHeadPose := CentrePose;
      this.debugMode := false;
      this.debugHelpers := [];
      this.roomObjects := [];
      this.screenWidth := screenWidth;
      this.screenHeight := screenHeight;
      this.framesRendered := 0;
      this.releasedModels := {};
      this.rendererDisposed := false;
      new;
      CreateWireframeRoom();
      CreateDebugHelpers();
    }

    /** The success callback of `loadShoeModel`. */
    method ShoeModelLoaded(id: nat)
      modifies this`model
      ensures model == Some(SceneModel(id, DefaultPosition, DefaultRotation, Vec3(DefaultScale, DefaultScale, DefaultScale)))
      ensures old(model).None? ==>
        GetModelPosition() == old(GetModelPosition()) && GetModelRotation() == old(GetModelRotation())
        && GetModelScale() == old(GetModelScale())
    {
      model := Some(SceneModel(id, DefaultPosition, DefaultRotation, Vec3(DefaultScale, DefaultScale, DefaultScale)));
    }

    /**
     * The synchronous part of `loadModelFromFile`: detach and release any model,
     * empty the slot, then dispatch on the extension. The slot stays empty on a
     * rejection; the previous model is not restored.
     */
    method LoadModelFromFile(name: string) returns (start: LoadStart)
      modifies this`model, this`releasedModels
      ensures model == None
      ensures releasedModels == old(releasedModels) + (if old(model).Some? then {old(model).value.id} else {})
      ensures start == Dispatch(name)
      ensures start.Dispatched? <==> Extension(name) in {".glb", ".gltf", ".obj", ".fbx", ".stl"}
    {
      var extension := Extension(name);
      if model.Some? {
        releasedModels := releasedModels + {model.value.id};
        model := None;
      }
      match extension
      case ".glb" => start := Dispatched(GltfLoader);
      case ".gltf" => start := Dispatched(GltfLoader);
      case ".obj" => start := Dispatched(ObjLoader);
      case ".fbx" => start := Dispatched(FbxLoader);
      case ".stl" => start := Dispatched(StlLoader);
      case _ => start := Rejected(extension);
    }

    /** `onLoad`: take the loaded object, scale it by 0.071 and re-centre it on its bounding box. */
    method OnModelLoaded(loaded: SceneModel, boundingBoxCentre: Vec3)
      modifies this`model
      ensures model == Some(loaded.(scale := Vec3(LoadedScale, LoadedScale, LoadedScale),
                                    position := RecentredPosition(boundingBoxCentre)))
      ensures GetModelScale() == LoadedScale && GetModelRotation() == loaded.rotation
    {
      var scale := LoadedScale;
      var obj := loaded.(scale := Vec3(scale, scale, scale));
      obj := obj.(position := Vec3(-boundingBoxCentre.x * scale, -boundingBoxCentre.y * scale - 0.09, -0.03));
      model := Some(obj);
    }

    method CreateWireframeRoom()
      modifies this`roomObjects
      ensures roomObjects == RoomFor(screenWidth, screenHeight)
    {
      RemoveWireframeRoom();
      var backWall := CreateGridWall(screenWidth, screenHeight);
      roomObjects := roomObjects + [GridWall(backWall, Vec3(0.0, 0.0, -RoomDepth), Upright)];
      var leftWall := CreateGridWall(RoomDepth, screenHeight);
      roomObjects := roomObjects + [GridWall(leftWall, Vec3(-screenWidth / 2.0, 0.0, -RoomDepth / 2.0), PlusY)];
      var rightWall := CreateGridWall(RoomDepth, screenHeight);
      roomObjects := roomObjects + [GridWall(rightWall, Vec3(screenWidth / 2.0, 0.0, -RoomDepth / 2.0), MinusY)];
      var floor := CreateGridWall(screenWidth, RoomDepth);
      roomObjects := roomObjects + [GridWall(floor, Vec3(0.0, -screenHeight / 2.0, -RoomDepth / 2.0), PlusX)];
      var ceiling := CreateGridWall(screenWidth, RoomDepth);
      roomObjects := roomObjects + [GridWall(ceiling, Vec3(0.0, screenHeight / 2.0, -RoomDepth / 2.0), MinusX)];
      roomObjects := roomObjects + [ScreenFrame(screenWidth, screenHeight, Vec3(0.0, 0.0, ScreenFrameOffset))];
    }

    method RemoveWireframeRoom()
      modifies this`roomObjects
      ensures roomObjects == []
    {
      roomObjects := [];
    }

    method CreateDebugHelpers()
      modifies this`debugHelpers
      ensures debugHelpers == old(debugHelpers) + InitialHelpers
    {
      debugHelpers := debugHelpers + [DebugHelper(AxesHelper, false, Origin)];
      debugHelpers := debugHelpers + [DebugHelper(HeadPositionMarker, false, Origin)];
    }

    method UpdateHeadPose(headPose: HeadPose)
      requires Valid()
      modifies this`currentHeadPose
      ensures Valid() && currentHeadPose == headPose
    {
      currentHeadPose := headPose;
    }

    /** Shows or hides every helper; none is created or destroyed. */
    method SetDebugMode(enabled: bool)
      requires Valid()
      modifies this`debugMode, this`debugHelpers
      ensures Valid() && debugMode == enabled
      ensures |debugHelpers| == |old(debugHelpers)|
      ensures forall k :: 0 <= k < |debugHelpers| ==>
        debugHelpers[k] == old(debugHelpers[k]).(visible := enabled)
    {
      debugMode := enabled;
      var i := 0;
      while i < |debugHelpers|
        invariant debugMode == enabled
        invariant 0 <= i <= |debugHelpers| == |old(debugHelpers)|
        invariant forall k :: 0 <= k < i ==> debugHelpers[k] == old(debugHelpers[k]).(visible := enabled)
        invariant forall k :: i <= k < |debugHelpers| ==> debugHelpers[k] == old(debugHelpers[k])
      {
        debugHelpers := debugHelpers[i := debugHelpers[i].(visible := enabled)];
        i := i + 1;
      }
    }

    /**
     * The off-axis camera takes the new calibration (its resulting screen size is
     * the parameter) and the room is rebuilt for it: again exactly six objects.
     */
    method UpdateCalibration(screenWidth: real, screenHeight: real)
      requires Valid()
      modifies this`screenWidth, this`screenHeight, this`roomObjects
      ensures Valid()
      ensures this.screenWidth == screenWidth && this.screenHeight == screenHeight
      ensures roomObjects == RoomFor(screenWidth, screenHeight) && |roomObjects| == 6
    {
      this.screenWidth := screenWidth;
      this.screenHeight := screenHeight;
      CreateWireframeRoom();
    }

    /** Does nothing while no model is loaded. */
    method UpdateModelPosition(x: real, y: real, z: real)
      modifies this`model
      ensures old(model).None? ==> model == None
      ensures old(model).Some? ==> model == Some(old(model).value.(position := Vec3(x, y, z)))
      ensures old(model).Some? ==> GetModelPosition() == Vec3(x, y, z)
    {
      if model.Some? {
        model := Some(model.value.(position := Vec3(x, y, z)));
      }
    }

    /** Sets a uniform scale; does nothing while no model is loaded. */
    method UpdateModelScale(scale: real)
      modifies this`model
      ensures old(model).None? ==> model == None
      ensures old(model).Some? ==> model == Some(old(model).value.(scale := Vec3(scale, scale, scale)))
      ensures old(model).Some? ==> GetModelScale() == scale
    {
      if model.Some? {
        model := Some(model.value.(scale := Vec3(scale, scale, scale)));
      }
    }

    method UpdateModelRotation(x: real, y: real, z: real)
      modifies this`model
      ensures old(model).None? ==> model == None
      ensures old(model).Some? ==> model == Some(old(model).value.(rotation := Vec3(x, y, z)))
      ensures old(model).Some? ==> GetModelRotation() == Vec3(x, y, z)
    {
      if model.Some? {
        model := Some(model.value.(rotation := Vec3(x, y, z)));
      }
    }

    function GetModelPosition(): (p: Vec3)
      reads this
      ensures model.None? ==> p == DefaultPosition
      ensures model.Some? ==> p == model.value.position
    {
      if model.Some? then model.value.position else Vec3(0.0, -0.09, -0.03)
    }

    /** The x component stands for the (uniform) scale. */
    function GetModelScale(): (s: real)
      reads this
      ensures model.None? ==> s == DefaultScale
      ensures model.Some? ==> s == model.value.scale.x
    {
      if model.Some? then model.value.scale.x else 0.071
    }

    function GetModelRotation(): (r: Vec3)
      reads this
      ensures model.None? ==> r == DefaultRotation
      ensures model.Some? ==> r == model.value.rotation
    {
      if model.Some? then model.value.rotation else Vec3(0.0, -0.628, 0.0)
    }

    /**
     * One frame: while running, record the handle of the next frame, move the
     * head marker (in debug mode) to where the off-axis camera places the current
     * pose, and render. When not running, nothing happens.
     */
    method Animate(nextFrame: nat, headPoseToWorld: HeadPose -> Vec3)
      requires Valid()
      modifies this`animationFrameId, this`debugHelpers, this`framesRendered
      ensures Valid()
      ensures !isRunning ==>
        animationFrameId == old(animationFrameId) && debugHelpers == old(debugHelpers)
        && framesRendered == old(framesRendered)
      ensures isRunning ==> animationFrameId == Some(nextFrame) && framesRendered == old(framesRendered) + 1
      ensures isRunning && debugMode ==>
        debugHelpers == old(debugHelpers)[1 := old(debugHelpers)[1].(position := headPoseToWorld(currentHeadPose))]
      ensures !(isRunning && debugMode) ==> debugHelpers == old(debugHelpers)
    {
      if !isRunning {
        return;
      }
      animationFrameId := Some(nextFrame);
      if debugMode && |debugHelpers| > 1 {
        var worldPos := headPoseToWorld(currentHeadPose);
        debugHelpers := debugHelpers[1 := debugHelpers[1].(position := worldPos)];
      }
      framesRendered := framesRendered + 1;
    }

    /** No-op while running; otherwise enter the running state and run one frame. */
    method Start(nextFrame: nat, headPoseToWorld: HeadPose -> Vec3)
      requires Valid()
      modifies this`isRunning, this`animationFrameId, this`debugHelpers, this`framesRendered
      ensures Valid() && isRunning
      ensures old(isRunning) ==>
        animationFrameId == old(animationFrameId) && framesRendered == old(framesRendered)
        && debugHelpers == old(debugHelpers)
      ensures !old(isRunning) ==> animationFrameId == Some(nextFrame) && framesRendered == old(framesRendered) + 1
      ensures !old(isRunning) && debugMode ==>
        debugHelpers == old(debugHelpers)[1 := old(debugHelpers)[1].(position := headPoseToWorld(currentHeadPose))]
      ensures !old(isRunning) && !debugMode ==> debugHelpers == old(debugHelpers)
    {
      if !isRunning {
        isRunning := true;
        Animate(nextFrame, headPoseToWorld);
      }
    }

    /** Leaves no frame pending; calling it again changes nothing. */
    method Stop()
      requires Valid()
      modifies this`isRunning, this`animationFrameId
      ensures Valid() && !isRunning && animationFrameId == None
    {
      isRunning := false;
      if animationFrameId.Some? {
        animationFrameId := None;
      }
    }

    /** Stops first, releases the current model's resources (it stays in the slot) and the renderer. */
    method Dispose()
      requires Valid()
      modifies this`isRunning, this`animationFrameId, this`releasedModels, this`rendererDisposed
      ensures Valid() && !isRunning && animationFrameId == None && rendererDisposed
      ensures releasedModels == old(releasedModels) + (if model.Some? then {model.value.id} else {})
    {
      Stop();
      if model.Some? {
        releasedModels := releasedModels + {model.value.id};
      }
      rendererDisposed := true;
    }
  }

  /**
   * Disposing twice: the second call leaves every modelled field as the first
   * left it, so the final state is exactly that of a single `Dispose`.
   */
  method DisposeTwice(m: ThreeSceneManager)
    requires m.Valid()
    modifies m`isRunning, m`animationFrameId, m`releasedModels, m`rendererDisposed
    ensures m.Valid() && !m.isRunning && m.animationFrameId == None && m.rendererDisposed
    ensures m.releasedModels == old(m.releasedModels) + (if m.model.Some? then {m.model.value.id} else {})
    ensures m.model == old(m.model) && m.currentHeadPose == old(m.currentHeadPose)
    ensures m.debugMode == old(m.debugMode) && m.debugHelpers == old(m.debugHelpers)
    ensures m.roomObjects == old(m.roomObjects) && m.framesRendered == old(m.framesRendered)
    ensures m.screenWidth == old(m.screenWidth) && m.screenHeight == old(m.screenHeight)
  {
    m.Dispose();
    ghost var released := m.releasedModels;
    m.Dispose();
    assert m.releasedModels == released && !m.isRunning && m.animationFrameId == None && m.rendererDisposed;
  }

  /** An unsupported upload after the shoe has loaded: rejected, the shoe released, and the slot left empty. */
  method UnsupportedUploadEmptiesSlot(m: ThreeSceneManager, id: nat, stem: string) returns (start: LoadStart)
    modifies m
    ensures start == Rejected(".txt")
    ensures m.model == None && id in m.releasedModels
    ensures m.GetModelScale() == DefaultScale && m.GetModelPosition() == DefaultPosition
  {
    m.ShoeModelLoaded(id);
    start := m.LoadModelFromFile(stem + ".txt");
    assert Extension(stem + ".txt") == ".txt" by {
      assert stem + ".txt" == stem + "." + "txt";
      ExtensionIgnoresStem(stem, "txt");
      LowerKeepsLowercase("txt");
    }
  }
}
