# Axis head-tracked parallax viewer: a Dafny model of its core logic

Axis renders a 3D model behind the screen as if the display were a window. A face-mesh detector supplies landmarks. A head-pose smoother turns them into a stable viewer position, and a Three.js scene manager drives the render loop and holds the displayed model. An upload panel accepts new model files. This project models and proves three sequential, stateful pieces of that system:

- **Head-pose smoother** (`HeadPoseTracking`, from `src/utils/headPose.ts`). The module covers:
  - rejection of missing or short landmark sets;
  - the face centre (mean of landmarks 133, 362 and 1);
  - the depth proxy `(inner + 0.5·outer) / (0.1·1.5)`;
  - the clamp box `x, y ∈ [0.2, 0.8]`, `z ∈ [0.5, 2.0]`;
  - the per-axis exponential filter `s' = s + f·(t − s)` over one stored pose, with `f` clamped into `[0.1, 0.9]`;
  - `reset`, and the linear map `headPoseToCamera`.

  The tracker is a class whose `smoothedPose` the step method rewrites one axis at a time. It is specified by the pure functions `Target` and `SmoothPose`. The lemmas prove:
  - no overshoot;
  - contraction by exactly `1 − f`;
  - distance `(1 − f)^n` after `n` steps toward a constant target, with monotone convergence;
  - the box is kept once the state is inside it;
  - the box invariant fails from the constructor's `{0, 0, 1}`.
- **Scene manager** (`ThreeScene`, from `src/utils/threeScene.ts`). Rendering is stripped away. What remains is a class with:
  - the running flag and frame-handle slot (`Start`, `Stop`, `Animate`, `Dispose`);
  - the nullable model slot with transform setters and default-returning getters;
  - the synchronous part of `loadModelFromFile`: detach and release, empty the slot, then dispatch on the extension;
  - the `onLoad` re-centring;
  - the grid-wall vertex loops and the six-object room;
  - the debug helpers, which are shown and hidden but never destroyed.
- **Upload validator** (`ModelUpload`, from `src/components/ModelUpload.tsx`). `SUPPORTED_FORMATS`, `validateFile` (format first, then the inclusive 50 MiB ceiling) and `handleFileSelect`, whose state updates surround the awaited load. A lemma proves that the accepted set is exactly the set of extensions the scene manager dispatches to a loader.
- `FileExtension` holds the one extension rule both files use: `'.' + name.split('.').pop().toLowerCase()`. `Split` and `Join` undo each other: joining the pieces of any name gives the name back, and splitting the join of a non-empty list of dot-free pieces gives the list back. A further proof shows that `pop()` is the longest dot-free suffix.

Host inputs become parameters:
- `Math.sqrt` is a `real -> real` argument. Lemmas that need it assume only that it is the non-negative square root (`IsSquareRoot`).
- A `requestAnimationFrame` handle is a `nat`.
- The off-axis camera's `headPoseToWorldPosition` is a `HeadPose -> Vec3` argument.
- `getScreenDimensions` becomes the screen width and height given to the constructor and to `UpdateCalibration`.
- The bounding-box centre is a `Vec3` argument.
- How the awaited `onModelLoad` settles is a `bool`. `handleFileSelect` is split at its `await` into `HandleFileSelect` and `SettleLoad`, so the state while a load is in flight is visible.

All arithmetic is over `real`. Three.js objects in the model slot are datatype values that carry an identity `id`.

Some behaviours of the code differ from what a reader might expect. The model follows the code:
- The smoothed pose is not always inside the clamp box. The tracker starts at `{0, 0, 1}`, so with the default factor and a centred face the first output has `x = 0.15` (`FirstOutputFromInitialStateLeavesBox`). After `reset`, or once the state is inside the box, it stays inside.
- One might expect an unsupported upload to keep the previous model, but it does not. `loadModelFromFile` detaches and releases the old model before it dispatches, so the slot is left empty (`LoadModelFromFile`, `UnsupportedUploadEmptiesSlot`).
- `dispose` releases the model and the renderer, not the room or helper geometry. It does not make the manager unusable: `start` after `dispose` would run again.
- `onLoad` does not check for disposal. It also does not release a model that another, overlapping load put into the slot in the meantime: `OnModelLoaded` overwrites the slot and releases nothing.
- A file named just `glb`, with no dot, has extension `.glb` and is accepted (`DotlessNameIsItsOwnExtension`).
- Closing the upload modal does not cancel a pending load. When the load settles afterwards, it still writes the file name or the failure message into the closed panel (`CloseWhileLoading`).

## Model

| member | source | states |
|---|---|---|
| `FileExtension.Split` | src/components/ModelUpload.tsx:41 | `split('.')` always yields at least one piece |
| `FileExtension.SplitPiecesAreDotFree` | src/components/ModelUpload.tsx:41 | no piece of the split contains a dot |
| `FileExtension.JoinSplit` | src/components/ModelUpload.tsx:41 | `Join` (the `join` of line 43) with "." applied to the pieces gives the original name back: nothing is lost by the split |
| `FileExtension.SplitAfterPiece` | src/components/ModelUpload.tsx:41 | a dot-free piece followed by a dot splits into that piece, then the split of the rest |
| `FileExtension.SplitJoin` | src/components/ModelUpload.tsx:41 | splitting the join of a non-empty list of dot-free pieces gives the list back, so `Split` and `Join` are mutually inverse on such lists |
| `FileExtension.SplitDotless` | src/components/ModelUpload.tsx:41 | a name without a dot splits into the one piece that is the name |
| `FileExtension.LastPieceIsSuffix` | src/components/ModelUpload.tsx:41 | `Last` (`pop()`) of the split is the longest dot-free suffix: it ends the name, has no dot, and is the whole name or follows a dot |
| `FileExtension.LowerChar` | src/components/ModelUpload.tsx:41 | upper-case ASCII letters map to lower case (+32), every other character is kept |
| `FileExtension.Lower` | src/components/ModelUpload.tsx:41 | lowercasing keeps the length and maps each character by `LowerChar` |
| `FileExtension.LowerKeepsLowercase` | src/components/ModelUpload.tsx:41 | a name without upper-case letters is unchanged by lowercasing |
| `FileExtension.Extension` | src/components/ModelUpload.tsx:41 | the derived extension always starts with "." |
| `FileExtension.ExtensionOfDotlessName` | src/components/ModelUpload.tsx:41 | a name without a dot yields "." plus the whole lowercased name |
| `FileExtension.ExtensionIgnoresStem` | src/utils/threeScene.ts:102 | for `stem + "." + tail` with a dot-free tail, the extension is "." plus the lowercased tail, whatever the stem |
| `HeadPoseTracking.Clamp` | src/utils/headPose.ts:54-56 | `max(lo, min(hi, v))` lies in [lo, hi], equals v inside, lo below and hi above |
| `HeadPoseTracking.ClampToBox` | src/utils/headPose.ts:54-56 | the clamped pose is in the box (x, y in [0.2, 0.8], z in [0.5, 2.0]) and a pose already in the box is unchanged |
| `HeadPoseTracking.FirstFace` | src/utils/headPose.ts:22-31 | a face is read iff the list is present and non-empty and its first face is present with at least 468 points; the face read is that first face |
| `HeadPoseTracking.Target` | src/utils/headPose.ts:33-56 | the target is in the box, and each axis equals the landmark centre (x, y) or the depth proxy (z) whenever that value is inside its range |
| `HeadPoseTracking.Distance` | src/utils/headPose.ts:42-50 | with a true square root, the distance is non-negative and its square is the sum of the squared coordinate differences |
| `HeadPoseTracking.CentreX` | src/utils/headPose.ts:39 | the mean of the x of points 133, 362 and 1 lies between the smallest and the largest of them |
| `HeadPoseTracking.CentreY` | src/utils/headPose.ts:40 | the mean of the y of points 133, 362 and 1 lies between the smallest and the largest of them |
| `HeadPoseTracking.DepthProxy` | src/utils/headPose.ts:42-52 | with a true square root, the proxy (inner distance + half the outer distance) / 0.15 is never negative |
| `HeadPoseTracking.SyntheticFace` | src/App.tsx:64-72 | the app's synthetic face has exactly 468 points |
| `HeadPoseTracking.SyntheticFaceTarget` | src/utils/headPose.ts:39-52 | for the app's synthetic face (eyes at ±0.05 and ±0.08) the centre is the raw pose and the depth proxy is (0.1 + 0.08)/0.15 = 1.2 |
| `HeadPoseTracking.Smooth` | src/utils/headPose.ts:58 | one axis of the filter: a reached target is kept, f = 0 keeps the old value, f = 1 jumps to the target |
| `HeadPoseTracking.SmoothPose` | src/utils/headPose.ts:58-60 | the filter on all three axes: a pose equal to the target stays, and f = 1 jumps to the target |
| `HeadPoseTracking.Iterate` | src/utils/headPose.ts:58-60 | n filter steps toward a fixed target: zero steps keep the start, a start at the target stays there, and with f = 1 one step reaches it |
| `HeadPoseTracking.SmoothNoOvershoot` | src/utils/headPose.ts:58-60 | for f in [0, 1] one filter step lands between the old value and the target |
| `HeadPoseTracking.SmoothContracts` | src/utils/headPose.ts:58-60 | one step leaves distance (1 − f) times the old distance to the target |
| `HeadPoseTracking.SmoothPoseKeepsBox` | src/utils/headPose.ts:54-60 | a state inside the box stays inside after an update toward a clamped target |
| `HeadPoseTracking.IterateOffset` | src/utils/headPose.ts:58-60 | after n steps toward a constant target the signed offset from the target is (1 − f)^n times the initial offset |
| `HeadPoseTracking.OffsetStep` | src/utils/headPose.ts:58-60 | one step turns an offset p·d from the target into ((1 − f)·p)·d |
| `HeadPoseTracking.IterateDistance` | src/utils/headPose.ts:58-60 | after n steps toward a constant target the distance is (1 − f)^n times the initial distance |
| `HeadPoseTracking.IterateBetween` | src/utils/headPose.ts:58-60 | repeated steps toward a constant target never cross it: every iterate lies between the start and the target |
| `HeadPoseTracking.IterateMonotone` | src/utils/headPose.ts:58-60 | for f in [0.1, 0.9] each step never increases the distance, and strictly decreases it until the target is reached |
| `HeadPoseTracking.ResetThenCentredUpdate` | src/utils/headPose.ts:69-71 | after `reset` a centred update holds the centre exactly; from an off-centre state it leaves a positive distance |
| `HeadPoseTracking.FirstOutputFromInitialStateLeavesBox` | src/utils/headPose.ts:14 | from the initial state {0, 0, 1}, factor 0.3 and a centred face, the first output has x = 0.15, outside the box |
| `HeadPoseTracking.HeadPoseTracker.constructor` | src/utils/headPose.ts:18-20 | the smoothing factor is clamped into [0.1, 0.9], not rejected; the state starts at {0, 0, 1} |
| `HeadPoseTracking.HeadPoseTracker.ExtractHeadPoseFromLandmarks` | src/utils/headPose.ts:22-63 | a rejected sample returns None and leaves the state unchanged; an accepted one sets the state to `SmoothPose(old, Target(face), f)` and returns a copy of it; the box is preserved once reached |
| `HeadPoseTracking.HeadPoseTracker.GetSmoothedPose` | src/utils/headPose.ts:65-67 | returns (a value copy of) the stored pose |
| `HeadPoseTracking.HeadPoseTracker.Reset` | src/utils/headPose.ts:69-71 | the state becomes {0.5, 0.5, 1}, inside the box; the smoothing factor is unchanged |
| `HeadPoseTracking.HeadPoseToCamera` | src/utils/headPose.ts:74-86 | the centre pose (0.5, 0.5, 1) maps to (0, 0, baseZ) |
| `HeadPoseTracking.CameraMovesOpposite` | src/utils/headPose.ts:81-82 | camera x strictly decreases as pose x grows whenever strengthX is positive, and y likewise with strengthY; each axis needs only its own strength |
| `HeadPoseTracking.CameraMapInjective` | src/utils/headPose.ts:81-83 | with non-zero strengths, two poses with the same camera position are equal |
| `HeadPoseTracking.DefaultCameraAtCentre` | src/utils/headPose.ts:76-79 | with the default strengths 3, 3, 4 and base 8, the centred viewer sits at (0, 0, 8) |
| `ThreeScene.LoaderFor` | src/utils/threeScene.ts:154-225 | exactly .glb, .gltf, .obj, .fbx and .stl reach a loader; .glb and .gltf share the GLTF loader |
| `ThreeScene.Dispatch` | src/utils/threeScene.ts:154-225 | a file is rejected, with its extension, iff that extension has no loader |
| `ThreeScene.RecentredPosition` | src/utils/threeScene.ts:128-139 | after scaling by 0.071 the bounding-box centre lands on the shoe's anchor (0, −0.09) and z is −0.03 |
| `ThreeScene.GridLine` | src/utils/threeScene.ts:253-254 | the i-th grid line −size/2 + (i/8)·size: line 0 is the lower edge −size/2 and line 8 the upper edge size/2 |
| `ThreeScene.GridVertices` | src/utils/threeScene.ts:252-262 | the vertical segments then the horizontal ones, 12·(8 + 1) = 108 numbers |
| `ThreeScene.CreateGridWall` | src/utils/threeScene.ts:248-266 | the two loops produce exactly `GridVertices(w, h)`, 12·(n + 1) numbers |
| `ThreeScene.SegmentsLength` | src/utils/threeScene.ts:252-262 | k segments of either family take 6·k numbers |
| `ThreeScene.GridVertexCount` | src/utils/threeScene.ts:252-262 | a grid wall has 2·(n + 1) segments: 12·(n + 1) = 108 numbers for n = 8 |
| `ThreeScene.GridCoordinateInRange` | src/utils/threeScene.ts:253-254 | each grid coordinate −size/2 + (i/8)·size lies in [−size/2, size/2] |
| `ThreeScene.VerticalSegmentInWall` | src/utils/threeScene.ts:252-256 | both vertices of a vertical segment lie in the wall rectangle on z = 0 |
| `ThreeScene.HorizontalSegmentInWall` | src/utils/threeScene.ts:258-262 | both vertices of a horizontal segment lie in the wall rectangle on z = 0 |
| `ThreeScene.SegmentsPrefixInWall` | src/utils/threeScene.ts:252-262 | every prefix of either loop's output stays in the wall rectangle |
| `ThreeScene.GridVerticesInWall` | src/utils/threeScene.ts:248-266 | every vertex of a grid wall has z = 0, x in [−w/2, w/2] and y in [−h/2, h/2] |
| `ThreeScene.RoomFor` | src/utils/threeScene.ts:229-313 | the room is exactly six objects: five 108-number grid walls, then the screen frame at z = 0.001 |
| `ThreeScene.ThreeSceneManager.constructor` | src/utils/threeScene.ts:22-59 | starts stopped with no frame pending, no model, centred head pose, debug off, a six-object room and two hidden helpers |
| `ThreeScene.ThreeSceneManager.ShoeModelLoaded` | src/utils/threeScene.ts:86-92 | the shoe goes in at the transform the getters already report when the slot is empty |
| `ThreeScene.ThreeSceneManager.LoadModelFromFile` | src/utils/threeScene.ts:100-225 | the old model is released and the slot emptied before dispatch; the result is `Dispatch(name)`; nothing restores the old model on rejection |
| `ThreeScene.ThreeSceneManager.OnModelLoaded` | src/utils/threeScene.ts:121-146 | the loaded object takes the slot with uniform scale 0.071 and the re-centred position; its rotation is kept |
| `ThreeScene.ThreeSceneManager.CreateWireframeRoom` | src/utils/threeScene.ts:229-313 | after clearing, the room list is exactly `RoomFor` of the current screen size |
| `ThreeScene.ThreeSceneManager.RemoveWireframeRoom` | src/utils/threeScene.ts:315-326 | the room list is emptied |
| `ThreeScene.ThreeSceneManager.CreateDebugHelpers` | src/utils/threeScene.ts:328-341 | appends a hidden axes helper and a hidden head marker |
| `ThreeScene.ThreeSceneManager.UpdateHeadPose` | src/utils/threeScene.ts:343-345 | the stored head pose is replaced (last write wins) |
| `ThreeScene.ThreeSceneManager.SetDebugMode` | src/utils/threeScene.ts:347-352 | every helper's visibility becomes the flag; none is added, removed or moved |
| `ThreeScene.ThreeSceneManager.UpdateCalibration` | src/utils/threeScene.ts:354-357 | the new screen size takes effect at once and the room is rebuilt as exactly six objects for it |
| `ThreeScene.ThreeSceneManager.UpdateModelPosition` | src/utils/threeScene.ts:359-363 | does nothing with no model; otherwise only the position changes, and the getter then returns it |
| `ThreeScene.ThreeSceneManager.UpdateModelScale` | src/utils/threeScene.ts:365-369 | does nothing with no model; otherwise the scale becomes uniform s and the getter returns s |
| `ThreeScene.ThreeSceneManager.UpdateModelRotation` | src/utils/threeScene.ts:389-393 | does nothing with no model; otherwise only the rotation changes, and the getter then returns it |
| `ThreeScene.ThreeSceneManager.GetModelPosition` | src/utils/threeScene.ts:371-380 | the model's position, or (0, −0.09, −0.03) with no model |
| `ThreeScene.ThreeSceneManager.GetModelScale` | src/utils/threeScene.ts:382-387 | the model's x scale, or 0.071 with no model |
| `ThreeScene.ThreeSceneManager.GetModelRotation` | src/utils/threeScene.ts:395-404 | the model's rotation, or (0, −0.628, 0) with no model |
| `ThreeScene.ThreeSceneManager.Animate` | src/utils/threeScene.ts:406-419 | when not running nothing changes; when running the next frame handle is stored, one frame is rendered, and in debug mode the head marker moves to the camera's world position for the current pose |
| `ThreeScene.ThreeSceneManager.Start` | src/utils/threeScene.ts:421-426 | a no-op while running; otherwise sets running and runs exactly one frame: it stores the frame handle, renders once and, in debug mode, moves the head marker to the camera's world position for the current pose |
| `ThreeScene.ThreeSceneManager.Stop` | src/utils/threeScene.ts:428-434 | not running and no frame pending, whatever the state before (hence idempotent) |
| `ThreeScene.ThreeSceneManager.Dispose` | src/utils/threeScene.ts:442-461 | stops first, releases the current model (which stays in the slot) and the renderer |
| `ThreeScene.DisposeTwice` | src/utils/threeScene.ts:442-461 | the second dispose changes nothing: the final state is the single-dispose state (stopped, renderer released, the model released and still in its slot) and every other field is as before |
| `ThreeScene.UnsupportedUploadEmptiesSlot` | src/utils/threeScene.ts:106-119 | after the shoe loads, any `<stem>.txt` upload is rejected with extension ".txt" and leaves the slot empty, the shoe released and the getters reporting the defaults |
| `ModelUpload.SupportedExtensions` | src/components/ModelUpload.tsx:10-16 | the keys in declared order: .glb, .gltf, .obj, .fbx, .stl |
| `ModelUpload.Validate` | src/components/ModelUpload.tsx:40-53 | a file is accepted iff its extension is a key and its size is at most 50·1024·1024; a bad extension always gives the format error; a supported extension over the ceiling gives the size error |
| `ModelUpload.Message` | src/components/ModelUpload.tsx:43-48 | each validation message differs from the load-failure message (`LoadFailedMessage`, line 63) |
| `ModelUpload.UnsupportedFormatMessage` | src/components/ModelUpload.tsx:42-44 | the format error lists ".glb, .gltf, .obj, .fbx, .stl" |
| `ModelUpload.AcceptedSetMatchesDispatch` | src/components/ModelUpload.tsx:10-16 | an extension is accepted by the validator iff the scene manager has a loader for it |
| `ModelUpload.AcceptedFileIsDispatched` | src/components/ModelUpload.tsx:55-60 | every file that passes validation reaches a loader in `loadModelFromFile` |
| `ModelUpload.SizeCeilingIsInclusive` | src/components/ModelUpload.tsx:46-50 | for any `<stem>.glb`, exactly 50 MiB is accepted and one byte more is rejected as too large |
| `ModelUpload.FormatErrorWinsOverSize` | src/components/ModelUpload.tsx:42-50 | an oversized `<stem>.blend` reports the format error, not the size error |
| `ModelUpload.UpperCaseExtensionAccepted` | src/components/ModelUpload.tsx:41 | any `<stem>.GLB` is accepted because the extension is lowercased |
| `ModelUpload.DotlessNameIsItsOwnExtension` | src/components/ModelUpload.tsx:41 | a dotless name "glb" has extension ".glb" and is accepted |
| `ModelUpload.UploadPanel.constructor` | src/components/ModelUpload.tsx:23-25 | no uploaded file, no error, not loading |
| `ModelUpload.UploadPanel.Close` | src/components/ModelUpload.tsx:27-38 | closing the modal clears the uploaded file, the error and the loading flag |
| `ModelUpload.UploadPanel.ValidateFile` | src/components/ModelUpload.tsx:40-53 | returns `Validate(...) == None`; a success clears the error, a rejection sets the matching message |
| `ModelUpload.UploadPanel.HandleFileSelect` | src/components/ModelUpload.tsx:55-59 | the load is called iff the file is valid; a rejection sets only the error; while the load is in flight, loading is true, the error is cleared and the uploaded file is unchanged |
| `ModelUpload.UploadPanel.SettleLoad` | src/components/ModelUpload.tsx:60-67 | after the await, loading is false; a success records the file name, and a failure sets the load-failed message and keeps the old file |
| `ModelUpload.SelectAndSettle` | src/components/ModelUpload.tsx:55-69 | a selection followed directly by its settled load: the load is called iff the file is valid, loading ends false, and the name is recorded only on success (the failure message otherwise) |
| `ModelUpload.CloseWhileLoading` | src/components/ModelUpload.tsx:27-67 | a modal close during the load clears the panel, yet the settling load still writes the name (success) or the failure message (failure) into it |

## Left out

- The off-axis projection and the calibration store: `src/utils/offAxisCamera.ts` and `src/utils/calibration.ts` are not part of this model. `updateFromHeadPose`, `headPoseToWorldPosition`, `getScreenDimensions` and the calibration update are opaque. Their results enter as parameters, and no frustum formula is stated.
- Three.js and WebGL: the renderer, scene graph membership (`scene.add`/`remove`), lighting, the GLTF/DRACO/OBJ/FBX/STL loaders and their material, texture and normal fix-ups, `Box3` bounds, and the `EdgesGeometry` of the screen frame. The frame is recorded by its width, height and position only. GPU `dispose` calls are summarised by `releasedModels` and `rendererDisposed`. `dispose` frees a mesh's material only when it is a single material, while `loadModelFromFile` also frees material arrays; both are recorded as the same release of the model's id, so the model does not capture this difference; releasing room geometry on rebuild is not tracked.
- Host scheduling: `requestAnimationFrame` and `cancelAnimationFrame` themselves. The caller invokes `Animate` where the browser would fire the callback. Object URLs and console logging are also left out.
- Asynchrony: `loadModelFromFile` is split into its synchronous part and the `onLoad` callback (`OnModelLoaded`). The `onError` path changes no modelled state, so it has no member. `handleFileSelect` is split at its `await` (`HandleFileSelect`, `SettleLoad`). Only one close is shown interleaved with a pending load. Other interleavings, such as two overlapping selections or overlapping scene loads, are not modelled.
- `resize` changes only the camera's aspect ratio and the renderer size, which are not modelled state.
- The constructor's `options.width || container.clientWidth` fallback and its calibration-manager calls are replaced by the screen size the camera reports.
- `ThreeScene.ThreeSceneManager.Animate`: the marker update is stated for debug mode with the two helpers the invariant guarantees. The source's `debugHelpers.length > 1` guard is therefore always true in the model.
- `FileExtension.LowerChar`: `toLowerCase` is modelled for ASCII only. No non-ASCII character lowercases to a letter of a supported extension, so acceptance is unaffected.
- `HeadPoseTracking.HeadPoseTracker.ExtractHeadPoseFromLandmarks`: reasoning is over `real`. `Math.sqrt`, `Math.pow` and IEEE rounding are not modelled; the square root is a parameter.
- Landmarks' `z` and the `SmoothedHeadPose` raw fields are never read by the code and carry no property.
- React plumbing: JSX, drag and drop, input-change handlers, `ACCEPTED_MIME_TYPES` (a file-picker hint), and the rest of `src/App.tsx`, `src/components/ThreeView.tsx` and `src/components/ShoeControlPanel.tsx`.
