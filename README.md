# Face overlay widget, modelled in Dafny

This project models the OpenGL widget of a face-overlay program. On every
timer tick the widget reads a camera frame, mirrors it and runs face-landmark
detection on its RGB conversion. It keeps the frame and the first face's
landmarks. On every repaint it draws the frame as a full-window background
quad under a temporary orthographic projection. It then places the active 3D
model at the nose-tip landmark, moving it from normalised image space into view
space at a fixed depth and scale. A button cycles through the loaded models.

The model has these parts:

- `Video`: camera frames as pixel grids, the horizontal mirror and the
  blue-green-red to red-green-blue conversion.
- `Landmarks`: the detector's result and the choice of its first face. Also
  the anchor map from a landmark to a translation plus a uniform scale.
- `Meshes`: loaded models (vertices, meshes of faces indexing into them) and
  the vertex stream that drawing a model emits.
- `GL`: the OpenGL context the widget draws into. It is a class whose `log`
  field records every call issued. Its fields hold the matrix mode, the
  depths of the projection and modelview stacks and the stack errors raised.
  Those fields are always the replay (`Run`) of the log by `Step`, which
  follows OpenGL's stack rules: a push onto a full stack raises a stack
  overflow, a pop of the base matrix raises a stack underflow, and neither
  changes the depth.
- `Registry`: the configured model files and the cyclic active index.
- `Capture`: one timer tick as a function on the cells shared with the
  paint (frame, landmarks, repaint requests), and runs of ticks.
- `Compositor`: the call sequence each OpenGL callback issues, as
  functions. This module proves the stack discipline and what each paint
  draws.
- `Widget`: the `GLWidget` class itself. Its fields are the models, the
  active index, the frame, the landmarks, the texture and the context. Its
  methods issue their calls one by one into the context, and each is proved to
  issue exactly the `Compositor` sequence for its state.

The long OpenGL methods of the source are split into helper methods along
their natural seams: the upload, the projection save, the view save, the quad,
its corners and the restore; the scene and the anchored model; one loop per
level of the model. The calls they issue and their order are unchanged.

The camera read is a parameter (`None` when the read fails). So are the
detector (a function from frame to detection), the model loader (a function
from file path to model), the texture name OpenGL generates and the context's
stack limits (at least 2 and 32, the minimums OpenGL guarantees).

When the landmark set has fewer than two points, the code fails with an
index error after the scene is drawn and before anything is pushed; the model
returns that outcome (`Compositor.Outcome.IndexError`).

The widget has no texture until OpenGL initialises it (main.py:63). Qt calls
`initializeGL` before any paint, and a paint with a frame before it would fail
on the missing texture (main.py:114). The model records initialisation in a
ghost flag that `InitializeGL` sets and that every paint with a frame
requires.

## Model

| member | source | states |
|---|---|---|
| Video.Mirror | main.py:47 | each row is read right to left: pixel (r, c) of the result is pixel (r, width-1-c) of the input; the dimensions and well-formedness are kept |
| Video.SwapRedBlue | main.py:49 | a pixel's first and third channels are exchanged and its second is kept |
| Video.ToRgb | main.py:49 | every pixel has its first and third channels exchanged and nothing else changes; the dimensions are kept |
| Video.MirrorInvolutive | main.py:47 | mirroring twice gives back the frame the camera delivered |
| Video.ToRgbCommutesWithMirror | main.py:47-49 | converting after mirroring is mirroring after converting |
| Landmarks.FirstFace | main.py:52-55 | a landmark set is kept exactly when the detector returned a non-empty face list, and it is the first face |
| Landmarks.Present | main.py:98 | defines when a paint draws the model: a landmark set is stored and is not empty |
| Landmarks.Anchor | main.py:100-106 | the placement has depth -3 and scale 0.5, and the landmark's x and y are recovered from the translation as x = tx/2 + 0.5 and y = 0.5 - ty/2 |
| Landmarks.ImagePoint | main.py:101-102 | the image point a lateral translation comes from, inverse to the anchor map |
| Landmarks.AnchorBounded | main.py:101-102 | points inside the image are anchored inside the [-1,1] square |
| Landmarks.AnchorMonotone | main.py:101-102 | tx grows strictly with x and ty falls strictly as y grows, in both directions of the iff |
| Landmarks.AnchorCentre | main.py:101-106 | the image centre (0.5, 0.5) is anchored at (0, 0, -3) with scale 0.5 |
| Landmarks.AnchorIgnoresDepth | main.py:101-106 | the landmark's own depth never affects the placement |
| Landmarks.AnchorRoundTrip | main.py:101-105 | image point to translation and translation at depth -3 to image point are both identities |
| Meshes.FaceVertices | main.py:150-152 | one face emits, in order, the vertex its j-th index names |
| Meshes.Emitted | main.py:145-153 | defines the vertex stream of a model: for each mesh in order, for each face in order, the vertex each index names |
| Meshes.FacesVertices | main.py:149-152 | defines the vertex stream of a run of faces: face after face, the vertex each of its indices names, in index order |
| Meshes.MeshesVertices | main.py:147-152 | defines the vertex stream of a run of meshes: mesh after mesh, the stream of its faces |
| Meshes.FacesVerticesCount | main.py:149-152 | a run of faces emits one vertex per face index |
| Meshes.MeshesVerticesCount | main.py:147-152 | a run of meshes emits one vertex per face index |
| Meshes.EmittedCount | main.py:147-152 | drawing a model emits exactly as many vertices as its faces hold indices |
| Meshes.FacesVerticesFromModel | main.py:149-152 | every vertex a run of faces emits is one of the model's vertices |
| Meshes.MeshesVerticesFromModel | main.py:147-152 | every vertex a run of meshes emits is one of the model's vertices |
| Meshes.EmittedFromModel | main.py:147-152 | every vertex drawn for a model is one of its own vertices |
| GL.Step | main.py:120-143 | a mode switch only selects the stack; a push deepens the current stack or records an overflow when it is full; a pop shortens it or records an underflow at the base matrix; a push or pop never changes the other stack's depth; every other call changes nothing; stack limits and validity are kept |
| GL.Run | main.py:83-108 | replaying calls keeps the stack limits and validity, and errors are only ever added |
| GL.RunAppend | main.py:83-108 | replaying two call sequences one after the other is replaying their concatenation |
| GL.RunNeutral | main.py:84-85 | calls that touch neither mode nor stacks leave the context as it was |
| GL.SelectAppend | main.py:83-108 | what a concatenation carries of one kind of call is what each part carries, in order |
| GL.Context.constructor | main.py:22-24 | a fresh context is at rest: modelview mode, both stacks at their base matrix, no error, empty log |
| GL.Context.MatrixMode | main.py:78 | the call is logged and only the mode changes, as `Step` prescribes |
| GL.Context.PushMatrix | main.py:104 | the call is logged and the fields become the `Step` of the old state by a push, both overflow branches included |
| GL.Context.PopMatrix | main.py:108 | the call is logged and the fields become the `Step` of the old state by a pop, both underflow branches included |
| GL.Context.Issue | main.py:84-85 | any call other than a mode switch, push or pop is logged and changes no stack state |
| Registry.Advance | main.py:155-156 | the next index is below the model count: one more than the old index, or 0 after the last model |
| Registry.AdvanceN | main.py:155-156 | after at least one switch the index is in range |
| Registry.AdvanceNTurns | main.py:156 | n switches move the index n steps forward: start plus n equals the new index plus whole turns of the registry |
| Registry.AdvanceNIsShift | main.py:156 | n switches from a valid index land on (index + n) mod count |
| Registry.ShiftReturnsIff | main.py:156 | shifting a valid index by n returns to it exactly when n is a multiple of the count |
| Registry.CycleReturnsIff | main.py:155-156 | n switches return to the starting model exactly when n is a multiple of the number of models |
| Registry.SingleModelFixed | main.py:155-156 | with one model, no number of switches changes the active model |
| Registry.TwoModelsWrap | main.py:12 | with the two configured models, starting at 0, one switch gives 1 and a second wraps back to 0 |
| Capture.Tick | main.py:43-57 | a failed read changes nothing; a successful one stores the mirrored frame, the first face detected in its RGB conversion (or none) and one more repaint request |
| Capture.NoStaleState | main.py:47-55 | after a successful read the frame and landmarks do not depend on the state before it |
| Capture.NoFaceClearsLandmarks | main.py:52-55 | a read with no face found clears the landmarks |
| Capture.FailedReadsChangeNothing | main.py:44-46 | any run of failed reads leaves the shared state unchanged |
| Capture.RedrawsCountReads | main.py:44-57 | a run of ticks requests exactly one repaint per successful read |
| Capture.LastReadWins | main.py:43-57 | after a run of ticks the frame and landmarks are those of the last successful read, whatever came before it and whatever failed reads follow |
| Compositor.Aspect | main.py:80 | width over height (r * h = w) when the height is not 0, otherwise 1, so no division by zero; positive for a positive window |
| Compositor.ResizeKeepsStacks | main.py:76-81 | a resize leaves both stack depths and the errors as they were and ends in modelview mode |
| Compositor.InitializeCalls | main.py:60-62 | defines the initialisation: enable the depth test, enable 2D texturing, clear to opaque black |
| Compositor.QuadCorners | main.py:129-138 | the four corners are the window's corners counter-clockwise from the bottom left, with s * w = vx and t * h = h - vy for each |
| Compositor.QuadTexCoordsNormalised | main.py:130-137 | for a non-empty frame each corner has s = vx/w and t = 1 - vy/h |
| Compositor.CornerCalls | main.py:130-137 | each corner becomes a texture coordinate and a 2D vertex, two calls per corner and no other kind of call |
| Compositor.CornerCallsLayout | main.py:130-137 | corner k becomes calls 2k and 2k+1: the texture coordinate (s, t) of that corner, then its 2D vertex (vx, vy) |
| Compositor.QuadCornerCalls | main.py:129-137 | the corner calls of the background quad are, in order, texture (0,1) at (0,0), (1,1) at (w,0), (1,0) at (w,h) and (0,0) at (0,h) |
| Compositor.QuadCalls | main.py:129-138 | defines the background quad: begin a quad, the corner calls of the four window corners, end |
| Compositor.ResizeCalls | main.py:77-81 | defines a resize: the viewport to the window, the projection stack selected and reset, the perspective with the guarded aspect, and back to modelview |
| Compositor.UploadCalls | main.py:114-118 | defines the upload: bind the widget's texture, load the frame into it, set linear minification and magnification |
| Compositor.EnterOrtho | main.py:120-123 | defines the projection save: select the projection stack, push, reset, and an orthographic box of the window in pixels |
| Compositor.EnterView | main.py:125-127 | defines the modelview save: select the modelview stack, push, reset |
| Compositor.LeaveOrtho | main.py:140-143 | defines the restore: pop the modelview matrix, select the projection stack, pop it, back to modelview |
| Compositor.BackgroundCalls | main.py:111-143 | defines the background pass as the upload, the projection save, the modelview save, the quad and the restore, in that order |
| Compositor.SaveMatrix | main.py:120-127 | selecting a stack and pushing, followed by calls that touch no stack, leaves that stack one deeper and that mode selected |
| Compositor.RestoreMatrices | main.py:140-143 | the closing calls pop one matrix off each stack and end in modelview mode |
| Compositor.OpenBackground | main.py:114-127 | the upload and both saves leave one more matrix on each stack and modelview selected |
| Compositor.BackgroundBalanced | main.py:111-143 | with room for one saved matrix on each stack, the background pass leaves both depths and the errors as it found them and ends in modelview mode |
| Compositor.FaceCalls | main.py:149-152 | one face issues only 3D vertices, one per index |
| Compositor.FacesCalls | main.py:149-152 | a run of faces issues only 3D vertices |
| Compositor.MeshCalls | main.py:148-153 | a mesh issues only triangle begins, ends and 3D vertices |
| Compositor.MeshesCalls | main.py:147-153 | a run of meshes issues only triangle begins, ends and 3D vertices |
| Compositor.ModelCalls | main.py:145-153 | a model issues only the white colour, triangle begins, ends and 3D vertices |
| Compositor.FaceCallsVertices | main.py:150-152 | the 3D vertices a face issues are its emitted vertices |
| Compositor.FacesCallsVertices | main.py:149-152 | the 3D vertices a run of faces issues are their emitted vertices |
| Compositor.MeshCallsVertices | main.py:148-153 | the 3D vertices a mesh issues are those of its faces, in order |
| Compositor.MeshesCallsVertices | main.py:147-153 | the 3D vertices a run of meshes issues are their emitted vertices |
| Compositor.ModelCallsVertices | main.py:145-153 | the 3D vertices drawn for a model are exactly its emitted vertex stream |
| Compositor.DrawsModel | main.py:98-100 | defines when a paint reaches the model: landmarks are present and the nose landmark, index 1, exists |
| Compositor.SceneCalls | main.py:84-92 | defines the scene: clear, reset the matrix, the background pass only when there is a frame, then the fixed camera |
| Compositor.ForegroundCalls | main.py:104-108 | defines the foreground pass: push, translate to the nose's anchor, scale uniformly by its factor, the model's calls, pop |
| Compositor.Paint | main.py:83-108 | when the model is not drawn a paint issues the scene calls alone; a paint ends in an index error exactly when landmarks are present but do not hold the nose landmark; every paint starts with the scene calls |
| Compositor.ForegroundBalanced | main.py:104-108 | with room on the current stack, the foreground pass leaves the context exactly as it found it |
| Compositor.SceneBalanced | main.py:84-92 | with room on each stack, the scene leaves both depths and the errors unchanged and ends in modelview mode when it drew a background |
| Compositor.PaintBalanced | main.py:83-108 | with room on each stack, every paint, including one that ends in an index error, leaves both depths and the errors as it found them |
| Compositor.SceneSelections | main.py:84-92 | the scene uploads the frame once when there is one and nothing otherwise, and issues no 3D vertex and no translation |
| Compositor.BackgroundSelections | main.py:111-143 | the background pass uploads exactly its frame and issues no 3D vertex and no translation |
| Compositor.UploadSelections | main.py:114-118 | the upload calls carry the frame once and nothing else |
| Compositor.BackgroundTail | main.py:120-143 | after the upload, the background pass uploads nothing, issues no 3D vertex and does not translate |
| Compositor.ForegroundSelect | main.py:104-108 | what the foreground pass carries of any kind that push and pop lack is what its transform carries followed by what the model carries |
| Compositor.ForegroundUploadsNothing | main.py:104-108 | the foreground pass uploads no texture |
| Compositor.ForegroundVertices | main.py:104-108 | the foreground pass issues exactly the model's emitted vertex stream |
| Compositor.ForegroundTranslation | main.py:104-106 | the foreground pass translates once, to the anchor of the nose landmark |
| Compositor.PaintDrawsBackgroundIff | main.py:88-89 | a paint uploads the current frame exactly once when there is a frame and uploads nothing otherwise |
| Compositor.PaintDrawsModelIff | main.py:98-108 | a paint issues the active model's vertex stream once exactly when the landmarks are present and hold the nose landmark, and no 3D vertex otherwise |
| Compositor.PaintPlacesAtNose | main.py:98-105 | a paint translates once, to the anchor of the nose landmark, exactly when it draws the model, and never otherwise |
| Widget.GLWidget.constructor | main.py:23-30 | a new widget has the configured models loaded in order, index 0, no frame, no landmarks, no repaint request, no texture yet (not initialised), and an invariant that holds |
| Widget.GLWidget.LoadModels | main.py:36-40 | the registry holds, in order, the model loaded from each configured path |
| Widget.GLWidget.ChangeModel | main.py:155-156 | the active index advances cyclically and the widget invariant (index in range) is kept |
| Widget.GLWidget.UpdateFrame | main.py:43-57 | the shared cells become `Capture.Tick` of the old cells for this read and detector, and the stored frame stays well-formed |
| Widget.GLWidget.InitializeGL | main.py:59-63 | depth test and texturing are enabled, the clear colour is black, the texture name is kept, the widget is marked initialised, and the context stays at rest |
| Widget.GLWidget.ResizeGL | main.py:76-81 | the resize calls are issued and the context stays at rest |
| Widget.GLWidget.DrawBackground | main.py:111-143 | on an initialised widget, the background calls are issued; with room on each stack the context ends as it began, in modelview mode |
| Widget.GLWidget.UploadFrame | main.py:114-118 | on an initialised widget, the upload calls are issued and no stack state changes |
| Widget.GLWidget.EnterPixelSpace | main.py:120-127 | both saves are issued; with room, one more matrix is on each stack and modelview is selected |
| Widget.GLWidget.SaveProjection | main.py:120-123 | the projection save is issued; with room, the projection stack is one deeper and selected |
| Widget.GLWidget.SaveView | main.py:125-127 | the modelview save is issued; with room, the modelview stack is one deeper and selected |
| Widget.GLWidget.DrawQuad | main.py:129-138 | the quad and its four corners are issued and no stack state changes |
| Widget.GLWidget.DrawCorner | main.py:130-131 | one corner's texture coordinate and vertex are issued and no stack state changes |
| Widget.GLWidget.LeavePixelSpace | main.py:140-143 | the restore is issued; from modelview with a saved matrix on each stack, one matrix comes off each |
| Widget.GLWidget.DrawModel | main.py:145-153 | the model's calls are issued, mesh after mesh, and no stack state changes |
| Widget.GLWidget.DrawMesh | main.py:148-153 | one run of triangles is issued, face after face, and no stack state changes |
| Widget.GLWidget.DrawFace | main.py:149-152 | the face's vertices are issued in index order and no stack state changes |
| Widget.GLWidget.PaintGL | main.py:83-108 | a paint, on a widget that is initialised whenever it holds a frame, issues exactly `Compositor.Paint` for the current frame, landmarks and active model, reports its outcome, and leaves the context at rest |
| Widget.GLWidget.DrawScene | main.py:84-92 | on a widget that is initialised whenever it holds a frame, the scene calls are issued and the context is at rest again afterwards |
| Widget.GLWidget.DrawAnchored | main.py:104-108 | the foreground calls are issued; with room on the current stack the context ends as it began |

## Left out

- The Qt window, its button, the timer that drives the ticks and the close event (main.py:32-34, 164-186) are event-loop plumbing. A tick is `UpdateFrame` and a repaint is `PaintGL`. Ticks and repaints come in any order; a repaint with a frame comes after `InitializeGL`, as Qt guarantees.
- The repaint request is a counter (`redraws`). When Qt runs the paint is not modelled.
- `close` (main.py:159-162) only releases the camera and the texture. That is I/O, and it has no guard against a second call.
- The `print` calls (main.py:41, 157) are output only.
- The camera device is a parameter: the frame a read returned, or none. The mirror and the colour conversion are modelled on pixel grids.
- The face detector and its configuration (main.py:14-20) are a function parameter. Its internals are not modelled.
- Loading OBJ files (main.py:39) is a function parameter. A file that fails to load is not modelled.
- Widget.GLWidget.constructor: requires every face index of every loaded model to name a vertex. The model therefore does not capture the index error a malformed file would raise while drawing.
- Floating point: landmark, aspect and quad arithmetic is over reals. Single-precision rounding and the float result of Python's `/` are not modelled.
- OpenGL itself is not modelled: rasterisation, matrix values, texture contents and formats. Errors other than stack overflow and underflow are left out, as are the begin/end pairing rules. So is texture name generation: the name is a parameter of `InitializeGL`.
- Widget.GLWidget.UpdateFrame: requires a read frame to be well-formed (every row as wide as the frame), as a camera frame always is. The widget invariant keeps the stored frame well-formed. `Capture.Tick` itself accepts any frame.
- The background texture is uploaded from the camera's blue-green-red bytes but labelled RGB (main.py:115), so the displayed background has red and blue exchanged. The model keeps the uploaded frame as it is and does not model displayed colour.
- Widget.GLWidget.DrawBackground: its final state is stated only when each stack has room for one more matrix. With a full stack, OpenGL's resulting state is the replay of the log by `GL.Step`, which the log equation already fixes.
- Widget.GLWidget.DrawAnchored: its final state is stated only when the current stack has room for one more matrix, for the same reason.
- test.py, a camera and display loop with text drawing, is not part of this model.
