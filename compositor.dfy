/** The draw-time side of the widget as the sequences of OpenGL calls each
    callback issues: the projection set on resize, the video background
    quad, the anchored model, and the whole paint, with the stack
    discipline and the draw decisions proved of them. */
module Compositor {
  import opened Common
  import opened Video
  import opened Landmarks
  import opened Meshes
  import opened GL

  /** The vertical field of view and clip planes of the perspective. */
  const FIELD_OF_VIEW: real := 45.0
  const Z_NEAR: real := 0.1
  const Z_FAR: real := 100.0

  /** The fixed virtual camera: at z = 5 looking at the origin, y up. */
  const EYE: Vec3 := Vec3(0.0, 0.0, 5.0)
  const CENTRE: Vec3 := Vec3(0.0, 0.0, 0.0)
  const UP: Vec3 := Vec3(0.0, 1.0, 0.0)

  /** The flat colour of the model: white. */
  const MODEL_COLOUR: Vec3 := Vec3(1.0, 1.0, 1.0)

  /** The aspect ratio handed to the perspective: width over height, and 1
      for a zero-height window, so there is never a division by zero. */
  function Aspect(w: int, h: int): (r: real)
    ensures h != 0 ==> r * (h as real) == w as real
    ensures h == 0 ==> r == 1.0
    ensures w > 0 && h > 0 ==> r > 0.0
  {
    if h != 0 then (w as real) / (h as real) else 1.0
  }

  /** The calls issued on a resize to `w` by `h`. */
  function ResizeCalls(w: int, h: int): seq<Call> {
    [Viewport(0, 0, w, h), SetMatrixMode(Projection), LoadIdentity,
     Perspective(FIELD_OF_VIEW, Aspect(w, h), Z_NEAR, Z_FAR), SetMatrixMode(ModelView)]
  }

  /** A resize replaces the projection without touching either stack's
      depth and leaves the context in modelview mode. */
  lemma ResizeKeepsStacks(m: Machine, w: int, h: int)
    ensures Run(m, ResizeCalls(w, h)) == m.(mode := ModelView)
  {
    var p := m.(mode := Projection);
    var cs := ResizeCalls(w, h);
    assert Run(m, cs) == Run(p, cs[2..]);
    assert Run(p, cs[2..]) == Run(p, cs[4..]);
    assert Run(p, cs[4..]) == Run(m.(mode := ModelView), []);
  }

  /** The calls issued when the context is first set up. */
  function InitializeCalls(): seq<Call> {
    [Enable(DepthTest), Enable(Texture2D), ClearColor(0.0, 0.0, 0.0, 1.0)]
  }

  /** One corner of the background quad: its texture coordinates and its
      position in window pixels. */
  datatype Corner = Corner(s: real, t: real, vx: real, vy: real)

  /** The four corners of the full-window background quad, counter-
      clockwise from the bottom left. The texture is sampled upside down:
      image row 0 is the top of the camera picture and window row 0 the
      bottom of the window. */
  function QuadCorners(w: nat, h: nat): (q: seq<Corner>)
    ensures |q| == 4
    ensures forall k :: 0 <= k < |q| ==>
      q[k].s * (w as real) == q[k].vx && q[k].t * (h as real) == (h as real) - q[k].vy
    ensures [(q[0].vx, q[0].vy), (q[1].vx, q[1].vy), (q[2].vx, q[2].vy), (q[3].vx, q[3].vy)]
         == [(0.0, 0.0), (w as real, 0.0), (w as real, h as real), (0.0, h as real)]
  {
    var wr, hr := w as real, h as real;
    [Corner(0.0, 1.0, 0.0, 0.0), Corner(1.0, 1.0, wr, 0.0), Corner(1.0, 0.0, wr, hr), Corner(0.0, 0.0, 0.0, hr)]
  }

  /** Each corner as a texture coordinate followed by its 2D vertex. */
  function CornerCalls(q: seq<Corner>): (cs: seq<Call>)
    ensures |cs| == 2 * |q|
    ensures forall c :: c in cs ==> c.TexCoord? || c.Vertex2?
  {
    if q == [] then []
    else [TexCoord(q[0].s, q[0].t), Vertex2(q[0].vx, q[0].vy)] + CornerCalls(q[1..])
  }

  /** Corner `k` becomes calls `2k` and `2k + 1`: its texture coordinate,
      then its vertex, each carrying that corner's values. */
  lemma {:induction false} CornerCallsLayout(q: seq<Corner>)
    ensures forall k :: 0 <= k < |q| ==>
      CornerCalls(q)[2 * k] == TexCoord(q[k].s, q[k].t) && CornerCalls(q)[2 * k + 1] == Vertex2(q[k].vx, q[k].vy)
  {
    if q != [] {
      CornerCallsLayout(q[1..]);
      var head, rest := [TexCoord(q[0].s, q[0].t), Vertex2(q[0].vx, q[0].vy)], CornerCalls(q[1..]);
      assert CornerCalls(q) == head + rest;
      forall k | 1 <= k < |q|
        ensures CornerCalls(q)[2 * k] == TexCoord(q[k].s, q[k].t)
        ensures CornerCalls(q)[2 * k + 1] == Vertex2(q[k].vx, q[k].vy)
      {
        assert q[1..][k - 1] == q[k];
        assert (head + rest)[2 * k] == rest[2 * (k - 1)];
        assert (head + rest)[2 * k + 1] == rest[2 * (k - 1) + 1];
      }
    }
  }

  /** The corner calls of the background quad, written out. */
  lemma QuadCornerCalls(w: nat, h: nat)
    ensures var wr, hr := w as real, h as real;
      CornerCalls(QuadCorners(w, h))
      == [TexCoord(0.0, 1.0), Vertex2(0.0, 0.0)] + [TexCoord(1.0, 1.0), Vertex2(wr, 0.0)]
       + [TexCoord(1.0, 0.0), Vertex2(wr, hr)] + [TexCoord(0.0, 0.0), Vertex2(0.0, hr)]
  {
    var wr, hr := w as real, h as real;
    var q := QuadCorners(w, h);
    assert CornerCalls(q[3..]) == [TexCoord(0.0, 0.0), Vertex2(0.0, hr)] + CornerCalls([]);
    assert CornerCalls(q[2..]) == [TexCoord(1.0, 0.0), Vertex2(wr, hr)] + CornerCalls(q[3..]);
    assert CornerCalls(q[1..]) == [TexCoord(1.0, 1.0), Vertex2(wr, 0.0)] + CornerCalls(q[2..]);
  }

  /** The calls that upload a frame into the reusable texture. */
  function UploadCalls(texture: nat, f: Frame): seq<Call> {
    [BindTexture(texture), TexImage(f), TexParameter(MinFilter), TexParameter(MagFilter)]
  }

  /** The textured quad itself. */
  function QuadCalls(w: nat, h: nat): seq<Call> {
    [Begin(Quads)] + CornerCalls(QuadCorners(w, h)) + [End]
  }

  /** Switch to the projection stack, save it and replace it with an
      orthographic view of the window in pixels. */
  function EnterOrtho(w: nat, h: nat): seq<Call> {
    [SetMatrixMode(Projection), PushMatrix] + [LoadIdentity, Ortho(0.0, w as real, 0.0, h as real, -1.0, 1.0)]
  }

  /** Switch to the modelview stack, save it and reset it. */
  function EnterView(): seq<Call> {
    [SetMatrixMode(ModelView), PushMatrix] + [LoadIdentity]
  }

  /** Restore the modelview matrix, then the projection matrix, and return
      to modelview mode. */
  function LeaveOrtho(): seq<Call> {
    [PopMatrix, SetMatrixMode(Projection), PopMatrix, SetMatrixMode(ModelView)]
  }

  /** The background pass: upload the frame, draw the quad under a
      temporary orthographic projection and restore both matrices. */
  function BackgroundCalls(texture: nat, f: Frame): seq<Call> {
    UploadCalls(texture, f) + EnterOrtho(f.width, f.height) + EnterView()
    + QuadCalls(f.width, f.height) + LeaveOrtho()
  }

  lemma QuadNeutral(w: nat, h: nat)
    ensures forall c :: c in QuadCalls(w, h) ==> c.Neutral() && !c.TexImage? && !c.Vertex3? && !c.Translate?
  {
  }

  /** Texture coordinates in the form s = vx / w, t = 1 - vy / h, for a
      frame that is not empty. */
  lemma QuadTexCoordsNormalised(w: nat, h: nat)
    requires w > 0 && h > 0
    ensures forall k :: 0 <= k < 4 ==>
      QuadCorners(w, h)[k].s == QuadCorners(w, h)[k].vx / (w as real) &&
      QuadCorners(w, h)[k].t == 1.0 - QuadCorners(w, h)[k].vy / (h as real)
  {
    var wr, hr := w as real, h as real;
    assert wr / wr == 1.0 && hr / hr == 1.0;
  }

  /** Switching to `which` and saving its matrix. */
  lemma SaveMatrix(m: Machine, which: MatrixMode, rest: seq<Call>)
    requires m.Valid() && m.Depth(which) < m.MaxDepth(which)
    requires forall c :: c in rest ==> c.Neutral()
    ensures Run(m, [SetMatrixMode(which), PushMatrix] + rest)
         == m.(mode := which).WithDepth(which, m.Depth(which) + 1)
  {
    var cs := [SetMatrixMode(which), PushMatrix] + rest;
    var m1 := m.(mode := which);
    assert Run(m, cs) == Run(m1, cs[1..]);
    assert cs[1..][1..] == rest;
    assert Run(m1, cs[1..]) == Run(m1.WithDepth(which, m.Depth(which) + 1), rest);
    RunNeutral(m1.WithDepth(which, m.Depth(which) + 1), rest);
  }

  /** The closing calls of the background pass: pop modelview, then pop
      projection, then return to modelview mode. */
  lemma RestoreMatrices(m: Machine)
    requires m.mode == ModelView && m.projectionDepth > 1 && m.modelviewDepth > 1
    ensures Run(m, [PopMatrix, SetMatrixMode(Projection), PopMatrix, SetMatrixMode(ModelView)])
         == m.(projectionDepth := m.projectionDepth - 1, modelviewDepth := m.modelviewDepth - 1)
  {
    var cs := [PopMatrix, SetMatrixMode(Projection), PopMatrix, SetMatrixMode(ModelView)];
    var m1 := m.(modelviewDepth := m.modelviewDepth - 1);
    var m2 := m1.(mode := Projection);
    var m3 := m2.(projectionDepth := m.projectionDepth - 1);
    assert Run(m, cs) == Run(m1, cs[1..]);
    assert Run(m1, cs[1..]) == Run(m2, cs[2..]);
    assert Run(m2, cs[2..]) == Run(m3, cs[3..]);
    assert Run(m3, cs[3..]) == Run(m3.(mode := ModelView), []);
  }

  /** The background pass leaves both stack depths and the error list as
      it found them, provided each stack has room for the one matrix it
      saves, and always ends in modelview mode. */
  lemma BackgroundBalanced(m: Machine, texture: nat, f: Frame)
    requires m.Valid() && m.HasRoom()
    ensures Run(m, BackgroundCalls(texture, f)) == m.(mode := ModelView)
  {
    var m2 := m.(mode := ModelView, projectionDepth := m.projectionDepth + 1, modelviewDepth := m.modelviewDepth + 1);
    var quad := QuadCalls(f.width, f.height);
    var opening := UploadCalls(texture, f) + EnterOrtho(f.width, f.height) + EnterView();
    OpenBackground(m, texture, f);
    QuadNeutral(f.width, f.height);
    RunNeutral(m2, quad);
    Chain(m, opening, m2, quad, m2);
    RestoreMatrices(m2);
    Chain(m, opening + quad, m2, LeaveOrtho(), m.(mode := ModelView));
  }

  /** The calls before the quad leave one more matrix on each stack and
      modelview mode selected. */
  lemma OpenBackground(m: Machine, texture: nat, f: Frame)
    requires m.Valid() && m.HasRoom()
    ensures Run(m, UploadCalls(texture, f) + EnterOrtho(f.width, f.height) + EnterView())
         == m.(mode := ModelView, projectionDepth := m.projectionDepth + 1, modelviewDepth := m.modelviewDepth + 1)
  {
    var up := UploadCalls(texture, f);
    var m1 := m.(mode := Projection, projectionDepth := m.projectionDepth + 1);
    RunNeutral(m, up);
    SaveMatrix(m, Projection, [LoadIdentity, Ortho(0.0, f.width as real, 0.0, f.height as real, -1.0, 1.0)]);
    Chain(m, up, m, EnterOrtho(f.width, f.height), m1);
    SaveMatrix(m1, ModelView, [LoadIdentity]);
    Chain(m, up + EnterOrtho(f.width, f.height), m1, EnterView(),
          m1.(mode := ModelView, modelviewDepth := m.modelviewDepth + 1));
  }

  /** Running two call sequences one after the other, through a known
      intermediate state. */
  lemma Chain(m: Machine, a: seq<Call>, mid: Machine, b: seq<Call>, end: Machine)
    requires Run(m, a) == mid && Run(mid, b) == end
    ensures Run(m, a + b) == end
  {
    RunAppend(m, a, b);
  }

  /** The corners of one face, each emitted as a 3D vertex. */
  function FaceCalls(vs: seq<Vec3>, face: Face): (cs: seq<Call>)
    requires IndicesIn(face, |vs|)
    ensures |cs| == |face|
    ensures forall c :: c in cs ==> c.Vertex3?
  {
    seq(|face|, j requires 0 <= j < |face| => Vertex3(vs[face[j]]))
  }

  /** The faces of one mesh, face after face. */
  function FacesCalls(vs: seq<Vec3>, faces: seq<Face>): (cs: seq<Call>)
    requires FacesIn(faces, |vs|)
    ensures forall c :: c in cs ==> c.Vertex3?
  {
    if faces == [] then []
    else FacesCalls(vs, faces[..|faces| - 1]) + FaceCalls(vs, faces[|faces| - 1])
  }

  /** One mesh as one run of triangles. */
  function MeshCalls(vs: seq<Vec3>, mesh: Mesh): (cs: seq<Call>)
    requires FacesIn(mesh.faces, |vs|)
    ensures forall c :: c in cs ==> c.Vertex3? || c == Begin(Triangles) || c == End
  {
    [Begin(Triangles)] + FacesCalls(vs, mesh.faces) + [End]
  }

  /** The meshes of a model, mesh after mesh. */
  function MeshesCalls(vs: seq<Vec3>, meshes: seq<Mesh>): (cs: seq<Call>)
    requires forall k :: 0 <= k < |meshes| ==> FacesIn(meshes[k].faces, |vs|)
    ensures forall c :: c in cs ==> c.Vertex3? || c == Begin(Triangles) || c == End
  {
    if meshes == [] then []
    else MeshesCalls(vs, meshes[..|meshes| - 1]) + MeshCalls(vs, meshes[|meshes| - 1])
  }

  /** Drawing a model: set the flat white colour, then every mesh. */
  function ModelCalls(m: Model): (cs: seq<Call>)
    requires WellFormed(m)
    ensures forall c :: c in cs ==> c.Vertex3? || c == Begin(Triangles) || c == End || c == Color(MODEL_COLOUR)
  {
    WellFormedMeshes(m);
    [Color(MODEL_COLOUR)] + MeshesCalls(m.vertices, m.meshes)
  }

  lemma {:induction false} FaceCallsVertices(vs: seq<Vec3>, face: Face)
    requires IndicesIn(face, |vs|)
    ensures Select(FaceCalls(vs, face), VertexOf) == FaceVertices(vs, face)
    decreases |face|
  {
    if face != [] {
      var cs := FaceCalls(vs, face);
      assert cs[1..] == FaceCalls(vs, face[1..]);
      FaceCallsVertices(vs, face[1..]);
      assert FaceVertices(vs, face) == [vs[face[0]]] + FaceVertices(vs, face[1..]);
    }
  }

  lemma {:induction false} FacesCallsVertices(vs: seq<Vec3>, faces: seq<Face>)
    requires FacesIn(faces, |vs|)
    ensures Select(FacesCalls(vs, faces), VertexOf) == FacesVertices(vs, faces)
  {
    if faces != [] {
      var init, last := faces[..|faces| - 1], faces[|faces| - 1];
      FacesCallsVertices(vs, init);
      FaceCallsVertices(vs, last);
      SelectAppend(FacesCalls(vs, init), FaceCalls(vs, last), VertexOf);
    }
  }

  lemma {:induction false} MeshesCallsVertices(vs: seq<Vec3>, meshes: seq<Mesh>)
    requires forall k :: 0 <= k < |meshes| ==> FacesIn(meshes[k].faces, |vs|)
    ensures Select(MeshesCalls(vs, meshes), VertexOf) == MeshesVertices(vs, meshes)
  {
    if meshes != [] {
      var init, last := meshes[..|meshes| - 1], meshes[|meshes| - 1];
      MeshesCallsVertices(vs, init);
      MeshCallsVertices(vs, last);
      SelectAppend(MeshesCalls(vs, init), MeshCalls(vs, last), VertexOf);
    }
  }

  lemma MeshCallsVertices(vs: seq<Vec3>, mesh: Mesh)
    requires FacesIn(mesh.faces, |vs|)
    ensures Select(MeshCalls(vs, mesh), VertexOf) == FacesVertices(vs, mesh.faces)
  {
    var fc := FacesCalls(vs, mesh.faces);
    FacesCallsVertices(vs, mesh.faces);
    SelectAppend([Begin(Triangles)] + fc, [End], VertexOf);
    SelectAppend([Begin(Triangles)], fc, VertexOf);
  }

  /** The 3D vertex stream of drawing a model is exactly its emitted
      vertices: over meshes in order, faces in order, one per index. */
  lemma ModelCallsVertices(m: Model)
    requires WellFormed(m)
    ensures Select(ModelCalls(m), VertexOf) == Emitted(m)
  {
    WellFormedMeshes(m);
    MeshesCallsVertices(m.vertices, m.meshes);
    SelectAppend([Color(MODEL_COLOUR)], MeshesCalls(m.vertices, m.meshes), VertexOf);
  }

  /** The outcome of a paint: it completes, or the lookup of the nose
      landmark fails because the landmark set is too short. */
  datatype Outcome = Completed | IndexError

  /** The calls of one paint and how it ended. */
  datatype Painting = Painting(calls: seq<Call>, outcome: Outcome)

  /** The stored landmarks are present and hold the nose landmark, so the
      model is drawn. */
  predicate DrawsModel(landmarks: Option<seq<Landmark>>) {
    Present(landmarks) && |landmarks.value| > NOSE_INDEX
  }

  /** The foreground pass: save the current matrix, move to the anchor,
      scale, draw the model and restore the matrix. */
  function ForegroundCalls(nose: Landmark, m: Model): seq<Call>
    requires WellFormed(m)
  {
    var p := Anchor(nose);
    [PushMatrix] + ([Translate(p.translation), Scale(Vec3(p.scale, p.scale, p.scale))] + ModelCalls(m)) + [PopMatrix]
  }

  /** The part of a paint before the foreground: clear, reset the matrix,
      draw the background when there is a frame, place the camera. */
  function SceneCalls(texture: nat, frame: Option<Frame>): seq<Call> {
    [Clear, LoadIdentity]
    + (if frame.Some? then BackgroundCalls(texture, frame.value) else [])
    + [LookAt(EYE, CENTRE, UP)]
  }

  /** One paint of the widget with the current frame, the current landmark
      set and the active model. */
  function Paint(texture: nat, frame: Option<Frame>, landmarks: Option<seq<Landmark>>, m: Model): (p: Painting)
    requires WellFormed(m)
    ensures p.outcome == IndexError <==> Present(landmarks) && !DrawsModel(landmarks)
    ensures SceneCalls(texture, frame) <= p.calls
    ensures !DrawsModel(landmarks) ==> p.calls == SceneCalls(texture, frame)
  {
    var scene := SceneCalls(texture, frame);
    if !Present(landmarks) then Painting(scene, Completed)
    else if |landmarks.value| <= NOSE_INDEX then Painting(scene, IndexError)
    else Painting(scene + ForegroundCalls(landmarks.value[NOSE_INDEX], m), Completed)
  }

  /** The foreground pass saves and restores one matrix of the current
      stack and changes nothing else, when that stack has room. */
  lemma ForegroundBalanced(m: Machine, nose: Landmark, model: Model)
    requires WellFormed(model)
    requires m.Valid() && m.Depth(m.mode) < m.MaxDepth(m.mode)
    ensures Run(m, ForegroundCalls(nose, model)) == m
  {
    var p := Anchor(nose);
    var body := [Translate(p.translation), Scale(Vec3(p.scale, p.scale, p.scale))] + ModelCalls(model);
    assert ForegroundCalls(nose, model) == [PushMatrix] + body + [PopMatrix];
    var m1 := Step(m, PushMatrix);
    assert m1 == m.WithDepth(m.mode, m.Depth(m.mode) + 1);
    assert Run(m, [PushMatrix]) == m1 by {
      assert Run(m, [PushMatrix]) == Run(m1, []);
    }
    RunNeutral(m1, body);
    Chain(m, [PushMatrix], m1, body, m1);
    assert Run(m1, [PopMatrix]) == m by {
      assert Run(m1, [PopMatrix]) == Run(Step(m1, PopMatrix), []);
      assert Step(m1, PopMatrix) == m1.WithDepth(m.mode, m.Depth(m.mode));
    }
    Chain(m, [PushMatrix] + body, m1, [PopMatrix], m);
  }

  lemma SceneBalanced(m: Machine, texture: nat, frame: Option<Frame>)
    requires m.Valid() && m.HasRoom()
    ensures Run(m, SceneCalls(texture, frame)) == if frame.Some? then m.(mode := ModelView) else m
  {
    var bg := if frame.Some? then BackgroundCalls(texture, frame.value) else [];
    RunAppend(m, [Clear, LoadIdentity] + bg, [LookAt(EYE, CENTRE, UP)]);
    RunAppend(m, [Clear, LoadIdentity], bg);
    RunNeutral(m, [Clear, LoadIdentity]);
    if frame.Some? {
      BackgroundBalanced(m, texture, frame.value);
    }
    RunNeutral(Run(m, [Clear, LoadIdentity] + bg), [LookAt(EYE, CENTRE, UP)]);
  }

  /** Whatever the frame and landmarks, and also when the nose lookup
      fails, a paint leaves both stack depths and the error list as it
      found them, given room for one saved matrix on each stack; it ends in
      modelview mode when it drew a background and in its starting mode
      otherwise. */
  lemma PaintBalanced(m: Machine, texture: nat, frame: Option<Frame>, landmarks: Option<seq<Landmark>>, model: Model)
    requires WellFormed(model)
    requires m.Valid() && m.HasRoom()
    ensures Run(m, Paint(texture, frame, landmarks, model).calls)
         == if frame.Some? then m.(mode := ModelView) else m
  {
    var scene := SceneCalls(texture, frame);
    SceneBalanced(m, texture, frame);
    if DrawsModel(landmarks) {
      var fg := ForegroundCalls(landmarks.value[NOSE_INDEX], model);
      RunAppend(m, scene, fg);
      ForegroundBalanced(Run(m, scene), landmarks.value[NOSE_INDEX], model);
    }
  }

  lemma SceneSelections(texture: nat, frame: Option<Frame>)
    ensures Select(SceneCalls(texture, frame), UploadOf) == if frame.Some? then [frame.value] else []
    ensures Select(SceneCalls(texture, frame), VertexOf) == []
    ensures Select(SceneCalls(texture, frame), TranslationOf) == []
  {
    var bg := if frame.Some? then BackgroundCalls(texture, frame.value) else [];
    var a, c := [Clear, LoadIdentity], [LookAt(EYE, CENTRE, UP)];
    assert SceneCalls(texture, frame) == a + bg + c;
    SceneSelect(bg, UploadOf);
    SceneSelect(bg, VertexOf);
    SceneSelect(bg, TranslationOf);
    if frame.Some? {
      BackgroundSelections(texture, frame.value);
    }
  }

  /** The fixed calls around the background select nothing, so the scene
      selects what its background selects. */
  lemma SceneSelect<T>(bg: seq<Call>, pick: Call -> Option<T>)
    requires pick(Clear).None? && pick(LoadIdentity).None? && pick(LookAt(EYE, CENTRE, UP)).None?
    ensures Select([Clear, LoadIdentity] + bg + [LookAt(EYE, CENTRE, UP)], pick) == Select(bg, pick)
  {
    var a, c := [Clear, LoadIdentity], [LookAt(EYE, CENTRE, UP)];
    SelectAppend(a + bg, c, pick);
    SelectAppend(a, bg, pick);
    SelectNothing(a, pick);
    SelectNothing(c, pick);
  }

  /** The background pass uploads exactly the frame it is given and emits
      no 3D vertex and no translation. */
  lemma BackgroundSelections(texture: nat, f: Frame)
    ensures Select(BackgroundCalls(texture, f), UploadOf) == [f]
    ensures Select(BackgroundCalls(texture, f), VertexOf) == []
    ensures Select(BackgroundCalls(texture, f), TranslationOf) == []
  {
    var up := UploadCalls(texture, f);
    var rest := EnterOrtho(f.width, f.height) + EnterView() + QuadCalls(f.width, f.height) + LeaveOrtho();
    assert BackgroundCalls(texture, f) == up + rest;
    BackgroundTail(f.width, f.height);
    SelectAppend(up, rest, UploadOf);
    SelectAppend(up, rest, VertexOf);
    SelectAppend(up, rest, TranslationOf);
    UploadSelections(texture, f);
  }

  /** The upload calls carry the frame once, and nothing else. */
  lemma UploadSelections(texture: nat, f: Frame)
    ensures Select(UploadCalls(texture, f), UploadOf) == [f]
    ensures Select(UploadCalls(texture, f), VertexOf) == []
    ensures Select(UploadCalls(texture, f), TranslationOf) == []
  {
    var up := UploadCalls(texture, f);
    SelectNothing(up, VertexOf);
    SelectNothing(up, TranslationOf);
    assert Select(up, UploadOf) == Select(up[1..], UploadOf);
    assert Select(up[1..], UploadOf) == [f] + Select(up[2..], UploadOf);
    SelectNothing(up[2..], UploadOf);
  }

  /** After the upload, the background pass neither uploads, nor emits a
      3D vertex, nor translates. */
  lemma BackgroundTail(w: nat, h: nat)
    ensures var rest := EnterOrtho(w, h) + EnterView() + QuadCalls(w, h) + LeaveOrtho();
      Select(rest, UploadOf) == [] && Select(rest, VertexOf) == [] && Select(rest, TranslationOf) == []
  {
    var rest := EnterOrtho(w, h) + EnterView() + QuadCalls(w, h) + LeaveOrtho();
    QuadNeutral(w, h);
    assert forall c :: c in rest ==> !c.TexImage? && !c.Vertex3? && !c.Translate?;
    SelectNothing(rest, UploadOf);
    SelectNothing(rest, VertexOf);
    SelectNothing(rest, TranslationOf);
  }

  lemma ForegroundSelect<T>(nose: Landmark, model: Model, pick: Call -> Option<T>)
    requires WellFormed(model)
    requires pick(PushMatrix).None? && pick(PopMatrix).None?
    ensures var p := Anchor(nose);
      Select(ForegroundCalls(nose, model), pick)
      == Select([Translate(p.translation), Scale(Vec3(p.scale, p.scale, p.scale))], pick) + Select(ModelCalls(model), pick)
  {
    var p := Anchor(nose);
    var mc := ModelCalls(model);
    var ts := [Translate(p.translation), Scale(Vec3(p.scale, p.scale, p.scale))];
    var push, pop := [PushMatrix], [PopMatrix];
    SelectAppend(push + (ts + mc), pop, pick);
    SelectAppend(push, ts + mc, pick);
    SelectAppend(ts, mc, pick);
    SelectNothing(push, pick);
    SelectNothing(pop, pick);
  }

  lemma ForegroundUploadsNothing(nose: Landmark, model: Model)
    requires WellFormed(model)
    ensures Select(ForegroundCalls(nose, model), UploadOf) == []
  {
    var p := Anchor(nose);
    ForegroundSelect(nose, model, UploadOf);
    SelectNothing([Translate(p.translation), Scale(Vec3(p.scale, p.scale, p.scale))], UploadOf);
    SelectNothing(ModelCalls(model), UploadOf);
  }

  lemma ForegroundVertices(nose: Landmark, model: Model)
    requires WellFormed(model)
    ensures Select(ForegroundCalls(nose, model), VertexOf) == Emitted(model)
  {
    var p := Anchor(nose);
    ForegroundSelect(nose, model, VertexOf);
    SelectNothing([Translate(p.translation), Scale(Vec3(p.scale, p.scale, p.scale))], VertexOf);
    ModelCallsVertices(model);
  }

  lemma ForegroundTranslation(nose: Landmark, model: Model)
    requires WellFormed(model)
    ensures Select(ForegroundCalls(nose, model), TranslationOf) == [Anchor(nose).translation]
  {
    var p := Anchor(nose);
    var ts := [Translate(p.translation), Scale(Vec3(p.scale, p.scale, p.scale))];
    ForegroundSelect(nose, model, TranslationOf);
    SelectNothing(ModelCalls(model), TranslationOf);
    assert Select(ts, TranslationOf) == [p.translation] + Select(ts[1..], TranslationOf);
    SelectNothing(ts[1..], TranslationOf);
  }

  /** A paint uploads the current frame exactly once when there is one and
      draws no background otherwise. */
  lemma PaintDrawsBackgroundIff(texture: nat, frame: Option<Frame>, landmarks: Option<seq<Landmark>>, model: Model)
    requires WellFormed(model)
    ensures Select(Paint(texture, frame, landmarks, model).calls, UploadOf)
         == if frame.Some? then [frame.value] else []
  {
    SceneSelections(texture, frame);
    if DrawsModel(landmarks) {
      var nose := landmarks.value[NOSE_INDEX];
      SelectAppend(SceneCalls(texture, frame), ForegroundCalls(nose, model), UploadOf);
      ForegroundUploadsNothing(nose, model);
    }
  }

  /** A paint emits the active model's vertex stream, once, exactly when
      the landmark set is present and holds the nose landmark, and no 3D
      vertex at all otherwise: without landmarks the foreground pass is
      skipped entirely. */
  lemma PaintDrawsModelIff(texture: nat, frame: Option<Frame>, landmarks: Option<seq<Landmark>>, model: Model)
    requires WellFormed(model)
    ensures Select(Paint(texture, frame, landmarks, model).calls, VertexOf)
         == if DrawsModel(landmarks) then Emitted(model) else []
  {
    SceneSelections(texture, frame);
    if DrawsModel(landmarks) {
      var nose := landmarks.value[NOSE_INDEX];
      SelectAppend(SceneCalls(texture, frame), ForegroundCalls(nose, model), VertexOf);
      ForegroundVertices(nose, model);
    }
  }

  /** The model is placed at the anchor of the current nose landmark and
      nowhere else: one translation per drawn model, none otherwise. */
  lemma PaintPlacesAtNose(texture: nat, frame: Option<Frame>, landmarks: Option<seq<Landmark>>, model: Model)
    requires WellFormed(model)
    ensures Select(Paint(texture, frame, landmarks, model).calls, TranslationOf)
         == if DrawsModel(landmarks) then [Anchor(landmarks.value[NOSE_INDEX]).translation] else []
  {
    SceneSelections(texture, frame);
    if DrawsModel(landmarks) {
      var nose := landmarks.value[NOSE_INDEX];
      SelectAppend(SceneCalls(texture, frame), ForegroundCalls(nose, model), TranslationOf);
      ForegroundTranslation(nose, model);
    }
  }
}
