/** The OpenGL widget that overlays the active model on the mirrored camera
    picture: its fields, the tick that refreshes the frame and landmarks,
    the model switch, and the OpenGL callbacks, each issuing its calls into
    the widget's context. */
module Widget {
  import opened Common
  import opened Video
  import opened Landmarks
  import opened Meshes
  import opened GL
  import opened Registry
  import Capture
  import opened Compositor

  // Sequence associativity, stated once for the widget's proofs: each
  // method extends the log in steps and its contract names the whole suffix.

  lemma ConcatThree<T>(a: seq<T>, b: seq<T>, c: seq<T>)
    ensures a + b + c == a + (b + c)
  {
  }

  lemma ConcatFour<T>(a: seq<T>, b: seq<T>, c: seq<T>, d: seq<T>)
    ensures a + b + c + d == a + (b + c + d)
  {
  }

  lemma ConcatFive<T>(a: seq<T>, b: seq<T>, c: seq<T>, d: seq<T>, e: seq<T>)
    ensures a + b + c + d + e == a + (b + c + d + e)
  {
  }

  class GLWidget {
    var models: seq<Model>
    var modelIndex: nat
    var frame: Option<Frame>
    var landmarks: Option<seq<Landmark>>
    /** Repaints requested so far. */
    var redraws: nat
    /** The reusable background texture, named when the context is
        initialised. The widget has no texture before that; the field then
        holds a placeholder that no call may read. */
    var texture: nat
    /** Whether the context has been initialised and `texture` named. */
    ghost var initialised: bool
    const gl: Context

    /** The cells a tick writes and a paint reads. */
    function Cells(): Capture.Shared
      reads this
    {
      Capture.Shared(frame, landmarks, redraws)
    }

    /** One model per configured file, each with in-range face indices; the
        active index names one of them; the stored frame has the dimensions
        it declares; the context is between callbacks. */
    ghost predicate Valid()
      reads this, gl
    {
      |models| == |OBJ_MODELS| && modelIndex < |models| &&
      (forall k :: 0 <= k < |models| ==> WellFormed(models[k])) &&
      (frame.Some? ==> frame.value.Valid()) &&
      gl.Valid() && AtRest(gl.State())
    }

    /** A new widget: the configured models loaded in order, the first one
        active, no frame and no landmarks yet. */
    constructor (load: string -> Model, context: Context)
      requires forall k :: 0 <= k < |OBJ_MODELS| ==> WellFormed(load(OBJ_MODELS[k]))
      requires context.Valid() && AtRest(context.State())
      ensures Valid() && gl == context
      ensures |models| == |OBJ_MODELS| && forall k :: 0 <= k < |models| ==> models[k] == load(OBJ_MODELS[k])
      ensures modelIndex == INITIAL_INDEX && Cells() == Capture.INITIAL && !initialised
    {
      modelIndex := INITIAL_INDEX;
      models := [];
      landmarks := None;
      frame := None;
      redraws := 0;
      texture := 0;
      initialised := false;
      gl := context;
      new;
      LoadModels(load);
    }

    /** Replaces the registry with the configured files, loaded in order. */
    method LoadModels(load: string -> Model)
      modifies this`models
      ensures |models| == |OBJ_MODELS| && forall k :: 0 <= k < |models| ==> models[k] == load(OBJ_MODELS[k])
    {
      models := [];
      for i := 0 to |OBJ_MODELS|
        invariant |models| == i && forall k :: 0 <= k < i ==> models[k] == load(OBJ_MODELS[k])
      {
        models := models + [load(OBJ_MODELS[i])];
      }
    }

    /** The "switch model" button: the next model becomes active, wrapping
        after the last. */
    method ChangeModel()
      requires Valid()
      modifies this`modelIndex
      ensures Valid() && modelIndex == Advance(old(modelIndex), |models|)
    {
      modelIndex := (modelIndex + 1) % |models|;
    }

    /** One timer tick: `read` is what the capture device delivered (none
        when the read failed) and `detect` the landmark detector. */
    method UpdateFrame(read: Option<Frame>, detect: Frame -> Detection)
      requires Valid() && (read.Some? ==> read.value.Valid())
      modifies this`frame, this`landmarks, this`redraws
      ensures Valid() && Cells() == Capture.Tick(old(Cells()), Capture.TickInput(read, detect))
    {
      if read.None? {
        return;
      }
      var mirrored := Mirror(read.value);
      frame := Some(mirrored);
      var results := detect(ToRgb(mirrored));
      if results.Some? && |results.value| > 0 {
        landmarks := Some(results.value[0]);
      } else {
        landmarks := None;
      }
      redraws := redraws + 1;
    }

    /** Context set-up: depth test and texturing on, black clear colour, and
        `handle`, the texture name OpenGL generated, kept for the
        background. */
    method InitializeGL(handle: nat)
      requires Valid()
      modifies this`texture, this`initialised, gl
      ensures Valid() && texture == handle && initialised
      ensures gl.log == old(gl.log) + InitializeCalls()
    {
      gl.Issue(Enable(DepthTest));
      gl.Issue(Enable(Texture2D));
      gl.Issue(ClearColor(0.0, 0.0, 0.0, 1.0));
      texture := handle;
      initialised := true;
    }

    /** The window was resized to `w` by `h`: new viewport and perspective. */
    method ResizeGL(w: int, h: int)
      requires Valid()
      modifies gl
      ensures Valid() && gl.log == old(gl.log) + ResizeCalls(w, h)
    {
      ghost var before := gl.log;
      gl.Issue(Viewport(0, 0, w, h));
      gl.MatrixMode(Projection);
      gl.Issue(LoadIdentity);
      gl.Issue(Perspective(FIELD_OF_VIEW, Aspect(w, h), Z_NEAR, Z_FAR));
      gl.MatrixMode(ModelView);
      assert gl.log == before + ResizeCalls(w, h);
    }

    /** Draws the frame as a full-window textured quad under a temporary
        orthographic projection. */
    method DrawBackground(f: Frame)
      requires gl.Valid() && initialised
      modifies gl
      ensures gl.Valid() && gl.log == old(gl.log) + BackgroundCalls(texture, f)
      ensures old(gl.State()).HasRoom() ==> gl.State() == old(gl.State()).(mode := ModelView)
    {
      ghost var before := gl.log;
      UploadFrame(f);
      EnterPixelSpace(f.width, f.height);
      DrawQuad(f.width, f.height);
      LeavePixelSpace();
      ConcatThree(UploadCalls(texture, f), EnterOrtho(f.width, f.height), EnterView());
      ConcatFive(before, UploadCalls(texture, f), EnterOrtho(f.width, f.height) + EnterView(),
                 QuadCalls(f.width, f.height), LeaveOrtho());
    }

    /** Saves both matrices and replaces them with an orthographic view of a
        `w` by `h` window in pixels. */
    method EnterPixelSpace(w: nat, h: nat)
      requires gl.Valid()
      modifies gl
      ensures gl.Valid() && gl.log == old(gl.log) + (EnterOrtho(w, h) + EnterView())
      ensures old(gl.State()).HasRoom() ==>
        gl.State() == old(gl.State()).(mode := ModelView,
                                       projectionDepth := old(gl.projectionDepth) + 1,
                                       modelviewDepth := old(gl.modelviewDepth) + 1)
    {
      SaveProjection(w, h);
      SaveView();
    }

    /** Saves the projection matrix and makes it an orthographic view of a
        `w` by `h` window in pixels. */
    method SaveProjection(w: nat, h: nat)
      requires gl.Valid()
      modifies gl
      ensures gl.Valid() && gl.log == old(gl.log) + EnterOrtho(w, h)
      ensures old(gl.projectionDepth) < gl.maxProjectionDepth ==>
        gl.State() == old(gl.State()).(mode := Projection, projectionDepth := old(gl.projectionDepth) + 1)
    {
      gl.MatrixMode(Projection);
      gl.PushMatrix();
      gl.Issue(LoadIdentity);
      gl.Issue(Ortho(0.0, w as real, 0.0, h as real, -1.0, 1.0));
    }

    /** Saves the modelview matrix and resets it. */
    method SaveView()
      requires gl.Valid()
      modifies gl
      ensures gl.Valid() && gl.log == old(gl.log) + EnterView()
      ensures old(gl.modelviewDepth) < gl.maxModelViewDepth ==>
        gl.State() == old(gl.State()).(mode := ModelView, modelviewDepth := old(gl.modelviewDepth) + 1)
    {
      gl.MatrixMode(ModelView);
      gl.PushMatrix();
      gl.Issue(LoadIdentity);
    }

    /** Restores both matrices and returns to modelview mode. */
    method LeavePixelSpace()
      requires gl.Valid()
      modifies gl
      ensures gl.Valid() && gl.log == old(gl.log) + LeaveOrtho()
      ensures old(gl.mode) == ModelView && old(gl.projectionDepth) > 1 && old(gl.modelviewDepth) > 1 ==>
        gl.State() == old(gl.State()).(projectionDepth := old(gl.projectionDepth) - 1,
                                       modelviewDepth := old(gl.modelviewDepth) - 1)
    {
      gl.PopMatrix();
      gl.MatrixMode(Projection);
      gl.PopMatrix();
      gl.MatrixMode(ModelView);
    }

    /** Uploads the frame into the reusable texture, with linear filtering. */
    method UploadFrame(f: Frame)
      requires gl.Valid() && initialised
      modifies gl
      ensures gl.Valid() && gl.log == old(gl.log) + UploadCalls(texture, f)
      ensures gl.State() == old(gl.State())
    {
      gl.Issue(BindTexture(texture));
      gl.Issue(TexImage(f));
      gl.Issue(TexParameter(MinFilter));
      gl.Issue(TexParameter(MagFilter));
    }

    /** The quad covering a `w` by `h` window, texture flipped vertically. */
    method DrawQuad(width: nat, height: nat)
      requires gl.Valid()
      modifies gl
      ensures gl.Valid() && gl.log == old(gl.log) + QuadCalls(width, height)
      ensures gl.State() == old(gl.State())
    {
      var w, h := width as real, height as real;
      ghost var start := gl.log;
      gl.Issue(Begin(Quads));
      ghost var begun := gl.log;
      DrawCorner(0.0, 1.0, 0.0, 0.0);
      DrawCorner(1.0, 1.0, w, 0.0);
      DrawCorner(1.0, 0.0, w, h);
      DrawCorner(0.0, 0.0, 0.0, h);
      QuadCornerCalls(width, height);
      ConcatFive(begun, [TexCoord(0.0, 1.0), Vertex2(0.0, 0.0)], [TexCoord(1.0, 1.0), Vertex2(w, 0.0)],
                 [TexCoord(1.0, 0.0), Vertex2(w, h)], [TexCoord(0.0, 0.0), Vertex2(0.0, h)]);
      gl.Issue(End);
      ConcatFour(start, [Begin(Quads)], CornerCalls(QuadCorners(width, height)), [End]);
    }

    /** One corner of the quad: its texture coordinate, then its vertex. */
    method DrawCorner(s: real, t: real, vx: real, vy: real)
      requires gl.Valid()
      modifies gl
      ensures gl.Valid() && gl.log == old(gl.log) + [TexCoord(s, t), Vertex2(vx, vy)]
      ensures gl.State() == old(gl.State())
    {
      gl.Issue(TexCoord(s, t));
      gl.Issue(Vertex2(vx, vy));
    }

    /** Draws a model in flat white: each mesh as one run of triangles,
        each face as its corners in order. */
    method DrawModel(model: Model)
      requires gl.Valid() && WellFormed(model)
      modifies gl
      ensures gl.Valid() && gl.log == old(gl.log) + ModelCalls(model)
      ensures gl.State() == old(gl.State())
    {
      WellFormedMeshes(model);
      gl.Issue(Color(MODEL_COLOUR));
      ghost var base := gl.log;
      var k := 0;
      while k < |model.meshes|
        invariant 0 <= k <= |model.meshes|
        invariant gl.Valid() && gl.State() == old(gl.State())
        invariant gl.log == base + MeshesCalls(model.vertices, model.meshes[..k])
      {
        DrawMesh(model.vertices, model.meshes[k]);
        assert model.meshes[..k + 1][..k] == model.meshes[..k];
        ConcatThree(base, MeshesCalls(model.vertices, model.meshes[..k]), MeshCalls(model.vertices, model.meshes[k]));
        k := k + 1;
      }
      assert model.meshes[..k] == model.meshes;
      ConcatThree(old(gl.log), [Color(MODEL_COLOUR)], MeshesCalls(model.vertices, model.meshes));
    }

    /** One mesh of a model, as a run of triangles. */
    method DrawMesh(vs: seq<Vec3>, mesh: Mesh)
      requires gl.Valid() && FacesIn(mesh.faces, |vs|)
      modifies gl
      ensures gl.Valid() && gl.log == old(gl.log) + MeshCalls(vs, mesh)
      ensures gl.State() == old(gl.State())
    {
      gl.Issue(Begin(Triangles));
      ghost var base := gl.log;
      var f := 0;
      while f < |mesh.faces|
        invariant 0 <= f <= |mesh.faces|
        invariant gl.Valid() && gl.State() == old(gl.State())
        invariant gl.log == base + FacesCalls(vs, mesh.faces[..f])
      {
        DrawFace(vs, mesh.faces[f]);
        assert mesh.faces[..f + 1][..f] == mesh.faces[..f];
        ConcatThree(base, FacesCalls(vs, mesh.faces[..f]), FaceCalls(vs, mesh.faces[f]));
        f := f + 1;
      }
      assert mesh.faces[..f] == mesh.faces;
      gl.Issue(End);
      ConcatFour(old(gl.log), [Begin(Triangles)], FacesCalls(vs, mesh.faces), [End]);
    }

    /** One face: the vertex of each of its indices, in order. */
    method DrawFace(vs: seq<Vec3>, face: Face)
      requires gl.Valid() && IndicesIn(face, |vs|)
      modifies gl
      ensures gl.Valid() && gl.log == old(gl.log) + FaceCalls(vs, face)
      ensures gl.State() == old(gl.State())
    {
      ghost var base := gl.log;
      var j := 0;
      while j < |face|
        invariant 0 <= j <= |face|
        invariant gl.Valid() && gl.State() == old(gl.State())
        invariant gl.log == base + FaceCalls(vs, face[..j])
      {
        var vertex := vs[face[j]];
        gl.Issue(Vertex3(vertex));
        assert FaceCalls(vs, face[..j + 1]) == FaceCalls(vs, face[..j]) + [Vertex3(vertex)];
        ConcatThree(base, FaceCalls(vs, face[..j]), [Vertex3(vertex)]);
        j := j + 1;
      }
      assert face[..j] == face;
    }

    /** Repaints the widget: clear, background when there is a frame, the
        fixed camera, then the active model at the nose anchor when there
        are landmarks. A landmark set too short to hold the nose point ends
        the paint with an index error before anything is pushed. */
    method PaintGL() returns (outcome: Outcome)
      requires Valid() && (frame.Some? ==> initialised)
      modifies gl
      ensures Valid()
      ensures var p := Paint(texture, frame, landmarks, models[modelIndex]);
        gl.log == old(gl.log) + p.calls && outcome == p.outcome
    {
      ghost var p := Paint(texture, frame, landmarks, models[modelIndex]);
      ghost var before := gl.log;
      DrawScene();
      ghost var scene := gl.log;
      assert scene == before + SceneCalls(texture, frame);
      if Present(landmarks) {
        if |landmarks.value| <= NOSE_INDEX {
          assert p == Painting(SceneCalls(texture, frame), IndexError);
          return IndexError;
        }
        DrawAnchored(landmarks.value[NOSE_INDEX], models[modelIndex]);
        assert p.calls == SceneCalls(texture, frame) + ForegroundCalls(landmarks.value[NOSE_INDEX], models[modelIndex]);
        ConcatThree(before, SceneCalls(texture, frame), ForegroundCalls(landmarks.value[NOSE_INDEX], models[modelIndex]));
      } else {
        assert p == Painting(SceneCalls(texture, frame), Completed);
      }
      return Completed;
    }

    /** The part of a paint before the model: clear, reset the matrix, the
        background when there is a frame, and the fixed camera. */
    method DrawScene()
      requires gl.Valid() && AtRest(gl.State()) && (frame.Some? ==> initialised)
      modifies gl
      ensures gl.Valid() && AtRest(gl.State())
      ensures gl.log == old(gl.log) + SceneCalls(texture, frame)
    {
      gl.Issue(Clear);
      gl.Issue(LoadIdentity);
      ghost var cleared := gl.log;
      ghost var background := if frame.Some? then BackgroundCalls(texture, frame.value) else [];
      if frame.Some? {
        DrawBackground(frame.value);
      }
      assert gl.log == cleared + background;
      gl.Issue(LookAt(EYE, CENTRE, UP));
      assert cleared == old(gl.log) + [Clear, LoadIdentity];
      ConcatFour(old(gl.log), [Clear, LoadIdentity], background, [LookAt(EYE, CENTRE, UP)]);
    }

    /** The foreground pass: the model drawn at the anchor of `nose`, its
        transform saved before and restored after. */
    method DrawAnchored(nose: Landmark, model: Model)
      requires gl.Valid() && WellFormed(model)
      modifies gl
      ensures gl.Valid() && gl.log == old(gl.log) + ForegroundCalls(nose, model)
      ensures old(gl.State()).Depth(old(gl.mode)) < old(gl.State()).MaxDepth(old(gl.mode)) ==>
        gl.State() == old(gl.State())
    {
      var placement := Anchor(nose);
      ghost var transform := [Translate(placement.translation), Scale(Vec3(placement.scale, placement.scale, placement.scale))];
      gl.PushMatrix();
      ghost var pushed := gl.log;
      gl.Issue(Translate(placement.translation));
      gl.Issue(Scale(Vec3(placement.scale, placement.scale, placement.scale)));
      ConcatThree(pushed, [Translate(placement.translation)], [Scale(Vec3(placement.scale, placement.scale, placement.scale))]);
      DrawModel(model);
      ConcatThree(pushed, transform, ModelCalls(model));
      gl.PopMatrix();
      ConcatFour(old(gl.log), [PushMatrix], transform + ModelCalls(model), [PopMatrix]);
    }
  }
}
