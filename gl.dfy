/** The fixed-function OpenGL state the overlay relies on, as a log of the
    calls issued and an abstract machine replaying them: the current matrix
    mode, the depths of the projection and modelview matrix stacks and the
    errors raised. Rasterisation itself is not modelled. */
module GL {
  import opened Common
  import Video

  datatype MatrixMode = Projection | ModelView

  datatype Primitive = Quads | Triangles

  datatype Capability = DepthTest | Texture2D

  /** The texture filters the background sets (both to linear filtering). */
  datatype TexFilter = MinFilter | MagFilter

  /** The errors a matrix stack raises: a push onto a full stack, a pop
      from a stack holding only its base matrix. */
  datatype GLError = StackOverflow | StackUnderflow

  /** One call issued to OpenGL or GLU. */
  datatype Call =
    | Enable(capability: Capability)
    | ClearColor(r: real, g: real, b: real, a: real)
    | Clear
    | Viewport(x: int, y: int, w: int, h: int)
    | SetMatrixMode(mode: MatrixMode)
    | LoadIdentity
    | PushMatrix
    | PopMatrix
    | Perspective(fovy: real, aspect: real, zNear: real, zFar: real)
    | Ortho(left: real, right: real, bottom: real, top: real, zNear: real, zFar: real)
    | LookAt(eye: Vec3, centre: Vec3, up: Vec3)
    | Translate(offset: Vec3)
    | Scale(factor: Vec3)
    | Color(rgb: Vec3)
    | BindTexture(texture: nat)
    | TexImage(image: Video.Frame)
    | TexParameter(filter: TexFilter)
    | Begin(primitive: Primitive)
    | End
    | TexCoord(s: real, t: real)
    | Vertex2(vx: real, vy: real)
    | Vertex3(position: Vec3)
  {
    /** A call that leaves the matrix mode and both stack depths alone. */
    predicate Neutral() {
      !(SetMatrixMode? || PushMatrix? || PopMatrix?)
    }
  }

  /** The stack discipline of a context. Depths count the matrices on each
      stack, the base matrix included, so a fresh stack has depth 1. */
  datatype Machine = Machine(
    mode: MatrixMode,
    projectionDepth: nat,
    modelviewDepth: nat,
    maxProjectionDepth: nat,
    maxModelViewDepth: nat,
    errors: seq<GLError>)
  {
    predicate Valid() {
      1 <= projectionDepth <= maxProjectionDepth && 1 <= modelviewDepth <= maxModelViewDepth
    }

    function Depth(which: MatrixMode): nat {
      if which == Projection then projectionDepth else modelviewDepth
    }

    function MaxDepth(which: MatrixMode): nat {
      if which == Projection then maxProjectionDepth else maxModelViewDepth
    }

    function WithDepth(which: MatrixMode, d: nat): Machine {
      if which == Projection then this.(projectionDepth := d) else this.(modelviewDepth := d)
    }

    /** Room for one more push on each stack. */
    predicate HasRoom() {
      projectionDepth < maxProjectionDepth && modelviewDepth < maxModelViewDepth
    }
  }

  /** The effect of one call: a mode switch selects the stack later calls
      act on; a push deepens the current stack unless it is full, a pop
      shortens it unless only the base matrix is left, and each refused
      operation records its error instead. */
  function Step(m: Machine, c: Call): (r: Machine)
    ensures r.maxProjectionDepth == m.maxProjectionDepth && r.maxModelViewDepth == m.maxModelViewDepth
    ensures m.Valid() ==> r.Valid()
    ensures c.Neutral() ==> r == m
    ensures c.PushMatrix? ==>
      r.mode == m.mode &&
      if m.Depth(m.mode) < m.MaxDepth(m.mode)
      then r.Depth(m.mode) == m.Depth(m.mode) + 1 && r.errors == m.errors
      else r.Depth(m.mode) == m.Depth(m.mode) && r.errors == m.errors + [StackOverflow]
    ensures c.PopMatrix? ==>
      r.mode == m.mode &&
      if m.Depth(m.mode) > 1
      then r.Depth(m.mode) == m.Depth(m.mode) - 1 && r.errors == m.errors
      else r.Depth(m.mode) == m.Depth(m.mode) && r.errors == m.errors + [StackUnderflow]
    ensures c.PushMatrix? || c.PopMatrix? ==>
      (m.mode == Projection ==> r.modelviewDepth == m.modelviewDepth) &&
      (m.mode == ModelView ==> r.projectionDepth == m.projectionDepth)
    ensures !c.SetMatrixMode? ==> r.mode == m.mode
    ensures c.SetMatrixMode? ==> r == m.(mode := c.mode)
  {
    if c.SetMatrixMode? then m.(mode := c.mode)
    else if c.PushMatrix? then
      if m.Depth(m.mode) < m.MaxDepth(m.mode) then m.WithDepth(m.mode, m.Depth(m.mode) + 1)
      else m.(errors := m.errors + [StackOverflow])
    else if c.PopMatrix? then
      if m.Depth(m.mode) > 1 then m.WithDepth(m.mode, m.Depth(m.mode) - 1)
      else m.(errors := m.errors + [StackUnderflow])
    else m
  }

  /** The machine after a sequence of calls, issued first to last. Errors
      are only ever added, never forgotten. */
  function Run(m: Machine, cs: seq<Call>): (r: Machine)
    ensures r.maxProjectionDepth == m.maxProjectionDepth && r.maxModelViewDepth == m.maxModelViewDepth
    ensures m.Valid() ==> r.Valid()
    ensures m.errors <= r.errors
    decreases cs
  {
    if cs == [] then m else Run(Step(m, cs[0]), cs[1..])
  }

  /** Replaying a log in two parts is replaying it whole. */
  lemma {:induction false} RunAppend(m: Machine, a: seq<Call>, b: seq<Call>)
    ensures Run(m, a + b) == Run(Run(m, a), b)
    decreases a
  {
    if a == [] {
      assert a + b == b;
    } else {
      assert (a + b)[0] == a[0] && (a + b)[1..] == a[1..] + b;
      RunAppend(Step(m, a[0]), a[1..], b);
    }
  }

  /** One more call at the end of a log is one more step. */
  lemma RunSnoc(m: Machine, cs: seq<Call>, c: Call)
    ensures Run(m, cs + [c]) == Step(Run(m, cs), c)
  {
    RunAppend(m, cs, [c]);
    assert Run(Run(m, cs), [c]) == Run(Step(Run(m, cs), c), []);
  }

  /** Calls that touch neither the mode nor a stack leave the machine as it
      was. */
  lemma {:induction false} RunNeutral(m: Machine, cs: seq<Call>)
    requires forall c :: c in cs ==> c.Neutral()
    ensures Run(m, cs) == m
    decreases cs
  {
    if cs != [] {
      assert cs[0] in cs;
      RunNeutral(m, cs[1..]);
    }
  }

  /** The payloads that `pick` extracts from a log, in order: the images
      uploaded, the 3D vertices emitted, the translations applied, ... */
  function Select<T>(cs: seq<Call>, pick: Call -> Option<T>): (r: seq<T>)
    ensures |r| <= |cs|
  {
    if cs == [] then []
    else
      var rest := Select(cs[1..], pick);
      match pick(cs[0])
      case Some(x) => [x] + rest
      case None => rest
  }

  lemma {:induction false} SelectAppend<T>(a: seq<Call>, b: seq<Call>, pick: Call -> Option<T>)
    ensures Select(a + b, pick) == Select(a, pick) + Select(b, pick)
  {
    if a == [] {
      assert a + b == b;
    } else {
      assert (a + b)[0] == a[0] && (a + b)[1..] == a[1..] + b;
      SelectAppend(a[1..], b, pick);
    }
  }

  /** A log none of whose calls carries a payload selects nothing. */
  lemma {:induction false} SelectNothing<T>(cs: seq<Call>, pick: Call -> Option<T>)
    requires forall c :: c in cs ==> pick(c).None?
    ensures Select(cs, pick) == []
  {
    if cs != [] {
      assert cs[0] in cs;
      SelectNothing(cs[1..], pick);
    }
  }

  function UploadOf(c: Call): Option<Video.Frame> {
    if c.TexImage? then Some(c.image) else None
  }

  function VertexOf(c: Call): Option<Vec3> {
    if c.Vertex3? then Some(c.position) else None
  }

  function TranslationOf(c: Call): Option<Vec3> {
    if c.Translate? then Some(c.offset) else None
  }

  /** The machine state of a context in which the widget is between two
      callbacks: modelview mode, both stacks at their base matrix, no error. */
  predicate AtRest(m: Machine) {
    m.mode == ModelView && m.projectionDepth == 1 && m.modelviewDepth == 1 && m.errors == []
  }

  /** An OpenGL context: the current mode, the two stack depths, the limits
      the implementation sets for them (at least 2 and 32, the minimums
      OpenGL guarantees), the errors raised and the log of every call
      issued. The ghost `origin` is the state the context started in, so
      that the fields are always the replay of the log. */
  class Context {
    var mode: MatrixMode
    var projectionDepth: nat
    var modelviewDepth: nat
    const maxProjectionDepth: nat
    const maxModelViewDepth: nat
    var errors: seq<GLError>
    var log: seq<Call>
    ghost const origin: Machine

    function State(): Machine
      reads this
    {
      Machine(mode, projectionDepth, modelviewDepth, maxProjectionDepth, maxModelViewDepth, errors)
    }

    ghost predicate Valid()
      reads this
    {
      State().Valid() && 2 <= maxProjectionDepth && 32 <= maxModelViewDepth &&
      State() == Run(origin, log)
    }

    constructor (maxProjection: nat, maxModelView: nat)
      requires 2 <= maxProjection && 32 <= maxModelView
      ensures Valid() && AtRest(State()) && log == []
      ensures maxProjectionDepth == maxProjection && maxModelViewDepth == maxModelView
    {
      mode := ModelView;
      projectionDepth, modelviewDepth := 1, 1;
      maxProjectionDepth, maxModelViewDepth := maxProjection, maxModelView;
      errors := [];
      log := [];
      origin := Machine(ModelView, 1, 1, maxProjection, maxModelView, []);
    }

    /** glMatrixMode. */
    method MatrixMode(which: MatrixMode)
      requires Valid()
      modifies this
      ensures Valid() && log == old(log) + [SetMatrixMode(which)]
      ensures State() == old(State()).(mode := which)
    {
      RunSnoc(origin, log, SetMatrixMode(which));
      mode := which;
      log := log + [SetMatrixMode(which)];
    }

    /** glPushMatrix on the current stack. */
    method PushMatrix()
      requires Valid()
      modifies this
      ensures Valid() && log == old(log) + [Call.PushMatrix]
      ensures State() == Step(old(State()), Call.PushMatrix)
    {
      RunSnoc(origin, log, Call.PushMatrix);
      if mode == Projection {
        if projectionDepth < maxProjectionDepth {
          projectionDepth := projectionDepth + 1;
        } else {
          errors := errors + [StackOverflow];
        }
      } else {
        if modelviewDepth < maxModelViewDepth {
          modelviewDepth := modelviewDepth + 1;
        } else {
          errors := errors + [StackOverflow];
        }
      }
      log := log + [Call.PushMatrix];
    }

    /** glPopMatrix on the current stack. */
    method PopMatrix()
      requires Valid()
      modifies this
      ensures Valid() && log == old(log) + [Call.PopMatrix]
      ensures State() == Step(old(State()), Call.PopMatrix)
    {
      RunSnoc(origin, log, Call.PopMatrix);
      if mode == Projection {
        if projectionDepth > 1 {
          projectionDepth := projectionDepth - 1;
        } else {
          errors := errors + [StackUnderflow];
        }
      } else {
        if modelviewDepth > 1 {
          modelviewDepth := modelviewDepth - 1;
        } else {
          errors := errors + [StackUnderflow];
        }
      }
      log := log + [Call.PopMatrix];
    }

    /** Any other call: it is logged and leaves the stacks alone. */
    method Issue(c: Call)
      requires Valid() && c.Neutral()
      modifies this
      ensures Valid() && log == old(log) + [c]
      ensures State() == old(State())
    {
      RunSnoc(origin, log, c);
      log := log + [c];
    }
  }
}
