/** Loaded 3D models: a vertex list and meshes of faces that index into it,
    and the vertex stream that drawing a model emits. */
module Meshes {
  import opened Common

  /** A polygon as the ordered indices of its corners in the vertex list. */
  type Face = seq<nat>

  /** One mesh of a model: its faces in file order. */
  datatype Mesh = Mesh(faces: seq<Face>)

  /** A loaded model: its vertices and its meshes in file order. */
  datatype Model = Model(vertices: seq<Vec3>, meshes: seq<Mesh>)

  /** Every face index of every mesh names a vertex of the model. */
  predicate WellFormed(m: Model) {
    forall k, f, j :: 0 <= k < |m.meshes| && 0 <= f < |m.meshes[k].faces| && 0 <= j < |m.meshes[k].faces[f]| ==>
      m.meshes[k].faces[f][j] < |m.vertices|
  }

  predicate IndicesIn(face: Face, n: nat) {
    forall j :: 0 <= j < |face| ==> face[j] < n
  }

  predicate FacesIn(faces: seq<Face>, n: nat) {
    forall f :: 0 <= f < |faces| ==> IndicesIn(faces[f], n)
  }

  /** The corners of one face, looked up in the vertex list, in face order. */
  function FaceVertices(vs: seq<Vec3>, face: Face): (r: seq<Vec3>)
    requires IndicesIn(face, |vs|)
    ensures |r| == |face|
    ensures forall j :: 0 <= j < |face| ==> r[j] == vs[face[j]]
  {
    seq(|face|, j requires 0 <= j < |face| => vs[face[j]])
  }

  /** The corners of a run of faces, face after face. */
  function FacesVertices(vs: seq<Vec3>, faces: seq<Face>): seq<Vec3>
    requires FacesIn(faces, |vs|)
  {
    if faces == [] then []
    else FacesVertices(vs, faces[..|faces| - 1]) + FaceVertices(vs, faces[|faces| - 1])
  }

  /** The corners of a run of meshes, mesh after mesh. */
  function MeshesVertices(vs: seq<Vec3>, meshes: seq<Mesh>): seq<Vec3>
    requires forall k :: 0 <= k < |meshes| ==> FacesIn(meshes[k].faces, |vs|)
  {
    if meshes == [] then []
    else MeshesVertices(vs, meshes[..|meshes| - 1]) + FacesVertices(vs, meshes[|meshes| - 1].faces)
  }

  lemma WellFormedMeshes(m: Model)
    requires WellFormed(m)
    ensures forall k :: 0 <= k < |m.meshes| ==> FacesIn(m.meshes[k].faces, |m.vertices|)
  {
  }

  /** The vertices a model is drawn with: over meshes in order, faces in
      order, the vertex of each index of the face. */
  function Emitted(m: Model): seq<Vec3>
    requires WellFormed(m)
  {
    WellFormedMeshes(m);
    MeshesVertices(m.vertices, m.meshes)
  }

  /** The number of face indices of a run of faces. */
  function FacesIndexCount(faces: seq<Face>): nat {
    if faces == [] then 0 else FacesIndexCount(faces[..|faces| - 1]) + |faces[|faces| - 1]|
  }

  /** The number of face indices of a run of meshes. */
  function MeshesIndexCount(meshes: seq<Mesh>): nat {
    if meshes == [] then 0
    else MeshesIndexCount(meshes[..|meshes| - 1]) + FacesIndexCount(meshes[|meshes| - 1].faces)
  }

  lemma {:induction false} FacesVerticesCount(vs: seq<Vec3>, faces: seq<Face>)
    requires FacesIn(faces, |vs|)
    ensures |FacesVertices(vs, faces)| == FacesIndexCount(faces)
  {
    if faces != [] {
      FacesVerticesCount(vs, faces[..|faces| - 1]);
    }
  }

  lemma {:induction false} MeshesVerticesCount(vs: seq<Vec3>, meshes: seq<Mesh>)
    requires forall k :: 0 <= k < |meshes| ==> FacesIn(meshes[k].faces, |vs|)
    ensures |MeshesVertices(vs, meshes)| == MeshesIndexCount(meshes)
  {
    if meshes != [] {
      MeshesVerticesCount(vs, meshes[..|meshes| - 1]);
      FacesVerticesCount(vs, meshes[|meshes| - 1].faces);
    }
  }

  /** Drawing a model emits exactly one vertex per face index. */
  lemma EmittedCount(m: Model)
    requires WellFormed(m)
    ensures |Emitted(m)| == MeshesIndexCount(m.meshes)
  {
    WellFormedMeshes(m);
    MeshesVerticesCount(m.vertices, m.meshes);
  }

  lemma {:induction false} FacesVerticesFromModel(vs: seq<Vec3>, faces: seq<Face>)
    requires FacesIn(faces, |vs|)
    ensures forall v :: v in FacesVertices(vs, faces) ==> v in vs
  {
    if faces != [] {
      FacesVerticesFromModel(vs, faces[..|faces| - 1]);
    }
  }

  lemma {:induction false} MeshesVerticesFromModel(vs: seq<Vec3>, meshes: seq<Mesh>)
    requires forall k :: 0 <= k < |meshes| ==> FacesIn(meshes[k].faces, |vs|)
    ensures forall v :: v in MeshesVertices(vs, meshes) ==> v in vs
  {
    if meshes != [] {
      MeshesVerticesFromModel(vs, meshes[..|meshes| - 1]);
      FacesVerticesFromModel(vs, meshes[|meshes| - 1].faces);
    }
  }

  /** Every emitted vertex is one of the model's own vertices. */
  lemma EmittedFromModel(m: Model)
    requires WellFormed(m)
    ensures forall v :: v in Emitted(m) ==> v in m.vertices
  {
    WellFormedMeshes(m);
    MeshesVerticesFromModel(m.vertices, m.meshes);
  }
}
