/** Face landmarks as the detector reports them, the choice of the anchoring
    point and the affine map from normalised image coordinates to the
    translation and scale of the overlaid model. */
module Landmarks {
  import opened Common

  /** A detected point: `x` and `y` normalised to the image, `z` a relative
      depth whose scale the detector defines. */
  datatype Landmark = Landmark(x: real, y: real, z: real)

  /** What one detection returns: no result list at all, or a list of faces
      (possibly empty), each an ordered landmark set. */
  type Detection = Option<seq<seq<Landmark>>>

  /** The landmark index of the nose tip, the anchoring point. */
  const NOSE_INDEX: nat := 1

  /** The fixed depth at which the model is drawn, in front of the camera. */
  const ANCHOR_DEPTH: real := -3.0

  /** The fixed uniform scale applied to the model. */
  const ANCHOR_SCALE: real := 0.5

  /** A translation plus a uniform scale. */
  datatype Placement = Placement(translation: Vec3, scale: real)

  /** The landmark set kept after one detection: the first face when the
      result list exists and is non-empty, otherwise none. Later faces are
      ignored. */
  function FirstFace(d: Detection): (lm: Option<seq<Landmark>>)
    ensures lm.Some? <==> d.Some? && |d.value| > 0
    ensures lm.Some? ==> lm.value == d.value[0]
  {
    match d
    case None => None
    case Some(faces) => if |faces| > 0 then Some(faces[0]) else None
  }

  /** Python truthiness of the stored landmark set: present and non-empty. */
  predicate Present(lm: Option<seq<Landmark>>) {
    lm.Some? && |lm.value| > 0
  }

  /** The placement of the model for one nose landmark: `x` and `y` are
      moved from [0,1] image space to [-1,1] view space (with `y` flipped, as
      image rows grow downwards); depth and scale are constants, so the
      landmark's own depth is ignored. */
  function Anchor(nose: Landmark): (p: Placement)
    ensures p.translation.z == ANCHOR_DEPTH && p.scale == ANCHOR_SCALE
    ensures nose.x == (p.translation.x / 2.0) + 0.5
    ensures nose.y == 0.5 - (p.translation.y / 2.0)
  {
    Placement(Vec3((nose.x - 0.5) * 2.0, -(nose.y - 0.5) * 2.0, ANCHOR_DEPTH), ANCHOR_SCALE)
  }

  /** The image point a view-space translation comes from: the inverse of
      the lateral part of `Anchor`. */
  function ImagePoint(t: Vec3): (xy: (real, real))
    ensures t.x == (xy.0 - 0.5) * 2.0 && t.y == -(xy.1 - 0.5) * 2.0
  {
    (t.x / 2.0 + 0.5, 0.5 - t.y / 2.0)
  }

  /** Every point inside the image is anchored inside the [-1,1] square. */
  lemma AnchorBounded(nose: Landmark)
    requires 0.0 <= nose.x <= 1.0 && 0.0 <= nose.y <= 1.0
    ensures -1.0 <= Anchor(nose).translation.x <= 1.0
    ensures -1.0 <= Anchor(nose).translation.y <= 1.0
  {
  }

  /** The horizontal translation grows with `x`; the vertical one shrinks
      as `y` grows (image rows run downwards, view space runs up). */
  lemma AnchorMonotone(a: Landmark, b: Landmark)
    ensures a.x < b.x <==> Anchor(a).translation.x < Anchor(b).translation.x
    ensures a.y < b.y <==> Anchor(a).translation.y > Anchor(b).translation.y
  {
  }

  /** The image centre is anchored on the view axis, at the fixed depth. */
  lemma AnchorCentre(z: real)
    ensures Anchor(Landmark(0.5, 0.5, z)) == Placement(Vec3(0.0, 0.0, ANCHOR_DEPTH), ANCHOR_SCALE)
  {
  }

  /** Two landmarks at the same image position get the same placement,
      whatever depth the detector reported. */
  lemma AnchorIgnoresDepth(a: Landmark, b: Landmark)
    requires a.x == b.x && a.y == b.y
    ensures Anchor(a) == Anchor(b)
  {
  }

  /** The anchor map is a bijection between image points and lateral
      translations at the fixed depth: both round trips are the identity. */
  lemma AnchorRoundTrip(nose: Landmark, t: Vec3)
    ensures ImagePoint(Anchor(nose).translation) == (nose.x, nose.y)
    ensures t.z == ANCHOR_DEPTH ==>
      var xy := ImagePoint(t); Anchor(Landmark(xy.0, xy.1, nose.z)).translation == t
  {
  }
}
