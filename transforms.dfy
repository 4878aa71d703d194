/**
  Conversion of the game engine's transforms (right-handed, Y up, -Z
  forward) into the audio SDK's left-handed, Y-up convention.  A rotation
  is represented only by the two vectors the conversion reads from it,
  `forward()` and `up()`.
*/
module Transforms {
  import opened Types

  /** A local transform: translation and the rotation's forward and up vectors. */
  datatype Transform = Transform(translation: Vec3, forward: Vec3, up: Vec3)

  /** A global transform, read the same way by the conversion. */
  datatype GlobalTransform = GlobalTransform(translation: Vec3, forward: Vec3, up: Vec3)

  /** The identity transform: at the origin, facing -Z with +Y up. */
  const IDENTITY: Transform := Transform(Vec3(0.0, 0.0, 0.0), Vec3(0.0, 0.0, -1.0), Vec3(0.0, 1.0, 0.0))
  const GLOBAL_IDENTITY: GlobalTransform := GlobalTransform(Vec3(0.0, 0.0, 0.0), Vec3(0.0, 0.0, -1.0), Vec3(0.0, 1.0, 0.0))

  /** Negating the z component: the mirror from one handedness to the other. */
  function MirrorZ(v: Vec3): (r: Vec3)
    ensures r.x == v.x && r.y == v.y && r.z == -v.z
  {
    Vec3(v.x, v.y, -v.z)
  }

  /** The mirror keeps every dot product, so it keeps lengths and right angles. */
  lemma MirrorKeepsDot(a: Vec3, b: Vec3)
    ensures Dot(MirrorZ(a), MirrorZ(b)) == Dot(a, b)
  {
  }

  /** The conversion as the source writes it: position and front mirrored,
      top copied unchanged. */
  function ToAkTransformAsWritten(translation: Vec3, forward: Vec3, up: Vec3): (r: AkTransform)
    ensures r.position.x == translation.x && r.position.y == translation.y
    ensures r.position.z == -translation.z
    ensures r.orientationFront.x == forward.x && r.orientationFront.y == forward.y
    ensures r.orientationFront.z == -forward.z
    ensures r.orientationTop == up
  {
    var pos := MirrorZ(translation);
    var front := MirrorZ(forward);
    AkTransform(pos, front, up)
  }

  /** As written, the converted front and top have the dot product of the
      original vectors less twice the product of their z components. */
  lemma AsWrittenSkewsFrame(translation: Vec3, forward: Vec3, up: Vec3)
    ensures var r := ToAkTransformAsWritten(translation, forward, up);
            Dot(r.orientationFront, r.orientationTop) == Dot(forward, up) - 2.0 * forward.z * up.z
  {
  }

  /** So a frame pitched away from the horizontal loses its right angle:
      forward (0, 3, -4) and up (0, 4, 3) are orthogonal, yet the converted
      front and top have dot product 24 (24/25 for the unit vectors of the
      same directions). */
  lemma AsWrittenBreaksOrthogonality()
    ensures var forward, up := Vec3(0.0, 3.0, -4.0), Vec3(0.0, 4.0, 3.0);
            var r := ToAkTransformAsWritten(Vec3(0.0, 0.0, 0.0), forward, up);
            Dot(forward, up) == 0.0 && Dot(r.orientationFront, r.orientationTop) == 24.0
  {
    PitchedFrameOrthogonal();
    PitchedFrameAsWritten();
    PitchedFrameSkewed();
  }

  lemma PitchedFrameOrthogonal()
    ensures Dot(Vec3(0.0, 3.0, -4.0), Vec3(0.0, 4.0, 3.0)) == 0.0
  {
  }

  lemma PitchedFrameAsWritten()
    ensures ToAkTransformAsWritten(Vec3(0.0, 0.0, 0.0), Vec3(0.0, 3.0, -4.0), Vec3(0.0, 4.0, 3.0))
            == AkTransform(Vec3(0.0, 0.0, 0.0), Vec3(0.0, 3.0, 4.0), Vec3(0.0, 4.0, 3.0))
  {
  }

  lemma PitchedFrameSkewed()
    ensures Dot(Vec3(0.0, 3.0, 4.0), Vec3(0.0, 4.0, 3.0)) == 24.0
  {
  }

  /** The conversion evidently intended: the whole frame mirrored, top
      included.  The rest of the model sends the conversion as written. */
  function ToAkTransform(translation: Vec3, forward: Vec3, up: Vec3): (r: AkTransform)
    ensures r.position == MirrorZ(translation)
    ensures r.orientationFront == MirrorZ(forward)
    ensures r.orientationTop == MirrorZ(up)
  {
    AkTransform(MirrorZ(translation), MirrorZ(forward), MirrorZ(up))
  }

  /** The corrected conversion keeps the frame: lengths of both vectors and
      the angle between them. */
  lemma ToAkKeepsFrame(translation: Vec3, forward: Vec3, up: Vec3)
    ensures var r := ToAkTransform(translation, forward, up);
            && Dot(r.orientationFront, r.orientationTop) == Dot(forward, up)
            && Dot(r.orientationFront, r.orientationFront) == Dot(forward, forward)
            && Dot(r.orientationTop, r.orientationTop) == Dot(up, up)
  {
    MirrorKeepsDot(forward, up);
    MirrorKeepsDot(forward, forward);
    MirrorKeepsDot(up, up);
  }

  /** Both conversions agree exactly when the up vector is horizontal. */
  lemma ConversionsAgreeIffLevel(translation: Vec3, forward: Vec3, up: Vec3)
    ensures ToAkTransform(translation, forward, up) == ToAkTransformAsWritten(translation, forward, up)
            <==> up.z == 0.0
  {
    if up.z == 0.0 {
      assert MirrorZ(up) == up;
    } else {
      assert MirrorZ(up).z != up.z;
    }
  }

  /** The inverse of the conversion as written: position and front mirrored
      back, top kept as it is. */
  function FromAkTransform(a: AkTransform): (t: Transform)
    ensures ToAkTransformAsWritten(t.translation, t.forward, t.up) == a
  {
    Transform(MirrorZ(a.position), MirrorZ(a.orientationFront), a.orientationTop)
  }

  /** `to_ak_transform` for `Transform`, as the macro generates it. */
  function LocalToAk(t: Transform): AkTransform {
    ToAkTransformAsWritten(t.translation, t.forward, t.up)
  }

  /** `to_ak_transform` for `GlobalTransform`: the same macro body. */
  function GlobalToAk(g: GlobalTransform): AkTransform {
    ToAkTransformAsWritten(g.translation, g.forward, g.up)
  }

  /** Converting there and back gives the transform itself: the conversion
      as written loses nothing. */
  lemma RoundTrip(t: Transform)
    ensures FromAkTransform(LocalToAk(t)) == t
  {
    assert MirrorZ(MirrorZ(t.translation)) == t.translation;
    assert MirrorZ(MirrorZ(t.forward)) == t.forward;
  }

  /** Both transform types convert the same way, and that way is the
      conversion as written. */
  lemma SameConversion(t: Transform)
    ensures GlobalToAk(GlobalTransform(t.translation, t.forward, t.up)) == LocalToAk(t)
            == ToAkTransformAsWritten(t.translation, t.forward, t.up)
  {
  }

  /** An unrotated object faces +Z with +Y up in the SDK's convention. */
  lemma IdentityFacesPositiveZ()
    ensures LocalToAk(IDENTITY) == AkTransform(Vec3(0.0, 0.0, 0.0), Vec3(0.0, 0.0, 1.0), Vec3(0.0, 1.0, 0.0))
  {
  }
}
