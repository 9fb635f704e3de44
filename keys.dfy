/** The classification constants of the camera library (`CameraFace`,
    `CameraSizeFor`, `CameraType`) and the composite cache keys that
    `ConfigurationProvider` builds from them with Java's bitwise OR.

    The numeric values of the constants are not part of this model: every
    statement below holds for any choice of them, and the statements that need
    the three axes to occupy disjoint bits say so with `DisjointAxes`. */
module CameraKeys {

  /** A Java `int`. Keys are built with `|` on 32-bit two's complement values,
      which is bitwise OR on `bv32`. */
  type JInt = bv32

  /** The values of the seven annotation constants. */
  datatype KeyConstants = KeyConstants(
    faceFront: JInt, faceRear: JInt,
    sizeForPicture: JInt, sizeForPreview: JInt, sizeForVideo: JInt,
    typeCamera1: JInt, typeCamera2: JInt)

  /** The three `CameraSizeFor` values are the case labels of one Java `switch`,
      which the Java compiler only accepts when they are pairwise distinct. The
      witness is one admissible layout, not a claim about the library's values. */
  type Constants = c: KeyConstants
    | c.sizeForPicture != c.sizeForPreview
      && c.sizeForPicture != c.sizeForVideo
      && c.sizeForPreview != c.sizeForVideo
    witness KeyConstants(0x0, 0x1, 0x10, 0x20, 0x40, 0x100, 0x200)

  predicate IsFace(c: Constants, face: JInt) {
    face == c.faceFront || face == c.faceRear
  }

  predicate IsSizeFor(c: Constants, sizeFor: JInt) {
    sizeFor == c.sizeForPicture || sizeFor == c.sizeForPreview || sizeFor == c.sizeForVideo
  }

  predicate IsCameraType(c: Constants, cameraType: JInt) {
    cameraType == c.typeCamera1 || cameraType == c.typeCamera2
  }

  /** `x` and `y` have no bit in common. */
  predicate Apart(x: JInt, y: JInt) {
    x & y == 0
  }

  /** The assumption the key scheme rests on: no constant of one axis shares a
      bit with a constant of another axis. */
  ghost predicate DisjointAxes(c: Constants) {
    && (forall face, sizeFor :: IsFace(c, face) && IsSizeFor(c, sizeFor) ==> Apart(face, sizeFor))
    && (forall face, cameraType :: IsFace(c, face) && IsCameraType(c, cameraType) ==> Apart(face, cameraType))
    && (forall sizeFor, cameraType :: IsSizeFor(c, sizeFor) && IsCameraType(c, cameraType) ==> Apart(sizeFor, cameraType))
  }

  /** The `int` under which a `SparseArray` cache stores an entry. */
  datatype Key = Key(hash: JInt)

  /** The key of a size query: `cameraFace | sizeFor | cameraType`. */
  function SizesKey(face: JInt, sizeFor: JInt, cameraType: JInt): (k: Key) {
    Key(face | sizeFor | cameraType)
  }

  /** The key of a zoom-ratio query: `cameraFace | TYPE_CAMERA1`. */
  function ZoomKey(c: Constants, face: JInt): (k: Key)
    // every bit of the face and of `TYPE_CAMERA1` is set in the key
    ensures k.hash & face == face && k.hash & c.typeCamera1 == c.typeCamera1
  {
    Key(face | c.typeCamera1)
  }

  lemma FaceApartSizeFor(c: Constants, face: JInt, sizeFor: JInt)
    requires DisjointAxes(c) && IsFace(c, face) && IsSizeFor(c, sizeFor)
    ensures Apart(face, sizeFor)
  {
  }

  lemma FaceApartType(c: Constants, face: JInt, cameraType: JInt)
    requires DisjointAxes(c) && IsFace(c, face) && IsCameraType(c, cameraType)
    ensures Apart(face, cameraType)
  {
  }

  lemma SizeForApartType(c: Constants, sizeFor: JInt, cameraType: JInt)
    requires DisjointAxes(c) && IsSizeFor(c, sizeFor) && IsCameraType(c, cameraType)
    ensures Apart(sizeFor, cameraType)
  {
  }

  /** If two ORs of three parts are equal and each part of one is apart from
      the other two parts of the other, the corresponding parts are equal. */
  lemma SameFirst(x1: JInt, y1: JInt, z1: JInt, x2: JInt, y2: JInt, z2: JInt)
    requires x1 | y1 | z1 == x2 | y2 | z2
    requires Apart(x1, y2) && Apart(x1, z2) && Apart(x2, y1) && Apart(x2, z1)
    ensures x1 == x2
  {
  }

  lemma SameSecond(x1: JInt, y1: JInt, z1: JInt, x2: JInt, y2: JInt, z2: JInt)
    requires x1 | y1 | z1 == x2 | y2 | z2
    requires Apart(x2, y1) && Apart(y1, z2) && Apart(x1, y2) && Apart(y2, z1)
    ensures y1 == y2
  {
  }

  lemma SameThird(x1: JInt, y1: JInt, z1: JInt, x2: JInt, y2: JInt, z2: JInt)
    requires x1 | y1 | z1 == x2 | y2 | z2
    requires Apart(x2, z1) && Apart(y2, z1) && Apart(x1, z2) && Apart(y1, z2)
    ensures z1 == z2
  {
  }

  lemma SameOfTwo(x1: JInt, x2: JInt, z: JInt)
    requires Apart(x1, z) && Apart(x2, z)
    ensures x1 | z == x2 | z ==> x1 == x2
  {
  }

  /** Key disjointness: two size queries share a key exactly when they agree
      on face, size purpose and camera type. */
  lemma SizesKeyInjective(c: Constants, f1: JInt, s1: JInt, t1: JInt, f2: JInt, s2: JInt, t2: JInt)
    requires DisjointAxes(c)
    requires IsFace(c, f1) && IsSizeFor(c, s1) && IsCameraType(c, t1)
    requires IsFace(c, f2) && IsSizeFor(c, s2) && IsCameraType(c, t2)
    ensures SizesKey(f1, s1, t1) == SizesKey(f2, s2, t2) <==> f1 == f2 && s1 == s2 && t1 == t2
  {
    if SizesKey(f1, s1, t1) == SizesKey(f2, s2, t2) {
      FaceApartSizeFor(c, f1, s2);
      FaceApartSizeFor(c, f2, s1);
      FaceApartType(c, f1, t2);
      FaceApartType(c, f2, t1);
      SizeForApartType(c, s1, t2);
      SizeForApartType(c, s2, t1);
      SameFirst(f1, s1, t1, f2, s2, t2);
      SameSecond(f1, s1, t1, f2, s2, t2);
      SameThird(f1, s1, t1, f2, s2, t2);
    }
  }

  /** The same face and purpose queried through the two backends use two
      different keys whenever the two type constants differ. */
  lemma BackendsUseDifferentKeys(c: Constants, face: JInt, sizeFor: JInt)
    requires DisjointAxes(c) && c.typeCamera1 != c.typeCamera2
    requires IsFace(c, face) && IsSizeFor(c, sizeFor)
    ensures SizesKey(face, sizeFor, c.typeCamera1) != SizesKey(face, sizeFor, c.typeCamera2)
  {
    SizesKeyInjective(c, face, sizeFor, c.typeCamera1, face, sizeFor, c.typeCamera2);
  }

  /** The two faces have different zoom keys. */
  lemma ZoomKeyInjective(c: Constants, f1: JInt, f2: JInt)
    requires DisjointAxes(c)
    requires IsFace(c, f1) && IsFace(c, f2)
    ensures ZoomKey(c, f1) == ZoomKey(c, f2) ==> f1 == f2
  {
    FaceApartType(c, f1, c.typeCamera1);
    FaceApartType(c, f2, c.typeCamera1);
    SameOfTwo(f1, f2, c.typeCamera1);
  }

  /** OR-ing a nonzero value apart from all three of `a`, `b` and `d` into
      `x` gives none of them. */
  lemma OrApartValue(x: JInt, a: JInt, b: JInt, d: JInt, t: JInt)
    requires Apart(a, t) && Apart(b, t) && Apart(d, t) && t != 0
    ensures !(x | t == a || x | t == b || x | t == d)
  {
  }

  /** `SIZE_FOR_PICTURE | TYPE_CAMERA1` is not a `CameraSizeFor` value. */
  lemma PictureOrCamera1Unsupported(c: Constants)
    requires DisjointAxes(c) && c.typeCamera1 != 0
    ensures !IsSizeFor(c, c.sizeForPicture | c.typeCamera1)
  {
    OrApartValue(c.sizeForPicture, c.sizeForPicture, c.sizeForPreview, c.sizeForVideo, c.typeCamera1);
  }

  /** `cameraFace` is not checked either: a preview value passed as the face
      and a picture value passed as the purpose give the key of the picture
      value as the face and the preview value as the purpose. */
  lemma SwappedFaceAndSizeForShareKey(c: Constants, cameraType: JInt)
    ensures SizesKey(c.sizeForPreview, c.sizeForPicture, cameraType)
         == SizesKey(c.sizeForPicture, c.sizeForPreview, cameraType)
  {
  }

  /** The key is built before `sizeFor` is checked, so an unsupported
      `sizeFor` can share its key with a supported one: the camera1 key of
      `SIZE_FOR_PICTURE | TYPE_CAMERA1` is the camera1 picture key. */
  lemma PictureOrCamera1SharesKey(c: Constants, face: JInt)
    ensures SizesKey(face, c.sizeForPicture | c.typeCamera1, c.typeCamera1)
         == SizesKey(face, c.sizeForPicture, c.typeCamera1)
  {
  }
}
