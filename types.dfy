/**
 * The configuration and geometry types of the toolbox: camera intrinsics,
 * rigid transformations with their lazily computed derived forms, oriented
 * 3-D boxes with their eight corners, KITTI label parsing and label sets.
 *
 * Foreign numeric routines (the Rodrigues conversion, the RQ decomposition,
 * cos and sin, float parsing, the random colour generator) enter as
 * function-typed parameters.
 */
module Types {
  import opened Common

  // ------------------------------------------------------------------
  // CameraInfo
  // ------------------------------------------------------------------

  /** Intrinsic matrix K (3x3) and lens distortion coefficients. */
  datatype CameraInfo = CameraInfo(K: Matrix, distCoeffs: seq<real>)

  /** A parsed JSON configuration: each key names a flat list of numbers. */
  type JsonObject = map<string, seq<real>>

  const DefaultIntrinsicKey: string := "K"
  const DefaultDistCoeffsKey: string := "dist_coeffs"
  const DefaultRotationKey: string := "rotation_mat"
  const DefaultTranslationKey: string := "translation_vec"

  /** Distortion used when a configuration gives none: five zeros. */
  const NoDistortion: seq<real> := [0.0, 0.0, 0.0, 0.0, 0.0]

  /** Row-major reshape of nine values into a 3x3 matrix. */
  function Reshape3x3(flat: seq<real>): (m: Matrix)
    requires |flat| == 9
    ensures IsMatrix(m, 3, 3)
    ensures forall i, j :: 0 <= i < 3 && 0 <= j < 3 ==> m[i][j] == flat[3 * i + j]
  {
    [flat[0..3], flat[3..6], flat[6..9]]
  }

  /** Concatenation of the rows of a matrix. */
  function Flatten(m: Matrix): seq<real>
  {
    if |m| == 0 then [] else m[0] + Flatten(m[1..])
  }

  lemma ReshapeThenFlatten(flat: seq<real>)
    requires |flat| == 9
    ensures Flatten(Reshape3x3(flat)) == flat
  {
    var m := Reshape3x3(flat);
    var m1 := m[1..];
    var m2 := m1[1..];
    assert Flatten(m2[1..]) == [];
    assert Flatten(m2) == flat[6..9];
    assert Flatten(m1) == flat[3..6] + flat[6..9];
    assert flat == flat[0..3] + flat[3..6] + flat[6..9];
  }

  lemma FlattenThenReshape(m: Matrix)
    requires IsMatrix(m, 3, 3)
    ensures |Flatten(m)| == 9 && Reshape3x3(Flatten(m)) == m
  {
    var m1 := m[1..];
    var m2 := m1[1..];
    assert Flatten(m2[1..]) == [];
    assert Flatten(m2) == m[2];
    assert Flatten(m1) == m[1] + m[2];
    var flat := Flatten(m);
    assert flat == m[0] + m[1] + m[2];
    assert flat[0..3] == m[0] && flat[3..6] == m[1] && flat[6..9] == m[2];
  }

  /**
   * The CameraInfo constructor: the first element of the flat intrinsic list
   * must be non-zero, then the list is reshaped to 3x3.
   */
  function NewCameraInfo(K: seq<real>, distCoeffs: seq<real>): (r: Result<CameraInfo>)
    ensures r.Ok? <==> |K| == 9 && K[0] != 0.0
    ensures |K| == 0 ==> r == Err(IndexOutOfRange)
    ensures |K| > 0 && K[0] == 0.0 ==> r == Err(InvalidCameraMatrix)
    ensures |K| > 0 && K[0] != 0.0 && |K| != 9 ==> r == Err(ReshapeFailed)
    ensures r.Ok? ==> IsMatrix(r.value.K, 3, 3) && r.value.K[0][0] != 0.0
    ensures r.Ok? ==> forall i, j :: 0 <= i < 3 && 0 <= j < 3 ==> r.value.K[i][j] == K[3 * i + j]
    ensures r.Ok? ==> r.value.distCoeffs == distCoeffs
  {
    if |K| == 0 then Err(IndexOutOfRange)
    else if K[0] == 0.0 then Err(InvalidCameraMatrix)
    else if |K| != 9 then Err(ReshapeFailed)
    else Ok(CameraInfo(Reshape3x3(K), distCoeffs))
  }

  /**
   * CameraInfo.from_json on an already parsed configuration: the intrinsic
   * key is required, the distortion key is optional.
   */
  function CameraInfoFromJson(data: JsonObject, intrinsicKey: string, distCoeffsKey: string): (r: Result<CameraInfo>)
    ensures intrinsicKey !in data ==> r == Err(MissingKey(intrinsicKey))
    ensures r.Ok? <==> intrinsicKey in data && |data[intrinsicKey]| == 9 && data[intrinsicKey][0] != 0.0
    ensures r.Ok? && distCoeffsKey !in data ==> r.value.distCoeffs == [0.0, 0.0, 0.0, 0.0, 0.0]
    ensures r.Ok? && distCoeffsKey in data ==> r.value.distCoeffs == data[distCoeffsKey]
    ensures r.Ok? ==> Flatten(r.value.K) == data[intrinsicKey]
    ensures r.Ok? ==> (&& IsMatrix(r.value.K, 3, 3)
                       && forall i, j :: 0 <= i < 3 && 0 <= j < 3 ==> r.value.K[i][j] == data[intrinsicKey][3 * i + j])
    ensures intrinsicKey in data && |data[intrinsicKey]| == 0 ==> r == Err(IndexOutOfRange)
    ensures intrinsicKey in data && |data[intrinsicKey]| > 0 && data[intrinsicKey][0] == 0.0 ==>
      r == Err(InvalidCameraMatrix)
    ensures (intrinsicKey in data && |data[intrinsicKey]| > 0 && data[intrinsicKey][0] != 0.0
             && |data[intrinsicKey]| != 9) ==> r == Err(ReshapeFailed)
  {
    if intrinsicKey !in data then Err(MissingKey(intrinsicKey))
    else
      var dist := if distCoeffsKey in data then data[distCoeffsKey] else NoDistortion;
      var r := NewCameraInfo(data[intrinsicKey], dist);
      if r.Ok? then ReshapeThenFlatten(data[intrinsicKey]); r else r
  }

  // ------------------------------------------------------------------
  // RigidTransformation
  // ------------------------------------------------------------------

  function Identity3(): (m: Matrix)
    ensures IsMatrix(m, 3, 3)
  {
    [[1.0, 0.0, 0.0], [0.0, 1.0, 0.0], [0.0, 0.0, 1.0]]
  }

  function Add(a: seq<real>, b: seq<real>): (r: seq<real>)
    requires |a| == |b|
    ensures |r| == |a|
  {
    seq(|a|, i requires 0 <= i < |a| => a[i] + b[i])
  }

  /** The 4x4 homogeneous matrix [R t; 0 0 0 1]. */
  function Homogeneous(R: Matrix, t: seq<real>): (m: Matrix)
    requires IsMatrix(R, 3, 3) && |t| == 3
    ensures IsMatrix(m, 4, 4)
  {
    [R[0] + [t[0]], R[1] + [t[1]], R[2] + [t[2]], [0.0, 0.0, 0.0, 1.0]]
  }

  lemma HomogeneousLayout(R: Matrix, t: seq<real>)
    requires IsMatrix(R, 3, 3) && |t| == 3
    ensures forall i, j :: 0 <= i < 3 && 0 <= j < 3 ==> Homogeneous(R, t)[i][j] == R[i][j]
    ensures forall i :: 0 <= i < 3 ==> Homogeneous(R, t)[i][3] == t[i]
    ensures Homogeneous(R, t)[3] == [0.0, 0.0, 0.0, 1.0]
  {
  }

  /** Multiplying the homogeneous matrix by (p, 1) gives (R p + t, 1). */
  lemma HomogeneousApply(R: Matrix, t: seq<real>, p: seq<real>)
    requires IsMatrix(R, 3, 3) && |t| == 3 && |p| == 3
    ensures MatVec(Homogeneous(R, t), p + [1.0]) == Add(MatVec(R, p), t) + [1.0]
  {
    var H := Homogeneous(R, t);
    var lhs := MatVec(H, p + [1.0]);
    var rhs := Add(MatVec(R, p), t) + [1.0];
    forall i | 0 <= i < 3
      ensures lhs[i] == rhs[i]
    {
      DotAppend(R[i], p, t[i], 1.0);
    }
    assert H[3] == [0.0, 0.0, 0.0] + [1.0];
    DotAppend([0.0, 0.0, 0.0], p, 1.0, 1.0);
    Dot3([0.0, 0.0, 0.0], p);
    assert lhs[3] == rhs[3];
  }

  /** The array a holds exactly the entries of the matrix m. */
  ghost predicate Holds(a: array2<real>, m: Matrix)
    reads a
  {
    IsMatrix(m, a.Length0, a.Length1) &&
    forall i, j :: 0 <= i < a.Length0 && 0 <= j < a.Length1 ==> a[i, j] == m[i][j]
  }

  /**
   * Builds the homogeneous matrix as the source does: start from the 4x4
   * identity, then overwrite the top-left 3x3 block with R and the first
   * three entries of the last column with t.
   */
  method BuildTransformationMat(R: Matrix, t: seq<real>) returns (m: array2<real>)
    requires IsMatrix(R, 3, 3) && |t| == 3
    ensures fresh(m)
    ensures m.Length0 == 4 && m.Length1 == 4
    ensures forall i, j :: 0 <= i < 3 && 0 <= j < 3 ==> m[i, j] == R[i][j]
    ensures forall i :: 0 <= i < 3 ==> m[i, 3] == t[i]
    ensures m[3, 0] == 0.0 && m[3, 1] == 0.0 && m[3, 2] == 0.0 && m[3, 3] == 1.0
    ensures Holds(m, Homogeneous(R, t))
  {
    m := new real[4, 4]((i, j) => if i == j then 1.0 else 0.0);
    // the top-left block
    var i := 0;
    while i < 3
      invariant 0 <= i <= 3
      invariant forall a, b :: 0 <= a < i && 0 <= b < 3 ==> m[a, b] == R[a][b]
      invariant forall a, b :: (i <= a < 4 || 3 <= b < 4) && 0 <= a < 4 && 0 <= b < 4 ==>
        m[a, b] == if a == b then 1.0 else 0.0
    {
      var j := 0;
      while j < 3
        invariant 0 <= j <= 3
        invariant forall a, b :: 0 <= a < i && 0 <= b < 3 ==> m[a, b] == R[a][b]
        invariant forall b :: 0 <= b < j ==> m[i, b] == R[i][b]
        invariant forall a, b :: (i < a < 4 || 3 <= b < 4 || (a == i && j <= b)) && 0 <= a < 4 && 0 <= b < 4 ==>
          m[a, b] == if a == b then 1.0 else 0.0
      {
        m[i, j] := R[i][j];
        j := j + 1;
      }
      i := i + 1;
    }
    // the translation column
    var k := 0;
    while k < 3
      invariant 0 <= k <= 3
      invariant forall a, b :: 0 <= a < 3 && 0 <= b < 3 ==> m[a, b] == R[a][b]
      invariant forall a :: 0 <= a < k ==> m[a, 3] == t[a]
      invariant forall a :: k <= a < 3 ==> m[a, 3] == 0.0
      invariant m[3, 0] == 0.0 && m[3, 1] == 0.0 && m[3, 2] == 0.0 && m[3, 3] == 1.0
    {
      m[k, 3] := t[k];
      k := k + 1;
    }
  }

  /**
   * A pose: rotation matrix and translation vector, fixed at construction,
   * and three derived forms each computed on first access and kept.
   */
  class RigidTransformation {
    const rotation: Matrix
    const translation: seq<real>
    /** cv2.Rodrigues: rotation matrix to axis-angle vector. */
    const rodrigues: Matrix -> seq<real>
    /** Roll, pitch and yaw in radians from cv2.RQDecomp3x3 and np.deg2rad. */
    const eulerRadians: Matrix -> seq<real>

    // the caches; null and None stand for "not computed yet"
    var transformationMat: array2?<real>
    var rotationVec: Option<seq<real>>
    var rpy: Option<seq<real>>

    ghost predicate Valid()
      reads this, transformationMat
    {
      && IsMatrix(rotation, 3, 3) && |translation| == 3
      && (transformationMat != null ==> Holds(transformationMat, Homogeneous(rotation, translation)))
      && (rotationVec.Some? ==> rotationVec.value == rodrigues(rotation))
      && (rpy.Some? ==> rpy.value == eulerRadians(rotation))
    }

    constructor (rotationMat: seq<real>, translationVec: seq<real>,
                 rodrigues: Matrix -> seq<real>, eulerRadians: Matrix -> seq<real>)
      requires |rotationMat| == 9 && |translationVec| == 3
      ensures Valid()
      ensures rotation == Reshape3x3(rotationMat) && translation == translationVec
      ensures this.rodrigues == rodrigues && this.eulerRadians == eulerRadians
      ensures transformationMat == null && rotationVec == None && rpy == None
    {
      rotation := Reshape3x3(rotationMat);
      translation := translationVec;
      this.rodrigues := rodrigues;
      this.eulerRadians := eulerRadians;
      transformationMat := null;
      rotationVec := None;
      rpy := None;
    }

    /** The default pose: identity rotation, zero translation. */
    constructor Identity(rodrigues: Matrix -> seq<real>, eulerRadians: Matrix -> seq<real>)
      ensures Valid()
      ensures rotation == Identity3() && translation == [0.0, 0.0, 0.0]
      ensures this.rodrigues == rodrigues && this.eulerRadians == eulerRadians
      ensures transformationMat == null && rotationVec == None && rpy == None
    {
      rotation := Identity3();
      translation := [0.0, 0.0, 0.0];
      this.rodrigues := rodrigues;
      this.eulerRadians := eulerRadians;
      transformationMat := null;
      rotationVec := None;
      rpy := None;
    }

    /** The 4x4 matrix, built on the first call; later calls return the same array. */
    method TransformationMat() returns (m: array2<real>)
      requires Valid()
      modifies this`transformationMat
      ensures Valid()
      ensures transformationMat == m
      ensures old(transformationMat) != null ==> m == old(transformationMat)
      ensures old(transformationMat) == null ==> fresh(m)
      ensures rotationVec == old(rotationVec) && rpy == old(rpy)
      ensures Holds(m, Homogeneous(rotation, translation))
    {
      if transformationMat == null {
        transformationMat := BuildTransformationMat(rotation, translation);
      }
      m := transformationMat;
    }

    /** The axis-angle vector, computed on the first call and kept. */
    method RotationVec() returns (v: seq<real>)
      requires Valid()
      modifies this`rotationVec
      ensures Valid()
      ensures v == rodrigues(rotation)
      ensures rotationVec == Some(v)
      ensures transformationMat == old(transformationMat) && rpy == old(rpy)
    {
      if rotationVec.None? {
        rotationVec := Some(rodrigues(rotation));
      }
      v := rotationVec.value;
    }

    /** Roll, pitch and yaw in radians, computed on the first call and kept. */
    method Rpy() returns (v: seq<real>)
      requires Valid()
      modifies this`rpy
      ensures Valid()
      ensures v == eulerRadians(rotation)
      ensures rpy == Some(v)
      ensures transformationMat == old(transformationMat) && rotationVec == old(rotationVec)
    {
      if rpy.None? {
        rpy := Some(eulerRadians(rotation));
      }
      v := rpy.value;
    }

    /**
     * RigidTransformation.from_json on an already parsed configuration: both
     * keys are required; the rotation must hold nine values.
     */
    static method FromJson(data: JsonObject, rotationKey: string, translationKey: string,
                           rodrigues: Matrix -> seq<real>, eulerRadians: Matrix -> seq<real>)
      returns (r: Result<RigidTransformation>)
      ensures rotationKey !in data ==> r == Err(MissingKey(rotationKey))
      ensures rotationKey in data && translationKey !in data ==> r == Err(MissingKey(translationKey))
      ensures r.Ok? <==> rotationKey in data && translationKey in data
                         && |data[rotationKey]| == 9 && |data[translationKey]| == 3
      ensures (rotationKey in data && translationKey in data
               && (|data[rotationKey]| != 9 || |data[translationKey]| != 3)) ==> r == Err(ReshapeFailed)
      ensures r.Ok? ==> fresh(r.value) && r.value.Valid()
      ensures r.Ok? ==> Flatten(r.value.rotation) == data[rotationKey] && r.value.translation == data[translationKey]
      ensures r.Ok? ==> r.value.transformationMat == null && r.value.rotationVec == None && r.value.rpy == None
      ensures r.Ok? ==> r.value.rodrigues == rodrigues && r.value.eulerRadians == eulerRadians
    {
      if rotationKey !in data {
        return Err(MissingKey(rotationKey));
      }
      if translationKey !in data {
        return Err(MissingKey(translationKey));
      }
      if |data[rotationKey]| != 9 || |data[translationKey]| != 3 {
        return Err(ReshapeFailed);
      }
      var rt := new RigidTransformation(data[rotationKey], data[translationKey], rodrigues, eulerRadians);
      ReshapeThenFlatten(data[rotationKey]);
      r := Ok(rt);
    }
  }

  // ------------------------------------------------------------------
  // Object3D
  // ------------------------------------------------------------------

  /** The column of index j of a 3x3 matrix. */
  function Column(m: Matrix, j: nat): (col: seq<real>)
    requires IsMatrix(m, 3, 3) && j < 3
    ensures |col| == 3
  {
    [m[0][j], m[1][j], m[2][j]]
  }

  function Det3(m: Matrix): real
    requires IsMatrix(m, 3, 3)
  {
    m[0][0] * (m[1][1] * m[2][2] - m[1][2] * m[2][1])
    - m[0][1] * (m[1][0] * m[2][2] - m[1][2] * m[2][0])
    + m[0][2] * (m[1][0] * m[2][1] - m[1][1] * m[2][0])
  }

  /** A proper rotation: orthonormal columns and determinant one. */
  ghost predicate IsRotation(m: Matrix)
  {
    && IsMatrix(m, 3, 3)
    && (forall i, j :: 0 <= i < 3 && 0 <= j < 3 ==>
          Dot(Column(m, i), Column(m, j)) == if i == j then 1.0 else 0.0)
    && Det3(m) == 1.0
  }

  /** Object3D.roty: rotation about the y axis, given the cosine c and sine s of the angle. */
  function RotY(c: real, s: real): (R: Matrix)
    ensures IsMatrix(R, 3, 3)
  {
    [[c, 0.0, s], [0.0, 1.0, 0.0], [-s, 0.0, c]]
  }

  /** A rotation about y mixes x and z by the angle and never changes the y coordinate. */
  lemma RotYApply(c: real, s: real, v: seq<real>)
    requires |v| == 3
    ensures MatVec(RotY(c, s), v) == [c * v[0] + s * v[2], v[1], -s * v[0] + c * v[2]]
  {
    var R := RotY(c, s);
    Dot3(R[0], v);
    Dot3(R[1], v);
    Dot3(R[2], v);
    assert Dot(R[0], v) == c * v[0] + s * v[2];
    assert Dot(R[1], v) == v[1];
    assert Dot(R[2], v) == -s * v[0] + c * v[2];
  }

  /** When c and s are the cosine and sine of one angle, RotY is a proper rotation. */
  lemma RotYIsRotation(c: real, s: real)
    requires c * c + s * s == 1.0
    ensures IsRotation(RotY(c, s))
  {
    var R := RotY(c, s);
    var c0, c1, c2 := [c, 0.0, -s], [0.0, 1.0, 0.0], [s, 0.0, c];
    assert Column(R, 0) == c0 && Column(R, 1) == c1 && Column(R, 2) == c2;
    Dot3(c0, c0); Dot3(c0, c1); Dot3(c0, c2);
    Dot3(c1, c0); Dot3(c1, c1); Dot3(c1, c2);
    Dot3(c2, c0); Dot3(c2, c1); Dot3(c2, c2);
    assert Det3(R) == c * c + s * s;
  }

  /** The canonical box before rotation: x from the length, y from the height, z from the width. */
  function XCorners(l: real): seq<real>
  {
    [l / 2.0, l / 2.0, -l / 2.0, -l / 2.0, l / 2.0, l / 2.0, -l / 2.0, -l / 2.0]
  }

  function YCorners(h: real): seq<real>
  {
    [0.0, 0.0, 0.0, 0.0, -h, -h, -h, -h]
  }

  function ZCorners(w: real): seq<real>
  {
    [w / 2.0, -w / 2.0, -w / 2.0, w / 2.0, w / 2.0, -w / 2.0, -w / 2.0, w / 2.0]
  }

  /** The eight corners: each canonical corner rotated by R, then moved by the bottom centre. */
  function BoxCorners(bottomCenter: Point3, h: real, w: real, l: real, R: Matrix): (corners: seq<Point3>)
    requires IsMatrix(R, 3, 3)
    ensures |corners| == 8
  {
    seq(8, k requires 0 <= k < 8 =>
      var p := MatVec(R, [XCorners(l)[k], YCorners(h)[k], ZCorners(w)[k]]);
      Point3(p[0] + bottomCenter.x, p[1] + bottomCenter.y, p[2] + bottomCenter.z))
  }

  /** Corner k of a box rotated about y, written out. */
  lemma RotYCorner(bottomCenter: Point3, h: real, w: real, l: real, c: real, s: real, k: nat)
    requires k < 8
    ensures var x, y, z := XCorners(l)[k], YCorners(h)[k], ZCorners(w)[k];
            BoxCorners(bottomCenter, h, w, l, RotY(c, s))[k]
              == Point3(c * x + s * z + bottomCenter.x, y + bottomCenter.y, -s * x + c * z + bottomCenter.z)
  {
    var R := RotY(c, s);
    var v := [XCorners(l)[k], YCorners(h)[k], ZCorners(w)[k]];
    RotYApply(c, s, v);
    var p := MatVec(R, v);
    assert BoxCorners(bottomCenter, h, w, l, R)[k] == Point3(p[0] + bottomCenter.x, p[1] + bottomCenter.y, p[2] + bottomCenter.z);
  }

  /**
   * For every yaw, corners 0-3 lie at the height of the bottom centre and
   * corners 4-7 at that height minus h; corner i and corner i+4 share x and z.
   */
  lemma BoxFaces(bottomCenter: Point3, h: real, w: real, l: real, c: real, s: real, i: nat)
    requires i < 4
    ensures var corners := BoxCorners(bottomCenter, h, w, l, RotY(c, s));
      && corners[i].y == bottomCenter.y
      && corners[i + 4].y == bottomCenter.y - h
      && corners[i + 4].x == corners[i].x
      && corners[i + 4].z == corners[i].z
  {
    var corners := BoxCorners(bottomCenter, h, w, l, RotY(c, s));
    var x, z := XCorners(l)[i], ZCorners(w)[i];
    assert XCorners(l)[i + 4] == x && ZCorners(w)[i + 4] == z;
    assert YCorners(h)[i] == 0.0 && YCorners(h)[i + 4] == -h;
    RotYCorner(bottomCenter, h, w, l, c, s, i);
    RotYCorner(bottomCenter, h, w, l, c, s, i + 4);
    assert corners[i] == Point3(c * x + s * z + bottomCenter.x, bottomCenter.y, -s * x + c * z + bottomCenter.z);
    assert corners[i + 4] == Point3(c * x + s * z + bottomCenter.x, -h + bottomCenter.y, -s * x + c * z + bottomCenter.z);
  }

  /** The mean of corners 0-3 is the bottom centre, for every yaw. */
  lemma BoxBottomCenter(bottomCenter: Point3, h: real, w: real, l: real, c: real, s: real)
    ensures var cs := BoxCorners(bottomCenter, h, w, l, RotY(c, s));
      && (cs[0].x + cs[1].x + cs[2].x + cs[3].x) / 4.0 == bottomCenter.x
      && (cs[0].y + cs[1].y + cs[2].y + cs[3].y) / 4.0 == bottomCenter.y
      && (cs[0].z + cs[1].z + cs[2].z + cs[3].z) / 4.0 == bottomCenter.z
  {
    RotYCorner(bottomCenter, h, w, l, c, s, 0);
    RotYCorner(bottomCenter, h, w, l, c, s, 1);
    RotYCorner(bottomCenter, h, w, l, c, s, 2);
    RotYCorner(bottomCenter, h, w, l, c, s, 3);
  }

  function DistSq(p: Point3, q: Point3): real
  {
    (p.x - q.x) * (p.x - q.x) + (p.y - q.y) * (p.y - q.y) + (p.z - q.z) * (p.z - q.z)
  }

  /**
   * With a true rotation the box keeps its extents: edge 0-1 has length w,
   * edge 1-2 length l and edge 0-4 length h.
   */
  lemma BoxExtents(bottomCenter: Point3, h: real, w: real, l: real, c: real, s: real)
    requires c * c + s * s == 1.0
    ensures var cs := BoxCorners(bottomCenter, h, w, l, RotY(c, s));
      && DistSq(cs[0], cs[1]) == w * w
      && DistSq(cs[1], cs[2]) == l * l
      && DistSq(cs[0], cs[4]) == h * h
  {
    BoxEdgeSq(bottomCenter, h, w, l, c, s, 0);
    BoxEdgeSq(bottomCenter, h, w, l, c, s, 1);
    BoxFaces(bottomCenter, h, w, l, c, s, 0);
  }

  /** Bottom edge k to k + 1 (k = 0 or 1) keeps its length under a true rotation. */
  lemma BoxEdgeSq(bottomCenter: Point3, h: real, w: real, l: real, c: real, s: real, k: nat)
    requires c * c + s * s == 1.0 && k < 2
    ensures var cs := BoxCorners(bottomCenter, h, w, l, RotY(c, s));
      DistSq(cs[k], cs[k + 1]) == if k == 0 then w * w else l * l
  {
    var cs := BoxCorners(bottomCenter, h, w, l, RotY(c, s));
    RotYCorner(bottomCenter, h, w, l, c, s, k);
    RotYCorner(bottomCenter, h, w, l, c, s, k + 1);
    var x0, z0, x1, z1 := XCorners(l)[k], ZCorners(w)[k], XCorners(l)[k + 1], ZCorners(w)[k + 1];
    assert YCorners(h)[k] == YCorners(h)[k + 1] == 0.0;
    var dx, dz := cs[k].x - cs[k + 1].x, cs[k].z - cs[k + 1].z;
    assert dx == c * (x0 - x1) + s * (z0 - z1);
    assert dz == -s * (x0 - x1) + c * (z0 - z1);
    if k == 0 {
      assert x0 - x1 == 0.0 && z0 - z1 == w;
      RotatedSq(c, s, w, dx, dz);
    } else {
      assert x0 - x1 == l && z0 - z1 == 0.0;
      RotatedSq(c, s, l, dz, dx);
    }
  }

  /** A length a turned by the angle of (c, s) keeps its square. */
  lemma RotatedSq(c: real, s: real, a: real, dx: real, dz: real)
    requires c * c + s * s == 1.0
    requires (dx == s * a && dz == c * a) || (dx == -s * a && dz == c * a)
    ensures dx * dx + dz * dz == a * a
  {
    assert dx * dx == s * s * (a * a);
    assert dz * dz == c * c * (a * a);
    assert dx * dx + dz * dz == (c * c + s * s) * (a * a);
  }

  /** A labelled box: pose, extents and its eight corners, all set once by the constructor. */
  class Object3D {
    const bottomCenter: Point3
    const height: real
    const width: real
    const length: real
    const yaw: real
    const labelId: int
    const rot: Matrix
    const corners: seq<Point3>

    /** This box was built from the given pose, extents and label with the given cos and sin. */
    predicate Built(bottomCenter: Point3, height: real, width: real, length: real, yaw: real, labelId: int,
                    cos: real -> real, sin: real -> real)
    {
      && this.bottomCenter == bottomCenter && this.height == height && this.width == width
      && this.length == length && this.yaw == yaw && this.labelId == labelId
      && rot == RotY(cos(yaw), sin(yaw))
      && corners == BoxCorners(bottomCenter, height, width, length, rot)
    }

    /** This box was built from the fields of a parsed label line. */
    predicate BuiltFrom(lab: KittiLabel, cos: real -> real, sin: real -> real)
    {
      Built(lab.bottomCenter, lab.height, lab.width, lab.length, lab.yaw, lab.labelId, cos, sin)
    }

    constructor (bottomCenter: Point3, height: real, width: real, length: real, yaw: real, labelId: int,
                 cos: real -> real, sin: real -> real)
      ensures Built(bottomCenter, height, width, length, yaw, labelId, cos, sin)
      ensures |corners| == 8
    {
      this.bottomCenter := bottomCenter;
      this.height := height;
      this.width := width;
      this.length := length;
      this.yaw := yaw;
      this.labelId := labelId;
      rot := RotY(cos(yaw), sin(yaw));
      corners := BoxCorners(bottomCenter, height, width, length, RotY(cos(yaw), sin(yaw)));
    }

    /** Object3D.from_kitti_label_line: parse the line, then build the box. */
    static method FromKittiLabelLine(line: string, parseFloat: string -> Option<real>,
                                     cos: real -> real, sin: real -> real)
      returns (r: Result<Object3D>)
      ensures r.Ok? <==> ParseKittiLabelLine(line, parseFloat).Ok?
      ensures r.Err? ==> r.error == ParseKittiLabelLine(line, parseFloat).error
      ensures r.Ok? ==> r.value.BuiltFrom(ParseKittiLabelLine(line, parseFloat).value, cos, sin)
    {
      var parsed := ParseKittiLabelLine(line, parseFloat);
      if parsed.Err? {
        return Err(parsed.error);
      }
      var lab := parsed.value;
      var obj := new Object3D(lab.bottomCenter, lab.height, lab.width, lab.length, lab.yaw, lab.labelId, cos, sin);
      r := Ok(obj);
    }

    /** Object3D.from_kitti_label_file on the lines of the file: one box per line, in order. */
    static method FromKittiLabelFile(lines: seq<string>, parseFloat: string -> Option<real>,
                                     cos: real -> real, sin: real -> real)
      returns (r: Result<seq<Object3D>>)
      ensures r.Ok? <==> ParseKittiLabelFile(lines, parseFloat).Ok?
      ensures r.Err? ==> r.error == ParseKittiLabelFile(lines, parseFloat).error
      ensures r.Ok? ==> |r.value| == |lines| && forall i :: 0 <= i < |lines| ==>
        r.value[i].BuiltFrom(ParseKittiLabelFile(lines, parseFloat).value[i], cos, sin)
    {
      var labels := ParseKittiLabelFile(lines, parseFloat);
      if labels.Err? {
        return Err(labels.error);
      }
      var objs: seq<Object3D> := [];
      var i := 0;
      while i < |labels.value|
        invariant 0 <= i <= |labels.value| && |objs| == i
        invariant forall j :: 0 <= j < i ==> objs[j].BuiltFrom(labels.value[j], cos, sin)
      {
        var obj := new Object3D(labels.value[i].bottomCenter, labels.value[i].height, labels.value[i].width,
                                labels.value[i].length, labels.value[i].yaw, labels.value[i].labelId, cos, sin);
        objs := objs + [obj];
        i := i + 1;
      }
      r := Ok(objs);
    }
  }

  /** Every line parsed in order; the first line that fails decides the error (see MapAll). */
  function ParseKittiLabelFile(lines: seq<string>, parseFloat: string -> Option<real>): Result<seq<KittiLabel>>
  {
    MapAll(lines, (line: string) => ParseKittiLabelLine(line, parseFloat))
  }

  // ------------------------------------------------------------------
  // KITTI label lines
  // ------------------------------------------------------------------

  /** The seven classes of the KITTI preset, in order. */
  const KittiLabels: seq<string> := ["Car", "Pedestrian", "Cyclist", "Tram", "Person_sitting", "Misc", "DontCare"]

  /** The fields of one KITTI label line that a box is built from. */
  datatype KittiLabel = KittiLabel(height: real, width: real, length: real,
                                   bottomCenter: Point3, yaw: real, labelId: int)

  /** Joins fields with one separator between neighbours. */
  function Join(fields: seq<string>, sep: char): string
    requires |fields| >= 1
  {
    if |fields| == 1 then fields[0] else fields[0] + [sep] + Join(fields[1..], sep)
  }

  /** str.split(sep) with an explicit one-character separator: empty fields are kept. */
  function Split(s: string, sep: char): (fields: seq<string>)
    ensures |fields| >= 1
  {
    if s == [] then [""]
    else
      var rest := Split(s[1..], sep);
      if s[0] == sep then [""] + rest
      else [[s[0]] + rest[0]] + rest[1..]
  }

  /** Splitting loses nothing: no field holds the separator, and joining the fields gives back the line. */
  lemma {:induction false} SplitJoin(s: string, sep: char)
    ensures forall i :: 0 <= i < |Split(s, sep)| ==> sep !in Split(s, sep)[i]
    ensures Join(Split(s, sep), sep) == s
  {
    if s != [] {
      var rest := Split(s[1..], sep);
      SplitJoin(s[1..], sep);
      var fields := Split(s, sep);
      if s[0] == sep {
        assert fields[1..] == rest;
        assert forall i :: 1 <= i < |fields| ==> fields[i] == rest[i - 1];
      } else {
        assert fields[1..] == rest[1..];
        assert forall i :: 1 <= i < |fields| ==> fields[i] == rest[i];
        assert s == [s[0]] + s[1..];
      }
    }
  }

  /** list.index(name) when name is in the list, and -1 otherwise. */
  function LabelIndex(labels: seq<string>, name: string): (id: int)
    ensures -1 <= id < |labels|
    ensures id == -1 <==> name !in labels
    ensures 0 <= id ==> labels[id] == name && name !in labels[..id]
  {
    if |labels| == 0 then -1
    else if labels[0] == name then 0
    else
      var k := LabelIndex(labels[1..], name);
      assert labels == [labels[0]] + labels[1..];
      if k == -1 then -1
      else
        assert labels[..k + 1] == [labels[0]] + labels[1..][..k];
        k + 1
  }

  /** [float(f) for f in fields]: the first field that float() rejects makes it fail. */
  function ParseFloats(fields: seq<string>, parseFloat: string -> Option<real>): (r: Result<seq<real>>)
    ensures r.Ok? <==> forall i :: 0 <= i < |fields| ==> parseFloat(fields[i]).Some?
    ensures r.Ok? ==> (&& |r.value| == |fields|
                       && forall i :: 0 <= i < |fields| ==> Some(r.value[i]) == parseFloat(fields[i]))
    ensures r.Err? ==>
      exists i :: && 0 <= i < |fields| && parseFloat(fields[i]).None? && r.error == NotAFloat(fields[i])
                  && (forall j :: 0 <= j < i ==> parseFloat(fields[j]).Some?)
  {
    if |fields| == 0 then Ok([])
    else match parseFloat(fields[0])
      case None => Err(NotAFloat(fields[0]))
      case Some(x) =>
        var rest := ParseFloats(fields[1..], parseFloat);
        assert forall i :: 1 <= i < |fields| ==> fields[i] == fields[1..][i - 1];
        if rest.Err? then
          ghost var i :| && 0 <= i < |fields[1..]| && parseFloat(fields[1..][i]).None?
                         && rest.error == NotAFloat(fields[1..][i])
                         && (forall j :: 0 <= j < i ==> parseFloat(fields[1..][j]).Some?);
          assert fields[i + 1] == fields[1..][i];
          rest
        else Ok([x] + rest.value)
  }

  /** Object3D.from_kitti_label_line without the construction: split at single spaces, then read the fields. */
  function ParseKittiLabelLine(line: string, parseFloat: string -> Option<real>): (r: Result<KittiLabel>)
    ensures r.Ok? ==> -1 <= r.value.labelId < |KittiLabels|
  {
    LabelFromFields(Split(line, ' '), parseFloat)
  }

  /**
   * The fields of a split label line: every field after the first is
   * converted to a float, then height, width and length come from fields
   * 8-10, the bottom centre from fields 11-13, the yaw from field 14 and the
   * label from field 0.
   */
  function LabelFromFields(data: seq<string>, parseFloat: string -> Option<real>): (r: Result<KittiLabel>)
    ensures r.Ok? <==> |data| >= 15 && forall i :: 1 <= i < |data| ==> parseFloat(data[i]).Some?
    ensures r.Ok? ==>
      && Some(r.value.height) == parseFloat(data[8])
      && Some(r.value.width) == parseFloat(data[9])
      && Some(r.value.length) == parseFloat(data[10])
      && Some(r.value.bottomCenter.x) == parseFloat(data[11])
      && Some(r.value.bottomCenter.y) == parseFloat(data[12])
      && Some(r.value.bottomCenter.z) == parseFloat(data[13])
      && Some(r.value.yaw) == parseFloat(data[14])
      && r.value.labelId == LabelIndex(KittiLabels, data[0])
  {
    if |data| == 0 then Err(IndexOutOfRange)
    else
      var values := ParseFloats(data[1..], parseFloat);
      assert forall i :: 1 <= i < |data| ==> data[i] == data[1..][i - 1];
      if values.Err? then Err(values.error)
      else if |data| < 15 then Err(IndexOutOfRange)
      else
        Ok(KittiLabel(values.value[7], values.value[8], values.value[9],
                      Point3(values.value[10], values.value[11], values.value[12]),
                      values.value[13], LabelIndex(KittiLabels, data[0])))
  }

  /**
   * The failures of a label line: a field after the first that is not a
   * number fails the float conversion before any field is read, and the
   * error names the first such field; a line of numbers with fewer than 15
   * fields fails on the missing index.
   */
  lemma LabelFromFieldsErrors(data: seq<string>, parseFloat: string -> Option<real>)
    ensures (exists i :: 1 <= i < |data| && parseFloat(data[i]).None?) ==>
      && LabelFromFields(data, parseFloat).Err?
      && exists i :: && 1 <= i < |data| && parseFloat(data[i]).None?
                     && LabelFromFields(data, parseFloat).error == NotAFloat(data[i])
                     && (forall j :: 1 <= j < i ==> parseFloat(data[j]).Some?)
    ensures (forall i :: 1 <= i < |data| ==> parseFloat(data[i]).Some?) && |data| < 15 ==>
      LabelFromFields(data, parseFloat) == Err(IndexOutOfRange)
  {
    if |data| > 0 {
      assert forall i :: 1 <= i < |data| ==> data[i] == data[1..][i - 1];
      var values := ParseFloats(data[1..], parseFloat);
      if values.Err? {
        var k :| && 0 <= k < |data[1..]| && parseFloat(data[1..][k]).None?
                 && values.error == NotAFloat(data[1..][k])
                 && (forall j :: 0 <= j < k ==> parseFloat(data[1..][j]).Some?);
        assert data[k + 1] == data[1..][k];
      }
    }
  }

  // ------------------------------------------------------------------
  // Dataset
  // ------------------------------------------------------------------

  /** A label taxonomy with one drawing colour per label. */
  datatype Dataset = Dataset(labels: seq<string>, colors: seq<Color>)

  /**
   * The Dataset constructor. Without explicit colours, colour i is the i-th
   * draw of the seeded random generator, given as seeded(i).
   */
  function NewDataset(labels: seq<string>, colors: Option<seq<Color>>, seeded: nat -> Color): (r: Result<Dataset>)
    ensures |labels| == 0 ==> r == Err(EmptyLabels)
    ensures |labels| > 0 && colors.Some? && |colors.value| != |labels| ==> r == Err(LabelColorMismatch)
    ensures r.Ok? <==> |labels| > 0 && (colors.None? || |colors.value| == |labels|)
    ensures r.Ok? ==> r.value.labels == labels && |r.value.colors| == |labels|
    ensures r.Ok? && colors.Some? ==> r.value.colors == colors.value
    ensures r.Ok? && colors.None? ==> forall i :: 0 <= i < |labels| ==> r.value.colors[i] == seeded(i)
  {
    if |labels| == 0 then Err(EmptyLabels)
    else
      var cs := if colors.Some? then colors.value else seq(|labels|, i requires 0 <= i < |labels| => seeded(i));
      if |labels| != |cs| then Err(LabelColorMismatch)
      else Ok(Dataset(labels, cs))
  }

  /** Dataset.Kitti: the seven KITTI classes with seeded random colours. */
  function Kitti(seeded: nat -> Color): (r: Result<Dataset>)
    ensures r.Ok? && r.value.labels == KittiLabels
    ensures |r.value.labels| == 7 && |r.value.colors| == 7
  {
    NewDataset(KittiLabels, None, seeded)
  }

  /** Looking up any KITTI class name gives back its own position. */
  lemma KittiLabelIndexInverse()
    ensures forall i :: 0 <= i < |KittiLabels| ==> LabelIndex(KittiLabels, KittiLabels[i]) == i
  {
    forall i | 0 <= i < |KittiLabels|
      ensures LabelIndex(KittiLabels, KittiLabels[i]) == i
    {
      assert KittiLabels[i] !in KittiLabels[..i] by {
        assert |KittiLabels[0]| == 3 && |KittiLabels[1]| == 10 && |KittiLabels[2]| == 7 && |KittiLabels[3]| == 4;
        assert |KittiLabels[4]| == 14 && |KittiLabels[5]| == 4 && |KittiLabels[6]| == 8;
        assert KittiLabels[3][0] != KittiLabels[5][0];
      }
      LabelIndexOfFirst(KittiLabels, i);
    }
  }

  /** A name at its first position is found there. */
  lemma LabelIndexOfFirst(labels: seq<string>, i: nat)
    requires i < |labels| && labels[i] !in labels[..i]
    ensures LabelIndex(labels, labels[i]) == i
  {
    var k := LabelIndex(labels, labels[i]);
    assert labels[i] in labels;
    assert forall j :: 0 <= j < i ==> labels[..i][j] == labels[j];
    assert forall j :: 0 <= j < k ==> labels[..k][j] == labels[j];
  }
}
