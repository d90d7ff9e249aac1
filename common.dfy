/**
 * Values shared by the whole toolbox: the failures the Python code raises,
 * points, pixels, matrices as row lists, and the camera projection that the
 * model does not look inside.
 */
module Common {

  /** Every way a call of the toolbox can fail (an assert, an IndexError, ...). */
  datatype Error =
    | MissingKey(key: string)        // a required key is absent from a JSON configuration
    | InvalidCameraMatrix            // the first intrinsic element is zero
    | ReshapeFailed                  // an array cannot be reshaped to the required shape
    | IndexOutOfRange                // an index past the end of a list or an array axis
    | NotAFloat(field: string)       // float() rejected a label field
    | EmptyLabels                    // a dataset without labels
    | LabelColorMismatch             // a dataset whose colour count differs from its label count
    | NegativeLabel                  // a box drawn without a known label
    | ImageUnreadable                // the image could not be loaded
    | EmptyPointCloud                // the point cloud is empty or could not be loaded
    | TruncatedRecord                // a trailing chunk too short for one point record

  datatype Option<+T> = None | Some(value: T)

  datatype Result<+T> = Ok(value: T) | Err(error: Error) {
    predicate IsFailure() { Err? }
    function PropagateFailure<U>(): Result<U> requires Err? { Err(error) }
    function Extract(): T requires Ok? { value }
  }

  /** Applies f to every element in order; the first failure, if any, is the result. */
  function MapAll<A, B>(xs: seq<A>, f: A -> Result<B>): (r: Result<seq<B>>)
    ensures r.Ok? <==> forall i :: 0 <= i < |xs| ==> f(xs[i]).Ok?
    ensures r.Ok? ==> |r.value| == |xs| && (forall i :: 0 <= i < |xs| ==> f(xs[i]).value == r.value[i])
    ensures r.Err? ==>
      exists i :: && 0 <= i < |xs| && f(xs[i]).Err? && f(xs[i]).error == r.error
                  && (forall j :: 0 <= j < i ==> f(xs[j]).Ok?)
  {
    if |xs| == 0 then Ok([])
    else
      var first := f(xs[0]);
      if first.Err? then Err(first.error)
      else
        var rest := MapAll(xs[1..], f);
        assert forall i :: 1 <= i < |xs| ==> xs[i] == xs[1..][i - 1];
        if rest.Err? then
          ghost var i :| && 0 <= i < |xs[1..]| && f(xs[1..][i]).Err? && f(xs[1..][i]).error == rest.error
                         && (forall j :: 0 <= j < i ==> f(xs[1..][j]).Ok?);
          assert xs[i + 1] == xs[1..][i];
          Err(rest.error)
        else
          Ok([first.value] + rest.value)
  }

  /** The first failing element decides the failure of MapAll. */
  lemma MapAllFirstFailure<A, B>(xs: seq<A>, f: A -> Result<B>, i: nat)
    requires i < |xs| && f(xs[i]).Err?
    requires forall j :: 0 <= j < i ==> f(xs[j]).Ok?
    ensures MapAll(xs, f).Err? && MapAll(xs, f).error == f(xs[i]).error
  {
    var r := MapAll(xs, f);
    var k :| && 0 <= k < |xs| && f(xs[k]).Err? && f(xs[k]).error == r.error
             && (forall j :: 0 <= j < k ==> f(xs[j]).Ok?);
    assert k == i;
  }

  /** A point in 3-D space. */
  datatype Point3 = Point3(x: real, y: real, z: real)

  /** An integer pixel position: u is the column, v the row. */
  datatype Pixel = Pixel(u: int, v: int)

  /** A drawing colour, one value per image channel. */
  type Color = seq<real>

  /** A matrix as the list of its rows. */
  type Matrix = seq<seq<real>>

  predicate IsMatrix(m: Matrix, rows: nat, cols: nat)
  {
    |m| == rows && forall i :: 0 <= i < rows ==> |m[i]| == cols
  }

  /**
   * The projection of one point to an integer pixel given a rotation vector,
   * a translation, the intrinsic matrix and the distortion coefficients
   * (cv2.projectPoints followed by the cast to int).
   */
  type Projector = (Point3, seq<real>, seq<real>, Matrix, seq<real>) -> Pixel

  /** The vectorised projection: one pixel per point, in order. */
  function ProjectPoints(project: Projector, points: seq<Point3>, rvec: seq<real>, tvec: seq<real>,
                         K: Matrix, dist: seq<real>): (pixels: seq<Pixel>)
    ensures |pixels| == |points|
  {
    if |points| == 0 then []
    else ProjectPoints(project, points[..|points| - 1], rvec, tvec, K, dist)
         + [project(points[|points| - 1], rvec, tvec, K, dist)]
  }

  /** Every point is projected on its own: pixel i is the projection of point i. */
  lemma {:induction false} ProjectPointsPointwise(project: Projector, points: seq<Point3>, rvec: seq<real>,
                                                  tvec: seq<real>, K: Matrix, dist: seq<real>)
    ensures forall i :: 0 <= i < |points| ==>
      ProjectPoints(project, points, rvec, tvec, K, dist)[i] == project(points[i], rvec, tvec, K, dist)
  {
    if |points| > 0 {
      var init := points[..|points| - 1];
      ProjectPointsPointwise(project, init, rvec, tvec, K, dist);
      assert forall i :: 0 <= i < |init| ==> points[i] == init[i];
    }
  }

  /** Projecting one more point appends its pixel. */
  lemma ProjectPointsAppend(project: Projector, points: seq<Point3>, p: Point3, rvec: seq<real>, tvec: seq<real>,
                            K: Matrix, dist: seq<real>)
    ensures ProjectPoints(project, points + [p], rvec, tvec, K, dist)
            == ProjectPoints(project, points, rvec, tvec, K, dist) + [project(p, rvec, tvec, K, dist)]
  {
    assert (points + [p])[..|points|] == points;
  }

  /** Dot product of two vectors of equal length. */
  function Dot(a: seq<real>, b: seq<real>): real
    requires |a| == |b|
  {
    if |a| == 0 then 0.0 else a[0] * b[0] + Dot(a[1..], b[1..])
  }

  /** Matrix-vector product. */
  function MatVec(m: Matrix, v: seq<real>): (r: seq<real>)
    requires forall i :: 0 <= i < |m| ==> |m[i]| == |v|
    ensures |r| == |m|
  {
    seq(|m|, i requires 0 <= i < |m| => Dot(m[i], v))
  }

  lemma {:induction false} DotAppend(a: seq<real>, b: seq<real>, x: real, y: real)
    requires |a| == |b|
    ensures Dot(a + [x], b + [y]) == Dot(a, b) + x * y
  {
    if |a| == 0 {
      assert (a + [x])[1..] == [] && (b + [y])[1..] == [];
    } else {
      assert (a + [x])[1..] == a[1..] + [x];
      assert (b + [y])[1..] == b[1..] + [y];
      DotAppend(a[1..], b[1..], x, y);
    }
  }

  lemma Dot3(a: seq<real>, b: seq<real>)
    requires |a| == 3 && |b| == 3
    ensures Dot(a, b) == a[0] * b[0] + a[1] * b[1] + a[2] * b[2]
  {
    var a1, b1 := a[1..], b[1..];
    var a2, b2 := a1[1..], b1[1..];
    assert |a2[1..]| == 0 && Dot(a2[1..], b2[1..]) == 0.0;
    assert Dot(a2, b2) == a[2] * b[2];
    assert Dot(a1, b1) == a[1] * b[1] + Dot(a2, b2);
  }
}
