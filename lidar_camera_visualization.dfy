/**
 * Overlaying a LiDAR point cloud on a camera image: the points in front of
 * the sensor are projected, those whose pixel falls inside the image are
 * kept, and each is drawn as a small filled disk coloured by its distance
 * along x.
 */
module LidarCameraVisualization {
  import opened Common
  import opened Drawing
  import opened Types

  // ------------------------------------------------------------------
  // Front-of-sensor filter
  // ------------------------------------------------------------------

  /** The points with x strictly positive, in their original order. */
  function FrontOfSensor(points: seq<Point3>): (front: seq<Point3>)
    ensures |front| <= |points|
  {
    if |points| == 0 then []
    else
      var last := points[|points| - 1];
      FrontOfSensor(points[..|points| - 1]) + (if last.x > 0.0 then [last] else [])
  }

  /** A point survives the filter exactly when it is in the cloud and in front of the sensor. */
  lemma {:induction false} FrontOfSensorMembers(points: seq<Point3>, p: Point3)
    ensures p in FrontOfSensor(points) <==> p in points && p.x > 0.0
  {
    if |points| > 0 {
      var init := points[..|points| - 1];
      FrontOfSensorMembers(init, p);
      assert points == init + [points[|points| - 1]];
    }
  }

  /** The filter keeps the order: filtering a concatenation concatenates the filtered parts. */
  lemma {:induction false} FrontOfSensorAppend(a: seq<Point3>, b: seq<Point3>)
    ensures FrontOfSensor(a + b) == FrontOfSensor(a) + FrontOfSensor(b)
  {
    if |b| > 0 {
      var init := b[..|b| - 1];
      FrontOfSensorAppend(a, init);
      assert (a + b)[..|a + b| - 1] == a + init;
    } else {
      assert a + b == a;
    }
  }

  // ------------------------------------------------------------------
  // Image-bounds mask
  // ------------------------------------------------------------------

  /** A pixel lies inside an image of the given size; both bounds are inclusive. */
  predicate InImage(p: Pixel, width: int, height: int)
  {
    0 <= p.u <= width - 1 && 0 <= p.v <= height - 1
  }

  /** The keep condition: one flag per pixel, set when the pixel lies inside the image. */
  function KeepMask(pixels: seq<Pixel>, width: int, height: int): (mask: seq<bool>)
    ensures |mask| == |pixels|
    ensures forall i :: 0 <= i < |pixels| ==> (mask[i] <==> InImage(pixels[i], width, height))
  {
    seq(|pixels|, i requires 0 <= i < |pixels| => InImage(pixels[i], width, height))
  }

  /** The number of flags set. */
  function CountSet(mask: seq<bool>): (n: nat)
    ensures n <= |mask|
  {
    if |mask| == 0 then 0 else CountSet(mask[..|mask| - 1]) + (if mask[|mask| - 1] then 1 else 0)
  }

  /** Boolean indexing: the elements whose flag is set, in order. */
  function ApplyMask<T>(xs: seq<T>, mask: seq<bool>): (kept: seq<T>)
    requires |mask| == |xs|
    ensures |kept| == CountSet(mask) <= |xs|
  {
    if |xs| == 0 then []
    else
      var n := |xs| - 1;
      ApplyMask(xs[..n], mask[..n]) + (if mask[n] then [xs[n]] else [])
  }

  /** An element is kept exactly when some position holding it has its flag set. */
  lemma {:induction false} ApplyMaskMembers<T>(xs: seq<T>, mask: seq<bool>, x: T)
    requires |mask| == |xs|
    ensures x in ApplyMask(xs, mask) <==> exists i :: 0 <= i < |xs| && mask[i] && xs[i] == x
  {
    if |xs| > 0 {
      var n := |xs| - 1;
      ApplyMaskMembers(xs[..n], mask[..n], x);
      if x in ApplyMask(xs, mask) && x !in ApplyMask(xs[..n], mask[..n]) {
        assert mask[n] && xs[n] == x;
      }
      if exists i :: 0 <= i < |xs| && mask[i] && xs[i] == x {
        var i :| 0 <= i < |xs| && mask[i] && xs[i] == x;
        if i < n {
          assert xs[..n][i] == x && mask[..n][i];
        }
      }
    }
  }

  /**
   * One mask applied to the pixels and to the points keeps them aligned:
   * the kept pixels are the projections of the kept points.
   */
  lemma {:induction false} MaskAligned(project: Projector, points: seq<Point3>, rvec: seq<real>, tvec: seq<real>,
                                       K: Matrix, dist: seq<real>, mask: seq<bool>)
    requires |mask| == |points|
    ensures ApplyMask(ProjectPoints(project, points, rvec, tvec, K, dist), mask)
            == ProjectPoints(project, ApplyMask(points, mask), rvec, tvec, K, dist)
  {
    if |points| > 0 {
      var n := |points| - 1;
      var pixels := ProjectPoints(project, points, rvec, tvec, K, dist);
      assert pixels[..n] == ProjectPoints(project, points[..n], rvec, tvec, K, dist);
      MaskAligned(project, points[..n], rvec, tvec, K, dist, mask[..n]);
      if mask[n] {
        assert pixels[n] == project(points[n], rvec, tvec, K, dist);
        assert ApplyMask(pixels, mask) == ApplyMask(pixels[..n], mask[..n]) + [pixels[n]];
        assert ApplyMask(points, mask) == ApplyMask(points[..n], mask[..n]) + [points[n]];
        ProjectPointsAppend(project, ApplyMask(points[..n], mask[..n]), points[n], rvec, tvec, K, dist);
      } else {
        assert ApplyMask(pixels, mask) == ApplyMask(pixels[..n], mask[..n]);
        assert ApplyMask(points, mask) == ApplyMask(points[..n], mask[..n]);
      }
    }
  }

  // ------------------------------------------------------------------
  // Colour bucket
  // ------------------------------------------------------------------

  /** Python's float %: the remainder takes the sign of the divisor. */
  function PyMod(x: real, m: real): (r: real)
    requires m > 0.0
    ensures 0.0 <= r < m
  {
    var q := x / m;
    var k := q.Floor as real;
    assert q * m == x;
    assert 0.0 <= q - k < 1.0;
    NonNegProduct(q - k, m);
    NonNegProduct(k + 1.0 - q, m);
    x - m * k
  }

  lemma NonNegProduct(a: real, m: real)
    requires a >= 0.0 && m > 0.0
    ensures a * m >= 0.0 && (a > 0.0 ==> a * m > 0.0)
  {
  }

  /** int() on a float: truncation toward zero. */
  function Trunc(x: real): (n: int)
    ensures x >= 0.0 ==> n == x.Floor
  {
    if x >= 0.0 then x.Floor else -((-x).Floor)
  }

  /** int(x % 20): which of the twenty one-metre bands a distance falls in. */
  function Bucket(x: real): (b: int)
    ensures 0 <= b < 20
  {
    Trunc(PyMod(x, 20.0))
  }

  /** The colormap position of a point at distance x. */
  function ColorKey(x: real): (key: real)
    ensures 0.0 <= key < 1.0
  {
    Bucket(x) as real / 20.0
  }

  /** The bucket is the integer part of x taken modulo 20, so it lies in 0..19 and the key in [0, 1). */
  lemma BucketIsFloorMod(x: real)
    ensures Bucket(x) == x.Floor % 20
    ensures 0 <= Bucket(x) < 20
    ensures 0.0 <= ColorKey(x) < 1.0
  {
    var k := (x / 20.0).Floor;
    var y := x - 20.0 * (k as real);
    assert 0.0 <= y < 20.0;
    assert y.Floor == x.Floor - 20 * k by {
      assert (y.Floor + 20 * k) as real <= x < (y.Floor + 20 * k) as real + 1.0;
    }
    assert x.Floor == 20 * k + y.Floor && 0 <= y.Floor < 20;
  }

  // ------------------------------------------------------------------
  // The overlay
  // ------------------------------------------------------------------

  /** One filled disk of radius 1 per kept point, at its pixel and in its colour. */
  function Disks(pixels: seq<Pixel>, colors: seq<Color>): (cmds: seq<DrawCommand>)
    requires |pixels| == |colors|
    ensures |cmds| == |pixels|
    ensures forall i :: 0 <= i < |pixels| ==> cmds[i] == Circle(pixels[i], 1, colors[i], -1)
  {
    seq(|pixels|, i requires 0 <= i < |pixels| => Circle(pixels[i], 1, colors[i], -1))
  }

  /** The drawing comprehension: one cv2.circle call per kept pixel, in order, into the image in place. */
  method DrawDisks(image: Image, pixels: seq<Pixel>, colors: seq<Color>)
    requires |pixels| == |colors|
    modifies image
    ensures image.drawn == old(image.drawn) + Disks(pixels, colors)
  {
    ghost var disks := Disks(pixels, colors);
    for i := 0 to |pixels|
      invariant image.drawn == old(image.drawn) + disks[..i]
    {
      image.DrawCircle(pixels[i], 1, colors[i], -1);
      assert disks[..i + 1] == disks[..i] + [disks[i]];
    }
    assert disks[..|pixels|] == disks;
  }

  /** Projects LiDAR points onto one camera, whose pose relative to the LiDAR is the extrinsic transformation. */
  class LidarCameraVisualizationHandler {
    const cameraInfo: CameraInfo
    const extrinsic: RigidTransformation
    /** The "jet" colormap, scaled to 0-255 per channel. */
    const jet: real -> Color

    constructor (cameraInfo: CameraInfo, extrinsic: RigidTransformation, jet: real -> Color)
      ensures this.cameraInfo == cameraInfo && this.extrinsic == extrinsic && this.jet == jet
    {
      this.cameraInfo := cameraInfo;
      this.extrinsic := extrinsic;
      this.jet := jet;
    }

    /** The pixel of each point under the extrinsic pose and the camera intrinsics. */
    function Pixels(points: seq<Point3>, project: Projector): (pixels: seq<Pixel>)
      ensures |pixels| == |points|
    {
      ProjectPoints(project, points, extrinsic.rodrigues(extrinsic.rotation), extrinsic.translation,
                    cameraInfo.K, cameraInfo.distCoeffs)
    }

    /** The pixel of one point. */
    function PixelOf(p: Point3, project: Projector): Pixel
    {
      project(p, extrinsic.rodrigues(extrinsic.rotation), extrinsic.translation, cameraInfo.K, cameraInfo.distCoeffs)
    }

    /** The disk drawn for one point. */
    function Disk(p: Point3, project: Projector): DrawCommand
    {
      Circle(PixelOf(p, project), 1, jet(ColorKey(p.x)), -1)
    }

    /** The points in front of the sensor whose pixel lies inside a width x height image, in cloud order. */
    function Kept(cloud: seq<Point3>, width: int, height: int, project: Projector): (kept: seq<Point3>)
      ensures |kept| <= |FrontOfSensor(cloud)|
    {
      var front := FrontOfSensor(cloud);
      ApplyMask(front, KeepMask(Pixels(front, project), width, height))
    }

    /** The colour of each kept point. */
    function Colors(kept: seq<Point3>): (colors: seq<Color>)
      ensures |colors| == |kept|
      ensures forall i :: 0 <= i < |kept| ==> colors[i] == jet(ColorKey(kept[i].x))
    {
      seq(|kept|, i requires 0 <= i < |kept| => jet(ColorKey(kept[i].x)))
    }

    /** Everything the overlay draws on a width x height image. */
    function Overlay(cloud: seq<Point3>, width: int, height: int, project: Projector): (cmds: seq<DrawCommand>)
      ensures |cmds| <= |FrontOfSensor(cloud)|
    {
      var front := FrontOfSensor(cloud);
      var pixels := Pixels(front, project);
      var mask := KeepMask(pixels, width, height);
      Disks(ApplyMask(pixels, mask), Colors(ApplyMask(front, mask)))
    }

    /** The overlay is one disk per kept point, at that point's own pixel and in that point's colour. */
    lemma OverlayIsDisksOfKept(cloud: seq<Point3>, width: int, height: int, project: Projector)
      ensures |Overlay(cloud, width, height, project)| == |Kept(cloud, width, height, project)|
      ensures forall i :: 0 <= i < |Kept(cloud, width, height, project)| ==>
        Overlay(cloud, width, height, project)[i] == Disk(Kept(cloud, width, height, project)[i], project)
    {
      var front := FrontOfSensor(cloud);
      var rvec := extrinsic.rodrigues(extrinsic.rotation);
      var pixels := Pixels(front, project);
      var mask := KeepMask(pixels, width, height);
      var kept := ApplyMask(front, mask);
      MaskAligned(project, front, rvec, extrinsic.translation, cameraInfo.K, cameraInfo.distCoeffs, mask);
      ProjectPointsPointwise(project, kept, rvec, extrinsic.translation, cameraInfo.K, cameraInfo.distCoeffs);
    }

    /** A point is kept exactly when it is in the cloud, in front of the sensor, and its pixel is inside the image. */
    lemma KeptMembers(cloud: seq<Point3>, width: int, height: int, project: Projector, p: Point3)
      ensures p in Kept(cloud, width, height, project) <==>
        p in cloud && p.x > 0.0 && InImage(PixelOf(p, project), width, height)
    {
      var front := FrontOfSensor(cloud);
      var pixels := Pixels(front, project);
      var mask := KeepMask(pixels, width, height);
      FrontOfSensorMembers(cloud, p);
      ApplyMaskMembers(front, mask, p);
      ProjectPointsPointwise(project, front, extrinsic.rodrigues(extrinsic.rotation), extrinsic.translation,
                             cameraInfo.K, cameraInfo.distCoeffs);
      if p in front && InImage(PixelOf(p, project), width, height) {
        var i :| 0 <= i < |front| && front[i] == p;
        assert mask[i];
      }
    }

    /**
     * Every disk comes from a point of the cloud in front of the sensor whose
     * pixel lies in the image, and every such point gets its disk.
     */
    lemma OverlaySoundAndComplete(cloud: seq<Point3>, width: int, height: int, project: Projector)
      ensures forall d :: d in Overlay(cloud, width, height, project) ==>
        exists p :: p in cloud && p.x > 0.0 && InImage(PixelOf(p, project), width, height) && d == Disk(p, project)
      ensures forall p :: p in cloud && p.x > 0.0 && InImage(PixelOf(p, project), width, height) ==>
        Disk(p, project) in Overlay(cloud, width, height, project)
    {
      var kept := Kept(cloud, width, height, project);
      var overlay := Overlay(cloud, width, height, project);
      OverlayIsDisksOfKept(cloud, width, height, project);
      forall d | d in overlay
        ensures exists p :: p in cloud && p.x > 0.0 && InImage(PixelOf(p, project), width, height) && d == Disk(p, project)
      {
        var i :| 0 <= i < |overlay| && overlay[i] == d;
        KeptMembers(cloud, width, height, project, kept[i]);
      }
      forall p | p in cloud && p.x > 0.0 && InImage(PixelOf(p, project), width, height)
        ensures Disk(p, project) in overlay
      {
        KeptMembers(cloud, width, height, project, p);
        var i :| 0 <= i < |kept| && kept[i] == p;
        assert overlay[i] == Disk(p, project);
      }
    }

    /** At most one disk per point in front of the sensor, which are at most all the points. */
    lemma OverlayCount(cloud: seq<Point3>, width: int, height: int, project: Projector)
      ensures |Overlay(cloud, width, height, project)| <= |FrontOfSensor(cloud)| <= |cloud|
    {
      OverlayIsDisksOfKept(cloud, width, height, project);
    }

    /**
     * project_point_cloud_on_image on an image already loaded (null when it
     * could not be read) and a cloud already loaded (empty when it could not
     * be read): filter, project, mask, colour, then draw one disk per kept
     * point into the image in place.
     */
    method ProjectPointCloudOnImage(image: Image?, cloud: seq<Point3>, project: Projector) returns (r: Result<Image>)
      requires extrinsic.Valid()
      modifies image, extrinsic`rotationVec
      ensures extrinsic.Valid()
      ensures image == null ==> r == Err(ImageUnreadable) && extrinsic.rotationVec == old(extrinsic.rotationVec)
      ensures image != null && |cloud| == 0 ==>
        r == Err(EmptyPointCloud) && image.drawn == old(image.drawn) && extrinsic.rotationVec == old(extrinsic.rotationVec)
      ensures image != null && |cloud| > 0 ==>
        && r == Ok(image)
        && image.drawn == old(image.drawn) + Overlay(cloud, image.width, image.height, project)
        && extrinsic.rotationVec == Some(extrinsic.rodrigues(extrinsic.rotation))
    {
      if image == null {
        return Err(ImageUnreadable);
      }
      if |cloud| == 0 {
        return Err(EmptyPointCloud);
      }
      var xyz := FrontOfSensor(cloud);
      var rvec := extrinsic.RotationVec();
      var pixels := ProjectPoints(project, xyz, rvec, extrinsic.translation, cameraInfo.K, cameraInfo.distCoeffs);
      var mask := KeepMask(pixels, image.width, image.height);
      var keptPixels := ApplyMask(pixels, mask);
      var kept := ApplyMask(xyz, mask);
      var colors := Colors(kept);
      DrawDisks(image, keptPixels, colors);
      r := Ok(image);
    }
  }
}
