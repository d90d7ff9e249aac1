/**
 * Drawing 3-D boxes on a camera image: the eight projected corners of a box
 * are joined by a fixed pattern of twelve edges, each drawn as a line in the
 * colour of the box's label.
 */
module CameraVisualization {
  import opened Common
  import opened Drawing
  import opened Types

  /** An edge of a box, joining corner a to corner b. */
  datatype Edge = Edge(a: nat, b: nat)

  /**
   * The edge the drawing loop visits at step e (0, 1 or 2) of round k
   * (0 to 3): a bottom edge, the top edge above it, then the vertical edge
   * at corner k.
   */
  function EdgeAt(k: nat, e: nat): (edge: Edge)
    requires k < 4 && e < 3
    ensures edge.a < 8 && edge.b < 8 && edge.a != edge.b
    ensures e == 2 ==> edge.b == edge.a + 4
    ensures e < 2 ==> edge.a / 4 == edge.b / 4 == e && edge.b % 4 == (edge.a + 1) % 4
  {
    if e == 0 then Edge(k, (k + 1) % 4)
    else if e == 1 then Edge(k + 4, (k + 1) % 4 + 4)
    else Edge(k, k + 4)
  }

  /** The twelve edges of a box, in drawing order. */
  const BoxEdges: seq<Edge> := [
    Edge(0, 1), Edge(4, 5), Edge(0, 4),
    Edge(1, 2), Edge(5, 6), Edge(1, 5),
    Edge(2, 3), Edge(6, 7), Edge(2, 6),
    Edge(3, 0), Edge(7, 4), Edge(3, 7)
  ]

  /** The loop's formula enumerates exactly the edge list, three edges per round. */
  lemma EdgeOrder(k: nat, e: nat)
    requires k < 4 && e < 3
    ensures 3 * k + e < |BoxEdges| && BoxEdges[3 * k + e] == EdgeAt(k, e)
  {
  }

  /** Every edge joins two distinct corners among the eight. */
  lemma EdgesInRange()
    ensures |BoxEdges| == 12
    ensures forall i :: 0 <= i < |BoxEdges| ==> BoxEdges[i].a < 8 && BoxEdges[i].b < 8
    ensures forall i :: 0 <= i < |BoxEdges| ==> BoxEdges[i].a != BoxEdges[i].b
  {
  }

  /** The same corners, in either order. */
  predicate SameEnds(x: Edge, y: Edge)
  {
    (x.a == y.a && x.b == y.b) || (x.a == y.b && x.b == y.a)
  }

  /** No segment is drawn twice, in either direction. */
  lemma EdgesDistinct()
    ensures forall i, j :: 0 <= i < j < |BoxEdges| ==> !SameEnds(BoxEdges[i], BoxEdges[j])
  {
  }

  /** The positions in the edge list of the edges that touch corner c. */
  function Incident(c: nat): set<nat>
  {
    set i: nat | i < |BoxEdges| && (BoxEdges[i].a == c || BoxEdges[i].b == c)
  }

  /** Every corner is an end of exactly three edges: one bottom or top neighbour on each side, and one vertical. */
  lemma CornerDegree(c: nat)
    requires c < 8
    ensures |Incident(c)| == 3
  {
    var q := c % 4;
    var prev := (q + 3) % 4;
    var expected: set<nat> := if c < 4 then {3 * q, 3 * prev, 3 * q + 2} else {3 * q + 1, 3 * prev + 1, 3 * q + 2};
    assert Incident(c) == expected;
  }

  /** An edge of the bottom face (corners 0-3). */
  predicate Bottom(x: Edge) { x.a < 4 && x.b < 4 }

  /** An edge of the top face (corners 4-7). */
  predicate Top(x: Edge) { x.a >= 4 && x.b >= 4 }

  /**
   * Four edges lie in the bottom face, each from a corner to the next one
   * round 0-1-2-3-0; four lie in the top face, round 4-5-6-7-4; the other
   * four join a corner i to the corner i + 4 above it.
   */
  lemma BoxFaceCycles()
    ensures (set i | 0 <= i < |BoxEdges| && Bottom(BoxEdges[i])) == {0, 3, 6, 9}
    ensures (set i | 0 <= i < |BoxEdges| && Top(BoxEdges[i])) == {1, 4, 7, 10}
    ensures (set i | 0 <= i < |BoxEdges| && !Bottom(BoxEdges[i]) && !Top(BoxEdges[i])) == {2, 5, 8, 11}
    ensures forall i :: 0 <= i < |BoxEdges| && Bottom(BoxEdges[i]) ==> BoxEdges[i].b == (BoxEdges[i].a + 1) % 4
    ensures forall i :: 0 <= i < |BoxEdges| && Top(BoxEdges[i]) ==> BoxEdges[i].b == (BoxEdges[i].a - 3) % 4 + 4
    ensures forall i :: 0 <= i < |BoxEdges| && !Bottom(BoxEdges[i]) && !Top(BoxEdges[i]) ==>
              BoxEdges[i].b == BoxEdges[i].a + 4
    ensures forall c :: 0 <= c < 4 ==> BoxEdges[3 * c].a == c && BoxEdges[3 * c + 1].a == c + 4
  {
  }

  /** The twelve lines of one box, written out in drawing order from its eight projected corners. */
  function BoxCommands(pixels: seq<Pixel>, color: Color): (cmds: seq<DrawCommand>)
    requires |pixels| == 8
    ensures |cmds| == |BoxEdges|
  {
    [Line(pixels[0], pixels[1], color, 2), Line(pixels[4], pixels[5], color, 2), Line(pixels[0], pixels[4], color, 2),
     Line(pixels[1], pixels[2], color, 2), Line(pixels[5], pixels[6], color, 2), Line(pixels[1], pixels[5], color, 2),
     Line(pixels[2], pixels[3], color, 2), Line(pixels[6], pixels[7], color, 2), Line(pixels[2], pixels[6], color, 2),
     Line(pixels[3], pixels[0], color, 2), Line(pixels[7], pixels[4], color, 2), Line(pixels[3], pixels[7], color, 2)]
  }

  /** Line i of a box joins the projections of the two corners of edge i of the edge list. */
  lemma BoxCommandsFollowEdges(pixels: seq<Pixel>, color: Color)
    requires |pixels| == 8
    ensures forall i :: 0 <= i < |BoxEdges| ==>
      BoxCommands(pixels, color)[i] == Line(pixels[BoxEdges[i].a], pixels[BoxEdges[i].b], color, 2)
  {
  }

  /** Every line of a box has the box's colour and thickness 2. */
  lemma BoxCommandsUniform(pixels: seq<Pixel>, color: Color)
    requires |pixels| == 8
    ensures forall i :: 0 <= i < |BoxCommands(pixels, color)| ==>
      BoxCommands(pixels, color)[i].Line? && BoxCommands(pixels, color)[i].color == color
      && BoxCommands(pixels, color)[i].thickness == 2
  {
  }

  /** The nested edge loop: the twelve lines of one box, drawn into the image in order. */
  method DrawBox(image: Image, pixels: seq<Pixel>, color: Color)
    requires |pixels| == 8
    modifies image
    ensures image.drawn == old(image.drawn) + BoxCommands(pixels, color)
  {
    ghost var cmds := BoxCommands(pixels, color);
    for k := 0 to 4
      invariant image.drawn == old(image.drawn) + cmds[..3 * k]
    {
      for e := 0 to 3
        invariant image.drawn == old(image.drawn) + cmds[..3 * k + e]
      {
        var edge := EdgeAt(k, e);
        EdgeOrder(k, e);
        image.DrawLine(pixels[edge.a], pixels[edge.b], color, 2);
        assert cmds[..3 * k + e + 1] == cmds[..3 * k + e] + [cmds[3 * k + e]];
      }
    }
    assert cmds[..12] == cmds;
  }

  /** Draws labelled boxes with one colour per label of the dataset. */
  class CameraVisualizationHandler {
    const cameraInfo: CameraInfo
    const dataset: Dataset

    constructor (cameraInfo: CameraInfo, dataset: Dataset)
      ensures this.cameraInfo == cameraInfo && this.dataset == dataset
    {
      this.cameraInfo := cameraInfo;
      this.dataset := dataset;
    }

    /** A box can be drawn when its label names one of the dataset's colours. */
    predicate Drawable(obj: Object3D)
    {
      0 <= obj.labelId < |dataset.colors|
    }

    /** Why a box cannot be drawn: the label guard, or the colour lookup past the end. */
    function Failure(obj: Object3D): (e: Error)
      requires !Drawable(obj)
      ensures e == NegativeLabel <==> obj.labelId < 0
      ensures e == IndexOutOfRange <==> obj.labelId >= |dataset.colors|
    {
      if obj.labelId < 0 then NegativeLabel else IndexOutOfRange
    }

    /** The lines of one box: its corners projected with the pose's rotation vector and translation. */
    function LinesFor(obj: Object3D, rigid: RigidTransformation, project: Projector): (cmds: seq<DrawCommand>)
      requires |obj.corners| == 8 && Drawable(obj)
      ensures |cmds| == 12
    {
      var pixels := ProjectPoints(project, obj.corners, rigid.rodrigues(rigid.rotation), rigid.translation,
                                  cameraInfo.K, cameraInfo.distCoeffs);
      BoxCommands(pixels, dataset.colors[obj.labelId])
    }

    /** The position of the first box that cannot be drawn, or the number of boxes when all can. */
    function FirstFailure(objs: seq<Object3D>): (n: nat)
      ensures n <= |objs|
      ensures forall j :: 0 <= j < n ==> Drawable(objs[j])
      ensures n < |objs| ==> !Drawable(objs[n])
    {
      if |objs| == 0 || !Drawable(objs[0]) then 0
      else
        assert forall j :: 1 <= j < |objs| ==> objs[j] == objs[1..][j - 1];
        1 + FirstFailure(objs[1..])
    }

    /** The lines of several boxes, box after box. */
    function LinesForAll(objs: seq<Object3D>, rigid: RigidTransformation, project: Projector): (cmds: seq<DrawCommand>)
      requires forall i :: 0 <= i < |objs| ==> |objs[i].corners| == 8 && Drawable(objs[i])
      ensures |cmds| == 12 * |objs|
    {
      if |objs| == 0 then []
      else LinesForAll(objs[..|objs| - 1], rigid, project) + LinesFor(objs[|objs| - 1], rigid, project)
    }

    /** Drawing one more box appends its lines. */
    lemma LinesForAllStep(objs: seq<Object3D>, n: nat, rigid: RigidTransformation, project: Projector)
      requires n < |objs|
      requires forall i :: 0 <= i <= n ==> |objs[i].corners| == 8 && Drawable(objs[i])
      ensures LinesForAll(objs[..n + 1], rigid, project)
              == LinesForAll(objs[..n], rigid, project) + LinesFor(objs[n], rigid, project)
    {
      assert objs[..n + 1][..n] == objs[..n];
    }

    /**
     * draw_object3d: the label guard, the projection of the eight corners
     * (which computes the pose's rotation vector), then the twelve lines,
     * drawn into the image in place.
     */
    method DrawObject3D(image: Image, obj: Object3D, rigid: RigidTransformation, project: Projector)
      returns (r: Result<Image>)
      requires |obj.corners| == 8 && rigid.Valid()
      modifies image, rigid`rotationVec
      ensures rigid.Valid()
      ensures obj.labelId < 0 ==> rigid.rotationVec == old(rigid.rotationVec)
      ensures obj.labelId >= 0 ==> rigid.rotationVec == Some(rigid.rodrigues(rigid.rotation))
      ensures r.Ok? <==> Drawable(obj)
      ensures r.Ok? ==> r.value == image && image.drawn == old(image.drawn) + LinesFor(obj, rigid, project)
      ensures r.Err? ==> r.error == Failure(obj) && image.drawn == old(image.drawn)
    {
      if obj.labelId < 0 {
        return Err(NegativeLabel);
      }
      var rvec := rigid.RotationVec();
      var pixels := ProjectPoints(project, obj.corners, rvec, rigid.translation, cameraInfo.K, cameraInfo.distCoeffs);
      if obj.labelId >= |dataset.colors| {
        return Err(IndexOutOfRange);
      }
      DrawBox(image, pixels, dataset.colors[obj.labelId]);
      r := Ok(image);
    }

    /**
     * draw_object3ds: the boxes in list order onto the same image; the first
     * box that cannot be drawn ends the call, with the boxes before it drawn.
     */
    method DrawObject3Ds(image: Image, objs: seq<Object3D>, rigid: RigidTransformation, project: Projector)
      returns (r: Result<Image>)
      requires forall i :: 0 <= i < |objs| ==> |objs[i].corners| == 8
      requires rigid.Valid()
      modifies image, rigid`rotationVec
      ensures rigid.Valid()
      ensures r.Ok? <==> FirstFailure(objs) == |objs|
      ensures r.Ok? ==> r.value == image
      ensures r.Err? ==> r.error == Failure(objs[FirstFailure(objs)])
      ensures image.drawn == old(image.drawn) + LinesForAll(objs[..FirstFailure(objs)], rigid, project)
    {
      for n := 0 to |objs|
        invariant rigid.Valid()
        invariant forall j :: 0 <= j < n ==> Drawable(objs[j])
        invariant image.drawn == old(image.drawn) + LinesForAll(objs[..n], rigid, project)
      {
        var drawn := DrawObject3D(image, objs[n], rigid, project);
        if drawn.Err? {
          return Err(drawn.error);
        }
        LinesForAllStep(objs, n, rigid, project);
      }
      assert objs[..|objs|] == objs;
      r := Ok(image);
    }
  }
}
