/**
 * The image buffer that the renderers draw into. The pixels themselves are
 * not modelled: an image records, in order, the drawing calls made on it
 * (cv2.line and cv2.circle), which is all the renderers decide.
 */
module Drawing {
  import opened Common

  datatype DrawCommand =
    | Line(pt1: Pixel, pt2: Pixel, color: Color, thickness: int)
    | Circle(center: Pixel, radius: int, color: Color, thickness: int)

  class Image {
    const height: nat
    const width: nat
    /** Every drawing call made on this image so far, oldest first. */
    var drawn: seq<DrawCommand>

    constructor (height: nat, width: nat)
      ensures this.height == height && this.width == width
      ensures drawn == []
    {
      this.height := height;
      this.width := width;
      drawn := [];
    }

    /** cv2.line: draws a segment into this image in place. */
    method DrawLine(pt1: Pixel, pt2: Pixel, color: Color, thickness: int)
      modifies this
      ensures drawn == old(drawn) + [Line(pt1, pt2, color, thickness)]
    {
      drawn := drawn + [Line(pt1, pt2, color, thickness)];
    }

    /** cv2.circle: draws a disk (a negative thickness fills it) into this image in place. */
    method DrawCircle(center: Pixel, radius: int, color: Color, thickness: int)
      modifies this
      ensures drawn == old(drawn) + [Circle(center, radius, color, thickness)]
    {
      drawn := drawn + [Circle(center, radius, color, thickness)];
    }
  }
}
