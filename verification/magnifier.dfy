/**
 Geometry of the comparison widget's magnifier: a circular viewport of fixed
 diameter, centred on the pointer, inside which a copy of the original image
 is scaled by the zoom multiplier (transform origin: top left) and shifted so
 that the pointed-at point should appear at the viewport's centre.

 Coordinates are CSS pixels, local to the comparison container (the pointer
 has already had the container's bounding box subtracted). Which part of an
 image a point shows is described in box-normalised coordinates: an image box
 of size (w, h) displays at box point (bx, by) the content at (bx / w, by / h),
 so two boxes of the same aspect ratio show the same content at the same
 normalised point. The 2-pixel border of the viewport is not modelled.
 */
module Magnifier {

  /** A point, in CSS pixels or (for `ShownAt` / `PointedAt`) in normalised box units. */
  datatype Point = Point(x: real, y: real)

  /** A box size in CSS pixels. */
  datatype Size = Size(width: real, height: real)

  predicate NonEmpty(s: Size) {
    s.width > 0.0 && s.height > 0.0
  }

  /** Diameter of the magnifier viewport (the `w-32 h-32` circle). */
  const Diameter: real := 128.0

  /** Half the diameter: the offset from the viewport's corner to its centre. */
  const Half: real := 64.0

  /** The viewport's own centre, in viewport-local coordinates. */
  const Centre: Point := Point(Half, Half)

  /**
   Where the viewport sits in the container (`left`, `top`), where the scaled
   copy sits in the viewport (`contentLeft`, `contentTop`), the scale factor,
   and the size of the copy's box before scaling.
   */
  datatype Placement = Placement(left: real, top: real, contentLeft: real, contentTop: real,
                                 scale: int, box: Size)

  /** The content at container point `p` of the main image, which fills the container. */
  function PointedAt(p: Point, container: Size): Point
    requires NonEmpty(container)
  {
    Point(p.x / container.width, p.y / container.height)
  }

  /** The content the magnifier shows at viewport point `q`. */
  function ShownAt(pl: Placement, q: Point): Point
    requires pl.scale > 0 && NonEmpty(pl.box)
  {
    Point((q.x - pl.contentLeft) / (pl.scale as real * pl.box.width),
          (q.y - pl.contentTop) / (pl.scale as real * pl.box.height))
  }

  /**
   The placement as the widget computes it: the copy's box is `100%` of the
   viewport, so it is always Diameter x Diameter before scaling, whatever
   the size of the container the pointer moves in.
   */
  function AsWritten(anchor: Point, m: int): (pl: Placement)
    requires m > 0
    ensures pl.left + Half == anchor.x && pl.top + Half == anchor.y
    ensures pl.contentLeft + anchor.x * m as real == Half
    ensures pl.contentTop + anchor.y * m as real == Half
    ensures pl.scale == m && pl.box == Size(Diameter, Diameter)
  {
    Placement(anchor.x - Half, anchor.y - Half,
              -anchor.x * m as real + Half, -anchor.y * m as real + Half,
              m, Size(Diameter, Diameter))
  }

  /**
   The placement with the copy's box sized like the container, so that the
   scaled copy is the main image magnified; the offsets are unchanged.
   */
  function Corrected(anchor: Point, m: int, container: Size): (pl: Placement)
    requires m > 0 && NonEmpty(container)
    ensures pl.left + Half == anchor.x && pl.top + Half == anchor.y
    ensures pl.contentLeft + anchor.x * m as real == Half
    ensures pl.contentTop + anchor.y * m as real == Half
    ensures pl.scale == m && pl.box == container
    ensures ShownAt(pl, Centre) == PointedAt(anchor, container)
  {
    var pl := Placement(anchor.x - Half, anchor.y - Half,
                        -anchor.x * m as real + Half, -anchor.y * m as real + Half,
                        m, container);
    CentreShows(pl, anchor, container);
    pl
  }

  /** Scaling a box by `m` and shifting it so that `anchor * m` meets the centre shows `anchor`'s content. */
  lemma CentreShows(pl: Placement, anchor: Point, container: Size)
    requires pl.scale > 0 && NonEmpty(container) && pl.box == container
    requires pl.contentLeft + anchor.x * pl.scale as real == Half
    requires pl.contentTop + anchor.y * pl.scale as real == Half
    ensures ShownAt(pl, Centre) == PointedAt(anchor, container)
  {
    var m := pl.scale as real;
    assert Half - pl.contentLeft == anchor.x * m;
    assert Half - pl.contentTop == anchor.y * m;
    assert (anchor.x * m) / (m * container.width) == anchor.x / container.width;
    assert (anchor.y * m) / (m * container.height) == anchor.y / container.height;
  }

  /**
   As written, the viewport's centre shows the horizontal position under the
   pointer only when the container is exactly one viewport wide (for any
   pointer not on the container's left edge).
   */
  lemma AsWrittenCentredIffViewportWide(anchor: Point, m: int, container: Size)
    requires m > 0 && NonEmpty(container) && anchor.x != 0.0
    ensures ShownAt(AsWritten(anchor, m), Centre).x == PointedAt(anchor, container).x
            <==> container.width == Diameter
  {
    var mr := m as real;
    var shown := ShownAt(AsWritten(anchor, m), Centre).x;
    assert shown == (anchor.x * mr) / (mr * Diameter);
    assert shown == anchor.x / Diameter;
    if anchor.x / Diameter == anchor.x / container.width {
      assert anchor.x * container.width == anchor.x * Diameter;
    }
  }

  /**
   A concrete case: a 512 x 500 container, the pointer at its middle, the
   lowest zoom (2). The main image shows its midpoint there, but the
   magnifier's centre shows a point twice the image's width to the right,
   i.e. outside the image altogether.
   */
  lemma AsWrittenMissesMidpoint()
    ensures PointedAt(Point(256.0, 250.0), Size(512.0, 500.0)) == Point(0.5, 0.5)
    ensures ShownAt(AsWritten(Point(256.0, 250.0), 2), Centre).x == 2.0
  {
    var pl := AsWritten(Point(256.0, 250.0), 2);
    assert pl.contentLeft == -448.0;
    assert Centre.x - pl.contentLeft == 512.0;
  }
}
