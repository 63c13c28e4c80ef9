/**
 * The crop-rectangle builder of `process_obj_images` (main.cpp): the four
 * corners of the final face crop, computed from the 68 landmark points that
 * the shape predictor places on the aligned face chip.
 */
module Geometry {

  /** A dlib point in chip pixel coordinates; y grows downwards. */
  datatype Point = Point(x: int, y: int)

  /** The four corners the source keeps in `bl`, `br`, `tl` and `tr`. */
  datatype Corners = Corners(bl: Point, br: Point, tl: Point, tr: Point)

  // Positions in the 68-point landmark scheme that the source reads.
  const EarLeft: nat := 0
  const EarRight: nat := 16
  const MouthLeft: nat := 5
  const MouthRight: nat := 11
  const JawLeft: nat := 4
  const JawRight: nat := 12
  const BrowLeft: nat := 19
  const BrowRight: nat := 24

  function Max(a: int, b: int): int { if a < b then b else a }

  function Min(a: int, b: int): int { if a < b then a else b }

  /**
   * The crop corners, step by step as the source computes them: take the jaw
   * points as the bottom corners and level them to the lower one (larger y),
   * put the top corners above them at the brow heights, then level those to
   * the higher brow (smaller y). The ear and mouth points are read and
   * dropped, as in the source.
   *
   * The contract states the closed form: both edges are horizontal, the
   * bottom edge lies on the lower jaw point and below or on both of them, the
   * top edge lies on the higher brow point and above or on both of them, and
   * the sides keep the jaw x-coordinates.
   */
  function CropCorners(L: seq<Point>): (c: Corners)
    requires |L| > BrowRight
    ensures c.bl.x == L[JawLeft].x && c.tl.x == L[JawLeft].x
    ensures c.br.x == L[JawRight].x && c.tr.x == L[JawRight].x
    ensures c.bl.y == c.br.y
    ensures c.bl.y >= L[JawLeft].y && c.bl.y >= L[JawRight].y
    ensures c.bl.y == L[JawLeft].y || c.bl.y == L[JawRight].y
    ensures c.tl.y == c.tr.y
    ensures c.tl.y <= L[BrowLeft].y && c.tl.y <= L[BrowRight].y
    ensures c.tl.y == L[BrowLeft].y || c.tl.y == L[BrowRight].y
  {
    var ear0, ear1 := L[EarLeft], L[EarRight];
    var mouth0, mouth1 := L[MouthLeft], L[MouthRight];
    var brow0, brow1 := L[BrowLeft], L[BrowRight];
    var bl0, br0 := L[JawLeft], L[JawRight];
    var maxY := Max(bl0.y, br0.y);
    var bl, br := bl0.(y := maxY), br0.(y := maxY);
    var tl0, tr0 := Point(bl.x, brow0.y), Point(br.x, brow1.y);
    var minY := Min(tl0.y, tr0.y);
    Corners(bl, br, tl0.(y := minY), tr0.(y := minY))
  }

  /** The landmark positions the corners are built from. */
  predicate SameAnchors(L: seq<Point>, M: seq<Point>)
    requires |L| > BrowRight && |M| > BrowRight
  {
    L[JawLeft] == M[JawLeft] && L[JawRight] == M[JawRight] &&
    L[BrowLeft].y == M[BrowLeft].y && L[BrowRight].y == M[BrowRight].y
  }

  /**
   * The corners depend on nothing but the two jaw points and the heights of
   * the two brow points: the ear and mouth points (and the brow
   * x-coordinates) may be anything.
   */
  lemma CropDependsOnlyOnAnchors(L: seq<Point>, M: seq<Point>)
    requires |L| > BrowRight && |M| > BrowRight
    requires SameAnchors(L, M)
    ensures CropCorners(L) == CropCorners(M)
  {
  }

  /**
   * Levelling is a fixpoint: running the builder on landmarks whose jaw and
   * brow points already are the computed corners gives the same corners back.
   */
  lemma CropCornersIdempotent(L: seq<Point>)
    requires |L| > BrowRight
    ensures var c := CropCorners(L);
      CropCorners(L[JawLeft := c.bl][JawRight := c.br][BrowLeft := c.tl][BrowRight := c.tr]) == c
  {
  }

  /** A worked case: a tilted face whose left jaw sits higher and whose right brow sits higher. */
  lemma CropCornersExample(L: seq<Point>)
    requires |L| > BrowRight
    requires L[JawLeft] == Point(10, 50) && L[JawRight] == Point(90, 55)
    requires L[BrowLeft] == Point(20, 10) && L[BrowRight] == Point(80, 8)
    ensures CropCorners(L).tl == Point(10, 8) && CropCorners(L).br == Point(90, 55)
    ensures CropCorners(L).bl == Point(10, 55) && CropCorners(L).tr == Point(90, 8)
  {
  }
}
