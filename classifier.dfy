/**
 * The shape classifier of the video shape tracker: one contour, summarised by the
 * measurements the vision library computes for it, is mapped to one shape label.
 */
module ShapeClassifier {

  /** The eight labels the classifier can return; Noise means "do not annotate". */
  datatype Shape = Noise | Triangle | Square | Rectangle | Pentagon | Hexagon | Circle | Oval

  /** The text drawn next to an annotated contour. */
  function Name(s: Shape): string
  {
    match s
    case Noise => "Noise"
    case Triangle => "Triangle"
    case Square => "Square"
    case Rectangle => "Rectangle"
    case Pentagon => "Pentagon"
    case Hexagon => "Hexagon"
    case Circle => "Circle"
    case Oval => "Oval"
  }

  /** Comparing label texts, as the frame loop does, is comparing labels. */
  lemma NameInjective(s: Shape, t: Shape)
    ensures Name(s) == Name(t) <==> s == t
  {
  }

  /** The decimal expansion the vision library gives for pi. */
  const Pi: real := 3.1415926535897932384626433832795

  /** Contours with a shorter closed perimeter are Noise. */
  const MinPerimeter: real := 40.0

  /** A side of a bounding rectangle: the library never returns an empty one. */
  type Side = n: int | n >= 1 witness 1

  /**
   * What the vision library reports for one contour:
   * - perimeter: the closed arc length of the contour;
   * - vertices: the number of vertices of the polygon approximating the contour
   *   with tolerance Epsilon(perimeter);
   * - rectWidth, rectHeight: the bounding rectangle of that polygon;
   * - approxArea: the area of that polygon;
   * - area: the area of the contour itself.
   */
  datatype Measurements = Measurements(
    perimeter: real,
    vertices: nat,
    rectWidth: Side,
    rectHeight: Side,
    approxArea: real,
    area: real)

  /** The polygon-approximation tolerance: 2% of the perimeter, but never below 3 pixels. */
  function Epsilon(perimeter: real): (eps: real)
    ensures eps >= 3.0 && eps >= 0.02 * perimeter
    ensures eps == 3.0 || eps == 0.02 * perimeter
    ensures eps == 3.0 <==> perimeter <= 150.0
  {
    if 3.0 < 0.02 * perimeter then 0.02 * perimeter else 3.0
  }

  /** Width over height of the bounding rectangle. */
  function AspectRatio(m: Measurements): real
  {
    m.rectWidth as real / m.rectHeight as real
  }

  /** How much of the bounding rectangle the approximated polygon fills. */
  function FillRatio(m: Measurements): real
  {
    m.approxArea / (m.rectWidth * m.rectHeight) as real
  }

  /** The isoperimetric ratio of the original contour; 1 for a perfect disc. */
  function Circularity(m: Measurements): real
    requires m.perimeter >= MinPerimeter
  {
    4.0 * Pi * m.area / (m.perimeter * m.perimeter)
  }

  /** The classifier: perimeter test first, then a dispatch on the vertex count. */
  function DetectShape(m: Measurements): (s: Shape)
    ensures s == Noise <==> m.perimeter < MinPerimeter
  {
    if m.perimeter < MinPerimeter then Noise
    else if m.vertices == 3 then Triangle
    else if m.vertices == 4 then
      var aspect := AspectRatio(m);
      if aspect >= 0.85 && aspect <= 1.15 && FillRatio(m) > 0.85 then Square else Rectangle
    else if m.vertices == 5 then Pentagon
    else if m.vertices == 6 then Hexagon
    else if Circularity(m) > 0.8 then Circle
    else Oval
  }

  /** The vertex counts that have a label of their own. */
  predicate IsPolygonCount(n: nat)
  {
    3 <= n <= 6
  }

  /** Vertex counts 3, 5 and 6 are labelled by their count alone, and only by it. */
  lemma PolygonLabels(m: Measurements)
    ensures DetectShape(m) == Triangle <==> m.perimeter >= MinPerimeter && m.vertices == 3
    ensures DetectShape(m) == Pentagon <==> m.perimeter >= MinPerimeter && m.vertices == 5
    ensures DetectShape(m) == Hexagon <==> m.perimeter >= MinPerimeter && m.vertices == 6
  {
  }

  /**
   * A quadrilateral is a Square exactly when its bounding box is between 0.85 and 1.15
   * as wide as high (both ends included) and the polygon fills more than 85% of the
   * box; every other quadrilateral is a Rectangle. Stated without divisions.
   */
  lemma QuadrilateralLabels(m: Measurements)
    requires m.perimeter >= MinPerimeter && m.vertices == 4
    ensures DetectShape(m) == Square || DetectShape(m) == Rectangle
    ensures DetectShape(m) == Square <==>
              0.85 * m.rectHeight as real <= m.rectWidth as real <= 1.15 * m.rectHeight as real
              && m.approxArea > 0.85 * (m.rectWidth * m.rectHeight) as real
  {
    var w, h := m.rectWidth as real, m.rectHeight as real;
    var box := (m.rectWidth * m.rectHeight) as real;
    assert box == w * h > 0.0;
    RatioBounds(w, h, 0.85);
    RatioBounds(w, h, 1.15);
    RatioBounds(m.approxArea, box, 0.85);
    assert AspectRatio(m) == w / h;
    assert FillRatio(m) == m.approxArea / box;
  }

  /** Comparing a quotient with a bound is comparing the numerator with the scaled denominator. */
  lemma RatioBounds(x: real, d: real, k: real)
    requires d > 0.0
    ensures x / d >= k <==> x >= k * d
    ensures x / d <= k <==> x <= k * d
    ensures x / d > k <==> x > k * d
  {
    assert x == (x / d) * d;
  }

  /**
   * Both inclusive ends of the aspect window (23/20 = 1.15 and 17/20 = 0.85), the strict
   * fill threshold (340/400 = 0.85), a 2:1 box, and an axis-aligned 50 by 50 square.
   */
  lemma SquareBoundaries(perimeter: real, approxArea: real, area: real)
    requires perimeter >= MinPerimeter
    ensures DetectShape(Measurements(perimeter, 4, 23, 20, 414.0, area)) == Square
    ensures DetectShape(Measurements(perimeter, 4, 17, 20, 306.0, area)) == Square
    ensures DetectShape(Measurements(perimeter, 4, 20, 20, 340.0, area)) == Rectangle
    ensures DetectShape(Measurements(perimeter, 4, 100, 50, approxArea, area)) == Rectangle
    ensures DetectShape(Measurements(200.0, 4, 50, 50, 2500.0, area)) == Square
  {
    QuadrilateralLabels(Measurements(perimeter, 4, 23, 20, 414.0, area));
    QuadrilateralLabels(Measurements(perimeter, 4, 17, 20, 306.0, area));
    QuadrilateralLabels(Measurements(perimeter, 4, 20, 20, 340.0, area));
    QuadrilateralLabels(Measurements(perimeter, 4, 100, 50, approxArea, area));
    QuadrilateralLabels(Measurements(200.0, 4, 50, 50, 2500.0, area));
  }

  /**
   * Any other vertex count (0, 1, 2 or 7 and more) is a Circle exactly when
   * 4 pi area > 0.8 perimeter^2, and an Oval otherwise.
   */
  lemma RoundLabels(m: Measurements)
    requires m.perimeter >= MinPerimeter && !IsPolygonCount(m.vertices)
    ensures DetectShape(m) == Circle || DetectShape(m) == Oval
    ensures DetectShape(m) == Circle <==> 4.0 * Pi * m.area > 0.8 * (m.perimeter * m.perimeter)
  {
    var p2 := m.perimeter * m.perimeter;
    assert p2 >= MinPerimeter * m.perimeter >= MinPerimeter * MinPerimeter > 0.0;
    RatioBounds(4.0 * Pi * m.area, p2, 0.8);
    assert Circularity(m) == 4.0 * Pi * m.area / p2;
  }

  /** A circularity of exactly 0.8 is an Oval. */
  lemma CircularityBoundary(m: Measurements)
    requires m.perimeter >= MinPerimeter && !IsPolygonCount(m.vertices)
    requires 4.0 * Pi * m.area == 0.8 * (m.perimeter * m.perimeter)
    ensures DetectShape(m) == Oval
  {
    RoundLabels(m);
  }

  /** A contour measured like a disc of radius r (perimeter 2 pi r, area pi r^2) is a Circle. */
  lemma DiscIsCircle(m: Measurements, r: real)
    requires r > 0.0 && !IsPolygonCount(m.vertices)
    requires m.perimeter == 2.0 * Pi * r >= MinPerimeter && m.area == Pi * r * r
    ensures DetectShape(m) == Circle
  {
    RoundLabels(m);
    assert 4.0 * Pi * m.area == (m.perimeter * m.perimeter);
  }

  /** Only the round branch looks at the contour's own area. */
  lemma AreaOnlyMattersWhenRound(m: Measurements, area: real)
    requires m.perimeter < MinPerimeter || IsPolygonCount(m.vertices)
    ensures DetectShape(m.(area := area)) == DetectShape(m)
  {
  }

  /** The round branch ignores the approximated polygon's box and area. */
  lemma BoxOnlyMattersForQuadrilaterals(m: Measurements, w: Side, h: Side, approxArea: real)
    requires m.vertices != 4
    ensures DetectShape(m.(rectWidth := w, rectHeight := h, approxArea := approxArea)) == DetectShape(m)
  {
    var m' := m.(rectWidth := w, rectHeight := h, approxArea := approxArea);
    if m.perimeter >= MinPerimeter && !IsPolygonCount(m.vertices) {
      assert Circularity(m') == Circularity(m);
    }
  }
}
