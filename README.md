# Shape classification and frame annotation of a video shape tracker

The tracker reads video frames, finds contours with a vision library, and labels each
contour as Noise, Triangle, Square, Rectangle, Pentagon, Hexagon, Circle or Oval. It
outlines and labels the chosen contours on a copy of each frame. This project models the
two parts of `main.cpp` that make decisions:

- `classifier.dfy`, module `ShapeClassifier`: `detectShape` as the pure function
  `DetectShape`. Its inputs are the values the library computes for one contour, gathered
  in a `Measurements` record: closed perimeter, vertex count of the approximating polygon,
  bounding-rectangle sides, polygon area and contour area. Labels are the datatype `Shape`;
  `Name` gives the text drawn for each.
- `annotation.dfy`, module `FrameAnnotation`: the body of the frame loop as the method
  `AnnotateFrame`. It walks the contours in index order and skips leaves of the contour
  hierarchy (first child -1), contours below the area floor `rows * cols * 0.0005`, and
  Noise. The rest are annotated. The annotated image is modelled as the sequence of drawing
  calls made on it: an outline, and, when the zeroth moment is not 0, the label text at
  `(cx - 25, cy)` and a dot at the centroid `(cx, cy)`. The centroid uses truncation
  toward zero, like the C++ conversion from double to int.

The vision library's results enter as inputs. Doubles are `real`. Pi is the decimal
constant the library defines. The bounding-rectangle sides have type `Side` (integers
>= 1) because the library never returns an empty rectangle; this keeps the two ratios
defined.

The code computes the tolerance and the approximating polygon before the perimeter test
(main.cpp:9-15); both are discarded when the perimeter is below 40, so the label does not
depend on that order. The model takes the vertex count as an input measured with
tolerance `Epsilon(perimeter)`.

## Model

| member | source | states |
|---|---|---|
| ShapeClassifier.Epsilon | main.cpp:10 | the tolerance is at least 3.0 and at least 0.02 x perimeter, is one of the two, and is exactly 3.0 iff perimeter <= 150 |
| ShapeClassifier.DetectShape | main.cpp:7-41 | the label is Noise iff the perimeter is below 40, whatever the other measurements |
| ShapeClassifier.NameInjective | main.cpp:14-39 | two labels have the same text iff they are the same label, so comparing texts against "Noise" is comparing labels |
| ShapeClassifier.PolygonLabels | main.cpp:14-20 | Triangle, Pentagon and Hexagon come exactly from perimeter >= 40 with 3, 5 and 6 vertices |
| ShapeClassifier.QuadrilateralLabels | main.cpp:21-31 | a 4-vertex contour with perimeter >= 40 is Square or Rectangle; Square iff 0.85 h <= w <= 1.15 h (inclusive) and polygon area > 0.85 w h (strict) |
| ShapeClassifier.SquareBoundaries | main.cpp:26-30 | aspect exactly 1.15 or 0.85 with fill 0.9 is Square; fill exactly 0.85 is Rectangle; a 2:1 box is Rectangle; a 50 by 50 square is Square |
| ShapeClassifier.RoundLabels | main.cpp:36-39 | any other vertex count with perimeter >= 40 is Circle or Oval; Circle iff 4 pi area > 0.8 perimeter^2 |
| ShapeClassifier.CircularityBoundary | main.cpp:38-39 | a circularity of exactly 0.8 gives Oval |
| ShapeClassifier.DiscIsCircle | main.cpp:36-39 | measurements of a disc (perimeter 2 pi r >= 40, area pi r^2) with a non-polygon vertex count give Circle |
| ShapeClassifier.AreaOnlyMattersWhenRound | main.cpp:14-37 | the contour's own area changes nothing unless the round branch is taken |
| ShapeClassifier.BoxOnlyMattersForQuadrilaterals | main.cpp:21-39 | the bounding box and polygon area change nothing unless there are 4 vertices |
| FrameAnnotation.Trunc | main.cpp:93-94 | the integer conversion rounds toward zero: n <= x < n + 1 for x >= 0, n - 1 < x <= n for x < 0 |
| FrameAnnotation.RoundsTowardZeroUnique | main.cpp:93-94 | at most one integer rounds a value toward zero, so Trunc's contract determines it |
| FrameAnnotation.Centroid | main.cpp:90-94 | a centroid exists iff m00 != 0, and its coordinates are m10/m00 and m01/m00 rounded toward zero |
| FrameAnnotation.AnnotateFrame | main.cpp:76-98 | kept indices are increasing, each has a child, area >= rows x cols x 0.0005 and a label other than Noise, and every such index is kept; the drawing calls are outline, then label at (cx - 25, cy) and dot at the centroid, per kept contour in order |
| FrameAnnotation.OutlinesAreKept | main.cpp:76-88 | exactly the kept contours are outlined, once each, in the order they are kept |
| FrameAnnotation.SelectionUnique | main.cpp:76-87 | the three skip conditions determine the kept index sequence completely |

## Left out

- Video capture, the writer, frame rate and delay arithmetic, release calls, the display
  window, keyboard handling and the console code page: these are I/O and user interface.
- The vision library's own algorithms: grayscale conversion, blur, Otsu threshold, Canny
  edges, contour extraction, polygon approximation, arc length, areas, bounding
  rectangle, moments and the drawing primitives. Their results are inputs, and drawing is
  recorded as a `DrawOp`. Font, colours and stroke widths are not recorded.
- The Canny thresholds `0.5 T` and `T`: they are only passed to the library.
- IEEE double rounding: all arithmetic is exact over `real`. Pi is its decimal literal,
  not the nearest double.
- FrameAnnotation.Trunc: does not model the undefined behaviour of converting a double
  outside the `int` range; likewise the `int` arithmetic of the label anchor `cx - 25`
  and of the product `rows * cols` in the area floor is unbounded in the model, so
  32-bit overflow there is not modelled (it cannot occur for pixel-sized values).
- ShapeClassifier.FillRatio: the product `rect.width * rect.height` is exact; 32-bit
  overflow of that product is not modelled.
- That `detectShape` is deterministic and returns exactly one of the eight labels holds
  by construction: it is a Dafny function whose result type is the eight-label datatype.
