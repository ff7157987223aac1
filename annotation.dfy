/**
 * The per-frame selection and annotation rule of the video shape tracker: which contours
 * of a frame are outlined and labelled, in which order, and where the label goes.
 * The annotated copy of the frame is modelled by the sequence of drawing calls made on it.
 */
module FrameAnnotation {
  import opened ShapeClassifier

  datatype Option<T> = None | Some(value: T)

  datatype Point = Point(x: int, y: int)

  /** The raw geometric moments of a contour that the centroid uses. */
  datatype Moments = Moments(m00: real, m10: real, m01: real)

  /**
   * One contour of a frame: the index of its first child in the contour hierarchy
   * (-1 when it has none), its measurements and its moments.
   */
  datatype Contour = Contour(firstChild: int, measures: Measurements, moments: Moments)

  /** The drawing calls made on the annotated copy of a frame. */
  datatype DrawOp =
    | Outline(index: nat)            // the contour with this index is outlined
    | Text(caption: string, origin: Point) // a label is written from a point
    | Dot(center: Point)             // a small filled dot marks a centroid

  /** n is x rounded toward zero. */
  predicate RoundsTowardZero(x: real, n: int)
  {
    (x >= 0.0 ==> n as real <= x < n as real + 1.0) &&
    (x < 0.0 ==> n as real - 1.0 < x <= n as real)
  }

  /** The conversion of a floating-point value to an integer: truncation toward zero. */
  function Trunc(x: real): (n: int)
    ensures RoundsTowardZero(x, n)
  {
    if x >= 0.0 then x.Floor else -((-x).Floor)
  }

  /** Truncation toward zero leaves only one candidate. */
  lemma RoundsTowardZeroUnique(x: real, n: int, k: int)
    requires RoundsTowardZero(x, n) && RoundsTowardZero(x, k)
    ensures n == k
  {
  }

  /** The centroid of a contour, absent when its zeroth moment is 0. */
  function Centroid(m: Moments): (c: Option<Point>)
    ensures c.Some? <==> m.m00 != 0.0
    ensures c.Some? ==>
      RoundsTowardZero(m.m10 / m.m00, c.value.x) && RoundsTowardZero(m.m01 / m.m00, c.value.y)
  {
    if m.m00 != 0.0 then Some(Point(Trunc(m.m10 / m.m00), Trunc(m.m01 / m.m00))) else None
  }

  /** Contours smaller than this area are dropped: 0.05% of the frame. */
  function MinArea(rows: nat, cols: nat): real
  {
    (rows * cols) as real * 0.0005
  }

  /** Whether the contour is annotated: it has a child, is large enough and is not Noise. */
  predicate Annotated(c: Contour, minArea: real)
  {
    c.firstChild != -1 && c.measures.area >= minArea && DetectShape(c.measures) != Noise
  }

  predicate Increasing(s: seq<nat>)
  {
    forall i, j :: 0 <= i < j < |s| ==> s[i] < s[j]
  }

  /**
   * kept lists, in increasing order, exactly the indices below bound of the
   * contours that are annotated.
   */
  predicate IsSelectionBelow(contours: seq<Contour>, minArea: real, kept: seq<nat>, bound: nat)
    requires bound <= |contours|
  {
    Increasing(kept) &&
    (forall k :: 0 <= k < |kept| ==> kept[k] < bound && Annotated(contours[kept[k]], minArea)) &&
    (forall i :: 0 <= i < bound && Annotated(contours[i], minArea) ==> i in kept)
  }

  predicate IsSelection(contours: seq<Contour>, minArea: real, kept: seq<nat>)
  {
    IsSelectionBelow(contours, minArea, kept, |contours|)
  }

  /** What is drawn for one annotated contour: its outline, then label and dot at its centroid. */
  function ContourOps(i: nat, c: Contour): seq<DrawOp>
  {
    [Outline(i)] +
    match Centroid(c.moments)
    case None => []
    case Some(p) => [Text(Name(DetectShape(c.measures)), Point(p.x - 25, p.y)), Dot(p)]
  }

  /** Everything drawn for the kept contours, in the order they are kept. */
  function DrawAll(contours: seq<Contour>, kept: seq<nat>): seq<DrawOp>
    requires forall k :: 0 <= k < |kept| ==> kept[k] < |contours|
  {
    if kept == [] then []
    else DrawAll(contours, kept[..|kept| - 1]) + ContourOps(kept[|kept| - 1], contours[kept[|kept| - 1]])
  }

  /** The indices of the outlined contours, in drawing order. */
  function Outlined(ops: seq<DrawOp>): seq<nat>
  {
    if ops == [] then []
    else Outlined(ops[..|ops| - 1]) + if ops[|ops| - 1].Outline? then [ops[|ops| - 1].index] else []
  }

  lemma {:induction false} OutlinedAppend(a: seq<DrawOp>, b: seq<DrawOp>)
    ensures Outlined(a + b) == Outlined(a) + Outlined(b)
  {
    if b == [] {
      assert a + b == a;
    } else {
      var b' := b[..|b| - 1];
      assert (a + b)[..|a + b| - 1] == a + b';
      OutlinedAppend(a, b');
    }
  }

  /** Exactly the kept contours are outlined, each once, in the order they are kept. */
  lemma {:induction false} OutlinesAreKept(contours: seq<Contour>, kept: seq<nat>)
    requires forall k :: 0 <= k < |kept| ==> kept[k] < |contours|
    ensures Outlined(DrawAll(contours, kept)) == kept
  {
    if kept != [] {
      var n := |kept| - 1;
      var i := kept[n];
      var c := contours[i];
      OutlinesAreKept(contours, kept[..n]);
      OutlinedAppend(DrawAll(contours, kept[..n]), ContourOps(i, c));
      var tail := ContourOps(i, c)[1..];
      assert ContourOps(i, c) == [Outline(i)] + tail;
      OutlinedAppend([Outline(i)], tail);
      assert Outlined([Outline(i)]) == [i] by {
        assert [Outline(i)][..0] == [];
      }
      assert Outlined(tail) == [] by {
        if tail != [] {
          assert tail[..|tail| - 1] == tail[..1];
          assert Outlined(tail[..1]) == [] by { assert tail[..1][..0] == []; }
        }
      }
      assert kept == kept[..n] + [i];
    }
  }

  /**
   * A non-empty sequence holds its head. Called without a precondition just before an
   * `assert false`, it supplies the fact that closes an impossible case without any
   * checked statement standing in that case.
   */
  lemma HeadIsElement(s: seq<nat>)
    ensures |s| > 0 ==> s[0] in s
  {
  }

  /** Two increasing sequences with the same elements are equal. */
  lemma {:induction false} IncreasingUnique(a: seq<nat>, b: seq<nat>)
    requires Increasing(a) && Increasing(b)
    requires forall x :: x in a <==> x in b
    ensures a == b
  {
    if a == [] || b == [] {
      if a != b {
        HeadIsElement(a);
        HeadIsElement(b);
        assert false;
      }
    } else {
      assert a[0] == b[0] by {
        assert a[0] in b;
        assert b[0] in a;
      }
      forall x
        ensures x in a[1..] <==> x in b[1..]
      {
        if x in a[1..] {
          assert x in b;
        }
        if x in b[1..] {
          assert x in a;
        }
      }
      IncreasingUnique(a[1..], b[1..]);
      assert a == [a[0]] + a[1..] && b == [b[0]] + b[1..];
    }
  }

  /** The selection rule determines the kept indices completely. */
  lemma SelectionUnique(contours: seq<Contour>, minArea: real, kept: seq<nat>, other: seq<nat>)
    requires IsSelection(contours, minArea, kept) && IsSelection(contours, minArea, other)
    ensures kept == other
  {
    forall x
      ensures x in kept <==> x in other
    {
      if x in kept {
        var k :| 0 <= k < |kept| && kept[k] == x;
      }
      if x in other {
        var k :| 0 <= k < |other| && other[k] == x;
      }
    }
    IncreasingUnique(kept, other);
  }

  /**
   * The frame loop: walks the contours in index order, skips the leaves of the hierarchy,
   * the contours below the area floor and the Noise ones, and annotates the rest.
   */
  method AnnotateFrame(contours: seq<Contour>, rows: nat, cols: nat) returns (kept: seq<nat>, ops: seq<DrawOp>)
    ensures IsSelection(contours, MinArea(rows, cols), kept)
    ensures forall k :: 0 <= k < |kept| ==> kept[k] < |contours|
    ensures ops == DrawAll(contours, kept)
    ensures Outlined(ops) == kept
  {
    kept, ops := [], [];
    for i := 0 to |contours|
      invariant IsSelectionBelow(contours, MinArea(rows, cols), kept, i)
      invariant ops == DrawAll(contours, kept)
    {
      if contours[i].firstChild == -1 {
        continue;
      }
      var minArea := MinArea(rows, cols);
      if contours[i].measures.area < minArea {
        continue;
      }
      var shape := DetectShape(contours[i].measures);
      if shape == Noise {
        continue;
      }
      ops := ops + ContourOps(i, contours[i]);
      kept := kept + [i];
    }
    OutlinesAreKept(contours, kept);
  }
}
