/**
 * The overlay that outlines the recognised food items on the photo. Each box
 * is four fractions of the view's size, read as (left, right, top, bottom);
 * box i is stroked in the i-th of six colours, cycling.
 */
module BoundingBoxes {
  import opened Wrappers

  /** The number of colours in `boundingBoxColors`. */
  const ColorCount: nat := 6

  /** A box as the view's tuple: `(b.0, b.1, b.2, b.3)`. */
  datatype Box = Box(b0: real, b1: real, b2: real, b3: real)

  datatype Rect = Rect(x: real, y: real, width: real, height: real)

  /** One stroked rectangle and the index of its colour. */
  datatype Stroke = Stroke(rect: Rect, color: nat)

  /** `drawBoundingBox`'s rectangle in a view of `viewWidth` by `viewHeight` points. */
  function BoxRect(viewWidth: real, viewHeight: real, b: Box): (r: Rect)
    ensures r.x == viewWidth * b.b0 && r.y == viewHeight * b.b2
    ensures r.x + r.width == viewWidth * b.b1 && r.y + r.height == viewHeight * b.b3
  {
    Rect(viewWidth * b.b0, viewHeight * b.b2, viewWidth * (b.b1 - b.b0), viewHeight * (b.b3 - b.b2))
  }

  /** In a view with a size, the rectangle has a width exactly when right lies past left, and a height likewise. */
  lemma RectNonEmpty(viewWidth: real, viewHeight: real, b: Box)
    requires viewWidth > 0.0 && viewHeight > 0.0
    ensures BoxRect(viewWidth, viewHeight, b).width > 0.0 <==> b.b1 > b.b0
    ensures BoxRect(viewWidth, viewHeight, b).height > 0.0 <==> b.b3 > b.b2
  {
    var r := BoxRect(viewWidth, viewHeight, b);
    if b.b1 > b.b0 {
      MulPositive(viewWidth, b.b1 - b.b0);
    } else {
      MulNonPositive(viewWidth, b.b1 - b.b0);
    }
    if b.b3 > b.b2 {
      MulPositive(viewHeight, b.b3 - b.b2);
    } else {
      MulNonPositive(viewHeight, b.b3 - b.b2);
    }
  }

  lemma MulPositive(a: real, b: real)
    requires a > 0.0 && b > 0.0
    ensures a * b > 0.0
  {
  }

  lemma MulNonPositive(a: real, b: real)
    requires a > 0.0 && b <= 0.0
    ensures a * b <= 0.0
  {
  }

  /** What `draw` strokes for a list of boxes: box i in colour `i mod 6`. */
  function Strokes(viewWidth: real, viewHeight: real, boxes: seq<Box>): (s: seq<Stroke>)
    ensures |s| == |boxes|
    ensures forall i :: 0 <= i < |boxes| ==> s[i] == Stroke(BoxRect(viewWidth, viewHeight, boxes[i]), i % ColorCount)
  {
    seq(|boxes|, i requires 0 <= i < |boxes| => Stroke(BoxRect(viewWidth, viewHeight, boxes[i]), i % ColorCount))
  }

  /** Neighbouring boxes get different colours, and boxes six apart the same one. */
  lemma ColorsCycle(viewWidth: real, viewHeight: real, boxes: seq<Box>, i: nat)
    requires i + 1 < |boxes|
    ensures Strokes(viewWidth, viewHeight, boxes)[i].color < ColorCount
    ensures Strokes(viewWidth, viewHeight, boxes)[i].color != Strokes(viewWidth, viewHeight, boxes)[i + 1].color
    ensures i + ColorCount < |boxes| ==>
      Strokes(viewWidth, viewHeight, boxes)[i].color == Strokes(viewWidth, viewHeight, boxes)[i + ColorCount].color
  {
  }

  class BoundingBoxView {
    var boundingBoxes: Option<seq<Box>>
    /** Whether a redraw has been requested. */
    var needsDisplay: bool
    /** `bounds.width` and `bounds.height`. */
    var width: real
    var height: real
    /** The rectangles stroked so far, in order. */
    var strokes: seq<Stroke>

    constructor (viewWidth: real, viewHeight: real)
      ensures boundingBoxes == None && !needsDisplay && width == viewWidth && height == viewHeight
      ensures strokes == []
    {
      boundingBoxes := None;
      needsDisplay := false;
      width := viewWidth;
      height := viewHeight;
      strokes := [];
    }

    /** Assigning the boxes: a new list asks for a redraw, nil does not. */
    method SetBoundingBoxes(boxes: Option<seq<Box>>)
      modifies this
      ensures boundingBoxes == boxes
      ensures boxes.Some? ==> needsDisplay
      ensures boxes.None? ==> needsDisplay == old(needsDisplay)
      ensures width == old(width) && height == old(height) && strokes == old(strokes)
    {
      boundingBoxes := boxes;
      if boxes.None? {
        return;
      }
      needsDisplay := true;
    }

    /** `draw`: one stroke per box, in order (the boxes must be set). */
    method Draw()
      requires boundingBoxes.Some?
      modifies this
      ensures strokes == old(strokes) + Strokes(old(width), old(height), old(boundingBoxes).value)
      ensures boundingBoxes == old(boundingBoxes) && needsDisplay == old(needsDisplay)
      ensures width == old(width) && height == old(height)
    {
      var boxes := boundingBoxes.value;
      var index := 0;
      while index < |boxes|
        invariant 0 <= index <= |boxes|
        invariant strokes == old(strokes) + Strokes(width, height, boxes[..index])
        invariant boundingBoxes == old(boundingBoxes) && needsDisplay == old(needsDisplay)
        invariant width == old(width) && height == old(height)
      {
        DrawBoundingBox(boxes[index], index % ColorCount);
        assert Strokes(width, height, boxes[..index + 1]) ==
          Strokes(width, height, boxes[..index]) + [Stroke(BoxRect(width, height, boxes[index]), index % ColorCount)];
        index := index + 1;
      }
      assert boxes[..index] == boxes;
    }

    /** `drawBoundingBox`: one rectangle stroked in one colour. */
    method DrawBoundingBox(box: Box, color: nat)
      modifies this
      ensures strokes == old(strokes) + [Stroke(BoxRect(old(width), old(height), box), color)]
      ensures boundingBoxes == old(boundingBoxes) && needsDisplay == old(needsDisplay)
      ensures width == old(width) && height == old(height)
    {
      var rect := BoxRect(width, height, box);
      strokes := strokes + [Stroke(rect, color)];
    }
  }
}
