/** CCanvas: an ordered, append-only list of shapes. */
module CanvasModel {
  import opened ShapeModel

  class Canvas {
    var shapes: seq<Shape>

    /** An empty canvas. */
    constructor ()
      ensures shapes == []
    {
      shapes := [];
    }

    /** Appends at the end; nothing is rejected and there is no size limit. */
    method AddShape(shape: Shape)
      modifies this
      ensures shapes == old(shapes) + [shape]
      ensures |shapes| == |old(shapes)| + 1
      ensures shapes[..|old(shapes)|] == old(shapes)
      ensures shapes[|shapes| - 1] == shape
    {
      shapes := shapes + [shape];
    }

    /** The shapes in insertion order. */
    function GetShapes(): seq<Shape>
      reads this
    {
      shapes
    }
  }
}
