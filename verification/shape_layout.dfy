/** Stroke geometry for horizontal lines and rectangles. */
module ShapeLayout {
  import opened Units
  import opened Label

  /** Empirical vertical offset of a horizontal line from its box's top edge, in points. */
  const HorizontalLineFudge: real := -2.5

  /**
   * The commands for a shape object in page-space box `box`. A horizontal
   * line is as thick as the box is tall and spans exactly the box's width,
   * 2.5 points below its top edge; a rectangle strokes the box itself with
   * the `LineWidth` (twips) in points. Any other shape draws nothing.
   */
  function RenderShape(s: ShapeData, box: Box): (r: seq<Command>)
    ensures |r| <= 1
    ensures r == [] <==> s.shapeType != "HorizontalLine" && s.shapeType != "Rectangle"
    ensures s.shapeType == "HorizontalLine" ==>
              && r[0].HorizontalLine?
              && r[0].x1 == box.x
              && r[0].x2 - r[0].x1 == box.width
              && r[0].lineWidth == box.height
              && box.y - r[0].atY == 2.5
    ensures s.shapeType == "Rectangle" ==>
              && r[0].StrokeRectangle?
              && r[0].box == box
              && PointsToTwips(r[0].lineWidth) == s.lineWidth
  {
    if s.shapeType == "HorizontalLine" then
      [HorizontalLine(box.height, box.x, box.x + box.width, box.y + HorizontalLineFudge)]
    else if s.shapeType == "Rectangle" then
      [StrokeRectangle(LineWidthToPoints(s.lineWidth), box)]
    else
      []
  }
}
