/**
 * Document-level page geometry: orientation, page-size lookup, page height
 * and width, the margin array, and the transform of an object's twip
 * bounds into the PDF library's margin-box coordinates.
 */
module Geometry {
  import opened Results
  import opened Units
  import opened PageSizes
  import opened Label

  /** Landscape exactly when the `PaperOrientation` text is "Landscape". */
  function OrientationOf(paperOrientation: Option<string>): (o: Orientation)
    ensures o == Landscape <==> paperOrientation == Some("Landscape")
  {
    if paperOrientation.Some? && paperOrientation.value == "Landscape" then Landscape else Portrait
  }

  /**
   * The page size named by `PaperName`: `None` when the element is absent,
   * an error when the name is not in the registry.
   */
  function PageSizeOf(paperName: Option<string>): (r: Result<Option<PageSize>, RenderError>)
    ensures paperName.None? ==> r == Success(None)
    ensures r.Failure? <==> paperName.Some? && forall p | p in AllSizes :: p.name != paperName.value
    ensures r.Failure? ==> r.error == UnknownPaperSize(paperName.value)
    ensures r.Success? && r.value.Some? ==>
              paperName.Some? && r.value.value in AllSizes && r.value.value.name == paperName.value
    ensures paperName.Some? && ByName(paperName.value).Some? ==> r == Success(ByName(paperName.value))
  {
    match paperName
    case None => Success(None)
    case Some(n) =>
      match ByName(n)
      case None => Failure(UnknownPaperSize(n))
      case Some(p) => Success(Some(p))
  }

  /**
   * Page width and height as the document sees them: keyed on the document's
   * orientation, not on the entry's own landscape flag.
   */
  function DocPdfSize(o: Orientation, p: PageSize): (d: Dimension)
    ensures multiset{d.width, d.height} == multiset{p.dimension.width, p.dimension.height}
    ensures o == Portrait ==> d == p.dimension
    ensures o == Landscape ==> d.height == p.dimension.width && d.width == p.dimension.height
  {
    if o == Landscape then Dimension(p.dimension.height, p.dimension.width)
    else Dimension(p.dimension.width, p.dimension.height)
  }

  /** When the document orientation agrees with the entry's flag, both views of the page size agree. */
  lemma DocPdfSizeAgreesWithEntry(o: Orientation, p: PageSize)
    requires (o == Landscape) == p.landscape
    ensures DocPdfSize(o, p) == PdfSize(p)
  {
  }

  /** The resolved page: physical dimension, margin array, page height and width, layout. */
  datatype Geometry = Geometry(
    dimension: Dimension,
    margin: Margin,
    height: real,
    width: real,
    layout: Orientation)

  /**
   * The page geometry of a document, failing as building the PDF does: an
   * unknown paper name, a missing `PaperName`, or a landscape document
   * (whose margin method does not exist).
   */
  function ResolveGeometry(doc: LabelDoc): (r: Result<Geometry, RenderError>)
    ensures r.Success? <==>
              && doc.paperName.Some?
              && ByName(doc.paperName.value).Some?
              && OrientationOf(doc.paperOrientation) == Portrait
    ensures r.Success? ==>
              var p := ByName(doc.paperName.value).value;
              && r.value.dimension == p.dimension
              && r.value.margin == PdfMargin(p)
              && r.value.height == p.dimension.height
              && r.value.width == p.dimension.width
              && r.value.layout == Portrait
    ensures doc.paperName.Some? && ByName(doc.paperName.value).None? ==>
              r == Failure(UnknownPaperSize(doc.paperName.value))
    ensures doc.paperName.None? ==> r == Failure(MissingPaperName)
    ensures doc.paperName.Some? && ByName(doc.paperName.value).Some?
            && OrientationOf(doc.paperOrientation) == Landscape ==>
              r == Failure(UndefinedLandscapeMargin)
  {
    var o := OrientationOf(doc.paperOrientation);
    var size :- PageSizeOf(doc.paperName);
    match size
    case None => Failure(MissingPaperName)
    case Some(p) =>
      if o == Landscape then Failure(UndefinedLandscapeMargin)
      else
        var d := DocPdfSize(o, p);
        Success(Geometry(p.dimension, PdfMargin(p), d.height, d.width, o))
  }

  /**
   * An object's bounds in page space. The margin box's left edge is margin
   * slot 3 and its bottom edge margin slot 2, so converting back (adding the
   * margin, measuring y down from the page top, scaling by 20) recovers the
   * bounds exactly.
   */
  function ObjectBox(g: Geometry, b: Bounds): (box: Box)
    ensures PointsToTwips(box.x + g.margin[3]) == b.x
    ensures PointsToTwips(g.height - g.margin[2] - box.y) == b.y
    ensures PointsToTwips(box.width) == b.width
    ensures PointsToTwips(box.height) == b.height
  {
    Box(TwipsToPoints(b.x) - g.margin[3],
        g.height - TwipsToPoints(b.y) - g.margin[2],
        TwipsToPoints(b.width),
        TwipsToPoints(b.height))
  }

  /**
   * For a successfully resolved document the transform subtracts the
   * margins the PDF library uses for the left and bottom edges: the left and
   * bottom margins for a portrait entry, but the bottom and right margins for
   * an entry flagged landscape.
   */
  lemma ObjectBoxMargins(doc: LabelDoc, b: Bounds)
    requires ResolveGeometry(doc).Success?
    ensures var p := ByName(doc.paperName.value).value;
            var box := ObjectBox(ResolveGeometry(doc).value, b);
            && (!p.landscape ==>
                  && box.x == b.x / 20.0 - MarginLeft(p)
                  && box.y == p.dimension.height - b.y / 20.0 - MarginBottom(p))
            && (p.landscape ==>
                  && box.x == b.x / 20.0 - MarginBottom(p)
                  && box.y == p.dimension.height - b.y / 20.0 - MarginRight(p))
  {
  }
}
