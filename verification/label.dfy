/**
 * The typed label records the renderer consumes (the XML already parsed),
 * the abstract drawing commands it emits, the foreign capabilities it is
 * given, and the errors that abort a render.
 */
module Label {
  import opened Results

  /** A positive count, e.g. the module count a barcode encoder reports. */
  type Pos = n: nat | n > 0 witness 1

  /** An object's `Bounds` attributes, in twips, origin at the label's top-left, y downward. */
  datatype Bounds = Bounds(x: real, y: real, width: real, height: real)

  /** A box in page space, in points: `(x, y)` is the top-left corner, y upward. */
  datatype Box = Box(x: real, y: real, width: real, height: real)

  datatype Rgb = Rgb(red: int, green: int, blue: int)

  /** A `Font`/`TextFont` element: its `Family` attribute and its `Size` as a number. */
  datatype FontAttr = FontAttr(family: string, size: real)

  /** A `BackColor` element: a colour and its `Alpha` attribute as an integer. */
  datatype BackColor = BackColor(color: Rgb, alpha: int)

  /** One `StyledText Element`: its optional `Attributes Font` and its `String`. */
  datatype StyledElement = StyledElement(font: Option<FontAttr>, text: string)

  datatype TextData = TextData(
    name: Option<string>,
    foreColor: Rgb,
    backColor: Option<BackColor>,
    verticalized: Option<string>,
    horizontalAlignment: string,
    verticalAlignment: string,
    textFitMode: string,
    elements: seq<StyledElement>)

  datatype ShapeData = ShapeData(shapeType: string, lineWidth: real)

  datatype BarcodeData = BarcodeData(
    barcodeType: string,
    text: string,
    size: Option<string>,
    textPosition: Option<string>,
    textFont: FontAttr,
    foreColor: Rgb)

  /**
   * The first element child of an `ObjectInfo`. Elements named by
   * `HandledTags` parse to their own variants; `OtherObject` holds the name
   * of any other element, so a well-formed one never carries a handled name.
   */
  datatype Element =
    | TextObject(text: TextData)
    | ShapeObject(shape: ShapeData)
    | BarcodeObject(barcode: BarcodeData)
    | OtherObject(tag: string)

  /** The element names the renderer dispatches on. */
  const HandledTags: set<string> := {"TextObject", "ShapeObject", "BarcodeObject"}

  /** An element as parsing produces it: an unhandled element never bears a handled name. */
  predicate WellFormedElement(e: Element) {
    e.OtherObject? ==> e.tag !in HandledTags
  }

  datatype ObjectInfo = ObjectInfo(bounds: Bounds, element: Element)

  /** The parts of a label document the renderer reads. */
  datatype LabelDoc = LabelDoc(
    paperOrientation: Option<string>,
    paperName: Option<string>,
    objects: seq<ObjectInfo>)

  datatype VAlign = VTop | VBottom | VCenter
  datatype HAlign = HLeft | HRight | HCenter
  datatype Overflow = Truncate | ShrinkToFit

  /** The character set forced on a Code 128 symbol; `Auto` lets the encoder choose. */
  datatype Code128Set = Auto | SetA | SetB | SetC

  /** Everything handed to the PDF library's text box. */
  datatype TextRequest = TextRequest(
    text: string,
    fontFile: string,
    size: real,
    x: real,
    y: real,
    width: real,
    height: real,
    overflow: Overflow,
    align: HAlign,
    valign: VAlign,
    singleLine: bool)

  /**
   * What laying out a text box reports: whether the text could be fitted at
   * all (the library raises otherwise), the font descender and the height of
   * the laid-out text.
   */
  datatype BoxMetrics = BoxMetrics(fits: bool, descender: real, height: real)

  /** The drawing primitives, in page space. */
  datatype Command =
    | Fill(color: Rgb, box: Box)
    | Text(color: Rgb, request: TextRequest, atY: real)
    | HorizontalLine(lineWidth: real, x1: real, x2: real, atY: real)
    | StrokeRectangle(lineWidth: real, box: Box)
    | QrCode(x: real, y: real, xdim: real, ydim: real)
    | Code128(x: real, y: real, xdim: real, barHeight: real)

  /**
   * The renderer's construction parameters and its foreign collaborators:
   * font directories, file existence and path joining, the parameter map,
   * the QR error-correction level, text-box layout and barcode encoding.
   */
  datatype Env = Env(
    fontDirs: seq<string>,
    fileExists: string -> bool,
    join: (string, string) -> string,
    params: map<string, string>,
    qrLevel: Option<string>,
    textBox: TextRequest -> BoxMetrics,
    qrModules: (string, Option<string>) -> Pos,
    code128Modules: (string, Code128Set) -> Pos)

  /** Failures that abort a whole render. */
  datatype RenderError =
    | UnknownPaperSize(paperName: string)
    | MissingPaperName
    | UndefinedLandscapeMargin
    | MissingFont(family: string)
    | MissingFontElement
    | UnknownQrSize(qrSize: string)
    | CaptionCannotFit
}
