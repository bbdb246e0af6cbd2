/**
 * Placing barcodes: QR module size and centring, and for Code 128 the
 * optional caption, the quiet zone and horizontal centring. Encoding is the
 * collaborators' business: they report only the module count.
 */
module BarcodeLayout {
  import opened Results
  import opened Label
  import FontSearch
  import TextLayout

  /** 72 points per inch over 300 printer dots per inch. */
  const PointsPerDot: real := 0.24

  /** Printer dots per QR module edge, by `Size`, converted to points. */
  const DimPtSizes: map<string, real> :=
    map["Small" := PointsPerDot * 4.0, "Medium" := PointsPerDot * 5.0, "Large" := PointsPerDot * 6.0]

  /** The barcode kinds the renderer knows, with the set a Code 128 symbol is forced into. */
  datatype Symbology = QrSymbology | Code128Symbology(charSet: Code128Set)

  /** Dispatch on the `Type` text; `None` for kinds that are skipped. */
  function SymbologyOf(t: string): (r: Option<Symbology>)
    ensures r == Some(QrSymbology) <==> t == "QRCode"
    ensures r == Some(Code128Symbology(Auto)) <==> t == "Code128Auto"
    ensures r == Some(Code128Symbology(SetA)) <==> t == "Code128A"
    ensures r == Some(Code128Symbology(SetB)) <==> t == "Code128B"
    ensures r == Some(Code128Symbology(SetC)) <==> t == "Code128C"
    ensures r.None? <==> t !in {"QRCode", "Code128Auto", "Code128A", "Code128B", "Code128C"}
  {
    if t == "QRCode" then Some(QrSymbology)
    else if t == "Code128Auto" then Some(Code128Symbology(Auto))
    else if t == "Code128A" then Some(Code128Symbology(SetA))
    else if t == "Code128B" then Some(Code128Symbology(SetB))
    else if t == "Code128C" then Some(Code128Symbology(SetC))
    else None
  }

  /**
   * The QR module edge in points for the `Size` text, Small when absent;
   * `None` for a size the table does not know (the source then fails).
   */
  function QrModuleSize(size: Option<string>): (r: Option<real>)
    ensures size.None? || size == Some("Small") ==> r == Some(0.96)
    ensures size == Some("Medium") ==> r == Some(1.2)
    ensures size == Some("Large") ==> r == Some(1.44)
    ensures r.None? <==> size.Some? && size.value !in {"Small", "Medium", "Large"}
  {
    var s := if size.Some? then size.value else "Small";
    if s in DimPtSizes then Some(DimPtSizes[s]) else None
  }

  /** Bottom-left corner and side length of a square QR symbol. */
  datatype QrPlacement = QrPlacement(x: real, y: real, side: real)

  /**
   * A QR symbol of `n` modules of edge `dim`, centred on the box (whose
   * bottom edge is `box.y - box.height`), whether or not it fits.
   */
  function QrPlace(box: Box, dim: real, n: Pos): (q: QrPlacement)
    ensures q.side == dim * n as real
    ensures q.x + q.side / 2.0 == box.x + box.width / 2.0
    ensures q.y + q.side / 2.0 == box.y - box.height / 2.0
  {
    var side := dim * n as real;
    var xadjust := (box.width - side) / 2.0;
    var yadjust := (box.height - side) / 2.0;
    QrPlacement(box.x + xadjust, box.y - box.height + yadjust, side)
  }

  /**
   * The symbol leaves equal gaps on opposite sides of the box; when it is
   * wider than the box those gaps are negative and it overhangs both sides.
   */
  lemma QrGapsEqual(box: Box, dim: real, n: Pos)
    ensures var q := QrPlace(box, dim, n);
            && q.x - box.x == (box.x + box.width) - (q.x + q.side)
            && q.y - (box.y - box.height) == box.y - (q.y + q.side)
            && (q.side > box.width ==> q.x < box.x && q.x + q.side > box.x + box.width)
  {
  }

  /** The commands for a QR barcode. */
  function RenderQr(b: BarcodeData, box: Box, env: Env): (r: Result<seq<Command>, RenderError>)
    ensures r.Failure? <==> QrModuleSize(b.size).None?
    ensures r.Failure? ==> r.error == UnknownQrSize(b.size.value)
    ensures r.Success? ==>
              var n := env.qrModules(b.text, env.qrLevel) as real;
              && |r.value| == 1
              && r.value[0].QrCode?
              && r.value[0].xdim == r.value[0].ydim == QrModuleSize(b.size).value
              && r.value[0].x + r.value[0].xdim * n / 2.0 == box.x + box.width / 2.0
              && r.value[0].y + r.value[0].ydim * n / 2.0 == box.y - box.height / 2.0
  {
    var n := env.qrModules(b.text, env.qrLevel);
    match QrModuleSize(b.size)
    case None => Failure(UnknownQrSize(b.size.value))
    case Some(dim) =>
      var q := QrPlace(box, dim, n);
      Success([QrCode(q.x, q.y, dim, dim)])
  }

  /** The top edge and height left for the bars. */
  datatype BarArea = BarArea(top: real, height: real)

  /**
   * A caption of laid-out height `captionHeight` takes 1.25 times that from
   * the bar height. A Top caption also moves the bars' top edge down by the
   * same amount, so the bottom edge stays where it was without a caption; a
   * Bottom caption leaves the top edge, so the bottom edge rises.
   */
  function CaptionShift(valign: VAlign, captionHeight: real, y: real, height: real): (a: BarArea)
    ensures a.height == height - 1.25 * captionHeight
    ensures valign == VTop ==> a.top - a.height == y - height
    ensures valign != VTop ==> a.top - a.height == y - height + 1.25 * captionHeight
    ensures valign == VTop ==> a.top == y - 1.25 * captionHeight
    ensures valign != VTop ==> a.top == y
  {
    var offset := captionHeight * 1.25;
    BarArea(if valign == VTop then y - offset else y, height - offset)
  }

  /** The width the bars may use and the resulting module width. */
  datatype Modules = Modules(usable: real, xdim: real)

  /**
   * The quiet-zone rule for `n` modules across `width`: reserve 20 module
   * widths (10 each side). With exact arithmetic the rule applies exactly
   * when the width is positive.
   */
  function QuietZone(width: real, n: Pos): (m: Modules)
    ensures m.xdim * n as real == m.usable
    ensures width > 0.0 ==> m.usable == width - 20.0 * (width / n as real)
    ensures width <= 0.0 ==> m.usable == width
    ensures n > 20 && width > 0.0 ==> 0.0 < m.usable < width
  {
    var nr := n as real;
    var xdim := width / nr;
    var maxWidth := width - 20.0 * xdim;
    assert nr * xdim == width;
    if nr * xdim > maxWidth then
      var m := Modules(maxWidth, maxWidth / nr);
      if n > 20 && width > 0.0 then
        ReserveFits(width, nr);
        m
      else m
    else Modules(width, xdim)
  }

  /** With more than 20 modules, 20 module widths take less than a positive width. */
  lemma ReserveFits(width: real, nr: real)
    requires nr > 20.0 && width > 0.0
    ensures 20.0 * (width / nr) < width
  {
    var xdim := width / nr;
    assert nr * xdim == width;
    assert xdim > 0.0;
    var d := nr - 20.0;
    assert d * xdim > 0.0;
    assert d * xdim == nr * xdim - 20.0 * xdim;
    assert width - 20.0 * xdim == d * xdim;
  }

  /** A Code 128 symbol of `n` modules whose middle lies at `centre`. */
  predicate CentredOn(c: Command, n: Pos, centre: real) {
    c.Code128? && c.x + c.xdim * n as real / 2.0 == centre
  }

  /** A Code 128 symbol whose `n` modules are exactly `usable` wide. */
  predicate Spans(c: Command, n: Pos, usable: real) {
    c.Code128? && c.xdim * n as real == usable
  }

  /**
   * The Code 128 symbol for `n` modules in horizontal span `[x, x + width]`
   * and bar area `area`: centred on the span, as wide as its modules.
   */
  function Code128Symbol(x: real, width: real, area: BarArea, n: Pos): (c: Command)
    ensures c.Code128?
    ensures CentredOn(c, n, x + width / 2.0)
    ensures c.y == area.top - area.height && c.barHeight == area.height
    ensures Spans(c, n, QuietZone(width, n).usable)
  {
    var m := QuietZone(width, n);
    var centerX := x + width / 2.0;
    Code128(centerX - m.usable / 2.0, area.top - area.height, m.xdim, area.height)
  }

  /**
   * With more than 20 modules and a positive span, the symbol is narrower
   * than the span and leaves at least 10 of its own modules clear on each side.
   */
  lemma QuietZoneHonoured(x: real, width: real, area: BarArea, n: Pos)
    requires n > 20 && width > 0.0
    ensures var c := Code128Symbol(x, width, area, n);
            && c.xdim * n as real < width
            && c.x - x >= 10.0 * c.xdim
            && (x + width) - (c.x + c.xdim * n as real) >= 10.0 * c.xdim
  {
    var c := Code128Symbol(x, width, area, n);
    var nr := n as real;
    var usable := c.xdim * nr;
    assert usable == width - 20.0 * (width / nr);
    assert c.x - x == 10.0 * (width / nr);
    assert c.xdim * nr < width;
    assert c.xdim < width / nr by {
      assert c.xdim * nr < (width / nr) * nr;
    }
  }

  predicate Captioned(b: BarcodeData) {
    b.textPosition == Some("Top") || b.textPosition == Some("Bottom")
  }

  /** The caption's text-box request: centred, single line, truncated, inside the 1-point padding. */
  function CaptionRequest(b: BarcodeData, fontFile: string, box: Box): TextRequest
    requires Captioned(b)
  {
    TextRequest(b.text, fontFile, b.textFont.size, box.x + 1.0, box.y, box.width - 2.0, box.height,
                Truncate, HCenter, TextLayout.ValignFrom(b.textPosition.value), true)
  }

  /**
   * The symbol drawn beside a caption of height `h`: in the padded span it is
   * still centred on the unpadded box, its bars are 1.25·h shorter than the
   * box, and its bottom edge is the box's own under a Top caption and 1.25·h
   * higher otherwise.
   */
  lemma CaptionedSymbolPlacement(box: Box, valign: VAlign, h: real, n: Pos)
    ensures var c := Code128Symbol(box.x + 1.0, box.width - 2.0, CaptionShift(valign, h, box.y, box.height), n);
            && c.Code128?
            && CentredOn(c, n, box.x + box.width / 2.0)
            && Spans(c, n, QuietZone(box.width - 2.0, n).usable)
            && c.barHeight == box.height - 1.25 * h
            && (valign == VTop ==> c.y == box.y - box.height)
            && (valign != VTop ==> c.y == box.y - box.height + 1.25 * h)
  {
  }

  /**
   * The caption and symbol once the caption's font file is known: the
   * caption must fit its single line, and the symbol takes what the
   * caption leaves of the box.
   */
  function CaptionAndSymbol(b: BarcodeData, box: Box, n: Pos, file: string, env: Env)
    : (r: Result<seq<Command>, RenderError>)
    requires Captioned(b)
    ensures r.Failure? <==> !env.textBox(CaptionRequest(b, file, box)).fits
    ensures r.Failure? ==> r.error == CaptionCannotFit
    ensures r.Success? ==>
              && |r.value| == 2
              && r.value[0].Text?
              && var caption, c := r.value[0], r.value[1];
                 var h := env.textBox(caption.request).height;
                 && caption.request == CaptionRequest(b, file, box)
                 && caption.color == b.foreColor
                 && caption.atY - caption.request.y
                    == (if b.textPosition == Some("Bottom") then env.textBox(caption.request).descender else 0.0)
                 && c.Code128?
                 && CentredOn(c, n, box.x + box.width / 2.0)
                 && Spans(c, n, QuietZone(box.width - 2.0, n).usable)
                 && c.barHeight == box.height - 1.25 * h
                 && (b.textPosition == Some("Top") ==> c.y == box.y - box.height)
                 && (b.textPosition == Some("Bottom") ==> c.y == box.y - box.height + 1.25 * h)
  {
    var req := CaptionRequest(b, file, box);
    var m := env.textBox(req);
    if !m.fits then Failure(CaptionCannotFit)
    else
      var caption := Text(b.foreColor, req, TextLayout.BoxTop(req.y, req.valign, m.descender));
      var area := CaptionShift(req.valign, m.height, box.y, box.height);
      CaptionedSymbolPlacement(box, req.valign, m.height, n);
      Success([caption, Code128Symbol(req.x, req.width, area, n)])
  }

  /**
   * A Code 128 barcode with a Top or Bottom caption: the caption text, laid
   * out centred inside the 1-point padding, then the symbol in the padded
   * span. The padding keeps the span's centre, so the symbol is centred on
   * the object's box; the bars lose 1.25 times the caption height, and their
   * bottom edge stays at the box's bottom under a Top caption but rises by
   * that amount under a Bottom caption.
   */
  function RenderCaptionedCode128(b: BarcodeData, box: Box, n: Pos, env: Env)
    : (r: Result<seq<Command>, RenderError>)
    requires Captioned(b)
    ensures r.Failure? ==> r.error == MissingFont(b.textFont.family) || r.error == CaptionCannotFit
    ensures var file := FontSearch.FontFileForFamily(env.fontDirs, b.textFont.family, env.fileExists, env.join);
            && (file.None? ==> r == Failure(MissingFont(b.textFont.family)))
            && (file.Some? ==> (r.Failure? <==> !env.textBox(CaptionRequest(b, file.value, box)).fits))
            && (file.Some? && r.Success? ==>
                  && |r.value| == 2
                  && r.value[0].Text?
                  && r.value[0].request == CaptionRequest(b, file.value, box)
                  && r.value[0].atY - r.value[0].request.y
                     == (if b.textPosition == Some("Bottom")
                         then env.textBox(r.value[0].request).descender else 0.0))
    ensures r.Success? ==>
              && |r.value| == 2
              && r.value[0].Text?
              && var caption, c := r.value[0], r.value[1];
                 var h := env.textBox(caption.request).height;
                 && caption.color == b.foreColor
                 && caption.request.text == b.text
                 && caption.request.align == HCenter
                 && caption.request.singleLine
                 && caption.request.x == box.x + 1.0
                 && caption.request.width == box.width - 2.0
                 && c.Code128?
                 && CentredOn(c, n, box.x + box.width / 2.0)
                 && Spans(c, n, QuietZone(box.width - 2.0, n).usable)
                 && c.barHeight == box.height - 1.25 * h
                 && (b.textPosition == Some("Top") ==> c.y == box.y - box.height)
                 && (b.textPosition == Some("Bottom") ==> c.y == box.y - box.height + 1.25 * h)
  {
    match FontSearch.FontFileForFamily(env.fontDirs, b.textFont.family, env.fileExists, env.join)
    case None => Failure(MissingFont(b.textFont.family))
    case Some(file) => CaptionAndSymbol(b, box, n, file, env)
  }

  /**
   * The commands for a Code 128 barcode: the caption first when one is
   * requested, then the symbol, centred on the object's box. Without a
   * caption the bars fill the box's height.
   */
  function RenderCode128(b: BarcodeData, box: Box, charSet: Code128Set, env: Env)
    : (r: Result<seq<Command>, RenderError>)
    ensures r.Failure? ==> Captioned(b)
    ensures Captioned(b) ==> r == RenderCaptionedCode128(b, box, env.code128Modules(b.text, charSet), env)
    ensures !Captioned(b) ==>
              && r.Success? && |r.value| == 1
              && var n := env.code128Modules(b.text, charSet) as real;
                 var c := r.value[0];
                 && c.Code128?
                 && c.x + c.xdim * n / 2.0 == box.x + box.width / 2.0
                 && c.xdim * n == QuietZone(box.width, n as int).usable
                 && c.y == box.y - box.height
                 && c.barHeight == box.height
  {
    var n := env.code128Modules(b.text, charSet);
    if Captioned(b) then RenderCaptionedCode128(b, box, n, env)
    else Success([Code128Symbol(box.x, box.width, BarArea(box.y, box.height), n)])
  }

  /** The commands for a barcode object; unknown kinds draw nothing. */
  function RenderBarcode(b: BarcodeData, box: Box, env: Env): (r: Result<seq<Command>, RenderError>)
    ensures SymbologyOf(b.barcodeType).None? ==> r == Success([])
    ensures SymbologyOf(b.barcodeType) == Some(QrSymbology) ==> r == RenderQr(b, box, env)
    ensures SymbologyOf(b.barcodeType).Some? && SymbologyOf(b.barcodeType).value.Code128Symbology? ==>
              r == RenderCode128(b, box, SymbologyOf(b.barcodeType).value.charSet, env)
  {
    match SymbologyOf(b.barcodeType)
    case None => Success([])
    case Some(QrSymbology) => RenderQr(b, box, env)
    case Some(Code128Symbology(charSet)) => RenderCode128(b, box, charSet, env)
  }
}
