# dymo_render layout core, in Dafny

A model of the layout arithmetic and selection logic of `dymo_render`, a Ruby
library that turns a DYMO label description into a one-page PDF. The model
covers:

- the page-size registry: three fixed sizes, margins derived from each
  entry's imageable area, the margin array and page size handed to the PDF
  library (Prawn), and lookup by name;
- document geometry: orientation, page-size lookup, and the transform from
  an object's `Bounds` (twips, origin top-left, y down) to Prawn's
  margin-box coordinates (points, origin bottom-left, y up);
- the per-object renderer: dispatch on object, shape and barcode kind;
  text (background fill, vertical expansion, parameter substitution,
  alignment and fit-mode tables, 1-point padding, the descender shift for
  bottom alignment); horizontal lines and rectangles; QR module size and
  centring; and Code 128 caption, quiet zone and centring;
- the font-file search over directories and extensions, and `has_graphics?`.

Everything is a pure function over immutable records and exact `real`s.
Where the source calls a library, the model takes a parameter of the
`Label.Env` record instead. These parameters are:

- `fileExists` and `join` for the filesystem;
- `textBox` for Prawn's text box, which reports whether the text fits, its
  descender and its height;
- `qrModules` and `code128Modules` for Barby's module count (`full_width`).

The output is a sequence of abstract drawing commands (`Label.Command`).
A render either returns those commands or a `Label.RenderError` for the
exceptions that abort it.

Modules, one per file: `Results` (Option/Result), `Units`, `PageSizes`
(`lib/dymo_render/page_size.rb`), `FontSearch`, `Label` (records, commands,
collaborators, errors), `Geometry`, `TextLayout`, `ShapeLayout`,
`BarcodeLayout` and `Renderer` (`lib/dymo_render.rb`).

Points where the code's behaviour is easy to misread; the model follows the
code:

- The y transform subtracts margin slot 2, which Prawn reads as the bottom
  margin, and the x transform subtracts slot 3, the left margin. This is
  the conversion into Prawn's margin box. An entry flagged landscape
  (30252, 30330) fills the slots in `[left, top, right, bottom]` order.
  Under a portrait document those entries therefore subtract their bottom
  and right margins (`Geometry.ObjectBoxMargins`).
- Landscape documents cannot render: `pdf_margin` calls
  `pdf_margin_landscape`, which `PageSize` does not define. The model
  returns `UndefinedLandscapeMargin`.
- A missing `PaperName` leaves the page size `nil`. Building the document
  then fails, so the model returns `MissingPaperName`.
- A text object whose first run has no `Font` element fails
  (`MissingFontElement`). The line after the `'Helvetica'` default
  dereferences the missing font, so that default is never used.
- The quiet-zone rule reserves 20 module widths in total, 10 per side. In
  exact arithmetic the rule fires exactly when the available width is
  positive.
- A Top caption moves the bars' top edge down by 1.25 times the caption
  height. A Bottom caption leaves the top edge where it is. The bars' bottom
  edge therefore stays at the box bottom under a Top caption and rises under
  a Bottom caption.
- A caption that cannot fit is fatal (`CaptionCannotFit`). Only the text
  object path rescues `CannotFit`.
- An unknown QR `Size` is fatal (`UnknownQrSize`). The size table then
  yields `nil`, and multiplying it raises.

## Model

| member | source | states |
|---|---|---|
| Units.TwipsToPoints | lib/dymo_render.rb:109-112 | twips to points is exact division by 20, and never grows a non-negative length |
| Units.LineWidthToPoints | lib/dymo_render.rb:238 | the rectangle's divide-then-multiply conversion equals the bounds conversion: division by 20 |
| Units.RoundTrip | lib/dymo_render.rb:109-112 | twips-to-points and points-to-twips are mutual inverses |
| PageSizes.RegistryInvariant | lib/dymo_render/page_size.rb:4-29 | every registry entry's imageable area lies inside its dimension, and no two entries share a name |
| PageSizes.PageLayout | lib/dymo_render/page_size.rb:42-48 | the layout is landscape iff the entry's landscape flag is set, portrait iff not |
| PageSizes.MarginsPartitionDimension | lib/dymo_render/page_size.rb:67-81 | left margin + imageable width + right margin = width, likewise for height; on a well-formed entry all four margins are non-negative |
| PageSizes.PdfMargin | lib/dymo_render/page_size.rb:58-65 | in Prawn's slot order [top, right, bottom, left]: the top/right/bottom/left margins for a portrait entry, left/top/right/bottom for a landscape entry |
| PageSizes.PdfMarginIsPermutation | lib/dymo_render/page_size.rb:58-65 | whatever the flag, the margin array is a permutation of the four derived margins |
| PageSizes.LandscapeMarginIsRotation | lib/dymo_render/page_size.rb:58-65 | the landscape margin array is the portrait one rotated by one slot |
| PageSizes.PdfSize | lib/dymo_render/page_size.rb:50-56 | page width/height are the dimension for a portrait entry and swapped for a landscape one; the unordered pair never changes |
| PageSizes.PdfSizeSwapsWithFlag | lib/dymo_render/page_size.rb:50-56 | flipping the landscape flag swaps page width and height |
| PageSizes.FindByName | lib/dymo_render/page_size.rb:83-86 | returns the first entry with the given name, and nothing iff no entry has it |
| PageSizes.ByName | lib/dymo_render/page_size.rb:83-86 | lookup returns a registry entry with the name, and nil iff no registry entry has it |
| PageSizes.ByNameUnique | lib/dymo_render/page_size.rb:4-29 | looking any registry entry up by its own name yields exactly that entry |
| Geometry.OrientationOf | lib/dymo_render.rb:51-59 | a document is landscape iff its PaperOrientation text is exactly "Landscape" |
| Geometry.PageSizeOf | lib/dymo_render.rb:65-70 | absent PaperName gives nil; an unknown name raises with that name; a known name gives exactly the registry entry `by_name` finds |
| Geometry.DocPdfSize | lib/dymo_render.rb:91-97 | the document's page height is dimension[0] when landscape and dimension[1] otherwise, width the other component |
| Geometry.DocPdfSizeAgreesWithEntry | lib/dymo_render.rb:91-97 | when document orientation matches the entry's flag, the document and entry page sizes coincide |
| Geometry.ResolveGeometry | lib/dymo_render.rb:87-105 | geometry resolves iff the paper name is known and the document is portrait; it then uses the entry's margin array and dimension; otherwise the matching error |
| Geometry.ObjectBox | lib/dymo_render.rb:107-112 | page-space box converts back exactly to the bounds: x + margin[3], page height − margin[2] − y, width and height, each times 20 |
| Geometry.ObjectBoxMargins | lib/dymo_render.rb:107-112 | the transform subtracts left and bottom margins for a portrait entry, bottom and right margins for a landscape-flagged one |
| FontSearch.FileNames | lib/dymo_render.rb:73-74 | (definition) the names tried are family + ".ttf", ".dfont", ".ttc", in that order |
| FontSearch.DirCandidates | lib/dymo_render.rb:77-78 | (definition) the candidate paths in one directory are join(dir, name) in name order |
| FontSearch.SearchNames | lib/dymo_render.rb:77-80 | the per-directory search returns the first existing candidate, and nothing iff none exists |
| FontSearch.SearchDirs | lib/dymo_render.rb:76-82 | the directory-major search returns the first existing candidate of the flattened list, and nil iff none exists |
| FontSearch.FontFileForFamily | lib/dymo_render.rb:72-83 | the font file is the first existing join(dir, family+ext), directory-major then extension order; nil iff no candidate exists |
| FontSearch.EarlierDirectoryWins | lib/dymo_render.rb:76-81 | if any candidate in directory i exists, a file is found, and it comes from directory i or an earlier one |
| TextLayout.ValignFrom | lib/dymo_render.rb:199-207 | Bottom→bottom, Middle→center, iff; anything else→top |
| TextLayout.AlignFrom | lib/dymo_render.rb:209-217 | Right→right, Center→center, iff; anything else→left |
| TextLayout.OverflowFrom | lib/dymo_render.rb:219-226 | ShrinkToFit→shrink_to_fit iff; None and anything else→truncate |
| TextLayout.TruncateToInt | lib/dymo_render.rb:140 | the font size is truncated toward zero: the integer lies within 1 of the value, on the zero side |
| TextLayout.Verticalize | lib/dymo_render.rb:143 | a string of length n becomes one of length 2n with character i at 2i and a line break at 2i+1 |
| TextLayout.VerticalizeRoundTrip | lib/dymo_render.rb:143 | vertical expansion is undone by taking the even positions |
| TextLayout.RunStringsSubstitution | lib/dymo_render.rb:141-145 | when the object's name is a parameter key every run shows that parameter, otherwise its own string; each vertical run string equals Verticalize of the horizontal one, whose even positions it keeps |
| TextLayout.BackgroundFill | lib/dymo_render.rb:182-190 | a fill of the unpadded box is emitted iff BackColor is present with non-zero alpha |
| TextLayout.RenderText | lib/dymo_render.rb:127-173 | fill first, then at most one text box at (x+1, y) of width−2, moved by the descender only for bottom alignment, with the table-chosen alignment and fit mode; the drawn text is the concatenated run strings (vertical when verticalized), its size the truncated first-run font size, its font file the one the search finds; with no runs only the fill; fails exactly when the first run has no font or its font is found nowhere; with runs and a font, the text is drawn iff the box fits |
| TextLayout.TextFillDecision | lib/dymo_render.rb:182-190 | a rendered text object contains a fill iff its background is visible, and then exactly one, first, covering the box |
| TextLayout.TextDrawnWhenFits | lib/dymo_render.rb:147-172 | with runs, a first-run font that is found and a box that fits, the text is drawn |
| ShapeLayout.RenderShape | lib/dymo_render.rb:228-246 | a horizontal line spans the box width, as thick as the box is tall, 2.5 points below its top; a rectangle strokes the box with LineWidth/20; other kinds draw nothing |
| BarcodeLayout.SymbologyOf | lib/dymo_render.rb:258-287 | QRCode, Code128Auto and Code128A/B/C are recognised, each iff its exact type text; everything else is skipped |
| BarcodeLayout.QrModuleSize | lib/dymo_render.rb:248-267 | module edge 0.96/1.2/1.44 points for Small/Medium/Large, Small when Size is absent, failure for any other size |
| BarcodeLayout.QrPlace | lib/dymo_render.rb:269-276 | the symbol of side dim·n is centred on the box: its centre is the box's centre |
| BarcodeLayout.QrGapsEqual | lib/dymo_render.rb:269-276 | opposite gaps are equal, and a symbol wider than the box overhangs both sides |
| BarcodeLayout.RenderQr | lib/dymo_render.rb:258-278 | one QR command with square modules of the table size, centred on the box; fails iff the size is unknown |
| BarcodeLayout.CaptionShift | lib/dymo_render.rb:294-329 | the bars lose 1.25·captionHeight; the bottom edge is y−height under a Top caption and y−height+1.25·captionHeight otherwise |
| BarcodeLayout.QuietZone | lib/dymo_render.rb:332-342 | drawn width = modules × module width; for positive width it is width − 20·(width/n), and with n > 20 it lies strictly between 0 and width |
| BarcodeLayout.ReserveFits | lib/dymo_render.rb:336-342 | with more than 20 modules, 20 module widths are less than a positive width |
| BarcodeLayout.Code128Symbol | lib/dymo_render.rb:332-348 | the symbol is centred on its span, as wide as its modules, and sits on the bar area's bottom edge |
| BarcodeLayout.QuietZoneHonoured | lib/dymo_render.rb:336-345 | with n > 20 and positive width the symbol is narrower than the span and leaves at least 10 of its own modules clear on each side |
| BarcodeLayout.CaptionedSymbolPlacement | lib/dymo_render.rb:308-346 | the symbol beside a caption of height h is centred on the unpadded box, spans the padded quiet-zone width, loses 1.25·h of bar height, and keeps or raises its bottom edge by caption position |
| BarcodeLayout.CaptionAndSymbol | lib/dymo_render.rb:308-348 | with the font file known: fails iff the caption's box does not fit; otherwise the caption with the caption request, moved by the descender only under a Bottom caption, then the symbol centred on the box, bars shortened by 1.25·caption height |
| BarcodeLayout.RenderCaptionedCode128 | lib/dymo_render.rb:297-348 | a caption font found in no directory fails with MissingFont; with the font found, it fails iff the caption does not fit; otherwise the caption request (font file, size, centred, single line, caption-position alignment, padded box), moved by the descender only under a Bottom caption, then the symbol still centred on the unpadded box, bars shortened by 1.25·caption height, bottom edge per caption position |
| BarcodeLayout.RenderCode128 | lib/dymo_render.rb:289-349 | without a caption one symbol fills the box height, centred, on the box bottom; with one the captioned layout; failure only when captioned |
| BarcodeLayout.RenderBarcode | lib/dymo_render.rb:258-287 | unknown barcode types draw nothing; QR and Code 128 go to their layouts |
| Renderer.RenderObject | lib/dymo_render.rb:107-125 | each object is drawn in its transformed box by its kind's engine; unknown kinds draw nothing; shapes never fail |
| Renderer.Collect | lib/dymo_render.rb:40-43 | concatenation of per-object results succeeds iff every one does, otherwise it reports the first failure; no results give no commands and one result is returned as is |
| Renderer.CollectAppend | lib/dymo_render.rb:40-43 | collecting two runs of results is collecting each, the first run's commands first |
| Renderer.RenderObjects | lib/dymo_render.rb:38-45 | rendering succeeds iff every object does; otherwise the error is that of the first failing object; no objects give no commands and a single object gives its own result |
| Renderer.RenderObjectsAppend | lib/dymo_render.rb:40-43 | output follows document order: rendering a + b is rendering a followed by rendering b |
| Renderer.CollectAround | lib/dymo_render.rb:40-43 | in a successful collection each result succeeds, and its commands sit between those of the results before and after it |
| Renderer.RenderObjectsAround | lib/dymo_render.rb:40-43 | in a successful render each object's own commands sit between those of the objects before it and those after it |
| Renderer.Render | lib/dymo_render.rb:38-45 | nothing is drawn unless the geometry resolves, and its error is reported; once it resolves the result is the objects' render in document order, which succeeds iff every object does |
| Renderer.UnknownPaperNameFails | lib/dymo_render.rb:65-70 | an unknown paper name aborts the render with that name |
| Renderer.LandscapeDocumentFails | lib/dymo_render.rb:87-89 | a landscape document with a known page size cannot render |
| Renderer.HasGraphics | lib/dymo_render.rb:47-49 | true iff some object is a barcode |
| Renderer.ScenarioObjectBox | lib/dymo_render.rb:107-112 | on the 30334 label, bounds (0, 0, 2000, 500) become the box (−2.88, 85.68, 100, 25) |
| Renderer.ScenarioQrObjectOutput | lib/dymo_render.rb:258-278 | on the 30334 label the scenario's Small 21-module QR object yields one symbol at (37.04, 50.6) with 0.96-point modules |
| Renderer.ScenarioQrLabel | lib/dymo_render.rb:258-278 | a Small 21-module QR in a 100×50 box on the 30334 label is drawn at (37.04, 50.6) with 0.96-point modules, and the label has graphics |

## Left out

- Prawn: document creation, `go_to_page`, page emission and `render` are left out. Text-box layout, shrink-to-fit and the `CannotFit` decision are the `textBox` collaborator, which reports fits, descender and height. Everything draws on one page.
- `rgb2hex` colour conversion: colours stay RGB integer triples. Only `Fill` and `Text` commands carry a colour, the one the source sets just before drawing them (lib/dymo_render.rb:148, 187).
- Barcode and stroke colour: not modelled. The source never sets a colour for them, so they use whatever Prawn holds as current state. A captioned Code 128 gets the caption's `ForeColor` (lib/dymo_render.rb:305). A QR code (lib/dymo_render.rb:278) or an uncaptioned Code 128 (lib/dymo_render.rb:348) gets the fill colour left by an earlier object (lib/dymo_render.rb:148, 187). Lines and rectangles are stroked with Prawn's stroke colour, which the source never sets.
- `OtherObject` carries the name of an element the renderer does not handle. `Label.WellFormedElement` states that this name is never `TextObject`, `ShapeObject` or `BarcodeObject`. XML parsing is not modelled, so nothing enforces it; the renderer draws nothing for any `OtherObject`.
- Barby: Code 128 and QR encoding are collaborators that report only a positive module count. Encoder errors (content the forced set cannot encode) and the `unbleed: 0.05` option are not modelled.
- Nokogiri XML parsing: labels are typed records. Where the source dereferences an element it assumes present, the record has a required field, so those `NoMethodError` crashes are not modelled. The `nil` lookups above are the exceptions: the first run's font, `PaperName` and the QR size.
- Attribute strings are taken as already-parsed numbers. `String#to_i` on the font size is modelled as truncation of that number toward zero, so strings such as "1e3", where `to_i` and `to_f` disagree, are not modelled.
- The platform-dependent `FONT_DIRS` default (`ENV`, `RUBY_PLATFORM`) is environment input. The directory list is a parameter.
- Renderer.HasGraphics: looks only at each object's first element, as rendering does. The source's `has_graphics?` searches the whole document for a `BarcodeObject` element. An object whose first child is some other element but which holds a `BarcodeObject` further down draws nothing in either, yet counts as graphics in the source and not in the model. Labels are typed records here, so such nesting is not represented.
- `puts` diagnostics: a skipped object simply draws nothing.
- Ruby `Float` rounding: all arithmetic is exact over `real`.
- Landscape document margins: `pdf_margin_landscape` is undefined, so landscape documents are an error rather than a layout.
- `spec/` holds only smoke tests that render fixtures to disk.
