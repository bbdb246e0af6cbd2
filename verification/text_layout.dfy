/**
 * Laying out a text object: the optional background fill, vertical string
 * expansion, parameter substitution, the alignment and fit-mode tables,
 * font lookup, 1-point horizontal padding and the bottom-alignment
 * descender shift. The text box itself is the `textBox` collaborator.
 */
module TextLayout {
  import opened Results
  import opened Label
  import FontSearch

  const Valigns: map<string, VAlign> := map["Top" := VTop, "Bottom" := VBottom, "Middle" := VCenter]
  const Aligns: map<string, HAlign> := map["Left" := HLeft, "Right" := HRight, "Center" := HCenter]
  const Overflows: map<string, Overflow> := map["None" := Truncate, "ShrinkToFit" := ShrinkToFit]

  /** The `VerticalAlignment` table, defaulting to top. */
  function ValignFrom(s: string): (v: VAlign)
    ensures v == VBottom <==> s == "Bottom"
    ensures v == VCenter <==> s == "Middle"
    ensures v == VTop <==> s != "Bottom" && s != "Middle"
  {
    if s in Valigns then Valigns[s] else VTop
  }

  /** The `HorizontalAlignment` table, defaulting to left. */
  function AlignFrom(s: string): (a: HAlign)
    ensures a == HRight <==> s == "Right"
    ensures a == HCenter <==> s == "Center"
    ensures a == HLeft <==> s != "Right" && s != "Center"
  {
    if s in Aligns then Aligns[s] else HLeft
  }

  /** The `TextFitMode` table, defaulting to truncation. */
  function OverflowFrom(s: string): (o: Overflow)
    ensures o == ShrinkToFit <==> s == "ShrinkToFit"
    ensures o == Truncate <==> s != "ShrinkToFit"
  {
    if s in Overflows then Overflows[s] else Truncate
  }

  predicate IsVerticalized(flag: Option<string>) {
    flag == Some("True")
  }

  /** `String#to_i` on a decimal size: truncation toward zero of the number written. */
  function TruncateToInt(v: real): (n: int)
    ensures v >= 0.0 ==> 0 <= n && n as real <= v < n as real + 1.0
    ensures v < 0.0 ==> n <= 0 && n as real - 1.0 < v <= n as real
  {
    if v >= 0.0 then v.Floor else -((-v).Floor)
  }

  /** Vertical text: every character is followed by a line break. */
  function Verticalize(s: string): (r: string)
    ensures |r| == 2 * |s|
    ensures forall j | 0 <= j < |r| :: r[j] == if j % 2 == 0 then s[j / 2] else '\n'
  {
    if |s| == 0 then ""
    else
      var rest := Verticalize(s[1..]);
      var r := [s[0], '\n'] + rest;
      assert forall j | 2 <= j < |r| :: r[j] == rest[j - 2];
      r
  }

  /** The characters at even positions; undoes `Verticalize`. */
  function EvenPositions(r: string): string
  {
    if |r| < 2 then r else [r[0]] + EvenPositions(r[2..])
  }

  /** Vertical expansion loses nothing: the original text is recovered from it. */
  lemma {:induction false} VerticalizeRoundTrip(s: string)
    ensures EvenPositions(Verticalize(s)) == s
    decreases |s|
  {
    if |s| > 0 {
      var v := Verticalize(s);
      assert v[2..] == Verticalize(s[1..]);
      VerticalizeRoundTrip(s[1..]);
      assert EvenPositions(v) == [s[0]] + s[1..];
    }
  }

  /** A run's string: the parameter named after the object when there is one, else its own. */
  function RunText(e: StyledElement, name: Option<string>, params: map<string, string>): string
  {
    if name.Some? && name.value in params then params[name.value] else e.text
  }

  /** The strings of all runs, substituted and, for vertical text, expanded. */
  function RunStrings(elements: seq<StyledElement>, name: Option<string>,
                      params: map<string, string>, vertical: bool): (r: seq<string>)
    ensures |r| == |elements|
  {
    seq(|elements|, i requires 0 <= i < |elements| =>
      var s := RunText(elements[i], name, params);
      if vertical then Verticalize(s) else s)
  }

  /**
   * When the object's name is a parameter key every run shows that
   * parameter; otherwise every run shows its own string. A vertical run is
   * the expansion of the horizontal one, from which it can be recovered.
   */
  lemma RunStringsSubstitution(elements: seq<StyledElement>, name: Option<string>,
                               params: map<string, string>)
    ensures name.Some? && name.value in params ==>
              forall i | 0 <= i < |elements| :: RunStrings(elements, name, params, false)[i] == params[name.value]
    ensures !(name.Some? && name.value in params) ==>
              forall i | 0 <= i < |elements| :: RunStrings(elements, name, params, false)[i] == elements[i].text
    ensures forall i | 0 <= i < |elements| ::
              RunStrings(elements, name, params, true)[i]
              == Verticalize(RunStrings(elements, name, params, false)[i])
    ensures forall i | 0 <= i < |elements| ::
              EvenPositions(RunStrings(elements, name, params, true)[i])
              == RunStrings(elements, name, params, false)[i]
  {
    forall i | 0 <= i < |elements|
      ensures EvenPositions(RunStrings(elements, name, params, true)[i])
              == RunStrings(elements, name, params, false)[i]
    {
      VerticalizeRoundTrip(RunText(elements[i], name, params));
    }
  }

  /** Ruby's `Array#join` on strings. */
  function Concat(ss: seq<string>): string
  {
    if |ss| == 0 then "" else ss[0] + Concat(ss[1..])
  }

  predicate HasVisibleBackground(bg: Option<BackColor>) {
    bg.Some? && bg.value.alpha != 0
  }

  /** The background fill: none when `BackColor` is absent or its alpha is zero. */
  function BackgroundFill(bg: Option<BackColor>, box: Box): (r: seq<Command>)
    ensures |r| <= 1
    ensures r != [] <==> HasVisibleBackground(bg)
    ensures r != [] ==> r[0] == Fill(bg.value.color, box)
  {
    if bg.None? || bg.value.alpha == 0 then [] else [Fill(bg.value.color, box)]
  }

  /** The text box's final y: moved by the descender only for bottom alignment. */
  function BoxTop(y: real, valign: VAlign, descender: real): real
  {
    if valign == VBottom then y + descender else y
  }

  /** The request a text object makes of the text box, once its font file is known. */
  function TextRequestFor(t: TextData, f: FontAttr, fontFile: string, box: Box,
                          params: map<string, string>): TextRequest
  {
    var vertical := IsVerticalized(t.verticalized);
    TextRequest(
      Concat(RunStrings(t.elements, t.name, params, vertical)),
      fontFile,
      TruncateToInt(f.size) as real,
      box.x + 1.0,
      box.y,
      box.width - 2.0,
      box.height,
      OverflowFrom(t.textFitMode),
      AlignFrom(t.horizontalAlignment),
      ValignFrom(t.verticalAlignment),
      !vertical)
  }

  /**
   * The commands for a text object in page-space box `box`. The fill, when
   * there is one, comes first and covers the unpadded box; the text (drawn
   * unless the box reports it cannot fit) sits 1 point in from each side and
   * is moved by the descender only when bottom-aligned. It shows the joined,
   * substituted and (for vertical text) expanded runs, in the first run's
   * font, found by the directory search, at the first run's truncated size.
   * A first run without a font, or a font family found in no directory,
   * aborts the render; nothing else does.
   */
  function RenderText(t: TextData, box: Box, env: Env): (r: Result<seq<Command>, RenderError>)
    ensures r.Failure? ==>
              && |t.elements| > 0
              && (t.elements[0].font.None? ==> r.error == MissingFontElement)
              && (t.elements[0].font.Some? ==>
                    && r.error == MissingFont(t.elements[0].font.value.family)
                    && FontSearch.FontFileForFamily(env.fontDirs, t.elements[0].font.value.family,
                                                    env.fileExists, env.join).None?)
    ensures |t.elements| == 0 ==> r == Success(BackgroundFill(t.backColor, box))
    ensures |t.elements| > 0 && t.elements[0].font.None? ==> r == Failure(MissingFontElement)
    ensures |t.elements| > 0 && t.elements[0].font.Some?
            && FontSearch.FontFileForFamily(env.fontDirs, t.elements[0].font.value.family,
                                            env.fileExists, env.join).None? ==>
              r == Failure(MissingFont(t.elements[0].font.value.family))
    ensures r.Success? && |t.elements| > 0 ==>
              && t.elements[0].font.Some?
              && var file := FontSearch.FontFileForFamily(env.fontDirs, t.elements[0].font.value.family,
                                                          env.fileExists, env.join);
                 && file.Some?
                 && (|r.value| > |BackgroundFill(t.backColor, box)| <==>
                       env.textBox(TextRequestFor(t, t.elements[0].font.value, file.value, box, env.params)).fits)
    ensures r.Success? ==>
              var fill := BackgroundFill(t.backColor, box);
              && fill <= r.value
              && |r.value| <= |fill| + 1
              && (forall i | |fill| <= i < |r.value| :: !r.value[i].Fill?)
    ensures r.Success? && |r.value| > |BackgroundFill(t.backColor, box)| ==>
              var c := r.value[|r.value| - 1];
              && c.Text?
              && c.color == t.foreColor
              && c.request.x == box.x + 1.0
              && c.request.width == box.width - 2.0
              && c.request.y == box.y
              && c.request.height == box.height
              && c.request.valign == ValignFrom(t.verticalAlignment)
              && c.request.align == AlignFrom(t.horizontalAlignment)
              && c.request.overflow == OverflowFrom(t.textFitMode)
              && c.request.singleLine == !IsVerticalized(t.verticalized)
              && |t.elements| > 0 && t.elements[0].font.Some?
              && c.request.text == Concat(RunStrings(t.elements, t.name, env.params, IsVerticalized(t.verticalized)))
              && c.request.size == TruncateToInt(t.elements[0].font.value.size) as real
              && Some(c.request.fontFile)
                 == FontSearch.FontFileForFamily(env.fontDirs, t.elements[0].font.value.family,
                                                 env.fileExists, env.join)
              && env.fileExists(c.request.fontFile)
              && env.textBox(c.request).fits
              && c.atY - c.request.y
                 == (if c.request.valign == VBottom then env.textBox(c.request).descender else 0.0)
  {
    var fill := BackgroundFill(t.backColor, box);
    if |t.elements| == 0 then Success(fill)
    else
      match t.elements[0].font
      case None => Failure(MissingFontElement)
      case Some(f) =>
        match FontSearch.FontFileForFamily(env.fontDirs, f.family, env.fileExists, env.join)
        case None => Failure(MissingFont(f.family))
        case Some(file) =>
          var req := TextRequestFor(t, f, file, box, env.params);
          var m := env.textBox(req);
          if m.fits then Success(fill + [Text(t.foreColor, req, BoxTop(req.y, req.valign, m.descender))])
          else Success(fill)
  }

  /** Exactly one fill is emitted, first, when the background is visible, and none otherwise. */
  lemma TextFillDecision(t: TextData, box: Box, env: Env)
    requires RenderText(t, box, env).Success?
    ensures var cmds := RenderText(t, box, env).value;
            && (HasVisibleBackground(t.backColor) <==> exists i | 0 <= i < |cmds| :: cmds[i].Fill?)
            && (HasVisibleBackground(t.backColor) ==>
                  && cmds[0] == Fill(t.backColor.value.color, box)
                  && forall i | 0 < i < |cmds| :: !cmds[i].Fill?)
  {
    var cmds := RenderText(t, box, env).value;
    var fill := BackgroundFill(t.backColor, box);
    if HasVisibleBackground(t.backColor) {
      assert cmds[0] == fill[0];
    }
  }

  /**
   * Text is drawn whenever the object has runs, its first run names a font
   * family that is found, and the box reports that the text fits.
   */
  lemma TextDrawnWhenFits(t: TextData, box: Box, env: Env)
    requires |t.elements| > 0 && t.elements[0].font.Some?
    requires FontSearch.FontFileForFamily(env.fontDirs, t.elements[0].font.value.family,
                                          env.fileExists, env.join).Some?
    requires env.textBox(TextRequestFor(t, t.elements[0].font.value,
                                        FontSearch.FontFileForFamily(env.fontDirs, t.elements[0].font.value.family,
                                                                     env.fileExists, env.join).value,
                                        box, env.params)).fits
    ensures RenderText(t, box, env).Success?
    ensures |RenderText(t, box, env).value| == |BackgroundFill(t.backColor, box)| + 1
  {
  }
}
