/**
 * The render pass: resolve the page once, transform each object's bounds
 * into page space, dispatch on the object's kind, and concatenate the
 * commands in document order. The first fatal error aborts the render;
 * unsupported kinds only draw nothing.
 */
module Renderer {
  import opened Results
  import opened PageSizes
  import opened Label
  import opened Geometry
  import TextLayout
  import ShapeLayout
  import BarcodeLayout

  /**
   * The commands for one `ObjectInfo`. Only text and barcode objects can
   * fail; shapes never do, and objects of an unknown kind draw nothing.
   */
  function RenderObject(g: Geometry, obj: ObjectInfo, env: Env): (r: Result<seq<Command>, RenderError>)
    ensures r.Failure? ==> obj.element.TextObject? || obj.element.BarcodeObject?
    ensures obj.element.OtherObject? ==> r == Success([])
    ensures obj.element.TextObject? ==>
              r == TextLayout.RenderText(obj.element.text, ObjectBox(g, obj.bounds), env)
    ensures obj.element.ShapeObject? ==>
              r == Success(ShapeLayout.RenderShape(obj.element.shape, ObjectBox(g, obj.bounds)))
    ensures obj.element.BarcodeObject? ==>
              r == BarcodeLayout.RenderBarcode(obj.element.barcode, ObjectBox(g, obj.bounds), env)
  {
    var box := ObjectBox(g, obj.bounds);
    match obj.element
    case TextObject(t) => TextLayout.RenderText(t, box, env)
    case ShapeObject(s) => Success(ShapeLayout.RenderShape(s, box))
    case BarcodeObject(b) => BarcodeLayout.RenderBarcode(b, box, env)
    case OtherObject(_) => Success([])
  }

  /**
   * The per-object outputs concatenated in order, stopping at the first
   * failure. It succeeds exactly when every output does; otherwise it
   * reports the first failure.
   */
  function Collect(rs: seq<Result<seq<Command>, RenderError>>): (r: Result<seq<Command>, RenderError>)
    ensures |rs| == 0 ==> r == Success([])
    ensures |rs| == 1 ==> r == rs[0]
    ensures r.Success? <==> forall i | 0 <= i < |rs| :: rs[i].Success?
    ensures r.Failure? ==>
              exists i | 0 <= i < |rs| ::
                && rs[i] == Failure(r.error)
                && forall j | 0 <= j < i :: rs[j].Success?
    decreases |rs|
  {
    if |rs| == 0 then Success([])
    else
      match rs[0]
      case Failure(e) => Failure(e)
      case Success(first) =>
        var rest := Collect(rs[1..]);
        assert forall i | 1 <= i < |rs| :: rs[i] == rs[1..][i - 1];
        if rest.Failure? then
          var i :| 0 <= i < |rs[1..]|
                   && rs[1..][i] == Failure(rest.error)
                   && forall j | 0 <= j < i :: rs[1..][j].Success?;
          assert rs[i + 1] == Failure(rest.error);
          Failure(rest.error)
        else
          assert |rs| == 1 ==> first + rest.value == first;
          Success(first + rest.value)
  }

  /** Collecting two runs of outputs is collecting each: the first run's commands come first. */
  lemma {:induction false} CollectAppend(xs: seq<Result<seq<Command>, RenderError>>, ys: seq<Result<seq<Command>, RenderError>>)
    requires Collect(xs + ys).Success?
    ensures Collect(xs).Success? && Collect(ys).Success?
    ensures Collect(xs + ys).value == Collect(xs).value + Collect(ys).value
    decreases |xs|
  {
    var zs := xs + ys;
    if |xs| == 0 {
      assert zs == ys;
    } else {
      assert zs[0] == xs[0];
      assert zs[1..] == xs[1..] + ys;
      CollectAppend(xs[1..], ys);
    }
  }

  /** Each object's own result, in document order. */
  function Outputs(g: Geometry, objs: seq<ObjectInfo>, env: Env): (rs: seq<Result<seq<Command>, RenderError>>)
    ensures |rs| == |objs|
    ensures forall i | 0 <= i < |objs| :: rs[i] == RenderObject(g, objs[i], env)
  {
    seq(|objs|, i requires 0 <= i < |objs| => RenderObject(g, objs[i], env))
  }

  /**
   * The commands for a sequence of objects, in order. It succeeds exactly
   * when every object does; otherwise it reports the error of the first
   * object that fails.
   */
  function RenderObjects(g: Geometry, objs: seq<ObjectInfo>, env: Env): (r: Result<seq<Command>, RenderError>)
    ensures |objs| == 0 ==> r == Success([])
    ensures |objs| == 1 ==> r == RenderObject(g, objs[0], env)
    ensures r.Success? <==> forall i | 0 <= i < |objs| :: RenderObject(g, objs[i], env).Success?
    ensures r.Failure? ==>
              exists i | 0 <= i < |objs| ::
                && RenderObject(g, objs[i], env) == Failure(r.error)
                && forall j | 0 <= j < i :: RenderObject(g, objs[j], env).Success?
  {
    Collect(Outputs(g, objs, env))
  }

  /**
   * Rendering a sequence split in two is rendering each part: the output of
   * the first part precedes that of the second, and each object's commands
   * do not depend on its neighbours.
   */
  lemma RenderObjectsAppend(g: Geometry, a: seq<ObjectInfo>, b: seq<ObjectInfo>, env: Env)
    requires RenderObjects(g, a + b, env).Success?
    ensures RenderObjects(g, a, env).Success? && RenderObjects(g, b, env).Success?
    ensures RenderObjects(g, a + b, env).value == RenderObjects(g, a, env).value + RenderObjects(g, b, env).value
  {
    assert Outputs(g, a + b, env) == Outputs(g, a, env) + Outputs(g, b, env);
    CollectAppend(Outputs(g, a, env), Outputs(g, b, env));
  }

  /** In a successful collection, each result's commands sit between those before it and those after it. */
  lemma CollectAround(pre: seq<Result<seq<Command>, RenderError>>, x: Result<seq<Command>, RenderError>,
                      post: seq<Result<seq<Command>, RenderError>>)
    requires Collect(pre + [x] + post).Success?
    ensures x.Success? && Collect(pre).Success? && Collect(post).Success?
    ensures Collect(pre + [x] + post).value == Collect(pre).value + x.value + Collect(post).value
  {
    CollectAppend(pre + [x], post);
    CollectAppend(pre, [x]);
  }

  /**
   * In a successful render, each object's own commands sit between those of
   * the objects before it and those of the objects after it.
   */
  lemma RenderObjectsAround(g: Geometry, pre: seq<ObjectInfo>, o: ObjectInfo, post: seq<ObjectInfo>, env: Env)
    requires RenderObjects(g, pre + [o] + post, env).Success?
    ensures RenderObject(g, o, env).Success?
    ensures RenderObjects(g, pre, env).Success? && RenderObjects(g, post, env).Success?
    ensures RenderObjects(g, pre + [o] + post, env).value
            == RenderObjects(g, pre, env).value + RenderObject(g, o, env).value + RenderObjects(g, post, env).value
  {
    var x := RenderObject(g, o, env);
    assert Outputs(g, pre + [o] + post, env) == Outputs(g, pre, env) + [x] + Outputs(g, post, env);
    CollectAround(Outputs(g, pre, env), x, Outputs(g, post, env));
  }

  /**
   * A whole document: nothing is drawn unless the page geometry resolves,
   * and then the objects are rendered in document order.
   */
  function Render(doc: LabelDoc, env: Env): (r: Result<seq<Command>, RenderError>)
    ensures ResolveGeometry(doc).Failure? ==> r == Failure(ResolveGeometry(doc).error)
    ensures ResolveGeometry(doc).Success? ==> r == RenderObjects(ResolveGeometry(doc).value, doc.objects, env)
    ensures r.Success? ==>
              && ResolveGeometry(doc).Success?
              && forall i | 0 <= i < |doc.objects| ::
                   RenderObject(ResolveGeometry(doc).value, doc.objects[i], env).Success?
    ensures ResolveGeometry(doc).Success? ==>
              (r.Success? <==>
                 forall i | 0 <= i < |doc.objects| ::
                   RenderObject(ResolveGeometry(doc).value, doc.objects[i], env).Success?)
  {
    var g :- ResolveGeometry(doc);
    RenderObjects(g, doc.objects, env)
  }

  /** An unknown paper name aborts the render before anything is drawn. */
  lemma UnknownPaperNameFails(doc: LabelDoc, env: Env)
    requires doc.paperName.Some?
    requires forall p | p in AllSizes :: p.name != doc.paperName.value
    ensures Render(doc, env) == Failure(UnknownPaperSize(doc.paperName.value))
  {
  }

  /** A known page in landscape orientation cannot be rendered: its margins are undefined. */
  lemma LandscapeDocumentFails(doc: LabelDoc, env: Env)
    requires doc.paperOrientation == Some("Landscape")
    requires doc.paperName.Some? && ByName(doc.paperName.value).Some?
    ensures Render(doc, env) == Failure(UndefinedLandscapeMargin)
  {
  }

  /** Whether the label holds any barcode. */
  function HasGraphics(objs: seq<ObjectInfo>): (r: bool)
    ensures r <==> exists i | 0 <= i < |objs| :: objs[i].element.BarcodeObject?
    decreases |objs|
  {
    if |objs| == 0 then false
    else
      assert forall i | 1 <= i < |objs| :: objs[i] == objs[1..][i - 1];
      objs[0].element.BarcodeObject? || HasGraphics(objs[1..])
  }

  /** The small 30334 label in portrait orientation, holding the given objects. */
  function Label30334(objs: seq<ObjectInfo>): LabelDoc {
    LabelDoc(Some("Portrait"), Some("30334 2-1/4 in x 1-1/4 in"), objs)
  }

  /**
   * On the 30334 label, an object at twips (0, 0) of size 2000 x 500 lands
   * at (-2.88, 85.68) with size 100 x 25 points: the left margin is 2.88 and
   * the bottom margin 90 - 85.68.
   */
  lemma ScenarioObjectBox()
    ensures ResolveGeometry(Label30334([])).Success?
    ensures ObjectBox(ResolveGeometry(Label30334([])).value, Bounds(0.0, 0.0, 2000.0, 500.0))
            == Box(-2.88, 85.68, 100.0, 25.0)
  {
  }

  /** The QR object of the scenario below, placed at twips (0, 0) with size 2000 x 1000. */
  function ScenarioQrObject(): ObjectInfo {
    ObjectInfo(Bounds(0.0, 0.0, 2000.0, 1000.0),
               BarcodeObject(BarcodeData("QRCode", "ABC123", Some("Small"), None, FontAttr("Arial", 8.0), Rgb(0, 0, 0))))
  }

  /** On the 30334 label the scenario's QR object yields one 0.96-point-module symbol at (37.04, 50.6). */
  lemma ScenarioQrObjectOutput(env: Env)
    requires env.qrModules("ABC123", env.qrLevel) == 21
    ensures ResolveGeometry(Label30334([])).Success?
    ensures RenderObject(ResolveGeometry(Label30334([])).value, ScenarioQrObject(), env)
            == Success([QrCode(37.04, 50.6, 0.96, 0.96)])
  {
    var g := ResolveGeometry(Label30334([])).value;
    var box := ObjectBox(g, ScenarioQrObject().bounds);
    assert box == Box(-2.88, 85.68, 100.0, 50.0);
    assert BarcodeLayout.SymbologyOf("QRCode") == Some(BarcodeLayout.QrSymbology);
    assert BarcodeLayout.QrModuleSize(Some("Small")) == Some(0.96);
    assert BarcodeLayout.QrPlace(box, 0.96, 21) == BarcodeLayout.QrPlacement(37.04, 50.6, 20.16);
  }

  /**
   * A Small QR code of 21 modules in a 100 x 50 point box on the 30334
   * label: the label has graphics, and the 20.16-point symbol is drawn
   * centred in the box.
   */
  lemma ScenarioQrLabel(env: Env)
    requires env.qrModules("ABC123", env.qrLevel) == 21
    ensures var doc := Label30334([ScenarioQrObject()]);
            && HasGraphics(doc.objects)
            && Render(doc, env) == Success([QrCode(37.04, 50.6, 0.96, 0.96)])
  {
    var doc := Label30334([ScenarioQrObject()]);
    ScenarioQrObjectOutput(env);
    assert ResolveGeometry(doc) == ResolveGeometry(Label30334([]));
    var g := ResolveGeometry(doc).value;
    var outs := Outputs(g, doc.objects, env);
    assert outs == [Success([QrCode(37.04, 50.6, 0.96, 0.96)])];
    assert outs[1..] == [];
    assert Collect(outs[1..]) == Success([]);
    assert [QrCode(37.04, 50.6, 0.96, 0.96)] + [] == [QrCode(37.04, 50.6, 0.96, 0.96)];
    assert Collect(outs) == Success([QrCode(37.04, 50.6, 0.96, 0.96)]);
    assert RenderObjects(g, doc.objects, env) == Success([QrCode(37.04, 50.6, 0.96, 0.96)]);
    assert HasGraphics(doc.objects);
  }
}
