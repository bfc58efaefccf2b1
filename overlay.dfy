/** The detection overlay of the analysis page (`drawBoxes` and the effect that
    calls it, frontend/src/App.js). Detector boxes arrive in the natural pixel
    space of the uploaded image; they are scaled into the space of the image as
    laid out on the page and drawn, one rectangle and one label per detection,
    on a canvas stacked over the image. */
module Overlay {
  import opened Common
  import opened Text

  // ---------------------------------------------------------------------------
  // Data model
  // ---------------------------------------------------------------------------

  /** `bbox: [x1, y1, x2, y2]`, corners in natural-image pixels. */
  datatype BBox = BBox(x1: real, y1: real, x2: real, y2: real)

  /** One entry of the detector's `detections` list. */
  datatype Detection = Detection(bbox: BBox, classLabel: string, confidence: real)

  /** The `<img>` element's sizes: `width`/`height` as laid out on the page,
      `naturalWidth`/`naturalHeight` of the image file. All four are integral
      pixel counts in the DOM. */
  datatype ImageFrame = ImageFrame(width: nat, height: nat, naturalWidth: nat, naturalHeight: nat)

  /** A canvas rectangle: top-left corner, width and height. */
  datatype Rect = Rect(x: real, y: real, w: real, h: real)

  /** The three fill colours the overlay uses: "#00FF00", "rgba(0, 255, 0, 0.2)"
      and "black" (also the canvas default "#000000"). */
  datatype FillStyle = Green | TranslucentGreen | Black

  /** A drawing call on the canvas's 2D context, with the fill colour in effect. */
  datatype DrawCommand =
    | ClearRect(r: Rect)
    | StrokeRect(r: Rect)
    | FillRect(r: Rect, style: FillStyle)
    | FillText(text: string, x: real, y: real, style: FillStyle)

  // ---------------------------------------------------------------------------
  // Geometry and label text
  // ---------------------------------------------------------------------------

  /** The horizontal scale: natural widths times it are display widths. */
  function ScaleX(img: ImageFrame): (sx: real)
    requires img.naturalWidth > 0
    ensures img.naturalWidth as real * sx == img.width as real
  {
    img.width as real / img.naturalWidth as real
  }

  /** The vertical scale: natural heights times it are display heights. */
  function ScaleY(img: ImageFrame): (sy: real)
    requires img.naturalHeight > 0
    ensures img.naturalHeight as real * sy == img.height as real
  {
    img.height as real / img.naturalHeight as real
  }

  /** The box in display space: both corners scaled, width and height from the
      scaled corner differences. */
  function DisplayRect(b: BBox, sx: real, sy: real): (r: Rect)
    ensures r.x + r.w == b.x2 * sx && r.y + r.h == b.y2 * sy
  {
    Rect(b.x1 * sx, b.y1 * sy, (b.x2 - b.x1) * sx, (b.y2 - b.y1) * sy)
  }

  /** `Math.round`: the nearest integer, halves rounded up. */
  function Round(r: real): (k: int)
    ensures k as real - 0.5 <= r < k as real + 0.5
  {
    (r + 0.5).Floor
  }

  /** The label drawn above a box: the class name, a space, the rounded
      percentage and a percent sign. */
  function LabelText(d: Detection): string {
    d.classLabel + " " + IntToString(Round(d.confidence * 100.0)) + "%"
  }

  /** The four calls issued for one detection (App.js:87-100). */
  function DetectionCommands(d: Detection, sx: real, sy: real, measure: string -> real): (cs: seq<DrawCommand>)
    ensures |cs| == 4
  {
    var r := DisplayRect(d.bbox, sx, sy);
    var text := LabelText(d);
    [ StrokeRect(r),
      FillRect(r, TranslucentGreen),
      FillRect(Rect(r.x, r.y - 25.0, measure(text) + 10.0, 25.0), Black),
      FillText(text, r.x + 5.0, r.y - 7.0, Green) ]
  }

  /** DetectionCommands as a function value, for mapping over a list. */
  function DetectionDrawer(sx: real, sy: real, measure: string -> real): Detection -> seq<DrawCommand> {
    d => DetectionCommands(d, sx, sy, measure)
  }

  /** The calls for every detection, in input order. */
  function BoxesCommands(dets: seq<Detection>, sx: real, sy: real, measure: string -> real): (cs: seq<DrawCommand>)
    ensures |cs| == 4 * |dets|
  {
    DrawerYieldsFour(sx, sy, measure);
    FlatMapLength(DetectionDrawer(sx, sy, measure), dets);
    FlatMap(DetectionDrawer(sx, sy, measure), dets)
  }

  /** The rectangle that clears the whole canvas once it has the image's size. */
  function FullCanvas(img: ImageFrame): Rect {
    Rect(0.0, 0.0, img.width as real, img.height as real)
  }

  /** Everything `drawBoxes` issues on the 2D context: one full clear, then four
      calls per detection. `measure` stands for `ctx.measureText(t).width` in the
      overlay's font. */
  function Render(dets: seq<Detection>, img: ImageFrame, measure: string -> real): (out: seq<DrawCommand>)
    requires img.naturalWidth > 0 && img.naturalHeight > 0
    ensures |out| == 1 + 4 * |dets| && out[0] == ClearRect(FullCanvas(img))
  {
    [ClearRect(FullCanvas(img))] + BoxesCommands(dets, ScaleX(img), ScaleY(img), measure)
  }

  // ---------------------------------------------------------------------------
  // Properties of the command sequence
  // ---------------------------------------------------------------------------

  lemma DrawerYieldsFour(sx: real, sy: real, measure: string -> real)
    ensures forall d :: |DetectionDrawer(sx, sy, measure)(d)| == 4
  {
  }

  /** Detection `i` owns commands 4i .. 4i+3 of BoxesCommands. */
  lemma BoxesCommandsAt(dets: seq<Detection>, sx: real, sy: real, measure: string -> real, i: int)
    requires 0 <= i < |dets|
    ensures |BoxesCommands(dets, sx, sy, measure)| == 4 * |dets|
    ensures BoxesCommands(dets, sx, sy, measure)[4 * i..4 * i + 4] == DetectionCommands(dets[i], sx, sy, measure)
  {
    DrawerYieldsFour(sx, sy, measure);
    FlatMapLength(DetectionDrawer(sx, sy, measure), dets);
    FlatMapAt(DetectionDrawer(sx, sy, measure), dets, i);
  }

  /** Drawing one more detection appends its four calls. */
  lemma BoxesCommandsSnoc(dets: seq<Detection>, sx: real, sy: real, measure: string -> real, i: int)
    requires 0 <= i < |dets|
    ensures BoxesCommands(dets[..i + 1], sx, sy, measure)
         == BoxesCommands(dets[..i], sx, sy, measure) + DetectionCommands(dets[i], sx, sy, measure)
  {
    FlatMapSnoc(DetectionDrawer(sx, sy, measure), dets, i);
  }

  /** No clear is issued while the detections are drawn. */
  lemma BoxesCommandsDoNotClear(dets: seq<Detection>, sx: real, sy: real, measure: string -> real)
    ensures forall j :: 0 <= j < |BoxesCommands(dets, sx, sy, measure)| ==> !BoxesCommands(dets, sx, sy, measure)[j].ClearRect?
  {
    forall j | 0 <= j < |BoxesCommands(dets, sx, sy, measure)|
      ensures !BoxesCommands(dets, sx, sy, measure)[j].ClearRect?
    {
      FlatMapMember(DetectionDrawer(sx, sy, measure), dets, j);
    }
  }

  /** Detection `i` owns commands 4i+1 .. 4i+4 of Render. */
  lemma RenderAt(dets: seq<Detection>, img: ImageFrame, measure: string -> real, i: int)
    requires img.naturalWidth > 0 && img.naturalHeight > 0
    requires 0 <= i < |dets|
    ensures |Render(dets, img, measure)| == 1 + 4 * |dets|
    ensures Render(dets, img, measure)[1 + 4 * i..5 + 4 * i] == DetectionCommands(dets[i], ScaleX(img), ScaleY(img), measure)
  {
    var boxes := BoxesCommands(dets, ScaleX(img), ScaleY(img), measure);
    BoxesCommandsAt(dets, ScaleX(img), ScaleY(img), measure, i);
    assert Render(dets, img, measure) == [ClearRect(FullCanvas(img))] + boxes;
    SliceRight([ClearRect(FullCanvas(img))], boxes, 4 * i, 4);
  }

  /** The shape of the output: it has 1 + 4n commands; the first clears the
      whole canvas, resized to the displayed image; then detection i, in input
      order, owns commands 4i+1 .. 4i+4; no later command clears. */
  lemma RenderShape(dets: seq<Detection>, img: ImageFrame, measure: string -> real)
    requires img.naturalWidth > 0 && img.naturalHeight > 0
    ensures |Render(dets, img, measure)| == 1 + 4 * |dets|
    ensures Render(dets, img, measure)[0] == ClearRect(Rect(0.0, 0.0, img.width as real, img.height as real))
    ensures forall i :: 0 <= i < |dets| ==>
              Render(dets, img, measure)[1 + 4 * i..5 + 4 * i] == DetectionCommands(dets[i], ScaleX(img), ScaleY(img), measure)
    ensures forall j :: 1 <= j < |Render(dets, img, measure)| ==> !Render(dets, img, measure)[j].ClearRect?
  {
    var boxes := BoxesCommands(dets, ScaleX(img), ScaleY(img), measure);
    var out := Render(dets, img, measure);
    assert out == [ClearRect(FullCanvas(img))] + boxes;
    if dets == [] {
      assert boxes == [];
    } else {
      RenderAt(dets, img, measure, 0);
    }
    forall i | 0 <= i < |dets|
      ensures out[1 + 4 * i..5 + 4 * i] == DetectionCommands(dets[i], ScaleX(img), ScaleY(img), measure)
    {
      RenderAt(dets, img, measure, i);
    }
    BoxesCommandsDoNotClear(dets, ScaleX(img), ScaleY(img), measure);
    forall j | 1 <= j < |out| ensures !out[j].ClearRect? {
      assert out[j] == boxes[j - 1];
    }
  }

  /** The rectangle stroked and filled for detection `i` is the box scaled by
      display/natural on each axis, and it is either the first commands'
      geometry or nothing else: commands 4i+1 and 4i+2. */
  lemma BoxGeometry(dets: seq<Detection>, img: ImageFrame, measure: string -> real, i: int)
    requires img.naturalWidth > 0 && img.naturalHeight > 0
    requires 0 <= i < |dets|
    ensures var b, sx, sy := dets[i].bbox, ScaleX(img), ScaleY(img);
            var r := Rect(b.x1 * sx, b.y1 * sy, (b.x2 - b.x1) * sx, (b.y2 - b.y1) * sy);
            && |Render(dets, img, measure)| == 1 + 4 * |dets|
            && Render(dets, img, measure)[1 + 4 * i] == StrokeRect(r)
            && Render(dets, img, measure)[2 + 4 * i] == FillRect(r, TranslucentGreen)
  {
    RenderAt(dets, img, measure, i);
    var out := Render(dets, img, measure);
    var cs := DetectionCommands(dets[i], ScaleX(img), ScaleY(img), measure);
    assert out[1 + 4 * i] == out[1 + 4 * i..5 + 4 * i][0] == cs[0];
    assert out[2 + 4 * i] == out[1 + 4 * i..5 + 4 * i][1] == cs[1];
  }

  lemma DoubleRatio(n: nat)
    requires n > 0
    ensures (2 * n) as real / n as real == 2.0
  {
  }

  lemma UnitRatio(n: nat)
    requires n > 0
    ensures n as real / n as real == 1.0
  {
  }

  /** When the image is displayed at twice its natural size, every coordinate
      and dimension of every drawn box is twice the detector's. */
  lemma DoubleSizeDoublesBoxes(dets: seq<Detection>, img: ImageFrame, measure: string -> real, i: int)
    requires img.naturalWidth > 0 && img.naturalHeight > 0
    requires img.width == 2 * img.naturalWidth && img.height == 2 * img.naturalHeight
    requires 0 <= i < |dets|
    ensures var b := dets[i].bbox;
            var r := Rect(2.0 * b.x1, 2.0 * b.y1, 2.0 * (b.x2 - b.x1), 2.0 * (b.y2 - b.y1));
            && |Render(dets, img, measure)| == 1 + 4 * |dets|
            && Render(dets, img, measure)[1 + 4 * i] == StrokeRect(r)
            && Render(dets, img, measure)[2 + 4 * i] == FillRect(r, TranslucentGreen)
  {
    DoubleRatio(img.naturalWidth);
    DoubleRatio(img.naturalHeight);
    BoxGeometry(dets, img, measure, i);
  }

  /** When the image is displayed at its natural size, every drawn box is the
      detector's box itself. */
  lemma NaturalSizeKeepsBoxes(dets: seq<Detection>, img: ImageFrame, measure: string -> real, i: int)
    requires img.naturalWidth > 0 && img.naturalHeight > 0
    requires img.width == img.naturalWidth && img.height == img.naturalHeight
    requires 0 <= i < |dets|
    ensures var b := dets[i].bbox;
            var r := Rect(b.x1, b.y1, b.x2 - b.x1, b.y2 - b.y1);
            && |Render(dets, img, measure)| == 1 + 4 * |dets|
            && Render(dets, img, measure)[1 + 4 * i] == StrokeRect(r)
            && Render(dets, img, measure)[2 + 4 * i] == FillRect(r, TranslucentGreen)
  {
    UnitRatio(img.naturalWidth);
    UnitRatio(img.naturalHeight);
    BoxGeometry(dets, img, measure, i);
  }

  /** The label of detection `i`: a black background 25 units tall, as wide as
      the measured text plus 10, whose bottom edge is the box's top edge; then
      the text in green, 5 units in from the box's left edge, its baseline 7
      units above the box and so inside the background. */
  lemma LabelAboveBox(dets: seq<Detection>, img: ImageFrame, measure: string -> real, i: int)
    requires img.naturalWidth > 0 && img.naturalHeight > 0
    requires 0 <= i < |dets|
    ensures var out, r := Render(dets, img, measure), DisplayRect(dets[i].bbox, ScaleX(img), ScaleY(img));
            var text := LabelText(dets[i]);
            && |out| == 1 + 4 * |dets|
            && out[3 + 4 * i].FillRect? && out[3 + 4 * i].style == Black
            && out[3 + 4 * i].r.x == r.x && out[3 + 4 * i].r.y + out[3 + 4 * i].r.h == r.y
            && out[3 + 4 * i].r.h == 25.0 && out[3 + 4 * i].r.w == measure(text) + 10.0
            && out[4 + 4 * i] == FillText(text, r.x + 5.0, r.y - 7.0, Green)
            && out[3 + 4 * i].r.y < out[4 + 4 * i].y < r.y
  {
    RenderShape(dets, img, measure);
    var out := Render(dets, img, measure);
    assert out[3 + 4 * i] == out[1 + 4 * i..5 + 4 * i][2];
    assert out[4 + 4 * i] == out[1 + 4 * i..5 + 4 * i][3];
  }

  /** The label of a detection with confidence in [0, 1]: its class name, a
      space, a percentage between 0 and 100 within half a point of
      100 * confidence, and a percent sign. */
  lemma LabelPercent(d: Detection)
    requires 0.0 <= d.confidence <= 1.0
    ensures exists p: nat ::
              && p <= 100
              && p as real - 0.5 <= d.confidence * 100.0 < p as real + 0.5
              && LabelText(d) == d.classLabel + " " + NatToString(p) + "%"
  {
    var p := Round(d.confidence * 100.0);
    assert 0 <= p <= 100;
    assert LabelText(d) == d.classLabel + " " + NatToString(p) + "%";
  }

  /** "Tooth37" at confidence 0.873 is labelled "Tooth37 87%". */
  lemma LabelExample(b: BBox)
    ensures LabelText(Detection(b, "Tooth37", 0.873)) == "Tooth37 87%"
  {
    assert Round(0.873 * 100.0) == 87;
    assert NatToString(87) == "87";
  }

  // ---------------------------------------------------------------------------
  // What stays visible on the canvas
  // ---------------------------------------------------------------------------

  predicate ClearsCanvas(c: DrawCommand, width: nat, height: nat) {
    c.ClearRect? && c.r.x <= 0.0 && c.r.y <= 0.0
    && c.r.x + c.r.w >= width as real && c.r.y + c.r.h >= height as real
  }

  /** The calls whose effect is still visible on a `width` x `height` canvas:
      the suffix of the call log from the last call that cleared the whole
      canvas (the whole log if there is none). */
  function SinceLastClear(log: seq<DrawCommand>, width: nat, height: nat): seq<DrawCommand>
    decreases |log|
  {
    if log == [] then []
    else if ClearsCanvas(log[|log| - 1], width, height) then [log[|log| - 1]]
    else SinceLastClear(log[..|log| - 1], width, height) + [log[|log| - 1]]
  }

  /** Calls appended after the last full clear, none of which clears, stay visible
      together with what was visible before. */
  lemma {:induction false} SinceLastClearAppend(a: seq<DrawCommand>, b: seq<DrawCommand>, width: nat, height: nat)
    requires forall j :: 0 <= j < |b| ==> !b[j].ClearRect?
    ensures SinceLastClear(a + b, width, height) == SinceLastClear(a, width, height) + b
    decreases |b|
  {
    if b != [] {
      var b', last := b[..|b| - 1], b[|b| - 1];
      SinceLastClearAppend(a, b', width, height);
      assert !ClearsCanvas(last, width, height);
      assert a + b == (a + b') + [last];
      calc {
        SinceLastClear(a + b, width, height);
        SinceLastClear((a + b') + [last], width, height);
        { assert ((a + b') + [last])[..|a + b'|] == a + b'; }
        SinceLastClear(a + b', width, height) + [last];
        SinceLastClear(a, width, height) + b' + [last];
        { assert b' + [last] == b; }
        SinceLastClear(a, width, height) + b;
      }
    } else {
      assert a + b == a;
    }
  }

  /** Whatever was drawn before, after the commands of Render only those
      commands are visible: no box of an earlier call survives. */
  lemma OnlyLatestRenderVisible(log: seq<DrawCommand>, dets: seq<Detection>, img: ImageFrame, measure: string -> real)
    requires img.naturalWidth > 0 && img.naturalHeight > 0
    ensures SinceLastClear(log + Render(dets, img, measure), img.width, img.height) == Render(dets, img, measure)
  {
    var clear := ClearRect(FullCanvas(img));
    var boxes := BoxesCommands(dets, ScaleX(img), ScaleY(img), measure);
    assert Render(dets, img, measure) == [clear] + boxes;
    ConcatAssoc(log, [clear], boxes);
    BoxesCommandsDoNotClear(dets, ScaleX(img), ScaleY(img), measure);
    SinceLastClearAppend(log + [clear], boxes, img.width, img.height);
    assert SinceLastClear(log + [clear], img.width, img.height) == [clear];
  }

  // ---------------------------------------------------------------------------
  // The canvas and drawBoxes
  // ---------------------------------------------------------------------------

  /** The `<canvas>` element with its 2D context: its size, the context's
      current fill colour and the log of every drawing call made on it. */
  class Canvas {
    var width: nat
    var height: nat
    var fillStyle: FillStyle
    var log: seq<DrawCommand>

    /** A fresh canvas: 300 x 150 with a black fill, nothing drawn. */
    constructor ()
      ensures width == 300 && height == 150 && fillStyle == Black && log == []
    {
      width, height, fillStyle, log := 300, 150, Black, [];
    }

    /** `canvas.width = w; canvas.height = h`: resizing also resets the
        context's fill colour to its default. */
    method Resize(w: nat, h: nat)
      modifies this
      ensures width == w && height == h && fillStyle == Black && log == old(log)
    {
      width, height, fillStyle := w, h, Black;
    }

    method SetFillStyle(s: FillStyle)
      modifies this
      ensures fillStyle == s && width == old(width) && height == old(height) && log == old(log)
    {
      fillStyle := s;
    }

    method ClearRect(r: Rect)
      modifies this
      ensures log == old(log) + [DrawCommand.ClearRect(r)]
      ensures width == old(width) && height == old(height) && fillStyle == old(fillStyle)
    {
      log := log + [DrawCommand.ClearRect(r)];
    }

    method StrokeRect(r: Rect)
      modifies this
      ensures log == old(log) + [DrawCommand.StrokeRect(r)]
      ensures width == old(width) && height == old(height) && fillStyle == old(fillStyle)
    {
      log := log + [DrawCommand.StrokeRect(r)];
    }

    /** Fills with the current fill colour. */
    method FillRect(r: Rect)
      modifies this
      ensures log == old(log) + [DrawCommand.FillRect(r, old(fillStyle))]
      ensures width == old(width) && height == old(height) && fillStyle == old(fillStyle)
    {
      log := log + [DrawCommand.FillRect(r, fillStyle)];
    }

    /** Writes text in the current fill colour. */
    method FillText(text: string, x: real, y: real)
      modifies this
      ensures log == old(log) + [DrawCommand.FillText(text, x, y, old(fillStyle))]
      ensures width == old(width) && height == old(height) && fillStyle == old(fillStyle)
    {
      log := log + [DrawCommand.FillText(text, x, y, fillStyle)];
    }
  }

  /** The four calls of DetectionCommands, spelled out with the rectangle and
      the label the callback computes. */
  lemma DetectionCommandsAre(d: Detection, sx: real, sy: real, measure: string -> real, r: Rect, text: string)
    requires r == Rect(d.bbox.x1 * sx, d.bbox.y1 * sy, (d.bbox.x2 - d.bbox.x1) * sx, (d.bbox.y2 - d.bbox.y1) * sy)
    requires text == d.classLabel + " " + IntToString((d.confidence * 100.0 + 0.5).Floor) + "%"
    ensures DetectionCommands(d, sx, sy, measure)
         == [ StrokeRect(r), FillRect(r, TranslucentGreen),
              FillRect(Rect(r.x, r.y - 25.0, measure(text) + 10.0, 25.0), Black),
              FillText(text, r.x + 5.0, r.y - 7.0, Green) ]
  {
    assert r == DisplayRect(d.bbox, sx, sy);
    assert text == LabelText(d);
  }

  /** The body of the `forEach` callback in `drawBoxes`: the box outline, its
      translucent fill, the label background and the label text, leaving the
      fill colour green. */
  method DrawDetection(canvas: Canvas, det: Detection, scaleX: real, scaleY: real, measure: string -> real)
    modifies canvas
    ensures canvas.log == old(canvas.log) + DetectionCommands(det, scaleX, scaleY, measure)
    ensures canvas.width == old(canvas.width) && canvas.height == old(canvas.height) && canvas.fillStyle == Green
  {
    var rectX := det.bbox.x1 * scaleX;
    var rectY := det.bbox.y1 * scaleY;
    var rectW := (det.bbox.x2 - det.bbox.x1) * scaleX;
    var rectH := (det.bbox.y2 - det.bbox.y1) * scaleY;
    ghost var log0 := canvas.log;
    canvas.StrokeRect(Rect(rectX, rectY, rectW, rectH));
    var text := det.classLabel + " " + IntToString((det.confidence * 100.0 + 0.5).Floor) + "%";
    var textWidth := measure(text);
    canvas.SetFillStyle(TranslucentGreen);
    canvas.FillRect(Rect(rectX, rectY, rectW, rectH));
    canvas.SetFillStyle(Black);
    canvas.FillRect(Rect(rectX, rectY - 25.0, textWidth + 10.0, 25.0));
    canvas.SetFillStyle(Green);
    canvas.FillText(text, rectX + 5.0, rectY - 7.0);
    ghost var r := Rect(rectX, rectY, rectW, rectH);
    DetectionCommandsAre(det, scaleX, scaleY, measure, r, text);
    AppendFour(log0, DrawCommand.StrokeRect(r), DrawCommand.FillRect(r, TranslucentGreen),
               DrawCommand.FillRect(Rect(rectX, rectY - 25.0, textWidth + 10.0, 25.0), Black),
               DrawCommand.FillText(text, rectX + 5.0, rectY - 7.0, Green));
  }

  /** One more detection drawn after `prefix` extends the drawn calls by that
      detection's four calls. */
  lemma BoxesCommandsExtend(prefix: seq<DrawCommand>, dets: seq<Detection>, sx: real, sy: real, measure: string -> real, i: int)
    requires 0 <= i < |dets|
    ensures prefix + BoxesCommands(dets[..i], sx, sy, measure) + DetectionCommands(dets[i], sx, sy, measure)
         == prefix + BoxesCommands(dets[..i + 1], sx, sy, measure)
  {
    BoxesCommandsSnoc(dets, sx, sy, measure, i);
    ConcatAssoc(prefix, BoxesCommands(dets[..i], sx, sy, measure), DetectionCommands(dets[i], sx, sy, measure));
  }

  /** `detections.forEach(...)` in `drawBoxes`: draws every detection in input
      order. */
  method ForEachDetection(canvas: Canvas, detections: seq<Detection>, scaleX: real, scaleY: real, measure: string -> real)
    modifies canvas
    ensures canvas.log == old(canvas.log) + BoxesCommands(detections, scaleX, scaleY, measure)
    ensures canvas.width == old(canvas.width) && canvas.height == old(canvas.height)
    ensures canvas.fillStyle == if detections == [] then old(canvas.fillStyle) else Green
  {
    assert detections[..0] == [];
    var i := 0;
    while i < |detections|
      invariant 0 <= i <= |detections|
      invariant canvas.width == old(canvas.width) && canvas.height == old(canvas.height)
      invariant canvas.fillStyle == if i == 0 then old(canvas.fillStyle) else Green
      invariant canvas.log == old(canvas.log) + BoxesCommands(detections[..i], scaleX, scaleY, measure)
    {
      DrawDetection(canvas, detections[i], scaleX, scaleY, measure);
      BoxesCommandsExtend(old(canvas.log), detections, scaleX, scaleY, measure, i);
      i := i + 1;
    }
    assert detections[..i] == detections;
  }

  /** `drawBoxes`: size the canvas to the displayed image, clear it, and draw
      every detection. The canvas ends with the image's size, a green fill, and
      exactly the calls of Render appended to its log, which therefore are all
      that is visible on it. */
  method DrawBoxes(canvas: Canvas, img: ImageFrame, detections: seq<Detection>, measure: string -> real)
    requires img.naturalWidth > 0 && img.naturalHeight > 0
    modifies canvas
    ensures canvas.width == img.width && canvas.height == img.height
    ensures canvas.fillStyle == Green
    ensures canvas.log == old(canvas.log) + Render(detections, img, measure)
    ensures SinceLastClear(canvas.log, canvas.width, canvas.height) == Render(detections, img, measure)
  {
    canvas.Resize(img.width, img.height);
    var scaleX := img.width as real / img.naturalWidth as real;
    var scaleY := img.height as real / img.naturalHeight as real;
    canvas.ClearRect(Rect(0.0, 0.0, canvas.width as real, canvas.height as real));
    canvas.SetFillStyle(Green);
    ghost var cleared := canvas.log;
    assert cleared == old(canvas.log) + [ClearRect(FullCanvas(img))];
    ForEachDetection(canvas, detections, scaleX, scaleY, measure);
    ghost var boxes := BoxesCommands(detections, ScaleX(img), ScaleY(img), measure);
    assert canvas.log == cleared + boxes;
    assert Render(detections, img, measure) == [ClearRect(FullCanvas(img))] + boxes;
    ConcatAssoc(old(canvas.log), [ClearRect(FullCanvas(img))], boxes);
    OnlyLatestRenderVisible(old(canvas.log), detections, img, measure);
  }

  /** The effect at App.js:54-58, run whenever the detections or the preview
      change: it draws only when there are detections and both the image and the
      canvas are mounted; otherwise the canvas is left as it was. */
  method RefreshOverlay(canvas: Canvas?, img: Option<ImageFrame>, detections: seq<Detection>, measure: string -> real)
    requires |detections| > 0 && img.Some? ==> img.value.naturalWidth > 0 && img.value.naturalHeight > 0
    modifies canvas
    ensures (|detections| == 0 || img.None? || canvas == null) ==> canvas == null || unchanged(canvas)
    ensures |detections| > 0 && img.Some? && canvas != null ==>
              && canvas.width == img.value.width && canvas.height == img.value.height
              && canvas.log == old(canvas.log) + Render(detections, img.value, measure)
  {
    if |detections| > 0 && img.Some? && canvas != null {
      DrawBoxes(canvas, img.value, detections, measure);
    }
  }
}
