/**
 * The annotation layout of the result page (frontend/src/pages/ResultPage.js):
 * the "contain" fit of the analysed image into its container, the mapping of
 * damage boxes into container space, the left/right side and fixed-pitch row
 * of each callout, the connector curve from a box to its callout, the drawing
 * calls `drawAnnotations` issues, the callout cards, and the severity dots and
 * risk badge. The DOM measurement is an input; the canvas is a log of calls.
 */
module Annotations {
  import opened Wrappers
  import opened Matching
  import Server

  /** A width and a height in pixels. */
  datatype Size = Size(width: real, height: real)

  predicate Positive(s: Size)
  {
    s.width > 0.0 && s.height > 0.0
  }

  /** Where the image is shown inside its container, and at what scale. */
  datatype Fit = Fit(displayWidth: real, displayHeight: real, offsetX: real, offsetY: real, scaleX: real, scaleY: real)

  /** The wide branch: the image is relatively wider than the container. */
  lemma WideFit(w: real, h: real, cw: real, ch: real)
    requires w > 0.0 && h > 0.0 && cw > 0.0 && ch > 0.0
    requires w / h > cw / ch
    ensures var dh := cw / (w / h);
      dh == (cw / w) * h && dh / h == cw / w && dh <= ch
  {
    var a := w / h;
    var s := cw / w;
    var dh := cw / a;
    assert a * h == w;
    assert s * w == cw;
    assert dh * a == cw;
    assert (s * h) * a == s * w;
    assert dh == s * h;
    assert cw * h < ch * w by {
      assert (cw / ch) * ch == cw;
      assert a * ch > (cw / ch) * ch;
      assert a * ch * h > cw * h;
    }
    assert s * h * w <= ch * w;
  }

  /** The tall branch: the container is at least as wide, relatively, as the image. */
  lemma TallFit(w: real, h: real, cw: real, ch: real)
    requires w > 0.0 && h > 0.0 && cw > 0.0 && ch > 0.0
    requires w / h <= cw / ch
    ensures var dw := ch * (w / h);
      dw == (ch / h) * w && dw / w == ch / h && dw <= cw
  {
    var a := w / h;
    var s := ch / h;
    assert a * h == w;
    assert s * h == ch;
    assert ch * a == s * h * a;
    assert ch * a == s * w;
    assert ch * w <= cw * h by {
      assert (cw / ch) * ch == cw;
      assert a * ch <= (cw / ch) * ch;
      assert a * ch * h <= cw * h;
    }
    assert s * w * h <= cw * h;
  }

  /** Lines 89-93: the image fills the container's width and is centred vertically. */
  function WideBranch(image: Size, container: Size): (f: Fit)
    requires Positive(image) && Positive(container)
    requires image.width / image.height > container.width / container.height
    ensures f.scaleX == f.scaleY > 0.0
    ensures f.displayWidth == f.scaleX * image.width && f.displayHeight == f.scaleY * image.height
    ensures f.displayWidth == container.width && f.offsetX == 0.0
    ensures f.displayHeight <= container.height && 2.0 * f.offsetY + f.displayHeight == container.height
  {
    var imgAspect := image.width / image.height;
    var displayWidth := container.width;
    var displayHeight := container.width / imgAspect;
    WideFit(image.width, image.height, container.width, container.height);
    Fit(displayWidth, displayHeight, 0.0, (container.height - displayHeight) / 2.0,
        displayWidth / image.width, displayHeight / image.height)
  }

  /** Lines 94-99: the image fills the container's height and is centred horizontally. */
  function TallBranch(image: Size, container: Size): (f: Fit)
    requires Positive(image) && Positive(container)
    requires image.width / image.height <= container.width / container.height
    ensures f.scaleX == f.scaleY > 0.0
    ensures f.displayWidth == f.scaleX * image.width && f.displayHeight == f.scaleY * image.height
    ensures f.displayHeight == container.height && f.offsetY == 0.0
    ensures f.displayWidth <= container.width && 2.0 * f.offsetX + f.displayWidth == container.width
  {
    var imgAspect := image.width / image.height;
    var displayHeight := container.height;
    var displayWidth := container.height * imgAspect;
    TallFit(image.width, image.height, container.width, container.height);
    Fit(displayWidth, displayHeight, (container.width - displayWidth) / 2.0, 0.0,
        displayWidth / image.width, displayHeight / image.height)
  }

  /**
   * The "contain" fit: the image is scaled by one factor on both axes, placed
   * inside the container, centred, and touching the container on the axis
   * that is relatively longer.
   */
  function ContainFit(image: Size, container: Size): (f: Fit)
    requires Positive(image) && Positive(container)
    ensures f.scaleX == f.scaleY > 0.0
    ensures f.displayWidth == f.scaleX * image.width && f.displayHeight == f.scaleY * image.height
    ensures 0.0 <= f.offsetX && f.offsetX + f.displayWidth <= container.width
    ensures 0.0 <= f.offsetY && f.offsetY + f.displayHeight <= container.height
    ensures 2.0 * f.offsetX + f.displayWidth == container.width
    ensures 2.0 * f.offsetY + f.displayHeight == container.height
    ensures image.width / image.height > container.width / container.height ==>
      f.displayWidth == container.width && f.offsetX == 0.0
    ensures image.width / image.height <= container.width / container.height ==>
      f.displayHeight == container.height && f.offsetY == 0.0
  {
    if image.width / image.height > container.width / container.height then
      WideBranch(image, container)
    else
      TallBranch(image, container)
  }

  /**
   * The fit's scale is the largest uniform scale at which the whole image
   * fits in the container.
   */
  lemma ContainFitIsLargest(image: Size, container: Size, s: real)
    requires Positive(image) && Positive(container)
    requires s * image.width <= container.width && s * image.height <= container.height
    ensures s <= ContainFit(image, container).scaleX
  {
    var f := ContainFit(image, container);
    if f.displayWidth == container.width {
      assert (s - f.scaleX) * image.width <= 0.0;
    } else {
      assert (s - f.scaleX) * image.height <= 0.0;
    }
  }

  /** A rectangle in container pixels: top-left corner and size. */
  datatype Rect = Rect(x: real, y: real, w: real, h: real)

  /** A damage box mapped from image pixels into container pixels. */
  function MapBox(b: Box, f: Fit): Rect
  {
    Rect(f.offsetX + b.x1 * f.scaleX, f.offsetY + b.y1 * f.scaleY, (b.x2 - b.x1) * f.scaleX, (b.y2 - b.y1) * f.scaleY)
  }

  /** The mapping is affine: both corners of a box go through the same map `offset + v * scale`. */
  lemma MapBoxCorners(b: Box, f: Fit)
    ensures var r := MapBox(b, f);
      && r.x == f.offsetX + b.x1 * f.scaleX && r.x + r.w == f.offsetX + b.x2 * f.scaleX
      && r.y == f.offsetY + b.y1 * f.scaleY && r.y + r.h == f.offsetY + b.y2 * f.scaleY
  {
  }

  /** The box covering the whole image maps exactly onto the displayed image. */
  lemma FullImageMapsToDisplay(image: Size, container: Size)
    requires Positive(image) && Positive(container)
    ensures var f := ContainFit(image, container);
      MapBox(Box(0.0, 0.0, image.width, image.height), f) == Rect(f.offsetX, f.offsetY, f.displayWidth, f.displayHeight)
  {
  }

  /** One axis of a mapped box: an interval inside [0, top] lands inside the displayed span. */
  lemma AxisInside(lo: real, hi: real, top: real, s: real, offset: real, display: real, room: real)
    requires 0.0 <= lo <= hi <= top && s > 0.0
    requires display == s * top && 0.0 <= offset && offset + display <= room
    ensures offset <= offset + lo * s
    ensures (offset + lo * s) + (hi - lo) * s <= offset + display <= room
  {
    assert (hi - lo) * s + lo * s == hi * s;
    assert hi * s <= top * s;
  }

  /** The facts of a "contain" fit that placing a box relies on. */
  predicate FitsInside(f: Fit, image: Size, container: Size)
  {
    && f.scaleX > 0.0 && f.scaleY > 0.0
    && f.displayWidth == f.scaleX * image.width && f.displayHeight == f.scaleY * image.height
    && 0.0 <= f.offsetX && f.offsetX + f.displayWidth <= container.width
    && 0.0 <= f.offsetY && f.offsetY + f.displayHeight <= container.height
  }

  lemma MappedInside(f: Fit, image: Size, container: Size, b: Box)
    requires FitsInside(f, image, container)
    requires 0.0 <= b.x1 <= b.x2 <= image.width && 0.0 <= b.y1 <= b.y2 <= image.height
    ensures var r := MapBox(b, f);
      && f.offsetX <= r.x && r.x + r.w <= f.offsetX + f.displayWidth
      && f.offsetY <= r.y && r.y + r.h <= f.offsetY + f.displayHeight
      && 0.0 <= r.x && r.x + r.w <= container.width
      && 0.0 <= r.y && r.y + r.h <= container.height
  {
    AxisInside(b.x1, b.x2, image.width, f.scaleX, f.offsetX, f.displayWidth, container.width);
    AxisInside(b.y1, b.y2, image.height, f.scaleY, f.offsetY, f.displayHeight, container.height);
  }

  /**
   * A box that lies inside the image is drawn inside the displayed image,
   * hence inside the container.
   */
  lemma MappedBoxInsideDisplay(image: Size, container: Size, b: Box)
    requires Positive(image) && Positive(container)
    requires 0.0 <= b.x1 <= b.x2 <= image.width && 0.0 <= b.y1 <= b.y2 <= image.height
    ensures var f := ContainFit(image, container); var r := MapBox(b, f);
      && f.offsetX <= r.x && r.x + r.w <= f.offsetX + f.displayWidth
      && f.offsetY <= r.y && r.y + r.h <= f.offsetY + f.displayHeight
      && 0.0 <= r.x && r.x + r.w <= container.width
      && 0.0 <= r.y && r.y + r.h <= container.height
  {
    MappedInside(ContainFit(image, container), image, container, b);
  }

  /** Side of a callout card: the box's centre in image pixels against the image's middle. */
  function CardIsLeft(b: Box, imageWidth: real): (left: bool)
    ensures left <==> b.x1 + b.x2 < imageWidth
  {
    (b.x1 + b.x2) / 2.0 < imageWidth / 2.0
  }

  /** Side of a connector: the mapped box's centre against the container's middle. */
  function ConnectorIsLeft(r: Rect, containerWidth: real): bool
  {
    r.x + r.w / 2.0 < containerWidth / 2.0
  }

  /** Side of a connector as the page computes it: against the middle of the canvas's whole-pixel width. */
  function ConnectorIsLeftAsWritten(r: Rect, canvasWidth: int): bool
  {
    r.x + r.w / 2.0 < (canvasWidth as real) / 2.0
  }

  /** A canvas dimension after `canvas.width = x`: the whole-pixel part of a non-negative `x`. */
  function CanvasDim(x: real): nat
    requires x >= 0.0
  {
    x.Floor
  }

  /**
   * The connector of every damage goes to the side its card is on, for any
   * container: both compare the box's centre with the middle of the image.
   */
  lemma SidesAgree(image: Size, container: Size, b: Box)
    requires Positive(image) && Positive(container)
    ensures ConnectorIsLeft(MapBox(b, ContainFit(image, container)), container.width) == CardIsLeft(b, image.width)
  {
    var f := ContainFit(image, container);
    CentredSide(f.offsetX, f.scaleX, f.displayWidth, image.width, container.width, b);
  }

  /** One axis of a centred fit: a box's mapped centre is left of the container's middle iff its centre is left of the image's. */
  lemma CentredSide(offset: real, s: real, display: real, imageWidth: real, containerWidth: real, b: Box)
    requires s > 0.0 && display == s * imageWidth && 2.0 * offset + display == containerWidth
    ensures ConnectorIsLeft(Rect(offset + b.x1 * s, 0.0, (b.x2 - b.x1) * s, 0.0), containerWidth) == CardIsLeft(b, imageWidth)
  {
    var c := (b.x1 + b.x2) / 2.0;
    assert offset + b.x1 * s + (b.x2 - b.x1) * s / 2.0 == offset + c * s;
    assert containerWidth / 2.0 == offset + (imageWidth / 2.0) * s;
    assert c < imageWidth / 2.0 <==> c * s < (imageWidth / 2.0) * s;
  }

  /**
   * Resizing the container never moves a connector to the other side under
   * the intended test; under the page's test it does not between
   * whole-pixel widths (see AsWrittenSidesDisagree for a fractional one).
   */
  lemma SideStableUnderResize(image: Size, c1: Size, c2: Size, b: Box)
    requires Positive(image) && Positive(c1) && Positive(c2)
    ensures ConnectorIsLeft(MapBox(b, ContainFit(image, c1)), c1.width) ==
            ConnectorIsLeft(MapBox(b, ContainFit(image, c2)), c2.width)
    ensures c1.width == c1.width.Floor as real && c2.width == c2.width.Floor as real ==>
      ConnectorIsLeftAsWritten(MapBox(b, ContainFit(image, c1)), CanvasDim(c1.width)) ==
      ConnectorIsLeftAsWritten(MapBox(b, ContainFit(image, c2)), CanvasDim(c2.width))
  {
    SidesAgree(image, c1, b);
    SidesAgree(image, c2, b);
    if c1.width == c1.width.Floor as real && c2.width == c2.width.Floor as real {
      AsWrittenSideOnWholeWidths(MapBox(b, ContainFit(image, c1)), c1.width);
      AsWrittenSideOnWholeWidths(MapBox(b, ContainFit(image, c2)), c2.width);
    }
  }

  /** With a whole-pixel container width the page's side test is the intended one. */
  lemma AsWrittenSideOnWholeWidths(r: Rect, containerWidth: real)
    requires containerWidth >= 0.0 && containerWidth == containerWidth.Floor as real
    ensures ConnectorIsLeftAsWritten(r, CanvasDim(containerWidth)) == ConnectorIsLeft(r, containerWidth)
  {
  }

  /**
   * With a fractional container width the page's connector can leave for the
   * side opposite its card: a 1000x500 image in an 800.5x800 container, box
   * [498.8, 100, 500.8, 200].
   */
  lemma AsWrittenSidesDisagree()
    ensures var image, container := Size(1000.0, 500.0), Size(800.5, 800.0);
      var b := Box(498.8, 100.0, 500.8, 200.0);
      && CardIsLeft(b, image.width)
      && !ConnectorIsLeftAsWritten(MapBox(b, ContainFit(image, container)), CanvasDim(container.width))
  {
    var image, container := Size(1000.0, 500.0), Size(800.5, 800.0);
    var f := ContainFit(image, container);
    assert image.width / image.height == 2.0;
    assert f.scaleX == 0.8005;
    assert CanvasDim(container.width) == 800;
  }

  /** Top of the callout row of the damage at `index`, in container pixels. */
  function RowTop(index: nat): (top: real)
    ensures top >= 60.0 && (top - 60.0) / 80.0 == index as real
  {
    60.0 + 80.0 * index as real
  }

  /** Rows go down strictly with the list index, a full pitch apart. */
  lemma RowsIncrease(i: nat, j: nat)
    requires i < j
    ensures RowTop(i) + 80.0 <= RowTop(j)
  {
  }

  datatype Point = Point(x: real, y: real)

  /** A cubic Bézier curve: start, two control points, end. */
  datatype Curve = Curve(start: Point, control1: Point, control2: Point, end: Point)

  /** Horizontal reach of the control points beyond the box edge. */
  const ControlReach: real := 30.0
  /** Distance of the line's nominal end from the canvas edge. */
  const LineInset: real := 10.0
  /** How far further in the curve actually ends, under the card. */
  const CardOffset: real := 150.0
  const CornerRadius: real := 4.0
  const DotRadius: real := 4.0

  /**
   * The callout connector of a mapped box: it leaves the box's outer
   * vertical edge at mid-height, travels horizontally outward, and arrives
   * horizontally at the callout row, under the card.
   */
  function Connector(r: Rect, isLeft: bool, rowY: real, canvasWidth: int): (c: Curve)
    ensures c.start.y == r.y + r.h / 2.0
    ensures c.start.x == if isLeft then r.x else r.x + r.w
    ensures c.control1.y == c.start.y && c.control2.y == c.end.y == rowY
    ensures c.control1.x == c.control2.x
    ensures isLeft ==> c.control1.x == c.start.x - ControlReach && c.end.x == LineInset + CardOffset
    ensures !isLeft ==> c.control1.x == c.start.x + ControlReach && c.end.x == canvasWidth as real - LineInset - CardOffset
  {
    var centerY := r.y + r.h / 2.0;
    var lineEndX := if isLeft then LineInset else canvasWidth as real - LineInset;
    var controlX := if isLeft then r.x - ControlReach else r.x + r.w + ControlReach;
    Curve(
      Point(if isLeft then r.x else r.x + r.w, centerY),
      Point(controlX, centerY),
      Point(controlX, rowY),
      Point(lineEndX + (if isLeft then CardOffset else -CardOffset), rowY))
  }

  /** The canvas calls `drawAnnotations` makes, at the granularity of one shape each. */
  datatype DrawCommand =
    | ClearRect(width: int, height: int)
    | BoxOutline(rect: Rect, radius: real)
    | ConnectorCurve(curve: Curve)
    | AnchorDot(center: Point, radius: real)

  /**
   * The three shapes drawn for the damage at `index`: its mapped box, a
   * connector from the box to row `index` on the side the page picks (against
   * the middle of the canvas's whole-pixel width), and the anchor dot at the
   * connector's start.
   */
  function ItemCommands(f: Fit, canvasWidth: int, b: Box, index: nat): (cmds: seq<DrawCommand>)
    ensures |cmds| == 3
    ensures cmds[0] == BoxOutline(MapBox(b, f), CornerRadius)
    ensures cmds[1] == ConnectorCurve(Connector(MapBox(b, f), ConnectorIsLeftAsWritten(MapBox(b, f), canvasWidth), RowTop(index), canvasWidth))
    ensures cmds[1].ConnectorCurve? && cmds[1].curve.end.y == RowTop(index)
    ensures cmds[1].curve.start.y == MapBox(b, f).y + MapBox(b, f).h / 2.0
    ensures cmds[1].curve.start.x ==
      if ConnectorIsLeftAsWritten(MapBox(b, f), canvasWidth) then MapBox(b, f).x else MapBox(b, f).x + MapBox(b, f).w
    ensures cmds[2] == AnchorDot(cmds[1].curve.start, DotRadius)
  {
    var r := MapBox(b, f);
    var c := Connector(r, ConnectorIsLeftAsWritten(r, canvasWidth), RowTop(index), canvasWidth);
    [BoxOutline(r, CornerRadius), ConnectorCurve(c), AnchorDot(c.start, DotRadius)]
  }

  /** The shapes for a list of damages, in list order. */
  function DamageCommands(f: Fit, canvasWidth: int, ds: seq<Server.DamageEntry>): (cmds: seq<DrawCommand>)
    ensures |cmds| == 3 * |ds|
    decreases |ds|
  {
    if ds == [] then []
    else DamageCommands(f, canvasWidth, ds[..|ds| - 1]) +
         ItemCommands(f, canvasWidth, ds[|ds| - 1].box, |ds| - 1)
  }

  predicate ValidImage(result: Server.AnalysisResult)
  {
    result.imageSize.width > 0 && result.imageSize.height > 0
  }

  function ImageSizeOf(result: Server.AnalysisResult): Size
  {
    Size(result.imageSize.width as real, result.imageSize.height as real)
  }

  /** One complete redraw: a clear of the whole canvas, then three shapes per damage. */
  function Frame(result: Server.AnalysisResult, container: Size): (fr: seq<DrawCommand>)
    requires ValidImage(result) && Positive(container)
    ensures |fr| == 1 + 3 * |result.damages|
    ensures fr[0] == ClearRect(CanvasDim(container.width), CanvasDim(container.height))
  {
    var f := ContainFit(ImageSizeOf(result), container);
    var cw := CanvasDim(container.width);
    [ClearRect(cw, CanvasDim(container.height))] + DamageCommands(f, cw, result.damages)
  }

  lemma {:induction false} DamageCommandsAt(f: Fit, canvasWidth: int, ds: seq<Server.DamageEntry>, k: nat)
    requires k < |ds|
    ensures DamageCommands(f, canvasWidth, ds)[3 * k..3 * k + 3] == ItemCommands(f, canvasWidth, ds[k].box, k)
    ensures forall m :: 0 <= m < 3 * |ds| ==> !DamageCommands(f, canvasWidth, ds)[m].ClearRect?
    decreases |ds|
  {
    var n := |ds| - 1;
    if n > 0 {
      DamageCommandsAt(f, canvasWidth, ds[..n], if k < n then k else 0);
      if k < n {
        assert ds[..n][k] == ds[k];
      }
    }
  }

  /**
   * A redraw is one clear followed, for the damage at each index k, by its
   * mapped box, a connector from that box to row k, and the anchor dot at
   * the connector's start; nothing else is cleared.
   */
  lemma FrameLayout(result: Server.AnalysisResult, container: Size, k: nat)
    requires ValidImage(result) && Positive(container) && k < |result.damages|
    ensures var fr := Frame(result, container);
      var f := ContainFit(ImageSizeOf(result), container);
      var r := MapBox(result.damages[k].box, f);
      && |fr| == 1 + 3 * |result.damages|
      && fr[0] == ClearRect(CanvasDim(container.width), CanvasDim(container.height))
      && (forall m :: 0 < m < |fr| ==> !fr[m].ClearRect?)
      && fr[1 + 3 * k] == BoxOutline(r, CornerRadius)
      && fr[2 + 3 * k] == ConnectorCurve(Connector(r, ConnectorIsLeftAsWritten(r, CanvasDim(container.width)), RowTop(k), CanvasDim(container.width)))
      && fr[2 + 3 * k].curve.end.y == RowTop(k)
      && fr[2 + 3 * k].curve.start.y == r.y + r.h / 2.0
      && fr[3 + 3 * k] == AnchorDot(fr[2 + 3 * k].curve.start, DotRadius)
  {
    var f := ContainFit(ImageSizeOf(result), container);
    var cw := CanvasDim(container.width);
    DamageCommandsAt(f, cw, result.damages, k);
    var items := DamageCommands(f, cw, result.damages);
    assert items[3 * k] == items[3 * k..3 * k + 3][0];
    assert items[3 * k + 1] == items[3 * k..3 * k + 3][1];
    assert items[3 * k + 2] == items[3 * k..3 * k + 3][2];
  }

  /** With no damages a redraw only clears. */
  lemma EmptyFrameOnlyClears(result: Server.AnalysisResult, container: Size)
    requires ValidImage(result) && Positive(container) && result.damages == []
    ensures Frame(result, container) == [ClearRect(CanvasDim(container.width), CanvasDim(container.height))]
  {
  }

  /** What a canvas shows after a log of calls: everything from the last clear on. */
  function Shown(calls: seq<DrawCommand>): seq<DrawCommand>
    decreases |calls|
  {
    if calls == [] then []
    else if calls[|calls| - 1].ClearRect? then [calls[|calls| - 1]]
    else Shown(calls[..|calls| - 1]) + [calls[|calls| - 1]]
  }

  lemma {:induction false} ShownAfterClear(before: seq<DrawCommand>, frame: seq<DrawCommand>)
    requires frame != [] && frame[0].ClearRect?
    requires forall m :: 0 < m < |frame| ==> !frame[m].ClearRect?
    ensures Shown(before + frame) == frame
    decreases |frame|
  {
    var all := before + frame;
    if |frame| > 1 {
      var init := frame[..|frame| - 1];
      assert all[..|all| - 1] == before + init;
      ShownAfterClear(before, init);
    }
  }

  /**
   * A redraw replaces whatever the canvas showed: afterwards it shows exactly
   * the new frame, so drawing the same inputs twice shows the same thing.
   */
  lemma RedrawShowsOnlyFrame(before: seq<DrawCommand>, result: Server.AnalysisResult, container: Size)
    requires ValidImage(result) && Positive(container)
    ensures Shown(before + Frame(result, container)) == Frame(result, container)
    ensures Shown(before + Frame(result, container) + Frame(result, container)) == Shown(before + Frame(result, container))
  {
    var fr := Frame(result, container);
    if result.damages != [] {
      FrameLayout(result, container, 0);
    }
    ShownAfterClear(before, fr);
    ShownAfterClear(before + fr, fr);
  }

  /** The page's canvas element: its bitmap size and the calls made on its 2D context, oldest first. */
  class Canvas {
    var width: int
    var height: int
    var calls: seq<DrawCommand>

    constructor (width: int, height: int)
      ensures this.width == width && this.height == height && calls == []
    {
      this.width := width;
      this.height := height;
      calls := [];
    }
  }

  /**
   * The body of the `forEach` callback: the damage's box, its callout
   * connector and the anchor dot, appended to the canvas's calls.
   */
  method DrawDamage(canvas: Canvas, fit: Fit, b: Box, index: nat)
    modifies canvas
    ensures canvas.width == old(canvas.width) && canvas.height == old(canvas.height)
    ensures canvas.calls == old(canvas.calls) + ItemCommands(fit, canvas.width, b, index)
  {
    var box := MapBox(b, fit);
    var boxX, boxY, boxW, boxH := box.x, box.y, box.w, box.h;
    canvas.calls := canvas.calls + [BoxOutline(box, CornerRadius)];

    var centerX := boxX + boxW / 2.0;
    var centerY := boxY + boxH / 2.0;
    var isLeftSide := centerX < canvas.width as real / 2.0;
    var lineEndX := if isLeftSide then LineInset else canvas.width as real - LineInset;
    var lineEndY := RowTop(index);
    var start := Point(if isLeftSide then boxX else boxX + boxW, centerY);
    var controlX := if isLeftSide then boxX - ControlReach else boxX + boxW + ControlReach;
    var curve := Curve(start, Point(controlX, centerY), Point(controlX, lineEndY),
                       Point(lineEndX + (if isLeftSide then CardOffset else -CardOffset), lineEndY));
    canvas.calls := canvas.calls + [ConnectorCurve(curve)];
    canvas.calls := canvas.calls + [AnchorDot(start, DotRadius)];

    assert curve == Connector(box, isLeftSide, RowTop(index), canvas.width);
  }

  /**
   * `drawAnnotations`: nothing happens unless the canvas, the image (whose
   * parent gives the container size) and the analysis are all present;
   * otherwise the canvas is resized to the container and one frame is drawn.
   */
  method DrawAnnotations(canvas: Canvas?, container: Option<Size>, analysis: Option<Server.AnalysisResult>)
    requires container.Some? ==> Positive(container.value)
    requires analysis.Some? ==> ValidImage(analysis.value)
    modifies canvas
    ensures canvas != null && (container.None? || analysis.None?) ==> unchanged(canvas)
    ensures canvas != null && container.Some? && analysis.Some? ==>
      && canvas.width == CanvasDim(container.value.width)
      && canvas.height == CanvasDim(container.value.height)
      && canvas.calls == old(canvas.calls) + Frame(analysis.value, container.value)
  {
    if canvas == null || container.None? || analysis.None? {
      return;
    }
    var rect, result := container.value, analysis.value;
    canvas.width := CanvasDim(rect.width);
    canvas.height := CanvasDim(rect.height);
    var fit := ContainFit(ImageSizeOf(result), rect);
    canvas.calls := canvas.calls + [ClearRect(canvas.width, canvas.height)];
    ghost var cleared := canvas.calls;
    var damages := result.damages;
    for index := 0 to |damages|
      invariant canvas.width == CanvasDim(rect.width) && canvas.height == CanvasDim(rect.height)
      invariant canvas.calls == cleared + DamageCommands(fit, canvas.width, damages[..index])
    {
      var b := damages[index].box;
      DrawDamage(canvas, fit, b, index);
      assert damages[..index + 1][..index] == damages[..index];
      assert DamageCommands(fit, canvas.width, damages[..index + 1]) ==
        DamageCommands(fit, canvas.width, damages[..index]) + ItemCommands(fit, canvas.width, b, index);
    }
    assert damages[..|damages|] == damages;
  }

  /** Dots `1..n` of a severity display, dot `i` filled when `i <= severity`. */
  function Dots(n: nat, severity: int): (dots: seq<bool>)
    ensures |dots| == n
    decreases n
  {
    if n == 0 then [] else Dots(n - 1, severity) + [n <= severity]
  }

  /** `SeverityDots`: five dots, the dot at position `k` (0..4) filled exactly when `k < severity`. */
  function SeverityDots(severity: int): (dots: seq<bool>)
    ensures |dots| == 5
    ensures forall k :: 0 <= k < 5 ==> (dots[k] <==> k < severity)
  {
    DotsAt(5, severity);
    Dots(5, severity)
  }

  lemma {:induction false} DotsAt(n: nat, severity: int)
    ensures forall k :: 0 <= k < n ==> (Dots(n, severity)[k] <==> k < severity)
    decreases n
  {
    if n > 0 {
      DotsAt(n - 1, severity);
      var d := Dots(n, severity);
      assert d == Dots(n - 1, severity) + [n <= severity];
      forall k | 0 <= k < n
        ensures d[k] <==> k < severity
      {
        if k < n - 1 {
          assert d[k] == Dots(n - 1, severity)[k];
        }
      }
    }
  }

  function CountFilled(dots: seq<bool>): nat
  {
    if dots == [] then 0 else CountFilled(dots[..|dots| - 1]) + (if dots[|dots| - 1] then 1 else 0)
  }

  function Clamp(x: int, lo: int, hi: int): int
  {
    if x < lo then lo else if x > hi then hi else x
  }

  lemma {:induction false} DotsCount(n: nat, severity: int)
    ensures CountFilled(Dots(n, severity)) == Clamp(severity, 0, n)
    decreases n
  {
    if n > 0 {
      var d := Dots(n, severity);
      assert d[..n - 1] == Dots(n - 1, severity);
      DotsCount(n - 1, severity);
    }
  }

  /** As many dots are filled as the severity, clamped to 0..5. */
  lemma SeverityDotsCount(severity: int)
    ensures CountFilled(SeverityDots(severity)) == Clamp(severity, 0, 5)
  {
    DotsCount(5, severity);
  }

  /** The page's dots and the PDF report's dot string show the same severity. */
  lemma DotsMatchReport(severity: int)
    requires 0 <= severity <= 5
    ensures forall k :: 0 <= k < 5 ==> (SeverityDots(severity)[k] <==> Server.PdfSeverityDots(severity)[k] == '●')
  {
    var dots := SeverityDots(severity);
    forall k | 0 <= k < 5
      ensures dots[k] <==> Server.PdfSeverityDots(severity)[k] == '●'
    {
    }
  }

  /** `Math.round`: halves go up. */
  function RoundHalfUp(x: real): int
  {
    (x + 0.5).Floor
  }

  /**
   * The summary's dots: five dots for `Math.round(avg)`, the dot at position
   * `k` filled exactly when the average is at least `k + 0.5`, which puts the
   * filled count within half a dot of the average.
   */
  function AverageDots(avg: real): (dots: seq<bool>)
    ensures |dots| == 5 && forall k :: 0 <= k < 5 ==> (dots[k] <==> k as real + 0.5 <= avg)
    ensures 0.0 <= avg <= 5.0 ==> avg - 0.5 < CountFilled(dots) as real <= avg + 0.5
  {
    SeverityDotsCount(RoundHalfUp(avg));
    SeverityDots(RoundHalfUp(avg))
  }

  const LowBadge: string := "bg-green-100 text-green-700"
  const MediumBadge: string := "bg-orange-100 text-orange-700"
  const HighBadge: string := "bg-red-100 text-red-700"
  const FallbackBadge: string := "bg-gray-100 text-gray-700"

  /** `RiskBadge`'s colour lookup, grey for a level it does not know. */
  function RiskBadgeClass(level: string): (cls: string)
    ensures level == Server.Low ==> cls == LowBadge
    ensures level == Server.Medium ==> cls == MediumBadge
    ensures level == Server.High ==> cls == HighBadge
    ensures level != Server.Low && level != Server.Medium && level != Server.High ==> cls == FallbackBadge
  {
    var colors := map[Server.Low := LowBadge, Server.Medium := MediumBadge, Server.High := HighBadge];
    if level in colors then colors[level] else FallbackBadge
  }

  /** Every risk level the service reports gets its own colour, never the grey fallback. */
  lemma ReportedRiskHasColour(es: seq<Server.DamageEntry>)
    ensures RiskBadgeClass(Server.Summarize(es).riskLevel) != FallbackBadge
  {
  }

  /** A callout card of the render loop: side, top, and what it shows. */
  datatype Card = Card(isLeft: bool, top: real, title: string, part: Option<string>, confidence: real, dots: seq<bool>)

  function CardFor(imageWidth: real, d: Server.DamageEntry, index: nat): (card: Card)
    ensures card.isLeft <==> d.box.x1 + d.box.x2 < imageWidth
    ensures card.top == RowTop(index) && card.title == d.kindTr
    ensures card.part.Some? <==> d.partTr.Some? && d.partTr.value != ""
    ensures card.part.Some? ==> card.part == d.partTr
    ensures card.confidence == d.confidence
    ensures |card.dots| == 5 && forall k :: 0 <= k < 5 ==> (card.dots[k] <==> k < d.severity)
  {
    // `damage.part_tr && …` shows no part line for a missing or empty name.
    var part := if d.partTr.Some? && d.partTr.value != "" then d.partTr else None;
    Card(CardIsLeft(d.box, imageWidth), RowTop(index), d.kindTr, part, d.confidence, SeverityDots(d.severity))
  }

  /** The callout cards, one per damage, in list order. */
  function Cards(result: Server.AnalysisResult): (cards: seq<Card>)
    ensures |cards| == |result.damages|
    ensures forall k :: 0 <= k < |cards| ==> cards[k] == CardFor(result.imageSize.width as real, result.damages[k], k)
  {
    seq(|result.damages|, k requires 0 <= k < |result.damages| => CardFor(result.imageSize.width as real, result.damages[k], k))
  }

  /**
   * Every card's top is the row its connector arrives on. The connector
   * leaves the box on the side the page picks and ends 160 px in from that
   * side of the canvas; with a whole-pixel container width that side is the
   * card's side.
   */
  lemma CardsMeetConnectors(result: Server.AnalysisResult, container: Size, k: nat)
    requires ValidImage(result) && Positive(container) && k < |result.damages|
    ensures var fr := Frame(result, container);
      var card := Cards(result)[k];
      var cw := CanvasDim(container.width);
      var r := MapBox(result.damages[k].box, ContainFit(ImageSizeOf(result), container));
      var isLeft := ConnectorIsLeftAsWritten(r, cw);
      && |fr| == 1 + 3 * |result.damages|
      && fr[2 + 3 * k].ConnectorCurve?
      && fr[2 + 3 * k].curve.end.y == card.top
      && fr[2 + 3 * k].curve.start.x == (if isLeft then r.x else r.x + r.w)
      && fr[2 + 3 * k].curve.end.x == (if isLeft then LineInset + CardOffset else cw as real - LineInset - CardOffset)
      && (container.width == container.width.Floor as real ==> isLeft == card.isLeft)
  {
    var f := ContainFit(ImageSizeOf(result), container);
    var cw := CanvasDim(container.width);
    var r := MapBox(result.damages[k].box, f);
    FrameLayout(result, container, k);
    SidesAgree(ImageSizeOf(result), container, result.damages[k].box);
    if container.width == container.width.Floor as real {
      AsWrittenSideOnWholeWidths(r, container.width);
    }
    DamageCommandsAt(f, cw, result.damages, k);
    var items := DamageCommands(f, cw, result.damages);
    assert items[3 * k + 1] == items[3 * k..3 * k + 3][1];
  }

  /** Placeholder the detail list shows for a damage without a part. */
  const UnknownPart: string := "Belirsiz parça"

  /** The part line of a damage in the detail list: its part's name, or the placeholder when it has none (or an empty one). */
  function DetailPartText(partTr: Option<string>): (t: string)
    ensures partTr.Some? && partTr.value != "" ==> t == partTr.value
    ensures partTr.None? || partTr.value == "" ==> t == UnknownPart
  {
    match partTr
    case Some(name) => if name != "" then name else UnknownPart
    case None => UnknownPart
  }

  /**
   * A damage the service could not match to any part with IoU above the
   * threshold is listed with the placeholder.
   */
  lemma UnmatchedDamageShowsPlaceholder(d: Detection, parts: seq<Detection>)
    requires Server.EntryFor(d, parts).iouWithPart <= Server.MatchThreshold
    ensures DetailPartText(Server.EntryFor(d, parts).partTr) == UnknownPart
  {
  }
}
