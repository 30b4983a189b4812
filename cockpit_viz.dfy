/** The cockpit visualisation: projecting the frame, the current cockpit and
    a live (override) cockpit onto a 720 x 420 canvas with one uniform scale,
    the reach and drop deltas between them, and their colour severities. */
module CockpitViz {
  import opened Prelude
  import FC = FitCalculator
  import FitAdapter

  // ---------------------------------------------------------------------------
  // Colour semantics
  // ---------------------------------------------------------------------------

  datatype DeltaColor = Green | Amber | Red

  /** Severity of a delta: green within 10 mm, amber within 25 mm, red beyond. */
  function GetDeltaColor(delta: real): (c: DeltaColor)
    ensures c == Green <==> Abs(delta) <= 10.0
    ensures c == Amber <==> 10.0 < Abs(delta) <= 25.0
    ensures c == Red <==> 25.0 < Abs(delta)
  {
    var magnitude := Abs(delta);
    if magnitude <= 10.0 then Green
    else if magnitude <= 25.0 then Amber
    else Red
  }

  function Severity(c: DeltaColor): nat {
    match c
    case Green => 0
    case Amber => 1
    case Red => 2
  }

  /** The colour depends on the size of the delta only, not its sign. */
  lemma DeltaColorByMagnitude(d: real, e: real)
    requires Abs(d) == Abs(e)
    ensures GetDeltaColor(d) == GetDeltaColor(e)
    ensures GetDeltaColor(d) == GetDeltaColor(-d)
  {
  }

  /** A larger delta is never shown as less severe. */
  lemma DeltaColorMonotone(d: real, e: real)
    requires Abs(d) <= Abs(e)
    ensures Severity(GetDeltaColor(d)) <= Severity(GetDeltaColor(e))
  {
  }

  // ---------------------------------------------------------------------------
  // Input and output shapes
  // ---------------------------------------------------------------------------

  datatype VizFrame = VizFrame(stackMm: real, reachMm: real, headTubeLengthMm: Option<real>)

  /** The current cockpit; `barReachMm` is already resolved from its category. */
  datatype VizCurrent = VizCurrent(stemMm: real, spacerMm: real, barReachMm: real, hoodOffsetMm: real)

  datatype VizTarget = VizTarget(
    targetReachMm: real,
    targetDropMm: real,
    idealStemMm: real,
    idealSpacerMm: real,
    idealBarReachMm: real,
    idealStemRangeMm: (real, real),
    idealSpacerRangeMm: (real, real),
    reachDeltaMm: real,
    confidence: real,
    flags: seq<string>)

  datatype VizInput = VizInput(frame: VizFrame, current: VizCurrent, target: VizTarget, saddleHeightMm: Option<real>)

  /** The live cockpit the rider is trying out. */
  datatype Overrides = Overrides(stem: real, spacers: real, barReach: real)

  datatype Point = Point(x: real, y: real)

  datatype Line = Line(x1: real, y1: real, x2: real, y2: real)

  datatype CanvasSize = CanvasSize(width: int, height: int, padding: int)

  datatype FrameDrawing = FrameDrawing(bb: Point, headTop: Point, reachLine: Line, stackLine: Line)

  datatype CockpitDrawing = CockpitDrawing(stemPx: real, barPx: real, stemEnd: Point, barEnd: Point, hood: Point)

  datatype Deltas = Deltas(reach: int, drop: int, reachColor: DeltaColor, dropColor: DeltaColor)

  datatype Bands = Bands(stemRange: (real, real), spacerRange: (real, real))

  datatype Scale = Scale(xScale: real, yScale: real)

  datatype SvgModel = SvgModel(
    size: CanvasSize,
    frame: FrameDrawing,
    current: CockpitDrawing,
    target: CockpitDrawing,
    deltas: Deltas,
    bands: Bands,
    scale: Scale)

  // ---------------------------------------------------------------------------
  // Projection
  // ---------------------------------------------------------------------------

  /** Visual rise of the hood above the bar clamp, in pixels. */
  const HoodRisePx: real := 35.0
  /** Horizontal offset from bar to hood trough, in millimetres. */
  const HoodOffsetMm: real := 25.0

  const CanvasWidth: int := 720
  const CanvasHeight: int := 420
  const CanvasPadding: int := 40

  function Max3(a: real, b: real, c: real): (r: real)
    ensures r >= a && r >= b && r >= c
    ensures r == a || r == b || r == c
  {
    Max(Max(a, b), c)
  }

  function CurrentReach(viz: VizInput): real {
    viz.frame.reachMm + viz.current.stemMm + viz.current.barReachMm + viz.current.hoodOffsetMm
  }

  function LiveReach(viz: VizInput, ov: Overrides): real {
    viz.frame.reachMm + ov.stem + ov.barReach + HoodOffsetMm
  }

  function CurrentStack(viz: VizInput): real {
    viz.frame.stackMm + viz.current.spacerMm
  }

  function TargetStack(viz: VizInput): real {
    viz.frame.stackMm + viz.target.idealSpacerMm
  }

  function LiveStack(viz: VizInput, ov: Overrides): real {
    viz.frame.stackMm + ov.spacers
  }

  /** Horizontal extent to fit: the largest reach plus an 80 mm margin. */
  function MaxReach(viz: VizInput, ov: Overrides): real {
    Max3(CurrentReach(viz), viz.target.targetReachMm, LiveReach(viz, ov)) + 80.0
  }

  /** Vertical extent to fit: the largest stack plus a 60 mm margin. */
  function MaxStack(viz: VizInput, ov: Overrides): real {
    Max3(CurrentStack(viz), TargetStack(viz), LiveStack(viz, ov)) + 60.0
  }

  /** At least one extent is nonzero, so at least one axis scale is finite.
      A zero extent makes its axis scale +Infinity (the sum `max + 80` or
      `max + 60` is never -0), and `Math.min` then picks the other one. */
  predicate Drawable(viz: VizInput, ov: Overrides) {
    MaxReach(viz, ov) != 0.0 || MaxStack(viz, ov) != 0.0
  }

  /** Millimetres to pixels: the smaller of the two axis scales, so the aspect
      ratio is kept; an axis whose extent is zero has an infinite scale and
      never is the smaller. */
  function UniformScale(viz: VizInput, ov: Overrides): (s: real)
    requires Drawable(viz, ov)
    ensures s != 0.0
    ensures MaxReach(viz, ov) != 0.0 ==> s <= 640.0 / MaxReach(viz, ov)
    ensures MaxStack(viz, ov) != 0.0 ==> s <= 340.0 / MaxStack(viz, ov)
    ensures (MaxReach(viz, ov) != 0.0 && s == 640.0 / MaxReach(viz, ov))
         || (MaxStack(viz, ov) != 0.0 && s == 340.0 / MaxStack(viz, ov))
  {
    var width := (CanvasWidth - CanvasPadding * 2) as real;
    var height := (CanvasHeight - CanvasPadding * 2) as real;
    if MaxReach(viz, ov) == 0.0 then height / MaxStack(viz, ov)
    else if MaxStack(viz, ov) == 0.0 then width / MaxReach(viz, ov)
    else Min(width / MaxReach(viz, ov), height / MaxStack(viz, ov))
  }

  function FrameLayout(frame: VizFrame, scale: real): FrameDrawing {
    var bbX := CanvasPadding as real;
    var bbY := (CanvasHeight - CanvasPadding) as real;
    var headTopX := bbX + frame.reachMm * scale;
    var headTopY := bbY - frame.stackMm * scale;
    FrameDrawing(
      Point(bbX, bbY),
      Point(headTopX, headTopY),
      Line(bbX, bbY, headTopX, bbY),
      Line(headTopX, bbY, headTopX, headTopY))
  }

  /** A cockpit drawn from the head-tube top: the stem runs forward and is
      lifted by the spacers, the bar extends forward at the same height, and
      the hood sits 25 mm further forward and 35 px higher. */
  function Cockpit(headTop: Point, stemMm: real, spacerMm: real, barReachMm: real, scale: real): CockpitDrawing {
    var stemPx := stemMm * scale;
    var barPx := barReachMm * scale;
    var spacerPx := spacerMm * scale;
    var stemEnd := Point(headTop.x + stemPx, headTop.y - spacerPx);
    var barEnd := Point(stemEnd.x + barPx, stemEnd.y);
    var hood := Point(barEnd.x + HoodOffsetMm * scale, barEnd.y - HoodRisePx);
    CockpitDrawing(stemPx, barPx, stemEnd, barEnd, hood)
  }

  /** Vertical distance from the current hood down to the live hood, in
      millimetres, rounded (positive when the live bar is lower). */
  function DropDelta(current: CockpitDrawing, live: CockpitDrawing, scale: real): int
    requires scale != 0.0
  {
    Round((live.hood.y - current.hood.y) / scale)
  }

  function ProjectToSvgModel(viz: VizInput, ov: Overrides): SvgModel
    requires Drawable(viz, ov)
  {
    Projection(viz, ov, UniformScale(viz, ov))
  }

  /** The drawing for a given nonzero millimetre-to-pixel scale. */
  function Projection(viz: VizInput, ov: Overrides, scale: real): SvgModel
    requires scale != 0.0
  {
    var frame := FrameLayout(viz.frame, scale);
    var current := Cockpit(frame.headTop, viz.current.stemMm, viz.current.spacerMm, viz.current.barReachMm, scale);
    var live := Cockpit(frame.headTop, ov.stem, ov.spacers, ov.barReach, scale);
    var reachDelta := Round(LiveReach(viz, ov) - viz.target.targetReachMm);
    var dropDelta := DropDelta(current, live, scale);
    SvgModel(
      CanvasSize(CanvasWidth, CanvasHeight, CanvasPadding),
      frame,
      current,
      live,
      Deltas(reachDelta, dropDelta, GetDeltaColor(reachDelta as real), GetDeltaColor(dropDelta as real)),
      Bands(viz.target.idealStemRangeMm, viz.target.idealSpacerRangeMm),
      Scale(scale, scale))
  }

  // ---------------------------------------------------------------------------
  // Properties of the projection
  // ---------------------------------------------------------------------------

  /** One scale for both axes: the smaller of 640 / maxReach and
      340 / maxStack; the rest of the drawing is the projection at that
      scale, whose properties follow. */
  lemma ScaleIsUniform(viz: VizInput, ov: Overrides)
    requires Drawable(viz, ov)
    ensures var m := ProjectToSvgModel(viz, ov);
      && m.scale.xScale == m.scale.yScale
      && (MaxReach(viz, ov) != 0.0 && MaxStack(viz, ov) != 0.0 ==>
            m.scale.xScale == Min(640.0 / MaxReach(viz, ov), 340.0 / MaxStack(viz, ov)))
      && (MaxReach(viz, ov) == 0.0 ==> m.scale.xScale == 340.0 / MaxStack(viz, ov))
      && (MaxStack(viz, ov) == 0.0 ==> m.scale.xScale == 640.0 / MaxReach(viz, ov))
      && m.size == CanvasSize(720, 420, 40)
      && m == Projection(viz, ov, m.scale.xScale)
  {
  }

  lemma MulMonotone(a: real, b: real, s: real)
    requires a <= b && s > 0.0
    ensures a * s <= b * s
  {
  }

  /** For non-negative extents, not both zero, the uniform scale is positive
      and scales each extent to at most its drawing size (640 px across,
      340 px up). */
  lemma ScaleBounds(viz: VizInput, ov: Overrides)
    requires MaxReach(viz, ov) >= 0.0 && MaxStack(viz, ov) >= 0.0 && Drawable(viz, ov)
    ensures var s := UniformScale(viz, ov);
      && s > 0.0
      && s * MaxReach(viz, ov) <= 640.0
      && s * MaxStack(viz, ov) <= 340.0
  {
    var s := UniformScale(viz, ov);
    var mr, ms := MaxReach(viz, ov), MaxStack(viz, ov);
    assert s > 0.0;
    if mr != 0.0 {
      MulMonotone(s, 640.0 / mr, mr);
    }
    if ms != 0.0 {
      MulMonotone(s, 340.0 / ms, ms);
    }
  }

  /** Every reach leaves the 80 mm margin inside the drawing width and every
      stack the 60 mm margin inside the drawing height, at any positive scale
      that fits the extents. */
  lemma ExtentsFitAt(viz: VizInput, ov: Overrides, s: real)
    requires s > 0.0 && s * MaxReach(viz, ov) <= 640.0 && s * MaxStack(viz, ov) <= 340.0
    ensures && CurrentReach(viz) * s <= 640.0 - 80.0 * s
            && viz.target.targetReachMm * s <= 640.0 - 80.0 * s
            && LiveReach(viz, ov) * s <= 640.0 - 80.0 * s
            && CurrentStack(viz) * s <= 340.0 - 60.0 * s
            && TargetStack(viz) * s <= 340.0 - 60.0 * s
            && LiveStack(viz, ov) * s <= 340.0 - 60.0 * s
  {
    var mr, ms := MaxReach(viz, ov), MaxStack(viz, ov);
    MulMonotone(CurrentReach(viz) + 80.0, mr, s);
    MulMonotone(viz.target.targetReachMm + 80.0, mr, s);
    MulMonotone(LiveReach(viz, ov) + 80.0, mr, s);
    MulMonotone(CurrentStack(viz) + 60.0, ms, s);
    MulMonotone(TargetStack(viz) + 60.0, ms, s);
    MulMonotone(LiveStack(viz, ov) + 60.0, ms, s);
  }

  /** At such a scale the reach and stack extents keep the drawing clear of
      the right and top padding: the live hood stays left of the right
      padding, and both stem ends stay below the top padding. */
  lemma DrawingFitsAt(viz: VizInput, ov: Overrides, s: real)
    requires s > 0.0 && s * MaxReach(viz, ov) <= 640.0 && s * MaxStack(viz, ov) <= 340.0
    ensures var m := Projection(viz, ov, s);
      && m.target.hood.x <= 680.0 - 80.0 * s
      && m.current.stemEnd.y >= 40.0 + 60.0 * s
      && m.target.stemEnd.y >= 40.0 + 60.0 * s
  {
    ExtentsFitAt(viz, ov, s);
    ScaledPositions(viz, ov, s);
  }

  /** The current hood is always drawn 25 mm past the bar; when the current
      reach is measured with that same offset it, too, stays left of the
      right padding. */
  lemma CurrentHoodFitsAt(viz: VizInput, ov: Overrides, s: real)
    requires s > 0.0 && s * MaxReach(viz, ov) <= 640.0 && s * MaxStack(viz, ov) <= 340.0
    requires viz.current.hoodOffsetMm == HoodOffsetMm
    ensures Projection(viz, ov, s).current.hood.x <= 680.0 - 80.0 * s
  {
    var r := viz.frame.reachMm + viz.current.stemMm + viz.current.barReachMm + HoodOffsetMm;
    assert CurrentReach(viz) == r;
    assert MaxReach(viz, ov) >= r + 80.0;
    WithinMargin(r, 80.0, MaxReach(viz, ov), 640.0, s);
    ScaledPositions(viz, ov, s);
  }

  /** A length at least `margin` short of an extent that scales to at most
      `room` itself scales to at most `room - margin * s`. */
  lemma WithinMargin(a: real, margin: real, extent: real, room: real, s: real)
    requires s > 0.0 && a + margin <= extent && s * extent <= room
    ensures a * s <= room - margin * s
  {
    MulMonotone(a + margin, extent, s);
  }

  /** Each hood is drawn a fixed 35 px above its stem end. */
  lemma HoodsAboveStemEnds(viz: VizInput, ov: Overrides, scale: real)
    requires scale != 0.0
    ensures var m := Projection(viz, ov, scale);
      && m.current.hood.y == m.current.stemEnd.y - HoodRisePx
      && m.target.hood.y == m.target.stemEnd.y - HoodRisePx
  {
    var h := FrameLayout(viz.frame, scale).headTop;
    CockpitShape(h, ov.stem, ov.spacers, ov.barReach, scale);
    CockpitShape(h, viz.current.stemMm, viz.current.spacerMm, viz.current.barReachMm, scale);
  }

  /** The hoods keep only 60 * s - 35 px of the top margin: they stay on the
      canvas, and clear the top padding once s >= 7/12. */
  lemma HoodsClearTopAt(viz: VizInput, ov: Overrides, s: real)
    requires s > 0.0 && s * MaxReach(viz, ov) <= 640.0 && s * MaxStack(viz, ov) <= 340.0
    ensures var m := Projection(viz, ov, s);
      && m.current.hood.y >= 5.0 + 60.0 * s && m.target.hood.y >= 5.0 + 60.0 * s
      && (s >= 7.0 / 12.0 ==> m.current.hood.y >= 40.0 && m.target.hood.y >= 40.0)
  {
    DrawingFitsAt(viz, ov, s);
    HoodsAboveStemEnds(viz, ov, s);
  }

  /** So the projected drawing keeps the same bounds at the scale it picks. */
  lemma DrawingFits(viz: VizInput, ov: Overrides)
    requires MaxReach(viz, ov) >= 0.0 && MaxStack(viz, ov) >= 0.0 && Drawable(viz, ov)
    ensures var m := ProjectToSvgModel(viz, ov);
      var s := m.scale.xScale;
      && m.scale.yScale == s
      && m.target.hood.x <= 680.0 - 80.0 * s
      && (viz.current.hoodOffsetMm == HoodOffsetMm ==> m.current.hood.x <= 680.0 - 80.0 * s)
      && m.current.stemEnd.y >= 40.0 + 60.0 * s
      && m.target.stemEnd.y >= 40.0 + 60.0 * s
      && m.current.hood.y >= 5.0 + 60.0 * s && m.target.hood.y >= 5.0 + 60.0 * s
      && (s >= 7.0 / 12.0 ==> m.current.hood.y >= 40.0 && m.target.hood.y >= 40.0)
  {
    var s := UniformScale(viz, ov);
    ScaleBounds(viz, ov);
    DrawingFitsAt(viz, ov, s);
    HoodsClearTopAt(viz, ov, s);
    if viz.current.hoodOffsetMm == HoodOffsetMm {
      CurrentHoodFitsAt(viz, ov, s);
    }
    assert ProjectToSvgModel(viz, ov) == Projection(viz, ov, s);
  }

  /** Lengths the drawing lays out from the bottom bracket are never negative. */
  predicate NonNegativeLengths(viz: VizInput, ov: Overrides) {
    && viz.frame.reachMm >= 0.0 && viz.frame.stackMm >= 0.0
    && viz.current.stemMm >= 0.0 && viz.current.spacerMm >= 0.0 && viz.current.barReachMm >= 0.0
    && ov.stem >= 0.0 && ov.spacers >= 0.0 && ov.barReach >= 0.0
  }

  /** With non-negative lengths and a positive scale nothing is drawn left of
      the left padding or below the bottom padding: the head-tube top lies at
      x >= 40 and y <= 380, and each cockpit runs forward and up from it
      (stem end, then bar end at the same height, then the hood above). */
  lemma DrawingClearsBottomLeft(viz: VizInput, ov: Overrides, s: real)
    requires s > 0.0 && NonNegativeLengths(viz, ov)
    ensures var m := Projection(viz, ov, s);
      && m.frame.headTop.x >= 40.0 && m.frame.headTop.y <= 380.0
      && m.frame.headTop.x <= m.current.stemEnd.x <= m.current.barEnd.x <= m.current.hood.x
      && m.frame.headTop.x <= m.target.stemEnd.x <= m.target.barEnd.x <= m.target.hood.x
      && m.current.hood.y < m.current.barEnd.y == m.current.stemEnd.y <= m.frame.headTop.y
      && m.target.hood.y < m.target.barEnd.y == m.target.stemEnd.y <= m.frame.headTop.y
  {
    MulMonotone(0.0, viz.frame.reachMm, s);
    MulMonotone(0.0, viz.frame.stackMm, s);
    MulMonotone(0.0, viz.current.stemMm, s);
    MulMonotone(0.0, viz.current.spacerMm, s);
    MulMonotone(0.0, viz.current.barReachMm, s);
    MulMonotone(0.0, ov.stem, s);
    MulMonotone(0.0, ov.spacers, s);
    MulMonotone(0.0, ov.barReach, s);
  }

  /** A zero horizontal extent still gives a drawing: frame reach -300 mm
      with a 100 mm stem and a 78 mm bar, against a target reach of -80 mm,
      make maxReach 0, and the scale is the vertical one, 340 / 670. */
  lemma ZeroReachExtentUsesStackScale()
    ensures var viz := VizInput(
        VizFrame(590.0, -300.0, None),
        VizCurrent(100.0, 20.0, 78.0, 25.0),
        VizTarget(-80.0, 30.0, 100.0, 20.0, 78.0, (95.0, 105.0), (15.0, 25.0), 0.0, 80.0, []),
        None);
      var ov := Overrides(100.0, 20.0, 78.0);
      && MaxReach(viz, ov) == 0.0
      && Drawable(viz, ov)
      && UniformScale(viz, ov) == 34.0 / 67.0
      && ProjectToSvgModel(viz, ov).scale == Scale(34.0 / 67.0, 34.0 / 67.0)
  {
    var viz := VizInput(
        VizFrame(590.0, -300.0, None),
        VizCurrent(100.0, 20.0, 78.0, 25.0),
        VizTarget(-80.0, 30.0, 100.0, 20.0, 78.0, (95.0, 105.0), (15.0, 25.0), 0.0, 80.0, []),
        None);
    var ov := Overrides(100.0, 20.0, 78.0);
    assert MaxReach(viz, ov) == 0.0;
    assert MaxStack(viz, ov) == 670.0;
    assert 340.0 / 670.0 == 34.0 / 67.0;
  }

  /** A realistic setup whose live hood enters the top padding: frame stack
      590, frame reach 386 and 50 mm of live spacers give the scale
      340 / 700 < 7/12, and the live hood is drawn at y < 40. */
  lemma HoodCanEnterTopPadding()
    ensures var viz := VizInput(
        VizFrame(590.0, 386.0, None),
        VizCurrent(100.0, 20.0, 78.0, 25.0),
        VizTarget(580.0, 30.0, 100.0, 20.0, 78.0, (95.0, 105.0), (15.0, 25.0), 9.0, 80.0, []),
        None);
      var ov := Overrides(100.0, 50.0, 78.0);
      && Drawable(viz, ov)
      && UniformScale(viz, ov) == 17.0 / 35.0
      && ProjectToSvgModel(viz, ov).target.hood.y < 40.0
  {
    var viz := VizInput(
        VizFrame(590.0, 386.0, None),
        VizCurrent(100.0, 20.0, 78.0, 25.0),
        VizTarget(580.0, 30.0, 100.0, 20.0, 78.0, (95.0, 105.0), (15.0, 25.0), 9.0, 80.0, []),
        None);
    var ov := Overrides(100.0, 50.0, 78.0);
    assert MaxReach(viz, ov) == 669.0;
    assert MaxStack(viz, ov) == 700.0;
    assert 340.0 / 700.0 == 17.0 / 35.0;
    assert UniformScale(viz, ov) == 17.0 / 35.0;
    ScaledPositions(viz, ov, 17.0 / 35.0);
    HoodsAboveStemEnds(viz, ov, 17.0 / 35.0);
    assert ProjectToSvgModel(viz, ov) == Projection(viz, ov, 17.0 / 35.0);
  }

  /** The live hood sits the scaled live reach right of the bottom bracket,
      the current hood the scaled current reach drawn with the 25 mm offset,
      and each stem end the scaled stack (frame plus spacers) above it. */
  lemma ScaledPositions(viz: VizInput, ov: Overrides, scale: real)
    requires scale != 0.0
    ensures var m := Projection(viz, ov, scale);
      && m.target.hood.x == 40.0 + LiveReach(viz, ov) * scale
      && m.current.stemEnd.y == 380.0 - CurrentStack(viz) * scale
      && m.target.stemEnd.y == 380.0 - LiveStack(viz, ov) * scale
      && m.current.hood.x == 40.0 + (viz.frame.reachMm + viz.current.stemMm + viz.current.barReachMm + HoodOffsetMm) * scale
  {
    var m := Projection(viz, ov, scale);
    var h := FrameLayout(viz.frame, scale).headTop;
    assert m.target == Cockpit(h, ov.stem, ov.spacers, ov.barReach, scale);
    assert m.current == Cockpit(h, viz.current.stemMm, viz.current.spacerMm, viz.current.barReachMm, scale);
    CockpitShape(h, ov.stem, ov.spacers, ov.barReach, scale);
    CockpitShape(h, viz.current.stemMm, viz.current.spacerMm, viz.current.barReachMm, scale);
    ReachOffset(viz.frame.reachMm, ov.stem + ov.barReach + 25.0, scale);
    ReachOffset(viz.frame.reachMm, viz.current.stemMm + viz.current.barReachMm + 25.0, scale);
    StackOffset(viz.frame.stackMm, ov.spacers, scale);
    StackOffset(viz.frame.stackMm, viz.current.spacerMm, scale);
  }

  lemma ReachOffset(a: real, b: real, s: real)
    ensures 40.0 + a * s + b * s == 40.0 + (a + b) * s
  {
  }

  lemma StackOffset(a: real, b: real, s: real)
    ensures 380.0 - a * s - b * s == 380.0 - (a + b) * s
  {
  }

  /** The bottom bracket is the padded bottom-left corner, the head-tube top
      is the frame's reach and stack scaled from it, the reach line is
      horizontal along the bottom and the stack line vertical under the
      head-tube top. */
  lemma FramePlacement(viz: VizInput, ov: Overrides, scale: real)
    requires scale != 0.0
    ensures var m := Projection(viz, ov, scale);
      && m.frame.bb == Point(40.0, 380.0)
      && m.frame.headTop == Point(40.0 + viz.frame.reachMm * scale, 380.0 - viz.frame.stackMm * scale)
      && m.frame.reachLine.y1 == m.frame.reachLine.y2 == m.frame.bb.y
      && m.frame.reachLine.x1 == m.frame.bb.x && m.frame.reachLine.x2 == m.frame.headTop.x
      && m.frame.stackLine.x1 == m.frame.stackLine.x2 == m.frame.headTop.x
      && m.frame.stackLine.y1 == m.frame.bb.y && m.frame.stackLine.y2 == m.frame.headTop.y
  {
    assert Projection(viz, ov, scale).frame == FrameLayout(viz.frame, scale);
  }

  /** Each cockpit hangs off the head-tube top: the stem end is `stem` right
      and `spacers` up, the bar end is level with it, and the hood is 25 mm
      forward and 35 px up from the bar end. */
  lemma CockpitShape(headTop: Point, stemMm: real, spacerMm: real, barReachMm: real, scale: real)
    ensures var c := Cockpit(headTop, stemMm, spacerMm, barReachMm, scale);
      && c.stemEnd == Point(headTop.x + stemMm * scale, headTop.y - spacerMm * scale)
      && c.barEnd.y == c.stemEnd.y
      && c.barEnd.x == c.stemEnd.x + barReachMm * scale
      && c.hood == Point(c.barEnd.x + 25.0 * scale, c.barEnd.y - 35.0)
      && c.hood.x == headTop.x + (stemMm + barReachMm + 25.0) * scale
  {
  }

  /** Two cockpits from the same head-tube top: their hoods are apart by the
      scaled differences in stem-plus-bar and in spacers. */
  lemma HoodOffsets(headTop: Point, stem1: real, spacer1: real, bar1: real,
                    stem2: real, spacer2: real, bar2: real, scale: real)
    ensures var c1 := Cockpit(headTop, stem1, spacer1, bar1, scale);
      var c2 := Cockpit(headTop, stem2, spacer2, bar2, scale);
      && c2.hood.x - c1.hood.x == (stem2 + bar2 - stem1 - bar1) * scale
      && c2.hood.y - c1.hood.y == (spacer1 - spacer2) * scale
  {
    CockpitShape(headTop, stem1, spacer1, bar1, scale);
    CockpitShape(headTop, stem2, spacer2, bar2, scale);
  }

  /** The current cockpit is drawn from the current setup and the target one
      from the overrides; the live hood is offset from the current hood by
      the scaled differences in stem-plus-bar and in spacers. */
  lemma CockpitsFromSetups(viz: VizInput, ov: Overrides, scale: real)
    requires scale != 0.0
    ensures var m := Projection(viz, ov, scale);
      && m.current == Cockpit(m.frame.headTop, viz.current.stemMm, viz.current.spacerMm, viz.current.barReachMm, scale)
      && m.target == Cockpit(m.frame.headTop, ov.stem, ov.spacers, ov.barReach, scale)
      && m.target.hood.x - m.current.hood.x
           == (ov.stem + ov.barReach - viz.current.stemMm - viz.current.barReachMm) * scale
      && m.target.hood.y - m.current.hood.y == (viz.current.spacerMm - ov.spacers) * scale
  {
    var h := FrameLayout(viz.frame, scale).headTop;
    HoodOffsets(h, viz.current.stemMm, viz.current.spacerMm, viz.current.barReachMm,
      ov.stem, ov.spacers, ov.barReach, scale);
  }

  /** The reach delta is the live effective reach (with the 25 mm hood
      offset) minus the target reach, rounded, and coloured by its size. */
  lemma ReachDeltaOfLiveSetup(viz: VizInput, ov: Overrides, scale: real)
    requires scale != 0.0
    ensures var m := Projection(viz, ov, scale);
      && m.deltas.reach
           == Round(viz.frame.reachMm + ov.stem + ov.barReach + 25.0 - viz.target.targetReachMm)
      && m.deltas.reachColor == GetDeltaColor(m.deltas.reach as real)
  {
  }

  lemma QuotientOfScaled(d: real, s: real)
    requires s != 0.0
    ensures (d * s) / s == d
  {
  }

  /** Between two cockpits hung from the same head-tube top, the drop delta
      is the first one's spacers minus the second one's, rounded, whatever the
      scale. */
  lemma DropDeltaOfCockpits(headTop: Point, stem1: real, spacer1: real, bar1: real,
                            stem2: real, spacer2: real, bar2: real, scale: real)
    requires scale != 0.0
    ensures DropDelta(Cockpit(headTop, stem1, spacer1, bar1, scale), Cockpit(headTop, stem2, spacer2, bar2, scale), scale)
         == Round(spacer1 - spacer2)
  {
    var c1 := Cockpit(headTop, stem1, spacer1, bar1, scale);
    var c2 := Cockpit(headTop, stem2, spacer2, bar2, scale);
    HoodOffsets(headTop, stem1, spacer1, bar1, stem2, spacer2, bar2, scale);
    var rise := c2.hood.y - c1.hood.y;
    assert rise == (spacer1 - spacer2) * scale;
    QuotientOfScaled(spacer1 - spacer2, scale);
    assert rise / scale == spacer1 - spacer2;
  }

  /** The drop delta does not depend on the scale or the frame: it is the
      current spacers minus the live spacers, rounded, so it is positive
      (lower bar) at least half a millimetre below the current spacers and
      zero, and green, for unchanged spacers. */
  lemma DropDeltaIsSpacerChange(viz: VizInput, ov: Overrides, scale: real)
    requires scale != 0.0
    ensures var m := Projection(viz, ov, scale);
      && m.deltas.drop == Round(viz.current.spacerMm - ov.spacers)
      && m.deltas.dropColor == GetDeltaColor(m.deltas.drop as real)
      && (ov.spacers <= viz.current.spacerMm - 0.5 ==> m.deltas.drop > 0)
      && (ov.spacers == viz.current.spacerMm ==> m.deltas.drop == 0 && m.deltas.dropColor == Green)
  {
    var m := Projection(viz, ov, scale);
    var h := FrameLayout(viz.frame, scale).headTop;
    assert m.current == Cockpit(h, viz.current.stemMm, viz.current.spacerMm, viz.current.barReachMm, scale);
    assert m.target == Cockpit(h, ov.stem, ov.spacers, ov.barReach, scale);
    assert m.deltas.drop == DropDelta(m.current, m.target, scale);
    DropDeltaOfCockpits(h, viz.current.stemMm, viz.current.spacerMm, viz.current.barReachMm,
      ov.stem, ov.spacers, ov.barReach, scale);
    RoundOfInt(0);
  }

  /** The comfort bands are passed through from the target unchanged. */
  lemma BandsCopied(viz: VizInput, ov: Overrides, scale: real)
    requires scale != 0.0
    ensures Projection(viz, ov, scale).bands.stemRange == viz.target.idealStemRangeMm
    ensures Projection(viz, ov, scale).bands.spacerRange == viz.target.idealSpacerRangeMm
  {
  }

  // ---------------------------------------------------------------------------
  // Building the input
  // ---------------------------------------------------------------------------

  datatype VizParams = VizParams(
    frameStackMm: real,
    frameReachMm: real,
    headTubeLengthMm: Option<real>,
    currentStemMm: real,
    currentSpacerMm: real,
    currentBarCategory: FC.BarCategory,
    targetReachMm: real,
    targetDropMm: real,
    idealStemMm: real,
    idealSpacerMm: real,
    idealBarCategory: FC.BarCategory,
    idealStemRange: (real, real),
    idealSpacerRange: (real, real),
    reachDelta: real,
    confidence: real,
    flags: seq<string>,
    saddleHeightMm: Option<real>)

  /** Millimetre bar reach of a category. */
  function BarReachValue(c: FC.BarCategory): real {
    FitAdapter.GetBarReachMm(c) as real
  }

  function BuildVizInput(p: VizParams): VizInput {
    VizInput(
      VizFrame(p.frameStackMm, p.frameReachMm, p.headTubeLengthMm),
      VizCurrent(p.currentStemMm, p.currentSpacerMm, BarReachValue(p.currentBarCategory), 25.0),
      VizTarget(p.targetReachMm, p.targetDropMm, p.idealStemMm, p.idealSpacerMm,
        BarReachValue(p.idealBarCategory), p.idealStemRange, p.idealSpacerRange,
        p.reachDelta, p.confidence, p.flags),
      p.saddleHeightMm)
  }

  /** A built input carries the parameters unchanged, the two bar categories
      resolved to millimetres (a longer category to a longer bar, each within
      its category's range), and the standard 25 mm hood offset. */
  lemma BuildVizInputFields(p: VizParams)
    ensures var viz := BuildVizInput(p);
      && viz.current.hoodOffsetMm == 25.0
      && viz.current.barReachMm == FitAdapter.GetBarReachMm(p.currentBarCategory) as real
      && viz.target.idealBarReachMm == FitAdapter.GetBarReachMm(p.idealBarCategory) as real
      && viz.frame == VizFrame(p.frameStackMm, p.frameReachMm, p.headTubeLengthMm)
      && viz.current.stemMm == p.currentStemMm && viz.current.spacerMm == p.currentSpacerMm
      && viz.target.targetReachMm == p.targetReachMm && viz.target.idealSpacerMm == p.idealSpacerMm
      && viz.target.idealStemRangeMm == p.idealStemRange && viz.target.idealSpacerRangeMm == p.idealSpacerRange
      && viz.target.targetDropMm == p.targetDropMm && viz.target.idealStemMm == p.idealStemMm
      && viz.target.reachDeltaMm == p.reachDelta && viz.target.confidence == p.confidence
      && viz.target.flags == p.flags && viz.saddleHeightMm == p.saddleHeightMm
    ensures FC.GetBarReachRange(p.currentBarCategory).0 as real <= BuildVizInput(p).current.barReachMm
         <= FC.GetBarReachRange(p.currentBarCategory).1 as real
    ensures FC.GetBarReachRange(p.idealBarCategory).0 as real <= BuildVizInput(p).target.idealBarReachMm
         <= FC.GetBarReachRange(p.idealBarCategory).1 as real
  {
  }

  /** With a built input, overrides equal to the current setup redraw the
      current cockpit exactly: the two cockpits coincide, the drop delta is
      zero and the reach delta is the current effective reach minus the
      target. */
  lemma CurrentSetupAsOverrides(p: VizParams)
    requires Drawable(BuildVizInput(p), Overrides(p.currentStemMm, p.currentSpacerMm, BarReachValue(p.currentBarCategory)))
    ensures var viz := BuildVizInput(p);
      var m := ProjectToSvgModel(viz, Overrides(p.currentStemMm, p.currentSpacerMm, BarReachValue(p.currentBarCategory)));
      && m.target == m.current
      && m.deltas.drop == 0
      && m.deltas.reach == Round(CurrentReach(viz) - p.targetReachMm)
  {
    var viz := BuildVizInput(p);
    var ov := Overrides(p.currentStemMm, p.currentSpacerMm, BarReachValue(p.currentBarCategory));
    DropDeltaIsSpacerChange(viz, ov, UniformScale(viz, ov));
    assert LiveReach(viz, ov) == CurrentReach(viz);
  }
}
