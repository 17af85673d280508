/**
  The staged schematic reveal of the chip canvas.

  The scene is three fixed, ordered tables (wires, gates, label boxes), each entry tagged with
  the stage from which it is drawn. One frame is a list of drawing commands issued to a 2D
  context: clear, push the zoom/pan transform, the glow and the chip outline, then the revealed
  wires, gates and labels in that order, then pop the transform. Pixels, gradients, fonts and
  the stroke shapes of a gate icon are not modelled: each such call is one opaque command.
*/
module Schematic {
  import opened Common

  // ===================================================================
  // Geometry
  // ===================================================================

  const ChipWidth: real := 800.0
  const ChipHeight: real := 500.0
  const ChipRadius: real := 16.0
  /** The icon size factor every gate is drawn with. */
  const GateScale: real := 1.8
  const WireLineWidth: real := 4.0
  const LabelFontPx: nat := 11
  /** The stage at which the whole schematic is revealed. */
  const FinalStage: int := 10

  datatype Point = Point(x: real, y: real)

  /** The size of the drawing surface as the frame reads it (`ctx.canvas.width`/`height`).
      Frame coordinates are device pixels only at a device-pixel ratio of 1: the canvas scales
      its context by the ratio, while this size already includes it. */
  datatype Surface = Surface(width: real, height: real)

  function Min(a: real, b: real): real { if a <= b then a else b }
  function Max(a: real, b: real): real { if a <= b then b else a }

  function Center(s: Surface): Point { Point(s.width / 2.0, s.height / 2.0) }
  function ChipLeft(s: Surface): real { Center(s).x - ChipWidth / 2.0 }
  function ChipTop(s: Surface): real { Center(s).y - ChipHeight / 2.0 }

  /**
    Maps normalized chip coordinates in [-1, 1] x [-1, 1] linearly onto the chip rectangle
    inset by 10% of its width and height on each side.
  */
  function ChipToCanvas(s: Surface, p: Point): (q: Point)
    ensures -1.0 <= p.x <= 1.0 ==> ChipLeft(s) + ChipWidth * 0.1 <= q.x <= ChipLeft(s) + ChipWidth * 0.9
    ensures -1.0 <= p.y <= 1.0 ==> ChipTop(s) + ChipHeight * 0.1 <= q.y <= ChipTop(s) + ChipHeight * 0.9
  {
    var padX := ChipWidth * 0.1;
    var padY := ChipHeight * 0.1;
    var innerW := ChipWidth - padX * 2.0;
    var innerH := ChipHeight - padY * 2.0;
    Point(ChipLeft(s) + padX + ((p.x + 1.0) / 2.0) * innerW,
          ChipTop(s) + padY + ((p.y + 1.0) / 2.0) * innerH)
  }

  /** The point a fraction `t` of the way from `a` to `b`. */
  function Lerp(a: Point, b: Point, t: real): Point {
    Point(a.x + t * (b.x - a.x), a.y + t * (b.y - a.y))
  }

  /** The two corners of the padded interior and the chip centre. */
  lemma ChipToCanvasAnchors(s: Surface)
    ensures ChipToCanvas(s, Point(-1.0, -1.0)) == Point(ChipLeft(s) + 80.0, ChipTop(s) + 50.0)
    ensures ChipToCanvas(s, Point(1.0, 1.0)) == Point(ChipLeft(s) + 720.0, ChipTop(s) + 450.0)
    ensures ChipToCanvas(s, Point(0.0, 0.0)) == Center(s)
  {
  }

  /** The map is affine: it carries the points of a segment to the points of the image segment. */
  lemma ChipToCanvasAffine(s: Surface, a: Point, b: Point, t: real)
    ensures ChipToCanvas(s, Lerp(a, b, t)) == Lerp(ChipToCanvas(s, a), ChipToCanvas(s, b), t)
  {
  }

  // ===================================================================
  // Scene model
  // ===================================================================

  type Color = string
  const Sky: Color := "#38bdf8"
  const Emerald: Color := "#10b981"

  datatype GateVariant = AndLike | NotLike | IcBlock

  /** Code 0 draws the AND icon, code 1 the NOT icon, any other code the IC block. */
  function VariantOf(code: int): GateVariant {
    if code == 0 then AndLike else if code == 1 then NotLike else IcBlock
  }

  /** An entry of one of the three scene tables. */
  datatype Drawable =
    | Wire(minStage: int, color: Color, pts: seq<Point>)
    | Gate(minStage: int, variant: int, at: Point)
    | Label(minStage: int, text: string, at: Point, color: Color)

  predicate Visible(d: Drawable, stage: int) {
    stage >= d.minStage
  }

  function Gates(): seq<Drawable> {
    [
      Gate(1, 0, Point(-0.45, -0.45)),
      Gate(3, 1, Point(-0.15, -0.45)),
      Gate(5, 0, Point(0.20, -0.20)),
      Gate(4, 0, Point(-0.35, 0.10)),
      Gate(6, 1, Point(0.00, 0.25)),
      Gate(7, 1, Point(0.35, 0.05)),
      Gate(8, 0, Point(0.55, 0.40)),
      Gate(9, 1, Point(0.20, 0.55)),
      Gate(10, 0, Point(-0.15, 0.40)),
      Gate(8, 0, Point(0.09, -0.70)),
      Gate(9, 1, Point(0.62, -0.70)),
      Gate(10, 0, Point(-0.15, -0.70)),
      Gate(9, 1, Point(-0.55, 0.55)),
      Gate(10, 0, Point(-0.45, 0.30)),
      Gate(10, 1, Point(-0.31, -0.75)),
      Gate(9, 1, Point(-0.60, -0.87)),
      Gate(9, 0, Point(-0.55, -0.17)),
      Gate(9, 1, Point(0.15, 0.90))
    ]
  }

  function Labels(): seq<Drawable> {
    [
      Label(1, "IN1", Point(-0.97, -0.45), Sky),
      Label(3, "IN2", Point(-0.97, 0.10), Emerald),
      Label(7, "OUT1", Point(0.79, -0.20), Sky),
      Label(9, "OUT2 LED", Point(0.83, 0.25), Emerald),
      Label(10, "OUT3", Point(0.79, 0.55), Sky),
      Label(10, "VDD", Point(0.79, -0.70), Sky),
      Label(10, "VSS", Point(-0.55, 0.87), Emerald)
    ]
  }

  function Wires(): seq<Drawable> {
    [
      Wire(1, Sky, [Point(-0.9, -0.45), Point(-0.45, -0.45)]),
      Wire(2, Emerald, [Point(-0.38, -0.45), Point(-0.15, -0.45)]),
      Wire(3, Emerald, [Point(-0.9, 0.10), Point(-0.35, 0.10)]),
      Wire(4, Emerald, [Point(-0.26, 0.10), Point(-0.26, 0.25), Point(0.0, 0.25)]),
      Wire(5, Sky, [Point(-0.05, -0.45), Point(-0.05, -0.20), Point(0.20, -0.20)]),
      Wire(6, Emerald, [Point(0.10, 0.25), Point(0.10, -0.20), Point(0.20, -0.20)]),
      Wire(7, Sky, [Point(0.29, -0.20), Point(0.29, 0.05)]),
      Wire(7, Sky, [Point(0.44, 0.05), Point(0.55, -0.20), Point(0.70, -0.20)]),
      Wire(8, Sky, [Point(0.29, 0.05), Point(0.29, 0.40), Point(0.55, 0.40)]),
      Wire(9, Emerald, [Point(0.55, 0.40), Point(0.55, 0.55), Point(0.20, 0.55)]),
      Wire(10, Sky, [Point(-0.15, 0.40), Point(-0.15, 0.55), Point(0.20, 0.55)]),
      Wire(10, Sky, [Point(0.20, 0.55), Point(0.70, 0.55)]),
      Wire(9, Emerald, [Point(0.10, 0.25), Point(0.55, 0.25), Point(0.70, 0.25)]),
      Wire(8, Sky, [Point(-0.05, -0.45), Point(-0.05, -0.70), Point(0.05, -0.70)]),
      Wire(9, Emerald, [Point(0.18, -0.70), Point(0.60, -0.70), Point(0.63, -0.70)]),
      Wire(10, Sky, [Point(0.09, -0.70), Point(-0.05, -0.70)]),
      Wire(9, Emerald, [Point(-0.9, 0.10), Point(-0.75, 0.10), Point(-0.75, 0.55), Point(-0.55, 0.55), Point(-0.55, 0.82)]),
      Wire(10, Sky, [Point(-0.45, 0.55), Point(-0.45, 0.31)]),
      Wire(10, Emerald, [Point(-0.37, 0.30), Point(-0.37, 0.41), Point(-0.15, 0.41)]),
      Wire(10, Sky, [Point(-0.37, -0.75), Point(-0.37, -0.45)]),
      Wire(10, Sky, [Point(-0.24, -0.75), Point(-0.20, -0.75)]),
      Wire(9, Emerald, [Point(-0.15, 0.55), Point(-0.15, 0.90), Point(0.15, 0.90)]),
      Wire(9, Emerald, [Point(0.24, 0.90), Point(0.45, 0.90), Point(0.45, 0.55)]),
      Wire(3, Emerald, [Point(-0.75, -0.45), Point(-0.75, -0.17), Point(-0.54, -0.17)]),
      Wire(5, Emerald, [Point(-0.75, -0.45), Point(-0.75, -0.87), Point(-0.65, -0.87)]),
      Wire(3, Emerald, [Point(-0.55, -0.87), Point(-0.37, -0.87), Point(-0.37, -0.76)])
    ]
  }

  /** Facts about the tables: sizes, kinds and thresholds (all between 1 and the final stage). */
  lemma WiresWellFormed()
    ensures |Wires()| == 26
    ensures forall i :: 0 <= i < |Wires()| ==>
      Wires()[i].Wire? && |Wires()[i].pts| >= 2 && 1 <= Wires()[i].minStage <= FinalStage
  {
  }

  lemma GatesWellFormed()
    ensures |Gates()| == 18
    ensures forall i :: 0 <= i < |Gates()| ==>
      Gates()[i].Gate? && Gates()[i].variant in {0, 1} && 1 <= Gates()[i].minStage <= FinalStage
  {
  }

  lemma LabelsWellFormed()
    ensures |Labels()| == 7
    ensures forall i :: 0 <= i < |Labels()| ==> Labels()[i].Label? && 1 <= Labels()[i].minStage <= FinalStage
  {
  }

  // ===================================================================
  // Reveal: which entries of a table a frame at a given stage draws
  // ===================================================================

  /** The indices of the entries visible at `stage`, in increasing (table) order. */
  function Revealed(stage: int, table: seq<Drawable>): (r: seq<nat>)
    ensures forall k :: 0 <= k < |r| ==> r[k] < |table|
    ensures forall k, m :: 0 <= k < m < |r| ==> r[k] < r[m]
    ensures forall i :: 0 <= i < |table| ==> (i in r <==> Visible(table[i], stage))
    decreases |table|
  {
    if table == [] then []
    else
      var n := |table| - 1;
      assert forall i :: 0 <= i < n ==> table[..n][i] == table[i];
      Revealed(stage, table[..n]) + (if Visible(table[n], stage) then [n] else [])
  }

  /** The entries of `table` that a frame at `stage` draws, as the draw loop visits them. */
  function Shown(stage: int, table: seq<Drawable>): (r: seq<Drawable>)
    ensures |r| <= |table|
    decreases |table|
  {
    if table == [] then []
    else
      var n := |table| - 1;
      Shown(stage, table[..n]) + (if Visible(table[n], stage) then [table[n]] else [])
  }

  /** An entry is drawn exactly when it belongs to the table and its stage has been reached. */
  lemma {:induction false} ShownMembers(stage: int, table: seq<Drawable>)
    ensures forall d :: d in Shown(stage, table) <==> d in table && Visible(d, stage)
    decreases |table|
  {
    if table != [] {
      var n := |table| - 1;
      ShownMembers(stage, table[..n]);
      assert table == table[..n] + [table[n]];
    }
  }

  /** The drawn entries are exactly the visible ones, each once, in the table's order. */
  lemma {:induction false} ShownInTableOrder(stage: int, table: seq<Drawable>)
    ensures Shown(stage, table) == Pick(table, Revealed(stage, table))
    decreases |table|
  {
    if table != [] {
      var n := |table| - 1;
      var prefix := table[..n];
      ShownInTableOrder(stage, prefix);
      var r := Revealed(stage, prefix);
      assert Pick(table, r) == Pick(prefix, r);
      if Visible(table[n], stage) {
        assert Pick(table, r + [n]) == Pick(table, r) + [table[n]];
      }
    }
  }

  /** Filtering a later stage's entries back to an earlier stage gives exactly the earlier
      stage's entries, in the same order: revealing more never reorders what was drawn. */
  lemma {:induction false} ShownMonotone(s1: int, s2: int, table: seq<Drawable>)
    requires s1 <= s2
    ensures Shown(s1, Shown(s2, table)) == Shown(s1, table)
    decreases |table|
  {
    if table != [] {
      var n := |table| - 1;
      var later := Shown(s2, table[..n]);
      ShownMonotone(s1, s2, table[..n]);
      var tail := if Visible(table[n], s1) then [table[n]] else [];
      assert Shown(s1, table) == Shown(s1, table[..n]) + tail;
      if Visible(table[n], s2) {
        assert Shown(s2, table) == later + [table[n]];
        ShownSnoc(s1, later, table[n]);
      } else {
        assert Shown(s2, table) == later;
      }
    }
  }

  /** Whatever is drawn at stage `s1` is still drawn at every later stage `s2`. */
  lemma ShownGrows(s1: int, s2: int, table: seq<Drawable>)
    requires s1 <= s2
    ensures forall d :: d in Shown(s1, table) ==> d in Shown(s2, table)
    ensures |Shown(s1, table)| <= |Shown(s2, table)|
  {
    ShownMonotone(s1, s2, table);
    ShownMembers(s1, Shown(s2, table));
  }

  /** Filtering a table extended by one entry. */
  lemma ShownSnoc(stage: int, table: seq<Drawable>, d: Drawable)
    ensures Shown(stage, table + [d]) == Shown(stage, table) + (if Visible(d, stage) then [d] else [])
  {
    assert (table + [d])[..|table|] == table;
  }

  /** When every threshold has been reached the whole table is drawn, in order. */
  lemma {:induction false} ShownAll(stage: int, table: seq<Drawable>)
    requires forall i :: 0 <= i < |table| ==> table[i].minStage <= stage
    ensures Shown(stage, table) == table
    decreases |table|
  {
    if table != [] {
      var n := |table| - 1;
      ShownAll(stage, table[..n]);
      assert table[..n] + [table[n]] == table;
    }
  }

  /** When no threshold has been reached nothing of the table is drawn. */
  lemma {:induction false} ShownNone(stage: int, table: seq<Drawable>)
    requires forall i :: 0 <= i < |table| ==> stage < table[i].minStage
    ensures Shown(stage, table) == []
    decreases |table|
  {
    if table != [] {
      ShownNone(stage, table[..|table| - 1]);
    }
  }

  // ===================================================================
  // Drawing commands
  // ===================================================================

  /** One call issued to the 2D context. `Glow`, `ChipOutline`, `GateIcon` and `LabelBox`
      each stand for a fixed group of calls whose pixels are not modelled; the icon and the
      label box save and restore the context themselves, so they leave its state unchanged. */
  datatype Command =
    | ClearRect(x: real, y: real, w: real, h: real)
    | Save
    | Restore
    | Translate(dx: real, dy: real)
    | Scale(sx: real, sy: real)
    | Glow(center: Point, innerRadius: real, outerRadius: real)
    | ChipOutline(corner: Point, w: real, h: real, radius: real)
    | BeginPath
    | WireStyle(lineWidth: real, color: Color)
    | MoveTo(to: Point)
    | LineTo(to: Point)
    | Stroke
    | GateIcon(variant: GateVariant, at: Point, scale: real)
    | SetFont(px: nat)
    | LabelBox(text: string, at: Point, color: Color)

  /** The points of a point list, mapped onto the canvas. */
  function ToCanvas(s: Surface, pts: seq<Point>): (r: seq<Point>)
    ensures |r| == |pts|
    ensures forall i :: 0 <= i < |pts| ==> r[i] == ChipToCanvas(s, pts[i])
    decreases |pts|
  {
    if pts == [] then [] else ToCanvas(s, pts[..|pts| - 1]) + [ChipToCanvas(s, pts[|pts| - 1])]
  }

  /** One `lineTo` per point, in order. */
  function LineTos(pts: seq<Point>): (r: seq<Command>)
    ensures |r| == |pts|
    decreases |pts|
  {
    if pts == [] then [] else LineTos(pts[..|pts| - 1]) + [LineTo(pts[|pts| - 1])]
  }

  lemma {:induction false} LineTosAt(pts: seq<Point>)
    ensures forall i :: 0 <= i < |pts| ==> LineTos(pts)[i] == LineTo(pts[i])
    decreases |pts|
  {
    if pts != [] {
      LineTosAt(pts[..|pts| - 1]);
    }
  }

  /** The calls of `drawWirePolyline`: nothing for an empty point list, otherwise a move to
      the first point and a line to each later point, inside a save/restore pair. */
  function WirePolyline(pts: seq<Point>, color: Color): seq<Command> {
    if pts == [] then []
    else PenDown(color) + [MoveTo(pts[0])] + LineTos(pts[1..]) + [Stroke, Restore]
  }

  /** Save the context, start a path and set the wire's stroke style. */
  function PenDown(color: Color): seq<Command> {
    [Save, BeginPath, WireStyle(WireLineWidth, color)]
  }

  /** The calls that draw one table entry. */
  function Render(s: Surface, d: Drawable): seq<Command> {
    match d
    case Wire(_, color, pts) => WirePolyline(ToCanvas(s, pts), color)
    case Gate(_, code, at) => [GateIcon(VariantOf(code), ChipToCanvas(s, at), GateScale)]
    case Label(_, text, at, color) => [LabelBox(text, ChipToCanvas(s, at), color)]
  }

  /** The calls that draw a list of entries, one after the other. */
  function RenderAll(s: Surface, ds: seq<Drawable>): seq<Command>
    decreases |ds|
  {
    if ds == [] then [] else RenderAll(s, ds[..|ds| - 1]) + Render(s, ds[|ds| - 1])
  }

  lemma RenderAllSnoc(s: Surface, ds: seq<Drawable>, d: Drawable)
    ensures RenderAll(s, ds + [d]) == RenderAll(s, ds) + Render(s, d)
  {
    assert (ds + [d])[..|ds|] == ds;
  }

  /** The zoom/pan transform: scale by `zoom` about the surface centre, then shift by `offset`. */
  function ZoomTransform(s: Surface, zoom: real, offset: Point): seq<Command> {
    [Translate(s.width / 2.0, s.height / 2.0), Scale(zoom, zoom),
     Translate(-s.width / 2.0 + offset.x, -s.height / 2.0 + offset.y)]
  }

  /** The fixed glow under the chip and the chip body. */
  function Backdrop(s: Surface): seq<Command> {
    [Glow(Center(s), Min(ChipWidth, ChipHeight) * 0.2, Max(ChipWidth, ChipHeight) * 0.8),
     Save, ChipOutline(Point(ChipLeft(s), ChipTop(s)), ChipWidth, ChipHeight, ChipRadius), Restore]
  }

  function LabelLayer(s: Surface, labels: seq<Drawable>): seq<Command> {
    [Save, SetFont(LabelFontPx)] + RenderAll(s, labels) + [Restore]
  }

  /** What a frame draws between pushing and popping the zoom/pan transform. */
  function FrameBody(s: Surface, zoom: real, offset: Point,
                     wires: seq<Drawable>, gates: seq<Drawable>, labels: seq<Drawable>): seq<Command> {
    ZoomTransform(s, zoom, offset) + Backdrop(s) + RenderAll(s, wires) + RenderAll(s, gates) + LabelLayer(s, labels)
  }

  /** A frame drawing the given wires, gates and labels: clear, then the body inside one
      save/restore pair. */
  function Compose(s: Surface, zoom: real, offset: Point,
                   wires: seq<Drawable>, gates: seq<Drawable>, labels: seq<Drawable>): seq<Command> {
    [ClearRect(0.0, 0.0, s.width, s.height)] + ([Save] + FrameBody(s, zoom, offset, wires, gates, labels) + [Restore])
  }

  /** The frame drawn at `stage`: the revealed part of each table. */
  function Frame(s: Surface, stage: int, zoom: real, offset: Point): seq<Command> {
    Compose(s, zoom, offset, Shown(stage, Wires()), Shown(stage, Gates()), Shown(stage, Labels()))
  }

  // ===================================================================
  // Properties of a frame
  // ===================================================================

  function DepthStep(c: Command): int {
    if c.Save? then 1 else if c.Restore? then -1 else 0
  }

  /** The net change of the context's save stack after the calls `cmds`. */
  function DepthChange(cmds: seq<Command>): int
    decreases |cmds|
  {
    if cmds == [] then 0 else DepthChange(cmds[..|cmds| - 1]) + DepthStep(cmds[|cmds| - 1])
  }

  /** Every restore pops a state saved within `cmds`, and every state saved is popped again. */
  predicate Balanced(cmds: seq<Command>) {
    && DepthChange(cmds) == 0
    && forall k :: 0 <= k <= |cmds| ==> DepthChange(cmds[..k]) >= 0
  }

  lemma {:induction false} DepthChangeConcat(a: seq<Command>, b: seq<Command>)
    ensures DepthChange(a + b) == DepthChange(a) + DepthChange(b)
    decreases |b|
  {
    if b == [] {
      assert a + b == a;
    } else {
      var n := |b| - 1;
      assert (a + b)[..|a + b| - 1] == a + b[..n];
      DepthChangeConcat(a, b[..n]);
    }
  }

  lemma BalancedConcat(a: seq<Command>, b: seq<Command>)
    requires Balanced(a) && Balanced(b)
    ensures Balanced(a + b)
  {
    DepthChangeConcat(a, b);
    forall k | 0 <= k <= |a + b|
      ensures DepthChange((a + b)[..k]) >= 0
    {
      if k <= |a| {
        assert (a + b)[..k] == a[..k];
      } else {
        assert (a + b)[..k] == a + b[..k - |a|];
        DepthChangeConcat(a, b[..k - |a|]);
      }
    }
  }

  lemma BalancedWrap(a: seq<Command>)
    requires Balanced(a)
    ensures Balanced([Save] + a + [Restore])
  {
    var w := [Save] + a + [Restore];
    DepthChangeConcat([Save] + a, [Restore]);
    DepthChangeConcat([Save], a);
    forall k | 0 <= k <= |w|
      ensures DepthChange(w[..k]) >= 0
    {
      if 1 <= k <= |a| + 1 {
        assert w[..k] == [Save] + a[..k - 1];
        DepthChangeConcat([Save], a[..k - 1]);
      } else if k == |w| {
        assert w[..k] == w;
      }
    }
  }

  /** Calls that neither save nor restore leave every prefix at depth zero. */
  lemma {:induction false} NeutralBalanced(a: seq<Command>)
    requires forall i :: 0 <= i < |a| ==> DepthStep(a[i]) == 0
    ensures Balanced(a)
    decreases |a|
  {
    if a != [] {
      var n := |a| - 1;
      NeutralBalanced(a[..n]);
      forall k | 0 <= k <= |a|
        ensures DepthChange(a[..k]) >= 0
      {
        if k <= n {
          assert a[..k] == a[..n][..k];
        } else {
          assert a[..k] == a;
        }
      }
    }
  }

  lemma RenderBalanced(s: Surface, d: Drawable)
    ensures Balanced(Render(s, d))
  {
    match d
    case Wire(_, color, pts) =>
      var q := ToCanvas(s, pts);
      if q != [] {
        var inner := [BeginPath, WireStyle(WireLineWidth, color), MoveTo(q[0])] + LineTos(q[1..]) + [Stroke];
        assert WirePolyline(q, color) == [Save] + inner + [Restore];
        LineTosAt(q[1..]);
        NeutralBalanced(inner);
        BalancedWrap(inner);
      } else {
        NeutralBalanced([]);
      }
    case Gate(_, _, _) =>
      NeutralBalanced(Render(s, d));
    case Label(_, _, _, _) =>
      NeutralBalanced(Render(s, d));
  }

  lemma {:induction false} RenderAllBalanced(s: Surface, ds: seq<Drawable>)
    ensures Balanced(RenderAll(s, ds))
    decreases |ds|
  {
    if ds == [] {
      NeutralBalanced([]);
    } else {
      RenderAllBalanced(s, ds[..|ds| - 1]);
      RenderBalanced(s, ds[|ds| - 1]);
      BalancedConcat(RenderAll(s, ds[..|ds| - 1]), Render(s, ds[|ds| - 1]));
    }
  }

  lemma BackdropBalanced(s: Surface)
    ensures Balanced(Backdrop(s))
  {
    var glow := [Glow(Center(s), Min(ChipWidth, ChipHeight) * 0.2, Max(ChipWidth, ChipHeight) * 0.8)];
    var chip := [ChipOutline(Point(ChipLeft(s), ChipTop(s)), ChipWidth, ChipHeight, ChipRadius)];
    NeutralBalanced(glow);
    NeutralBalanced(chip);
    BalancedWrap(chip);
    BalancedConcat(glow, [Save] + chip + [Restore]);
    assert Backdrop(s) == glow + ([Save] + chip + [Restore]);
  }

  lemma LabelLayerBalanced(s: Surface, labels: seq<Drawable>)
    ensures Balanced(LabelLayer(s, labels))
  {
    var lb := RenderAll(s, labels);
    RenderAllBalanced(s, labels);
    NeutralBalanced([SetFont(LabelFontPx)]);
    BalancedConcat([SetFont(LabelFontPx)], lb);
    BalancedWrap([SetFont(LabelFontPx)] + lb);
    assert LabelLayer(s, labels) == [Save] + ([SetFont(LabelFontPx)] + lb) + [Restore];
  }

  lemma BalancedChain(a: seq<Command>, b: seq<Command>, c: seq<Command>, d: seq<Command>, e: seq<Command>)
    requires Balanced(a) && Balanced(b) && Balanced(c) && Balanced(d) && Balanced(e)
    ensures Balanced(a + b + c + d + e)
  {
    BalancedConcat(a, b);
    BalancedConcat(a + b, c);
    BalancedConcat(a + b + c, d);
    BalancedConcat(a + b + c + d, e);
  }

  lemma ZoomTransformBalanced(s: Surface, zoom: real, offset: Point)
    ensures Balanced(ZoomTransform(s, zoom, offset))
  {
    NeutralBalanced(ZoomTransform(s, zoom, offset));
  }

  lemma FrameBodyBalanced(s: Surface, zoom: real, offset: Point,
                          wires: seq<Drawable>, gates: seq<Drawable>, labels: seq<Drawable>)
    ensures Balanced(FrameBody(s, zoom, offset, wires, gates, labels))
  {
    ZoomTransformBalanced(s, zoom, offset);
    BackdropBalanced(s);
    RenderAllBalanced(s, wires);
    RenderAllBalanced(s, gates);
    LabelLayerBalanced(s, labels);
    BalancedChain(ZoomTransform(s, zoom, offset), Backdrop(s), RenderAll(s, wires), RenderAll(s, gates),
                  LabelLayer(s, labels));
  }

  lemma ComposeBalanced(s: Surface, zoom: real, offset: Point,
                        wires: seq<Drawable>, gates: seq<Drawable>, labels: seq<Drawable>)
    ensures Balanced(Compose(s, zoom, offset, wires, gates, labels))
  {
    var body := FrameBody(s, zoom, offset, wires, gates, labels);
    var clear := [ClearRect(0.0, 0.0, s.width, s.height)];
    FrameBodyBalanced(s, zoom, offset, wires, gates, labels);
    BalancedWrap(body);
    NeutralBalanced(clear);
    BalancedConcat(clear, [Save] + body + [Restore]);
  }

  /** Each frame pops every state it pushes, the zoom/pan transform last: the context ends at
      the depth it started from, so the transform never compounds from one frame to the next. */
  lemma FrameBalanced(s: Surface, stage: int, zoom: real, offset: Point)
    ensures Balanced(Frame(s, stage, zoom, offset))
  {
    ComposeBalanced(s, zoom, offset, Shown(stage, Wires()), Shown(stage, Gates()), Shown(stage, Labels()));
  }

  /** The layer a call paints in: 0 the backdrop, 1 wires, 2 gates, 3 labels; -1 for calls that
      only change the context's state (clear, save, restore, transforms, font). */
  function LayerOf(c: Command): int {
    match c
    case Glow(_, _, _) => 0
    case ChipOutline(_, _, _, _) => 0
    case BeginPath => 1
    case WireStyle(_, _) => 1
    case MoveTo(_) => 1
    case LineTo(_) => 1
    case Stroke => 1
    case GateIcon(_, _, _) => 2
    case LabelBox(_, _, _) => 3
    case _ => -1
  }

  /** The layer the calls drawing a table entry paint in. */
  function KindLayer(d: Drawable): int {
    match d
    case Wire(_, _, _) => 1
    case Gate(_, _, _) => 2
    case Label(_, _, _, _) => 3
  }

  predicate WithinLayers(cmds: seq<Command>, lo: int, hi: int) {
    forall i :: 0 <= i < |cmds| ==> LayerOf(cmds[i]) == -1 || lo <= LayerOf(cmds[i]) <= hi
  }

  /** No painting call is followed by a call that paints in an earlier layer. */
  predicate LayeredInOrder(cmds: seq<Command>) {
    forall i, j :: 0 <= i < j < |cmds| && LayerOf(cmds[i]) >= 0 && LayerOf(cmds[j]) >= 0 ==>
      LayerOf(cmds[i]) <= LayerOf(cmds[j])
  }

  lemma LayeredConcat(a: seq<Command>, b: seq<Command>, lo: int, mid: int, hi: int)
    requires lo <= mid <= hi
    requires LayeredInOrder(a) && LayeredInOrder(b)
    requires WithinLayers(a, lo, mid) && WithinLayers(b, mid, hi)
    ensures LayeredInOrder(a + b) && WithinLayers(a + b, lo, hi)
  {
    forall i, j | 0 <= i < j < |a + b| && LayerOf((a + b)[i]) >= 0 && LayerOf((a + b)[j]) >= 0
      ensures LayerOf((a + b)[i]) <= LayerOf((a + b)[j])
    {
      if j < |a| {
        assert (a + b)[i] == a[i] && (a + b)[j] == a[j];
      } else if |a| <= i {
        assert (a + b)[i] == b[i - |a|] && (a + b)[j] == b[j - |a|];
      } else {
        assert (a + b)[i] == a[i] && (a + b)[j] == b[j - |a|];
      }
    }
  }

  lemma RenderLayer(s: Surface, d: Drawable)
    ensures WithinLayers(Render(s, d), KindLayer(d), KindLayer(d))
  {
    if d.Wire? {
      var q := ToCanvas(s, d.pts);
      if q != [] {
        var r := Render(s, d);
        assert r == PenDown(d.color) + [MoveTo(q[0])] + LineTos(q[1..]) + [Stroke, Restore];
        LineTosAt(q[1..]);
        forall i | 0 <= i < |r|
          ensures LayerOf(r[i]) == -1 || LayerOf(r[i]) == 1
        {
          if 4 <= i < |r| - 2 {
            assert r[i] == LineTos(q[1..])[i - 4];
          }
        }
      }
    }
  }

  lemma {:induction false} RenderAllLayer(s: Surface, ds: seq<Drawable>, layer: int)
    requires forall i :: 0 <= i < |ds| ==> KindLayer(ds[i]) == layer
    ensures WithinLayers(RenderAll(s, ds), layer, layer)
    decreases |ds|
  {
    if ds != [] {
      var n := |ds| - 1;
      RenderAllLayer(s, ds[..n], layer);
      RenderLayer(s, ds[n]);
      var a, b := RenderAll(s, ds[..n]), Render(s, ds[n]);
      forall i | 0 <= i < |a + b|
        ensures LayerOf((a + b)[i]) == -1 || LayerOf((a + b)[i]) == layer
      {
        if i < |a| {
          assert (a + b)[i] == a[i];
        } else {
          assert (a + b)[i] == b[i - |a|];
        }
      }
    }
  }

  /** Every entry a frame draws from a table is of the table's kind. */
  lemma ShownKinds(stage: int)
    ensures forall i :: 0 <= i < |Shown(stage, Wires())| ==> KindLayer(Shown(stage, Wires())[i]) == 1
    ensures forall i :: 0 <= i < |Shown(stage, Gates())| ==> KindLayer(Shown(stage, Gates())[i]) == 2
    ensures forall i :: 0 <= i < |Shown(stage, Labels())| ==> KindLayer(Shown(stage, Labels())[i]) == 3
  {
    WiresWellFormed();
    GatesWellFormed();
    LabelsWellFormed();
    ShownMembers(stage, Wires());
    ShownMembers(stage, Gates());
    ShownMembers(stage, Labels());
    forall i | 0 <= i < |Shown(stage, Wires())|
      ensures KindLayer(Shown(stage, Wires())[i]) == 1
    {
      assert Shown(stage, Wires())[i] in Wires();
    }
    forall i | 0 <= i < |Shown(stage, Gates())|
      ensures KindLayer(Shown(stage, Gates())[i]) == 2
    {
      assert Shown(stage, Gates())[i] in Gates();
    }
    forall i | 0 <= i < |Shown(stage, Labels())|
      ensures KindLayer(Shown(stage, Labels())[i]) == 3
    {
      assert Shown(stage, Labels())[i] in Labels();
    }
  }

  lemma LabelLayerWithin(s: Surface, labels: seq<Drawable>)
    requires forall i :: 0 <= i < |labels| ==> KindLayer(labels[i]) == 3
    ensures WithinLayers(LabelLayer(s, labels), 3, 3)
  {
    var ll := LabelLayer(s, labels);
    var lb := RenderAll(s, labels);
    RenderAllLayer(s, labels, 3);
    forall i | 0 <= i < |ll|
      ensures LayerOf(ll[i]) == -1 || LayerOf(ll[i]) == 3
    {
      if 2 <= i < |ll| - 1 {
        assert ll[i] == lb[i - 2];
      }
    }
  }

  /** Paint calls confined to one layer are trivially in order. */
  lemma OneLayerInOrder(cmds: seq<Command>, layer: int)
    requires WithinLayers(cmds, layer, layer)
    ensures LayeredInOrder(cmds)
  {
  }

  lemma BodyLayerOrder(s: Surface, zoom: real, offset: Point,
                       wires: seq<Drawable>, gates: seq<Drawable>, labels: seq<Drawable>)
    requires forall i :: 0 <= i < |wires| ==> KindLayer(wires[i]) == 1
    requires forall i :: 0 <= i < |gates| ==> KindLayer(gates[i]) == 2
    requires forall i :: 0 <= i < |labels| ==> KindLayer(labels[i]) == 3
    ensures LayeredInOrder(FrameBody(s, zoom, offset, wires, gates, labels))
    ensures WithinLayers(FrameBody(s, zoom, offset, wires, gates, labels), 0, 3)
  {
    var head := ZoomTransform(s, zoom, offset) + Backdrop(s);
    var w := RenderAll(s, wires);
    var g := RenderAll(s, gates);
    var ll := LabelLayer(s, labels);
    assert WithinLayers(head, 0, 0);
    OneLayerInOrder(head, 0);
    RenderAllLayer(s, wires, 1);
    OneLayerInOrder(w, 1);
    RenderAllLayer(s, gates, 2);
    OneLayerInOrder(g, 2);
    LabelLayerWithin(s, labels);
    OneLayerInOrder(ll, 3);
    LayeredConcat(head, w, 0, 1, 1);
    LayeredConcat(head + w, g, 0, 2, 2);
    LayeredConcat(head + w + g, ll, 0, 3, 3);
  }

  lemma ComposeLayerOrder(s: Surface, zoom: real, offset: Point,
                          wires: seq<Drawable>, gates: seq<Drawable>, labels: seq<Drawable>)
    requires forall i :: 0 <= i < |wires| ==> KindLayer(wires[i]) == 1
    requires forall i :: 0 <= i < |gates| ==> KindLayer(gates[i]) == 2
    requires forall i :: 0 <= i < |labels| ==> KindLayer(labels[i]) == 3
    ensures LayeredInOrder(Compose(s, zoom, offset, wires, gates, labels))
  {
    var body := FrameBody(s, zoom, offset, wires, gates, labels);
    BodyLayerOrder(s, zoom, offset, wires, gates, labels);
    LayeredConcat([Save], body, 0, 0, 3);
    LayeredConcat([Save] + body, [Restore], 0, 3, 3);
    LayeredConcat([ClearRect(0.0, 0.0, s.width, s.height)], [Save] + body + [Restore], 0, 0, 3);
  }

  /** Within a frame the glow and chip come first, then every drawn wire, then every drawn
      gate, then every drawn label. */
  lemma FrameLayerOrder(s: Surface, stage: int, zoom: real, offset: Point)
    ensures LayeredInOrder(Frame(s, stage, zoom, offset))
  {
    ShownKinds(stage);
    ComposeLayerOrder(s, zoom, offset, Shown(stage, Wires()), Shown(stage, Gates()), Shown(stage, Labels()));
  }

  /** From the final stage on, every wire, gate and label is drawn, each exactly once and in
      table order, and later stages draw nothing more. */
  lemma FullReveal(stage: int)
    requires stage >= FinalStage
    ensures Shown(stage, Wires()) == Wires() && |Wires()| == 26
    ensures Shown(stage, Gates()) == Gates() && |Gates()| == 18
    ensures Shown(stage, Labels()) == Labels() && |Labels()| == 7
    ensures forall s, zoom, offset :: Frame(s, stage, zoom, offset) == Frame(s, FinalStage, zoom, offset)
  {
    WiresWellFormed();
    GatesWellFormed();
    LabelsWellFormed();
    ShownAll(stage, Wires());
    ShownAll(stage, Gates());
    ShownAll(stage, Labels());
    ShownAll(FinalStage, Wires());
    ShownAll(FinalStage, Gates());
    ShownAll(FinalStage, Labels());
  }

  /** Before the first stage only the glow and the chip outline are drawn. */
  lemma EmptyReveal(s: Surface, stage: int, zoom: real, offset: Point)
    requires stage < 1
    ensures Shown(stage, Wires()) == [] && Shown(stage, Gates()) == [] && Shown(stage, Labels()) == []
    ensures Frame(s, stage, zoom, offset) ==
      [ClearRect(0.0, 0.0, s.width, s.height), Save] + ZoomTransform(s, zoom, offset) + Backdrop(s)
      + [Save, SetFont(LabelFontPx), Restore, Restore]
  {
    WiresWellFormed();
    GatesWellFormed();
    LabelsWellFormed();
    ShownNone(stage, Wires());
    ShownNone(stage, Gates());
    ShownNone(stage, Labels());
  }

  // ===================================================================
  // The path a wire traces
  // ===================================================================

  /** The path-building calls (`moveTo`, `lineTo`) among `cmds`, in order. */
  function PathOps(cmds: seq<Command>): seq<Command>
    decreases |cmds|
  {
    if cmds == [] then []
    else
      var c := cmds[|cmds| - 1];
      PathOps(cmds[..|cmds| - 1]) + (if c.MoveTo? || c.LineTo? then [c] else [])
  }

  /** The points the `moveTo` and `lineTo` calls among `cmds` go to, in order. */
  function Targets(cmds: seq<Command>): seq<Point>
    decreases |cmds|
  {
    if cmds == [] then []
    else
      var c := cmds[|cmds| - 1];
      Targets(cmds[..|cmds| - 1]) + (if c.MoveTo? || c.LineTo? then [c.to] else [])
  }

  lemma {:induction false} TargetsConcat(a: seq<Command>, b: seq<Command>)
    ensures Targets(a + b) == Targets(a) + Targets(b)
    decreases |b|
  {
    if b == [] {
      assert a + b == a;
    } else {
      var n := |b| - 1;
      assert (a + b)[..|a + b| - 1] == a + b[..n];
      TargetsConcat(a, b[..n]);
    }
  }

  lemma {:induction false} TargetsLineTos(pts: seq<Point>)
    ensures Targets(LineTos(pts)) == pts
    decreases |pts|
  {
    if pts != [] {
      var n := |pts| - 1;
      assert LineTos(pts)[..n] == LineTos(pts[..n]);
      TargetsLineTos(pts[..n]);
      assert pts[..n] + [pts[n]] == pts;
    }
  }

  lemma {:induction false} PathOpsConcat(a: seq<Command>, b: seq<Command>)
    ensures PathOps(a + b) == PathOps(a) + PathOps(b)
    decreases |b|
  {
    if b == [] {
      assert a + b == a;
    } else {
      var n := |b| - 1;
      assert (a + b)[..|a + b| - 1] == a + b[..n];
      PathOpsConcat(a, b[..n]);
    }
  }

  lemma {:induction false} PathOpsNone(cmds: seq<Command>)
    requires forall i :: 0 <= i < |cmds| ==> !cmds[i].MoveTo? && !cmds[i].LineTo?
    ensures PathOps(cmds) == []
    decreases |cmds|
  {
    if cmds != [] {
      PathOpsNone(cmds[..|cmds| - 1]);
    }
  }

  lemma {:induction false} PathOpsLineTos(pts: seq<Point>)
    ensures PathOps(LineTos(pts)) == LineTos(pts)
    decreases |pts|
  {
    if pts != [] {
      var n := |pts| - 1;
      assert LineTos(pts)[..n] == LineTos(pts[..n]);
      PathOpsLineTos(pts[..n]);
    }
  }

  lemma PathOpsConcat4(a: seq<Command>, b: seq<Command>, c: seq<Command>, d: seq<Command>)
    ensures PathOps(a + b + c + d) == PathOps(a) + PathOps(b) + PathOps(c) + PathOps(d)
  {
    PathOpsConcat(a + b + c, d);
    PathOpsConcat(a + b, c);
    PathOpsConcat(a, b);
  }

  /** `drawWirePolyline` builds no path for an empty list; otherwise it moves to the first
      point and then draws one line to each later point, in order. */
  lemma WirePolylinePath(pts: seq<Point>, color: Color)
    ensures WirePolyline(pts, color) == [] <==> pts == []
    ensures pts != [] ==> PathOps(WirePolyline(pts, color)) == [MoveTo(pts[0])] + LineTos(pts[1..])
  {
    if pts != [] {
      var pen, move, lines, tail := PenDown(color), [MoveTo(pts[0])], LineTos(pts[1..]), [Stroke, Restore];
      PathOpsConcat4(pen, move, lines, tail);
      PathOpsNone(pen);
      PathOpsNone(tail);
      PathOpsLineTos(pts[1..]);
      assert PathOps(move) == move by {
        assert move[..0] == [];
      }
      assert [] + move + lines + [] == move + lines;
    }
  }

  lemma TargetsMoveLines(first: Point, rest: seq<Point>)
    ensures Targets([MoveTo(first)] + LineTos(rest)) == [first] + rest
  {
    TargetsConcat([MoveTo(first)], LineTos(rest));
    TargetsLineTos(rest);
    assert Targets([MoveTo(first)]) == [first] by {
      assert [MoveTo(first)][..0] == [];
    }
  }

  /** The path of a wire visits exactly the wire's points, in order. */
  lemma WirePolylineTargets(pts: seq<Point>, color: Color)
    ensures Targets(PathOps(WirePolyline(pts, color))) == pts
  {
    WirePolylinePath(pts, color);
    if pts != [] {
      TargetsMoveLines(pts[0], pts[1..]);
      assert [pts[0]] + pts[1..] == pts;
    }
  }

  /** A drawn wire's path visits exactly its points mapped onto the canvas, in order. */
  lemma WireDrawnThroughMappedPoints(s: Surface, d: Drawable)
    requires d.Wire?
    ensures Targets(PathOps(Render(s, d))) == ToCanvas(s, d.pts)
  {
    WirePolylineTargets(ToCanvas(s, d.pts), d.color);
  }

  // ===================================================================
  // The context and the draw routines
  // ===================================================================

  /** The 2D drawing context, reduced to the ordered list of calls it has received. */
  class Context {
    var commands: seq<Command>

    constructor ()
      ensures commands == []
    {
      commands := [];
    }

    method Issue(c: Command)
      modifies this
      ensures commands == old(commands) + [c]
    {
      commands := commands + [c];
    }
  }

  // Regrouping lemmas for the call lists the draw routines build one append at a time.

  lemma SeqAssoc(a: seq<Command>, b: seq<Command>, c: seq<Command>)
    ensures a + b + c == a + (b + c)
  {
  }

  lemma AppendCalls2(p: seq<Command>, a: Command, b: Command)
    ensures p + [a] + [b] == p + [a, b]
  {
  }

  lemma AppendCalls3(p: seq<Command>, a: Command, b: Command, c: Command)
    ensures p + [a] + [b] + [c] == p + [a, b, c]
  {
  }

  lemma AppendCalls4(p: seq<Command>, a: Command, b: Command, c: Command, d: Command)
    ensures p + [a] + [b] + [c] + [d] == p + [a, b, c, d]
  {
    AppendCalls3(p, a, b, c);
    assert p + [a, b, c] + [d] == p + [a, b, c, d];
  }

  lemma PolylineShape(p: seq<Command>, pen: seq<Command>, move: Command, lines: seq<Command>, a: Command, b: Command)
    ensures p + pen + [move] + lines + [a] + [b] == p + (pen + [move] + lines + [a, b])
  {
    AppendCalls2(p + pen + [move] + lines, a, b);
    assert p + pen + [move] + lines + [a, b] == p + (pen + [move] + lines + [a, b]);
  }

  lemma LabelLayerShape(p: seq<Command>, a: Command, b: Command, body: seq<Command>, c: Command)
    ensures p + [a] + [b] + body + [c] == p + ([a, b] + body + [c])
  {
    AppendCalls2(p, a, b);
    assert p + [a, b] + body + [c] == p + ([a, b] + body + [c]);
  }

  lemma FrameShape(p: seq<Command>, clear: Command, save: Command,
                   zt: seq<Command>, bd: seq<Command>, w: seq<Command>, g: seq<Command>, ll: seq<Command>,
                   restore: Command)
    ensures p + [clear] + [save] + zt + bd + w + g + ll + [restore]
         == p + ([clear] + ([save] + (zt + bd + w + g + ll) + [restore]))
  {
    var body := zt + bd + w + g + ll;
    assert p + [clear] + [save] + zt + bd + w + g + ll == p + [clear] + [save] + body;
    assert p + [clear] + [save] + body + [restore] == p + ([clear] + ([save] + body + [restore]));
  }

  lemma LineTosSnoc(pts: seq<Point>, i: nat)
    requires 1 <= i < |pts|
    ensures LineTos(pts[1..i + 1]) == LineTos(pts[1..i]) + [LineTo(pts[i])]
  {
    assert pts[1..i + 1][..i - 1] == pts[1..i];
  }

  method DrawWirePolyline(ctx: Context, pts: seq<Point>, color: Color)
    modifies ctx
    ensures ctx.commands == old(ctx.commands) + WirePolyline(pts, color)
  {
    if |pts| == 0 {
      return;
    }
    ghost var p := ctx.commands;
    ctx.Issue(Save);
    ctx.Issue(BeginPath);
    ctx.Issue(WireStyle(WireLineWidth, color));
    AppendCalls3(p, Save, BeginPath, WireStyle(WireLineWidth, color));
    ctx.Issue(MoveTo(pts[0]));
    ghost var moved := ctx.commands;
    for i := 1 to |pts|
      invariant ctx.commands == moved + LineTos(pts[1..i])
    {
      LineTosSnoc(pts, i);
      SeqAssoc(moved, LineTos(pts[1..i]), [LineTo(pts[i])]);
      ctx.Issue(LineTo(pts[i]));
    }
    assert pts[1..|pts|] == pts[1..];
    ctx.Issue(Stroke);
    ctx.Issue(Restore);
    PolylineShape(p, PenDown(color), MoveTo(pts[0]), LineTos(pts[1..]), Stroke, Restore);
  }

  /** Draws one table entry. The gate icon routine and the label box routine are single
      opaque calls. */
  method DrawEntry(ctx: Context, s: Surface, d: Drawable)
    modifies ctx
    ensures ctx.commands == old(ctx.commands) + Render(s, d)
  {
    match d
    case Wire(_, color, pts) =>
      DrawWirePolyline(ctx, ToCanvas(s, pts), color);
    case Gate(_, variant, at) =>
      ctx.Issue(GateIcon(VariantOf(variant), ChipToCanvas(s, at), GateScale));
    case Label(_, text, at, color) =>
      ctx.Issue(LabelBox(text, ChipToCanvas(s, at), color));
  }

  /** Filtering and drawing one more entry of a table. */
  lemma DrawnSnoc(s: Surface, stage: int, table: seq<Drawable>, i: nat)
    requires i < |table|
    ensures RenderAll(s, Shown(stage, table[..i + 1])) ==
      RenderAll(s, Shown(stage, table[..i])) + (if Visible(table[i], stage) then Render(s, table[i]) else [])
  {
    assert table[..i + 1] == table[..i] + [table[i]];
    ShownSnoc(stage, table[..i], table[i]);
    if Visible(table[i], stage) {
      RenderAllSnoc(s, Shown(stage, table[..i]), table[i]);
    } else {
      assert Shown(stage, table[..i + 1]) == Shown(stage, table[..i]);
    }
  }

  /** One pass over a table, drawing each entry whose stage has been reached. */
  method DrawRevealed(ctx: Context, s: Surface, stage: int, table: seq<Drawable>)
    modifies ctx
    ensures ctx.commands == old(ctx.commands) + RenderAll(s, Shown(stage, table))
  {
    ghost var start := ctx.commands;
    for i := 0 to |table|
      invariant ctx.commands == start + RenderAll(s, Shown(stage, table[..i]))
    {
      DrawnSnoc(s, stage, table, i);
      if stage >= table[i].minStage {
        SeqAssoc(start, RenderAll(s, Shown(stage, table[..i])), Render(s, table[i]));
        DrawEntry(ctx, s, table[i]);
      }
    }
    assert table[..|table|] == table;
  }

  method ApplyZoomTransform(ctx: Context, s: Surface, zoom: real, offset: Point)
    modifies ctx
    ensures ctx.commands == old(ctx.commands) + ZoomTransform(s, zoom, offset)
  {
    ghost var p := ctx.commands;
    ctx.Issue(Translate(s.width / 2.0, s.height / 2.0));
    ctx.Issue(Scale(zoom, zoom));
    ctx.Issue(Translate(-s.width / 2.0 + offset.x, -s.height / 2.0 + offset.y));
    AppendCalls3(p, Translate(s.width / 2.0, s.height / 2.0), Scale(zoom, zoom),
                 Translate(-s.width / 2.0 + offset.x, -s.height / 2.0 + offset.y));
  }

  method DrawBackdrop(ctx: Context, s: Surface)
    modifies ctx
    ensures ctx.commands == old(ctx.commands) + Backdrop(s)
  {
    ghost var p := ctx.commands;
    var glow := Glow(Center(s), Min(ChipWidth, ChipHeight) * 0.2, Max(ChipWidth, ChipHeight) * 0.8);
    var chip := ChipOutline(Point(ChipLeft(s), ChipTop(s)), ChipWidth, ChipHeight, ChipRadius);
    ctx.Issue(glow);
    ctx.Issue(Save);
    ctx.Issue(chip);
    ctx.Issue(Restore);
    AppendCalls4(p, glow, Save, chip, Restore);
  }

  method DrawLabelLayer(ctx: Context, s: Surface, stage: int, labels: seq<Drawable>)
    modifies ctx
    ensures ctx.commands == old(ctx.commands) + LabelLayer(s, Shown(stage, labels))
  {
    ghost var p := ctx.commands;
    ctx.Issue(Save);
    ctx.Issue(SetFont(LabelFontPx));
    DrawRevealed(ctx, s, stage, labels);
    ctx.Issue(Restore);
    LabelLayerShape(p, Save, SetFont(LabelFontPx), RenderAll(s, Shown(stage, labels)), Restore);
  }

  /** One redraw: issues exactly the calls of `Compose` for the revealed part of the lists. */
  method DrawComposed(ctx: Context, s: Surface, stage: int, zoom: real, offset: Point,
                      wires: seq<Drawable>, gates: seq<Drawable>, labels: seq<Drawable>)
    modifies ctx
    ensures ctx.commands == old(ctx.commands)
      + Compose(s, zoom, offset, Shown(stage, wires), Shown(stage, gates), Shown(stage, labels))
  {
    ghost var p := ctx.commands;
    var clear := ClearRect(0.0, 0.0, s.width, s.height);
    ctx.Issue(clear);
    ctx.Issue(Save);
    ApplyZoomTransform(ctx, s, zoom, offset);
    DrawBackdrop(ctx, s);
    DrawRevealed(ctx, s, stage, wires);
    DrawRevealed(ctx, s, stage, gates);
    DrawLabelLayer(ctx, s, stage, labels);
    ctx.Issue(Restore);
    FrameShape(p, clear, Save, ZoomTransform(s, zoom, offset), Backdrop(s),
               RenderAll(s, Shown(stage, wires)), RenderAll(s, Shown(stage, gates)),
               LabelLayer(s, Shown(stage, labels)), Restore);
  }

  /** One redraw at `stage`: wires, then gates, then labels, each table in order. */
  method DrawFrame(ctx: Context, s: Surface, stage: int, zoom: real, offset: Point)
    modifies ctx
    ensures ctx.commands == old(ctx.commands) + Frame(s, stage, zoom, offset)
  {
    DrawComposed(ctx, s, stage, zoom, offset, Wires(), Gates(), Labels());
  }

  // ===================================================================
  // Zoom: the component's own state
  // ===================================================================

  /** Zoom is kept in tenths: 0.5 .. 3.0, starting at 1.0. */
  const MinZoomTenths: int := 5
  const MaxZoomTenths: int := 30
  const InitialZoomTenths: int := 10

  /** One wheel event: a step of 0.1 in when `deltaY < 0`, out otherwise (so also for 0), then
      clamped to the range, low bound first. */
  function WheelZoom(z: int, deltaY: real): (r: int)
    ensures MinZoomTenths <= r <= MaxZoomTenths
    ensures MinZoomTenths <= z <= MaxZoomTenths && deltaY < 0.0 ==>
      r == (if z == MaxZoomTenths then z else z + 1)
    ensures MinZoomTenths <= z <= MaxZoomTenths && deltaY >= 0.0 ==>
      r == (if z == MinZoomTenths then z else z - 1)
  {
    var delta := if deltaY < 0.0 then 1 else -1;
    var nz := z + delta;
    var nz1 := if nz < MinZoomTenths then MinZoomTenths else nz;
    if nz1 > MaxZoomTenths then MaxZoomTenths else nz1
  }

  /** The zoom after a run of wheel events, given by their `deltaY`. */
  function ZoomAfter(z: int, events: seq<real>): int
    decreases |events|
  {
    if events == [] then z else ZoomAfter(WheelZoom(z, events[0]), events[1..])
  }

  /** However many wheel events arrive, the zoom stays within 0.5 .. 3.0. */
  lemma {:induction false} ZoomStaysInRange(z: int, events: seq<real>)
    requires MinZoomTenths <= z <= MaxZoomTenths
    ensures MinZoomTenths <= ZoomAfter(z, events) <= MaxZoomTenths
    decreases |events|
  {
    if events != [] {
      ZoomStaysInRange(WheelZoom(z, events[0]), events[1..]);
    }
  }

  /** `n` zoom-in events in a row: each adds 0.1 until 3.0 is reached, which then holds. */
  lemma {:induction false} ZoomInSaturates(z: int, n: nat)
    requires MinZoomTenths <= z <= MaxZoomTenths
    ensures ZoomAfter(z, seq(n, _ => -1.0)) == if z + n < MaxZoomTenths then z + n else MaxZoomTenths
    decreases n
  {
    if n > 0 {
      assert seq(n, _ => -1.0)[1..] == seq(n - 1, _ => -1.0);
      ZoomInSaturates(WheelZoom(z, -1.0), n - 1);
    }
  }

  /** `n` zoom-out events in a row: each takes 0.1 off until 0.5 is reached, which then holds. */
  lemma {:induction false} ZoomOutSaturates(z: int, n: nat)
    requires MinZoomTenths <= z <= MaxZoomTenths
    ensures ZoomAfter(z, seq(n, _ => 1.0)) == if z - n > MinZoomTenths then z - n else MinZoomTenths
    decreases n
  {
    if n > 0 {
      assert seq(n, _ => 1.0)[1..] == seq(n - 1, _ => 1.0);
      ZoomOutSaturates(WheelZoom(z, 1.0), n - 1);
    }
  }

  /** The canvas component: its zoom state and its (never moved) pan offset. A fresh instance
      is what the host gets when it remounts the canvas. */
  class SchematicCanvas {
    var zoomTenths: int
    const offset: Point

    ghost predicate Valid()
      reads this
    {
      MinZoomTenths <= zoomTenths <= MaxZoomTenths
    }

    constructor ()
      ensures Valid()
      ensures zoomTenths == InitialZoomTenths && offset == Point(0.0, 0.0)
    {
      zoomTenths := InitialZoomTenths;
      offset := Point(0.0, 0.0);
    }

    /** The zoom factor the frame is scaled by. */
    function Zoom(): (z: real)
      reads this
      ensures Valid() ==> 0.5 <= z <= 3.0
    {
      zoomTenths as real / 10.0
    }

    method HandleWheel(deltaY: real)
      requires Valid()
      modifies this
      ensures Valid()
      ensures zoomTenths == WheelZoom(old(zoomTenths), deltaY)
    {
      zoomTenths := WheelZoom(zoomTenths, deltaY);
    }

    /** One animation-frame tick: redraw with the current stage, zoom and offset. */
    method Draw(ctx: Context, s: Surface, stage: int)
      modifies ctx
      ensures ctx.commands == old(ctx.commands) + Frame(s, stage, Zoom(), offset)
    {
      DrawFrame(ctx, s, stage, Zoom(), offset);
    }
  }
}
