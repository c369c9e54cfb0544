/**
 * A rectangle shape (src/rect.rs): its configuration, the chained setters
 * that clamp their inputs, and its serialisation to markup.
 */
module Rects {
  import opened Wrappers
  import opened Graphics
  import opened Procedures

  /** A snapshot of a `Rect`'s seventeen fields. */
  datatype RectState = RectState(
    x: real, y: real, width: real, height: real,
    strokeWidth: real,
    strokeRgb: Rgb, strokeCmyk: Cmyk,
    fillRgb: Rgb, fillCmyk: Cmyk,
    doFill: bool,
    rotation: real,
    scale: Factors,
    doScale: bool,
    doRotate: bool,
    origin: TransformOrigin,
    fillMode: ColorMode,
    strokeMode: ColorMode)
  {
    /** What the constructor and every setter establish. */
    predicate Valid() {
      && x >= 0.0 && y >= 0.0 && width >= 0.0 && height >= 0.0
      && strokeWidth >= 0.0
      && strokeRgb.InRange() && strokeCmyk.InRange()
      && fillRgb.InRange() && fillCmyk.InRange()
      && -360.0 <= rotation <= 360.0
    }
  }

  /** The pivot of rotation and scaling, taken from the rectangle's own corners or centre. */
  function Anchor(s: RectState): (p: Point)
    requires s.width >= 0.0 && s.height >= 0.0
    ensures s.x <= p.x <= s.x + s.width && s.y <= p.y <= s.y + s.height
    ensures s.origin == BottomLeft ==> p == Point(s.x, s.y)
    ensures s.origin == TopLeft ==> p == Point(s.x, s.y + s.height)
    ensures s.origin == TopRight ==> p == Point(s.x + s.width, s.y + s.height)
    ensures s.origin == BottomRight ==> p == Point(s.x + s.width, s.y)
    ensures s.origin == Center ==> p.x - s.x == s.x + s.width - p.x && p.y - s.y == s.y + s.height - p.y
  {
    match s.origin
    case TopLeft => Point(s.x, s.y + s.height)
    case TopRight => Point(s.x + s.width, s.y + s.height)
    case BottomLeft => Point(s.x, s.y)
    case BottomRight => Point(s.x + s.width, s.y)
    case Center => Point(s.x + s.width / 2.0, s.y + s.height / 2.0)
  }

  predicate Transformed(s: RectState) {
    s.doRotate || s.doScale
  }

  /** `gsave`, translate to the anchor, rotate, scale, translate back; or nothing. */
  function Prologue(s: RectState): seq<Op>
    requires s.Valid()
  {
    if Transformed(s) then
      var a := Anchor(s);
      [Gsave, Translate(a.x, a.y)]
      + (if s.doRotate then [Rotate(s.rotation)] else [])
      + (if s.doScale then [Scale(s.scale.sx, s.scale.sy)] else [])
      + [Translate(-a.x, -a.y)]
    else []
  }

  /** The ten operands of the `rect` call: three deltas, a start delta, then the corner. */
  function RectOperands(s: RectState): seq<real> {
    [-s.width, 0.0, 0.0, -s.height, s.width, 0.0, 0.0, s.height, s.x, s.y]
  }

  function FillBlock(s: RectState): seq<Op> {
    if s.doFill then [Gsave, SetColor(s.fillMode, s.fillRgb, s.fillCmyk), Fill, Grestore] else []
  }

  function StrokeBlock(s: RectState): seq<Op> {
    if s.strokeWidth > 0.0 then
      [Gsave, SetLineWidth(s.strokeWidth), SetColor(s.strokeMode, s.strokeRgb, s.strokeCmyk), Stroke, Grestore]
    else []
  }

  function Epilogue(s: RectState): seq<Op> {
    if Transformed(s) then [Grestore] else []
  }

  /** The markup `to_postscript_string` produces, token by token. */
  function RectTokens(s: RectState): seq<Op>
    requires s.Valid()
  {
    Prologue(s) + [Call("rect", RectOperands(s))] + FillBlock(s) + StrokeBlock(s) + Epilogue(s)
  }

  class Rect {
    var x: real
    var y: real
    var width: real
    var height: real
    var strokeWidth: real
    var strokeRgb: Rgb
    var strokeCmyk: Cmyk
    var fillRgb: Rgb
    var fillCmyk: Cmyk
    var doFill: bool
    var rotation: real
    var scale: Factors
    var doScale: bool
    var doRotate: bool
    var origin: TransformOrigin
    var fillMode: ColorMode
    var strokeMode: ColorMode

    function State(): RectState
      reads this
    {
      RectState(x, y, width, height, strokeWidth, strokeRgb, strokeCmyk, fillRgb, fillCmyk,
                doFill, rotation, scale, doScale, doRotate, origin, fillMode, strokeMode)
    }

    predicate Valid()
      reads this
    {
      State().Valid()
    }

    /** `Rect::new`: geometry clamped to at least 0; no fill, no stroke, no transform. */
    constructor (x: real, y: real, width: real, height: real)
      ensures Valid()
      ensures State() == RectState(
        AtLeast(x, 0.0), AtLeast(y, 0.0), AtLeast(width, 0.0), AtLeast(height, 0.0),
        0.0, Rgb(0.0, 0.0, 0.0), Cmyk(0.0, 0.0, 0.0, 0.0), Rgb(0.0, 0.0, 0.0), Cmyk(0.0, 0.0, 0.0, 0.0),
        false, 0.0, Factors(1.0, 1.0), false, false, Center, RGB, RGB)
    {
      this.fillMode := RGB;
      this.strokeMode := RGB;
      this.x := AtLeast(x, 0.0);
      this.y := AtLeast(y, 0.0);
      this.width := AtLeast(width, 0.0);
      this.height := AtLeast(height, 0.0);
      this.strokeWidth := 0.0;
      this.strokeRgb := Rgb(0.0, 0.0, 0.0);
      this.fillRgb := Rgb(0.0, 0.0, 0.0);
      this.strokeCmyk := Cmyk(0.0, 0.0, 0.0, 0.0);
      this.fillCmyk := Cmyk(0.0, 0.0, 0.0, 0.0);
      this.doFill := false;
      this.doRotate := false;
      this.rotation := 0.0;
      this.scale := Factors(1.0, 1.0);
      this.doScale := false;
      this.origin := Center;
    }

    /** Fill in RGB: channels clamped into [0, 1]; no stroke field changes. */
    method FillRgb(r: real, g: real, b: real)
      requires Valid()
      modifies this
      ensures Valid()
      ensures State() == old(State()).(fillRgb := ClampRgb(r, g, b), doFill := true, fillMode := RGB)
    {
      fillRgb := Rgb(Clamp(r, 0.0, 1.0), Clamp(g, 0.0, 1.0), Clamp(b, 0.0, 1.0));
      doFill := true;
      fillMode := RGB;
    }

    /** Fill in CMYK: channels clamped into [0, 1]; no stroke field changes. */
    method FillCmyk(c: real, m: real, y: real, k: real)
      requires Valid()
      modifies this
      ensures Valid()
      ensures State() == old(State()).(fillCmyk := ClampCmyk(c, m, y, k), doFill := true, fillMode := CMYK)
    {
      fillCmyk := Cmyk(Clamp(c, 0.0, 1.0), Clamp(m, 0.0, 1.0), Clamp(y, 0.0, 1.0), Clamp(k, 0.0, 1.0));
      doFill := true;
      fillMode := CMYK;
    }

    /** Stroke in RGB: width clamped to at least 0, channels into [0, 1]; no fill field changes. */
    method StrokeRgb(width: real, r: real, g: real, b: real)
      requires Valid()
      modifies this
      ensures Valid()
      ensures State() == old(State()).(strokeWidth := AtLeast(width, 0.0), strokeRgb := ClampRgb(r, g, b), strokeMode := RGB)
    {
      strokeWidth := AtLeast(width, 0.0);
      strokeRgb := Rgb(Clamp(r, 0.0, 1.0), Clamp(g, 0.0, 1.0), Clamp(b, 0.0, 1.0));
      strokeMode := RGB;
    }

    /** Stroke in CMYK: width clamped to at least 0, channels into [0, 1]; no fill field changes. */
    method StrokeCmyk(width: real, c: real, m: real, y: real, k: real)
      requires Valid()
      modifies this
      ensures Valid()
      ensures State() == old(State()).(strokeWidth := AtLeast(width, 0.0), strokeCmyk := ClampCmyk(c, m, y, k), strokeMode := CMYK)
    {
      strokeWidth := AtLeast(width, 0.0);
      strokeCmyk := Cmyk(Clamp(c, 0.0, 1.0), Clamp(m, 0.0, 1.0), Clamp(y, 0.0, 1.0), Clamp(k, 0.0, 1.0));
      strokeMode := CMYK;
    }

    /** Scale factors are stored as given: negative factors mirror. */
    method Scale(sx: real, sy: real)
      requires Valid()
      modifies this
      ensures Valid()
      ensures State() == old(State()).(scale := Factors(sx, sy), doScale := true)
    {
      scale := Factors(sx, sy);
      doScale := true;
    }

    /** `set_orign`. */
    method SetOrigin(origin: TransformOrigin)
      requires Valid()
      modifies this
      ensures Valid()
      ensures State() == old(State()).(origin := origin)
    {
      this.origin := origin;
    }

    /** The angle is clamped into [-360, 360]; rotation is switched on even for 0. */
    method Rotate(angle: real)
      requires Valid()
      modifies this
      ensures Valid()
      ensures State() == old(State()).(rotation := Clamp(angle, -360.0, 360.0), doRotate := true)
    {
      rotation := Clamp(angle, -360.0, 360.0);
      doRotate := true;
    }

    /** `to_postscript_string`: appends each part of the markup in turn. */
    method ToPostScript() returns (result: seq<Op>)
      requires Valid()
      ensures result == RectTokens(State())
    {
      ghost var st := State();
      result := [];
      if doRotate || doScale {
        var anchor := Anchor(State());
        result := result + [Gsave, Translate(anchor.x, anchor.y)];
        if doRotate {
          result := result + [Op.Rotate(rotation)];
        }
        if doScale {
          result := result + [Op.Scale(scale.sx, scale.sy)];
        }
        result := result + [Translate(-anchor.x, -anchor.y)];
      }
      assert result == Prologue(st);
      result := result + [Call("rect", [-width, 0.0, 0.0, -height, width, 0.0, 0.0, height, x, y])];
      if doFill {
        result := result + [Gsave, SetColor(fillMode, fillRgb, fillCmyk), Fill, Grestore];
      }
      if strokeWidth > 0.0 {
        result := result + [Gsave, SetLineWidth(strokeWidth), SetColor(strokeMode, strokeRgb, strokeCmyk), Stroke, Grestore];
      }
      if doRotate || doScale {
        result := result + [Grestore];
      }
    }
  }

  /** Saves and restores in a rectangle's markup pair up, and nest properly. */
  lemma RectBalanced(s: RectState)
    requires s.Valid()
    ensures Balanced(RectTokens(s))
  {
    var pro, call, fill, stroke, epi := Prologue(s), [Call("rect", RectOperands(s))], FillBlock(s), StrokeBlock(s), Epilogue(s);
    var d: nat := if Transformed(s) then 1 else 0;
    PrologueOpens(s);
    SimulateNeutral(call, d);
    PaintBlocksNeutral(s, d);
    assert Simulate(epi, d) == Some(0);
    SimulateConcat(pro, call, 0);
    SimulateConcat(pro + call, fill, 0);
    SimulateConcat(pro + call + fill, stroke, 0);
    SimulateConcat(pro + call + fill + stroke, epi, 0);
  }

  /** The prologue leaves one extra state saved exactly when it is there. */
  lemma PrologueOpens(s: RectState)
    requires s.Valid()
    ensures Simulate(Prologue(s), 0) == Some(if Transformed(s) then 1 else 0)
  {
    if Transformed(s) {
      var a := Anchor(s);
      var body := [Translate(a.x, a.y)]
        + (if s.doRotate then [Rotate(s.rotation)] else [])
        + (if s.doScale then [Scale(s.scale.sx, s.scale.sy)] else [])
        + [Translate(-a.x, -a.y)];
      assert Prologue(s) == [Gsave] + body;
      SimulateConcat([Gsave], body, 0);
      SimulateNeutral(body, 1);
    }
  }

  /** The fill and stroke blocks each restore what they save. */
  lemma PaintBlocksNeutral(s: RectState, d: nat)
    ensures Simulate(FillBlock(s), d) == Some(d)
    ensures Simulate(StrokeBlock(s), d) == Some(d)
  {
    if s.doFill {
      WrappedNeutral([SetColor(s.fillMode, s.fillRgb, s.fillCmyk), Fill], d);
      assert FillBlock(s) == [Gsave] + [SetColor(s.fillMode, s.fillRgb, s.fillCmyk), Fill] + [Grestore];
    }
    if s.strokeWidth > 0.0 {
      WrappedNeutral([SetLineWidth(s.strokeWidth), SetColor(s.strokeMode, s.strokeRgb, s.strokeCmyk), Stroke], d);
      assert StrokeBlock(s) == [Gsave] + [SetLineWidth(s.strokeWidth), SetColor(s.strokeMode, s.strokeRgb, s.strokeCmyk), Stroke] + [Grestore];
    }
  }

  /**
   * The save/transform prologue is there exactly when rotation or scaling is
   * on, in the order translate, rotate (if on), scale (if on), translate back
   * by the negated anchor; its `grestore` is then the last token.
   */
  lemma RectPrologueOrder(s: RectState)
    requires s.Valid()
    ensures var t := RectTokens(s);
      && (t[0] == Gsave <==> Transformed(s))
      && (Transformed(s) ==>
            var a := Anchor(s);
            var i := if s.doRotate then 3 else 2;
            var j := if s.doScale then i + 1 else i;
            && t[1] == Translate(a.x, a.y)
            && (s.doRotate ==> t[2] == Rotate(s.rotation))
            && (s.doScale ==> t[i] == Scale(s.scale.sx, s.scale.sy))
            && t[j] == Translate(-a.x, -a.y)
            && t[j + 1] == Call("rect", RectOperands(s))
            && t[|t| - 1] == Grestore)
      && (!Transformed(s) ==> t[0] == Call("rect", RectOperands(s)))
  {
  }

  /**
   * The `rect` call draws the rectangle's boundary: from (x, y) up, across,
   * down and back, and the path is closed.
   */
  lemma RectPathIsBoundary(s: RectState)
    ensures Invoke(RectOps, RectOperands(s)) ==
      Some(PathState([], [Point(s.x, s.y), Point(s.x, s.y + s.height), Point(s.x + s.width, s.y + s.height),
                          Point(s.x + s.width, s.y), Point(s.x, s.y)], true))
  {
    var x, y, w, h := s.x, s.y, s.width, s.height;
    var s0 := PathState(RectOperands(s), [], false);
    var s2 := PathState([-w, 0.0, 0.0, -h, w, 0.0, 0.0, h], [Point(x, y)], false);
    var s3 := PathState([-w, 0.0, 0.0, -h, w, 0.0], s2.points + [Point(x, y + h)], false);
    var s4 := PathState([-w, 0.0, 0.0, -h], s3.points + [Point(x + w, y + h)], false);
    var s5 := PathState([-w, 0.0], s4.points + [Point(x + w, y)], false);
    var s6 := PathState([], s5.points + [Point(x, y)], false);
    assert s0.operands[..8] == s2.operands;
    assert s2.operands[..6] == s3.operands;
    assert s3.operands[..4] == s4.operands;
    assert s4.operands[..2] == s5.operands;
    assert Exec(Newpath, s0) == Some(s0);
    assert Run(RectOps, s0) == Run(RectOps[1..], s0);
    assert Exec(Moveto, s0) == Some(s2);
    assert Exec(Rlineto, s2) == Some(s3);
    assert Exec(Rlineto, s3) == Some(s4);
    assert Exec(Rlineto, s4) == Some(s5);
    assert Exec(Rlineto, s5) == Some(s6);
    assert Run(RectOps[6..], s6) == Some(s6.(closed := true));
    assert Run(RectOps[5..], s5) == Run(RectOps[6..], s6);
    assert Run(RectOps[4..], s4) == Run(RectOps[5..], s5);
    assert Run(RectOps[3..], s3) == Run(RectOps[4..], s4);
    assert Run(RectOps[2..], s2) == Run(RectOps[3..], s3);
    assert Run(RectOps[1..], s0) == Run(RectOps[2..], s2);
    assert s6.points == [Point(x, y), Point(x, y + h), Point(x + w, y + h), Point(x + w, y), Point(x, y)];
    assert Invoke(RectOps, RectOperands(s)) == Run(RectOps, s0);
  }

  /**
   * The fill block is there exactly when fill is on and the stroke block
   * exactly when the stroke width is positive, and every fill comes before
   * every stroke.
   */
  lemma RectPaintOrder(s: RectState)
    requires s.Valid()
    ensures Fill in RectTokens(s) <==> s.doFill
    ensures Stroke in RectTokens(s) <==> s.strokeWidth > 0.0
    ensures forall i, j ::
      (0 <= i < |RectTokens(s)| && 0 <= j < |RectTokens(s)| && RectTokens(s)[i] == Fill && RectTokens(s)[j] == Stroke)
      ==> i < j
  {
    var pre := Prologue(s) + [Call("rect", RectOperands(s))];
    var post := StrokeBlock(s) + Epilogue(s);
    var t := RectTokens(s);
    assert t == pre + FillBlock(s) + post;
    assert Fill !in pre && Stroke !in pre && Fill !in post && Stroke !in FillBlock(s);
    var m := |pre| + |FillBlock(s)|;
    forall i | 0 <= i < |t| && t[i] == Fill ensures i < m {
    }
    forall j | 0 <= j < |t| && t[j] == Stroke ensures j >= m {
    }
  }

  /**
   * Each paint operator is preceded by its own settings: a `fill` by the
   * fill colour in the fill mode's operator, a `stroke` by the line width
   * and then the stroke colour in the stroke mode's operator.
   */
  lemma RectPaintColors(s: RectState)
    requires s.Valid()
    ensures forall i :: 0 <= i < |RectTokens(s)| && RectTokens(s)[i] == Fill ==>
      i >= 1 && RectTokens(s)[i - 1] == SetColor(s.fillMode, s.fillRgb, s.fillCmyk)
    ensures forall i :: 0 <= i < |RectTokens(s)| && RectTokens(s)[i] == Op.Stroke ==>
      && i >= 2
      && RectTokens(s)[i - 1] == SetColor(s.strokeMode, s.strokeRgb, s.strokeCmyk)
      && RectTokens(s)[i - 2] == SetLineWidth(s.strokeWidth)
  {
    var pre := Prologue(s) + [Call("rect", RectOperands(s))];
    var fill, stroke, epi := FillBlock(s), StrokeBlock(s), Epilogue(s);
    var t := RectTokens(s);
    assert t == pre + fill + stroke + epi;
    assert Fill !in pre && Op.Stroke !in pre && Op.Stroke !in fill && Fill !in stroke && Fill !in epi && Op.Stroke !in epi;
    forall i | 0 <= i < |t| && t[i] == Fill
      ensures i >= 1 && t[i - 1] == SetColor(s.fillMode, s.fillRgb, s.fillCmyk)
    {
      assert i == |pre| + 2;
    }
    forall i | 0 <= i < |t| && t[i] == Op.Stroke
      ensures i >= 2 && t[i - 1] == SetColor(s.strokeMode, s.strokeRgb, s.strokeCmyk) && t[i - 2] == SetLineWidth(s.strokeWidth)
    {
      assert i == |pre| + |fill| + 3;
    }
  }

  /**
   * Each paint operator sits in its own `gsave`/`grestore` frame, which
   * keeps its colour and width from leaking out and keeps the path that
   * `fill` consumes for the stroke that follows.
   */
  lemma RectPaintFramed(s: RectState)
    requires s.Valid()
    ensures forall i :: 0 <= i < |RectTokens(s)| && RectTokens(s)[i] == Fill ==>
      2 <= i && i + 1 < |RectTokens(s)| && RectTokens(s)[i - 2] == Gsave && RectTokens(s)[i + 1] == Grestore
    ensures forall i :: 0 <= i < |RectTokens(s)| && RectTokens(s)[i] == Op.Stroke ==>
      3 <= i && i + 1 < |RectTokens(s)| && RectTokens(s)[i - 3] == Gsave && RectTokens(s)[i + 1] == Grestore
  {
    var pre := Prologue(s) + [Call("rect", RectOperands(s))];
    var fill, stroke, epi := FillBlock(s), StrokeBlock(s), Epilogue(s);
    var t := RectTokens(s);
    assert t == pre + fill + stroke + epi;
    assert Fill !in pre && Op.Stroke !in pre && Op.Stroke !in fill && Fill !in stroke && Fill !in epi && Op.Stroke !in epi;
    forall i | 0 <= i < |t| && t[i] == Fill
      ensures 2 <= i && i + 1 < |t| && t[i - 2] == Gsave && t[i + 1] == Grestore
    {
      assert i == |pre| + 2;
    }
    forall i | 0 <= i < |t| && t[i] == Op.Stroke
      ensures 3 <= i && i + 1 < |t| && t[i - 3] == Gsave && t[i + 1] == Grestore
    {
      assert i == |pre| + |fill| + 3;
    }
  }

  /** What a single token of a rectangle's markup may carry. */
  predicate RectOpInRange(op: Op) {
    && (op.SetRgbColor? ==> op.color.InRange())
    && (op.SetCmykColor? ==> op.ink.InRange())
    && (op.Rotate? ==> -360.0 <= op.angle <= 360.0)
    && (op.SetLineWidth? ==> op.width > 0.0)
    && (op.Call? ==> op.proc == "rect" && op.proc in BuiltinNames)
  }

  predicate AllInRange(ops: seq<Op>) {
    forall i :: 0 <= i < |ops| ==> RectOpInRange(ops[i])
  }

  lemma AllInRangeConcat(a: seq<Op>, b: seq<Op>)
    requires AllInRange(a) && AllInRange(b)
    ensures AllInRange(a + b)
  {
    forall i | 0 <= i < |a + b| ensures RectOpInRange((a + b)[i]) {
      if i >= |a| { assert (a + b)[i] == b[i - |a|]; }
    }
  }

  /**
   * Every colour the markup sets lies in [0, 1], any rotation in
   * [-360, 360], any line width is positive, and the only procedure it
   * calls is the built-in `rect`.
   */
  lemma RectOperandsInRange(s: RectState)
    requires s.Valid()
    ensures forall i :: 0 <= i < |RectTokens(s)| ==> RectOpInRange(RectTokens(s)[i])
  {
    var pro, call, fill, stroke, epi := Prologue(s), [Call("rect", RectOperands(s))], FillBlock(s), StrokeBlock(s), Epilogue(s);
    assert AllInRange(pro) by {
      if Transformed(s) {
        var a := Anchor(s);
        var r := if s.doRotate then [Op.Rotate(s.rotation)] else [];
        var c := if s.doScale then [Op.Scale(s.scale.sx, s.scale.sy)] else [];
        assert pro == [Gsave, Translate(a.x, a.y)] + r + c + [Translate(-a.x, -a.y)];
      }
    }
    assert AllInRange(call);
    assert AllInRange(fill);
    assert AllInRange(stroke);
    assert AllInRange(epi);
    AllInRangeConcat(pro, call);
    AllInRangeConcat(pro + call, fill);
    AllInRangeConcat(pro + call + fill, stroke);
    AllInRangeConcat(pro + call + fill + stroke, epi);
  }
}
