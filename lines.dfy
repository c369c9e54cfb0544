/**
 * A straight line shape (src/line.rs): its configuration, the setters that
 * clamp their inputs, and its serialisation to markup.
 */
module Lines {
  import opened Wrappers
  import opened Graphics
  import opened Procedures

  /** Anchor of a line's rotation and scaling. */
  datatype TransformLineOrigin = Left | Center | Right

  /** A snapshot of a `Line`'s nine fields. */
  datatype LineState = LineState(
    x: real, y: real, length: real,
    strokeWidth: real,
    strokeColor: Rgb,
    rotation: real,
    scale: Factors,
    doScale: bool,
    origin: TransformLineOrigin)
  {
    /** What the constructor and every setter establish. */
    predicate Valid() {
      && x >= 0.0 && y >= 0.0 && length >= 0.0
      && strokeWidth >= 0.0
      && strokeColor.InRange()
      && 0.0 <= rotation <= 360.0
    }
  }

  /** The pivot: the start, middle or end of the line, raised by half the stroke width. */
  function LineAnchor(s: LineState): (p: Point)
    requires s.length >= 0.0
    ensures p.y == s.y + s.strokeWidth / 2.0
    ensures s.x <= p.x <= s.x + s.length
    ensures s.origin == Left ==> p.x == s.x
    ensures s.origin == Right ==> p.x == s.x + s.length
    ensures s.origin == TransformLineOrigin.Center ==> p.x - s.x == s.x + s.length - p.x
  {
    match s.origin
    case Left => Point(s.x, s.y + s.strokeWidth / 2.0)
    case Center => Point(s.x + s.length / 2.0, s.y + s.strokeWidth / 2.0)
    case Right => Point(s.x + s.length, s.y + s.strokeWidth / 2.0)
  }

  /** A rotation strictly between 0 and 360 degrees is emitted, negated. */
  function RotateOps(s: LineState): seq<Op> {
    if 0.0 < s.rotation < 360.0 then [Rotate(-s.rotation)] else []
  }

  function ScaleOps(s: LineState): seq<Op> {
    if s.doScale then [Scale(s.scale.sx, s.scale.sy)] else []
  }

  /** The four operands of the `line` call: x + length, y, then the start x, y. */
  function LineOperands(s: LineState): seq<real> {
    [s.x + s.length, s.y, s.x, s.y]
  }

  /** Width and colour are set in the outer frame; only `stroke` gets its own. */
  function LineStrokeOps(s: LineState): seq<Op> {
    if s.strokeWidth > 0.0 then
      [SetLineWidth(s.strokeWidth), SetRgbColor(s.strokeColor), Gsave, Stroke, Grestore]
    else []
  }

  /** The markup `to_postscript_string` produces, token by token. */
  function LineTokens(s: LineState): seq<Op>
    requires s.Valid()
  {
    var a := LineAnchor(s);
    [Gsave, Translate(a.x, a.y)] + RotateOps(s) + ScaleOps(s)
    + [Call("line", LineOperands(s))] + LineStrokeOps(s) + [Grestore]
  }

  class Line {
    var x: real
    var y: real
    var length: real
    var strokeWidth: real
    var strokeColor: Rgb
    var rotation: real
    var scale: Factors
    var doScale: bool
    var origin: TransformLineOrigin

    function State(): LineState
      reads this
    {
      LineState(x, y, length, strokeWidth, strokeColor, rotation, scale, doScale, origin)
    }

    predicate Valid()
      reads this
    {
      State().Valid()
    }

    /** `Line::new`: position and length clamped to at least 0; a black stroke 1 wide. */
    constructor (x: real, y: real, length: real)
      ensures Valid()
      ensures State() == LineState(AtLeast(x, 0.0), AtLeast(y, 0.0), AtLeast(length, 0.0),
                                   1.0, Rgb(0.0, 0.0, 0.0), 0.0, Factors(1.0, 1.0), false, TransformLineOrigin.Center)
    {
      this.x := AtLeast(x, 0.0);
      this.y := AtLeast(y, 0.0);
      this.length := AtLeast(length, 0.0);
      this.strokeWidth := 1.0;
      this.strokeColor := Rgb(0.0, 0.0, 0.0);
      this.rotation := 0.0;
      this.scale := Factors(1.0, 1.0);
      this.doScale := false;
      this.origin := TransformLineOrigin.Center;
    }

    /** Width clamped to at least 0, channels into [0, 1]. */
    method Stroke(width: real, r: real, g: real, b: real)
      requires Valid()
      modifies this
      ensures Valid()
      ensures State() == old(State()).(strokeWidth := AtLeast(width, 0.0), strokeColor := ClampRgb(r, g, b))
    {
      strokeWidth := AtLeast(width, 0.0);
      strokeColor := Rgb(Clamp(r, 0.0, 1.0), Clamp(g, 0.0, 1.0), Clamp(b, 0.0, 1.0));
    }

    /** Scale factors are stored as given. */
    method Scale(sx: real, sy: real)
      requires Valid()
      modifies this
      ensures Valid()
      ensures State() == old(State()).(scale := Factors(sx, sy), doScale := true)
    {
      scale := Factors(sx, sy);
      doScale := true;
    }

    /** `set_orign`. */
    method SetOrigin(origin: TransformLineOrigin)
      requires Valid()
      modifies this
      ensures Valid()
      ensures State() == old(State()).(origin := origin)
    {
      this.origin := origin;
    }

    /** The angle is clamped into [0, 360]; there is no separate on/off flag. */
    method Rotate(angle: real)
      requires Valid()
      modifies this
      ensures Valid()
      ensures State() == old(State()).(rotation := Clamp(angle, 0.0, 360.0))
    {
      rotation := Clamp(angle, 0.0, 360.0);
    }

    /** `to_postscript_string`: appends each part of the markup in turn. */
    method ToPostScript() returns (result: seq<Op>)
      requires Valid()
      ensures result == LineTokens(State())
    {
      result := [Gsave];
      var anchor := LineAnchor(State());
      result := result + [Translate(anchor.x, anchor.y)];
      if rotation > 0.0 && rotation < 360.0 {
        result := result + [Op.Rotate(-rotation)];
      }
      if doScale {
        result := result + [Op.Scale(scale.sx, scale.sy)];
      }
      result := result + [Call("line", [x + length, y, x, y])];
      if strokeWidth > 0.0 {
        result := result + [SetLineWidth(strokeWidth), SetRgbColor(strokeColor), Gsave, Op.Stroke, Grestore];
      }
      result := result + [Grestore];
    }
  }

  /**
   * A line's markup opens with `gsave` and closes with `grestore`, and the
   * saves and restores in it pair up and nest properly.
   */
  lemma LineBalanced(s: LineState)
    requires s.Valid()
    ensures var t := LineTokens(s); t[0] == Gsave && t[|t| - 1] == Grestore
    ensures Balanced(LineTokens(s))
  {
    var a := LineAnchor(s);
    var head := [Translate(a.x, a.y)] + RotateOps(s) + ScaleOps(s) + [Call("line", LineOperands(s))];
    var stroke := LineStrokeOps(s);
    var t := LineTokens(s);
    assert t == [Gsave] + head + stroke + [Grestore];
    assert Simulate([Gsave] + head, 0) == Some(1) by {
      SimulateConcat([Gsave], head, 0);
      SimulateNeutral(head, 1);
    }
    assert Simulate(stroke, 1) == Some(1) by {
      if s.strokeWidth > 0.0 {
        var setup := [SetLineWidth(s.strokeWidth), SetRgbColor(s.strokeColor)];
        assert stroke == setup + ([Gsave] + [Op.Stroke] + [Grestore]);
        SimulateNeutral(setup, 1);
        WrappedNeutral([Op.Stroke], 1);
        SimulateConcat(setup, [Gsave] + [Op.Stroke] + [Grestore], 1);
      }
    }
    SimulateConcat([Gsave] + head, stroke, 0);
    SimulateConcat([Gsave] + head + stroke, [Grestore], 0);
  }

  /**
   * A `rotate` token appears exactly when the stored angle is strictly
   * between 0 and 360, it carries the negated angle, so its operand lies in
   * (-360, 0), and it comes right after the translate to the anchor.
   */
  lemma LineRotation(s: LineState)
    requires s.Valid()
    ensures (exists a :: Rotate(a) in LineTokens(s)) <==> 0.0 < s.rotation < 360.0
    ensures forall a :: Rotate(a) in LineTokens(s) ==> a == -s.rotation && -360.0 < a < 0.0
    ensures 0.0 < s.rotation < 360.0 ==> LineTokens(s)[2] == Rotate(-s.rotation)
  {
    var a := LineAnchor(s);
    var t := LineTokens(s);
    var rest := ScaleOps(s) + [Call("line", LineOperands(s))] + LineStrokeOps(s) + [Grestore];
    assert t == [Gsave, Translate(a.x, a.y)] + RotateOps(s) + rest;
    assert forall b :: Rotate(b) !in rest;
    if 0.0 < s.rotation < 360.0 {
      assert t[2] == Rotate(-s.rotation);
    }
  }

  /**
   * The order of the opening: `gsave`, translate to the anchor (whose y is
   * always y + width/2), the optional rotate, the scale exactly when scaling
   * was configured, then the `line` call.
   */
  lemma LineOpeningOrder(s: LineState)
    requires s.Valid()
    ensures var t := LineTokens(s);
      var a := LineAnchor(s);
      var i := 2 + |RotateOps(s)|;
      && t[1] == Translate(a.x, a.y) && a.y == s.y + s.strokeWidth / 2.0
      && (s.doScale ==> t[i] == Scale(s.scale.sx, s.scale.sy) && t[i + 1] == Call("line", LineOperands(s)))
      && (!s.doScale ==> t[i] == Call("line", LineOperands(s)))
      && ((exists sx, sy :: Scale(sx, sy) in t) <==> s.doScale)
  {
    var t := LineTokens(s);
    var a := LineAnchor(s);
    var rest := [Call("line", LineOperands(s))] + LineStrokeOps(s) + [Grestore];
    assert t == [Gsave, Translate(a.x, a.y)] + RotateOps(s) + ScaleOps(s) + rest;
    assert forall sx, sy :: Scale(sx, sy) !in rest;
    if s.doScale {
      assert Scale(s.scale.sx, s.scale.sy) in t;
    }
  }

  /**
   * Line width, colour and the framed `stroke` appear exactly when the
   * stroke width is positive; the colour is in [0, 1], and the only
   * procedure called is the built-in `line`.
   */
  lemma LineStrokeOperands(s: LineState)
    requires s.Valid()
    ensures Op.Stroke in LineTokens(s) <==> s.strokeWidth > 0.0
    ensures SetLineWidth(s.strokeWidth) in LineTokens(s) <==> s.strokeWidth > 0.0
    ensures forall op :: op in LineTokens(s) && op.SetRgbColor? ==> op.color == s.strokeColor && op.color.InRange()
    ensures forall op :: op in LineTokens(s) && op.Call? ==> op == Call("line", LineOperands(s)) && op.proc in BuiltinNames
  {
    var a := LineAnchor(s);
    var t := LineTokens(s);
    var head := [Gsave, Translate(a.x, a.y)] + RotateOps(s) + ScaleOps(s) + [Call("line", LineOperands(s))];
    assert t == head + LineStrokeOps(s) + [Grestore];
    assert forall op :: op in head ==> !op.SetRgbColor? && !op.SetLineWidth? && op != Op.Stroke;
  }

  /**
   * Every `stroke` comes after the line width and the stroke colour, and
   * sits in its own `gsave`/`grestore` frame.
   */
  lemma LineStrokeFramed(s: LineState)
    requires s.Valid()
    ensures forall i :: 0 <= i < |LineTokens(s)| && LineTokens(s)[i] == Op.Stroke ==>
      && 3 <= i && i + 1 < |LineTokens(s)|
      && LineTokens(s)[i - 3] == SetLineWidth(s.strokeWidth)
      && LineTokens(s)[i - 2] == SetRgbColor(s.strokeColor)
      && LineTokens(s)[i - 1] == Gsave
      && LineTokens(s)[i + 1] == Grestore
  {
    var a := LineAnchor(s);
    var t := LineTokens(s);
    var head := [Gsave, Translate(a.x, a.y)] + RotateOps(s) + ScaleOps(s) + [Call("line", LineOperands(s))];
    assert t == head + LineStrokeOps(s) + [Grestore];
    assert Op.Stroke !in head;
    forall i | 0 <= i < |t| && t[i] == Op.Stroke
      ensures 3 <= i && i + 1 < |t| && t[i - 3] == SetLineWidth(s.strokeWidth) && t[i - 2] == SetRgbColor(s.strokeColor)
      ensures t[i - 1] == Gsave && t[i + 1] == Grestore
    {
      assert i == |head| + 3;
    }
  }

  /** A colour is set exactly when the stroke width is positive. */
  lemma LineStrokeColor(s: LineState)
    requires s.Valid()
    ensures (exists c :: SetRgbColor(c) in LineTokens(s)) <==> s.strokeWidth > 0.0
  {
    var a := LineAnchor(s);
    var t := LineTokens(s);
    var head := [Gsave, Translate(a.x, a.y)] + RotateOps(s) + ScaleOps(s) + [Call("line", LineOperands(s))];
    assert t == head + LineStrokeOps(s) + [Grestore];
    assert forall c :: SetRgbColor(c) !in head;
    if s.strokeWidth > 0.0 {
      assert SetRgbColor(s.strokeColor) in t;
    }
  }

  /**
   * What the built-in `line` body does with the four operands as written:
   * it moves to (x, y) and then draws by the displacement (x + length, y),
   * so the second point is (2x + length, 2y); the two coincide with the
   * intended end (x + length, y) only for a line starting at the origin.
   */
  lemma LinePathAsWritten(s: LineState)
    ensures Invoke(LineOps, LineOperands(s)) ==
      Some(PathState([], [Point(s.x, s.y), Point(s.x + (s.x + s.length), s.y + s.y)], true))
  {
    var x, y, l := s.x, s.y, s.length;
    var s0 := PathState(LineOperands(s), [], false);
    var s2 := PathState([x + l, y], [Point(x, y)], false);
    var s3 := PathState([], s2.points + [Point(x + (x + l), y + y)], false);
    assert s0.operands[..2] == s2.operands;
    assert Run(LineOps, s0) == Run(LineOps[1..], s0);
    assert Exec(Moveto, s0) == Some(s2);
    assert Exec(Rlineto, s2) == Some(s3);
    assert Run(LineOps[1..], s0) == Run(LineOps[2..], s2);
    assert Run(LineOps[2..], s2) == Run(LineOps[3..], s3);
    assert Run(LineOps[3..], s3) == Some(s3.(closed := true));
    assert s3.points == [Point(x, y), Point(x + (x + l), y + y)];
    assert Invoke(LineOps, LineOperands(s)) == Run(LineOps, s0);
  }

  /**
   * The evidently intended call: the offset (length, 0) after the start
   * (x, y). The built-in `line` body then draws from (x, y) to
   * (x + length, y), the line's own end point.
   */
  function IntendedLineOperands(s: LineState): seq<real> {
    [s.length, 0.0, s.x, s.y]
  }

  lemma LinePathIntended(s: LineState)
    ensures Invoke(LineOps, IntendedLineOperands(s)) ==
      Some(PathState([], [Point(s.x, s.y), Point(s.x + s.length, s.y)], true))
  {
    var x, y, l := s.x, s.y, s.length;
    var s0 := PathState(IntendedLineOperands(s), [], false);
    var s2 := PathState([l, 0.0], [Point(x, y)], false);
    var s3 := PathState([], s2.points + [Point(x + l, y + 0.0)], false);
    assert s0.operands[..2] == s2.operands;
    assert Run(LineOps, s0) == Run(LineOps[1..], s0);
    assert Exec(Moveto, s0) == Some(s2);
    assert Exec(Rlineto, s2) == Some(s3);
    assert Run(LineOps[1..], s0) == Run(LineOps[2..], s2);
    assert Run(LineOps[2..], s2) == Run(LineOps[3..], s3);
    assert Run(LineOps[3..], s3) == Some(s3.(closed := true));
    assert s3.points == [Point(x, y), Point(x + l, y)];
    assert Invoke(LineOps, IntendedLineOperands(s)) == Run(LineOps, s0);
  }

  /**
   * The call as written misses the line's end whenever the line does not
   * start at the origin: the test's line at (100, 100), 100 long, ends at
   * (300, 200) rather than (200, 100).
   */
  lemma LineEndAsWrittenMissed(s: LineState)
    requires s.x != 0.0 || s.y != 0.0
    ensures Invoke(LineOps, LineOperands(s)) != Invoke(LineOps, IntendedLineOperands(s))
  {
    LinePathAsWritten(s);
    LinePathIntended(s);
    var written := Invoke(LineOps, LineOperands(s)).value.points;
    assert written[1] == Point(s.x + (s.x + s.length), s.y + s.y);
  }
}
