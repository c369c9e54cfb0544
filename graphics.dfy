/**
 * The vocabulary shared by the shapes, the page and the document (the
 * colour modes and transform origins of src/lib.rs, the colour records and
 * scale factors of the shapes, plus the emitted markup as data).
 *
 * Markup is modelled as a sequence of operator tokens rather than text: each
 * `Op` stands for one line the serialisers write (`gsave`, `x y translate`,
 * `... rect`, `r g b setrgbcolor`, ...). `f32` values are `real`s.
 */
module Graphics {
  import opened Wrappers

  /** Rust's `f32::clamp(lo, hi)`: the point of [lo, hi] nearest to `v`. */
  function Clamp(v: real, lo: real, hi: real): (r: real)
    requires lo <= hi
    ensures lo <= r <= hi
    ensures lo <= v <= hi ==> r == v
    ensures v < lo ==> r == lo
    ensures hi < v ==> r == hi
  {
    if v < lo then lo else if hi < v then hi else v
  }

  /** Rust's `f32::max(lo)`: `v` raised to at least `lo`. */
  function AtLeast(v: real, lo: real): (r: real)
    ensures r >= lo && r >= v
    ensures r == v || r == lo
  {
    if v < lo then lo else v
  }

  /** Rust's `i32::max(lo)` for the page and bounding-box sizes. */
  function AtLeastInt(v: int, lo: nat): (r: nat)
    ensures r >= lo && r >= v
    ensures r == v || r == lo
  {
    if v < lo then lo else v
  }

  /** The colour space a fill or a stroke is painted in (`ColorMode` of src/lib.rs). */
  datatype ColorMode = RGB | CMYK

  /** The three channels of an `[f32; 3]` colour. */
  datatype Rgb = Rgb(r: real, g: real, b: real) {
    predicate InRange() {
      0.0 <= r <= 1.0 && 0.0 <= g <= 1.0 && 0.0 <= b <= 1.0
    }
  }

  /** The four channels of an `[f32; 4]` colour. */
  datatype Cmyk = Cmyk(c: real, m: real, y: real, k: real) {
    predicate InRange() {
      0.0 <= c <= 1.0 && 0.0 <= m <= 1.0 && 0.0 <= y <= 1.0 && 0.0 <= k <= 1.0
    }
  }

  /** Each channel clamped into [0, 1], as every colour setter does. */
  function ClampRgb(r: real, g: real, b: real): (color: Rgb)
    ensures color.InRange()
    ensures Rgb(r, g, b).InRange() ==> color == Rgb(r, g, b)
  {
    Rgb(Clamp(r, 0.0, 1.0), Clamp(g, 0.0, 1.0), Clamp(b, 0.0, 1.0))
  }

  function ClampCmyk(c: real, m: real, y: real, k: real): (ink: Cmyk)
    ensures ink.InRange()
    ensures Cmyk(c, m, y, k).InRange() ==> ink == Cmyk(c, m, y, k)
  {
    Cmyk(Clamp(c, 0.0, 1.0), Clamp(m, 0.0, 1.0), Clamp(y, 0.0, 1.0), Clamp(k, 0.0, 1.0))
  }

  /** A pair of scale factors (`scale: [f32; 2]`). */
  datatype Factors = Factors(sx: real, sy: real)

  datatype Point = Point(x: real, y: real)

  /** Anchor of a rectangle's rotation and scaling (`TransformOrigin` of src/lib.rs). */
  datatype TransformOrigin = Center | BottomLeft | TopLeft | TopRight | BottomRight

  /** One line of emitted shape markup. */
  datatype Op =
    | Gsave
    | Grestore
    | Translate(tx: real, ty: real)
    | Rotate(angle: real)
    | Scale(sx: real, sy: real)
      /** Operands pushed, bottom first, then the name of a procedure to run. */
    | Call(proc: string, operands: seq<real>)
    | SetRgbColor(color: Rgb)
    | SetCmykColor(ink: Cmyk)
    | SetLineWidth(width: real)
    | Fill
    | Stroke

  /** The colour-setting operator for the active colour space. */
  function SetColor(mode: ColorMode, color: Rgb, ink: Cmyk): (op: Op)
    ensures mode == RGB ==> op == SetRgbColor(color)
    ensures mode == CMYK ==> op == SetCmykColor(ink)
  {
    match mode
    case RGB => SetRgbColor(color)
    case CMYK => SetCmykColor(ink)
  }

  /**
   * The graphics-state stack of section 4.3 of the PostScript Language
   * Reference (3rd ed.): running `ops` from stack depth `depth` either
   * underflows (a `grestore` with nothing saved: None) or ends at a depth.
   */
  function Simulate(ops: seq<Op>, depth: nat): Option<nat>
  {
    if ops == [] then Some(depth)
    else match ops[0]
      case Gsave => Simulate(ops[1..], depth + 1)
      case Grestore => if depth == 0 then None else Simulate(ops[1..], depth - 1)
      case _ => Simulate(ops[1..], depth)
  }

  /** Every save is restored, and no restore comes before its save. */
  predicate Balanced(ops: seq<Op>) {
    Simulate(ops, 0) == Some(0)
  }

  /** Running two token runs one after the other. */
  lemma {:induction false} SimulateConcat(a: seq<Op>, b: seq<Op>, depth: nat)
    ensures Simulate(a + b, depth) ==
      match Simulate(a, depth)
      case None => None
      case Some(d) => Simulate(b, d)
    decreases |a|
  {
    if a != [] {
      assert (a + b)[1..] == a[1..] + b;
      match a[0]
      case Gsave => SimulateConcat(a[1..], b, depth + 1);
      case Grestore => if depth > 0 { SimulateConcat(a[1..], b, depth - 1); }
      case _ => SimulateConcat(a[1..], b, depth);
    } else {
      assert a + b == b;
    }
  }

  /** The final depth is the start depth plus saves minus restores. */
  lemma {:induction false} SimulateCounts(ops: seq<Op>, depth: nat, final: nat)
    requires Simulate(ops, depth) == Some(final)
    ensures depth + multiset(ops)[Gsave] == final + multiset(ops)[Grestore]
    decreases |ops|
  {
    if ops != [] {
      assert ops == [ops[0]] + ops[1..];
      assert multiset(ops) == multiset{ops[0]} + multiset(ops[1..]);
      match ops[0]
      case Gsave => SimulateCounts(ops[1..], depth + 1, final);
      case Grestore => SimulateCounts(ops[1..], depth - 1, final);
      case _ => SimulateCounts(ops[1..], depth, final);
    }
  }

  /**
   * A balanced run has as many saves as restores, and the depth never goes
   * below zero on the way: every prefix runs without underflow.
   */
  lemma BalancedWellNested(ops: seq<Op>)
    requires Balanced(ops)
    ensures multiset(ops)[Gsave] == multiset(ops)[Grestore]
    ensures forall k :: 0 <= k <= |ops| ==> Simulate(ops[..k], 0).Some?
  {
    SimulateCounts(ops, 0, 0);
    forall k | 0 <= k <= |ops|
      ensures Simulate(ops[..k], 0).Some?
    {
      assert ops == ops[..k] + ops[k..];
      SimulateConcat(ops[..k], ops[k..], 0);
    }
  }

  /** Tokens that neither save nor restore leave the depth where it was. */
  predicate StackNeutral(ops: seq<Op>) {
    forall i :: 0 <= i < |ops| ==> ops[i] != Gsave && ops[i] != Grestore
  }

  lemma {:induction false} SimulateNeutral(ops: seq<Op>, depth: nat)
    requires StackNeutral(ops)
    ensures Simulate(ops, depth) == Some(depth)
    decreases |ops|
  {
    if ops != [] {
      SimulateNeutral(ops[1..], depth);
    }
  }

  /** A neutral body wrapped in its own save/restore pair returns to its depth. */
  lemma WrappedNeutral(body: seq<Op>, depth: nat)
    requires StackNeutral(body)
    ensures Simulate([Gsave] + body + [Grestore], depth) == Some(depth)
  {
    SimulateConcat([Gsave], body + [Grestore], depth);
    assert [Gsave] + body + [Grestore] == [Gsave] + (body + [Grestore]);
    SimulateConcat(body, [Grestore], depth + 1);
    SimulateNeutral(body, depth + 1);
  }
}
