/**
 * A page (src/page.rs): an append-only buffer of serialised shapes, framed
 * for output by its bounding box, its page size and `showpage`.
 */
module Pages {
  import opened Graphics
  import opened Output
  import Decimal
  import Rects
  import Lines

  /** Anything with a serialisation that can be placed on a page. */
  datatype Item = RectItem(rect: Rects.Rect) | LineItem(line: Lines.Line)

  function ItemObject(item: Item): object {
    match item
    case RectItem(r) => r
    case LineItem(l) => l
  }

  predicate ItemValid(item: Item)
    reads ItemObject(item)
  {
    match item
    case RectItem(r) => r.Valid()
    case LineItem(l) => l.Valid()
  }

  /** The markup an item serialises to. */
  function Serialization(item: Item): seq<Op>
    reads ItemObject(item)
    requires ItemValid(item)
  {
    match item
    case RectItem(r) => Rects.RectTokens(r.State())
    case LineItem(l) => Lines.LineTokens(l.State())
  }

  /** The serialisations of `parts`, one after the other. */
  function Concat(parts: seq<seq<Op>>): seq<Op> {
    if parts == [] then [] else parts[0] + Concat(parts[1..])
  }

  lemma {:induction false} ConcatSnoc(parts: seq<seq<Op>>, last: seq<Op>)
    ensures Concat(parts + [last]) == Concat(parts) + last
    decreases |parts|
  {
    if parts == [] {
      assert Concat([last]) == last + Concat([]);
    } else {
      assert (parts + [last])[1..] == parts[1..] + [last];
      ConcatSnoc(parts[1..], last);
    }
  }

  /** `%%PageBoundingBox: 0 0 w h`, the page's bounding-box comment. */
  function PageBoundingBoxLine(width: nat, height: nat): string {
    "%%PageBoundingBox: 0 0 " + Dimensions(width, height)
  }

  /** `<< /PageSize [w h] >> setpagedevice`, the page-size request. */
  function PageSizeLine(width: nat, height: nat): string {
    "<< /PageSize [" + Dimensions(width, height) + "] >> setpagedevice"
  }

  /** `w h`, the two sides in decimal. */
  function Dimensions(width: nat, height: nat): string {
    Decimal.Show(width) + " " + Decimal.Show(height)
  }

  class Page {
    var width: nat
    var height: nat
    var buffer: seq<Op>
    /** The serialisations added so far, in call order. */
    ghost var added: seq<seq<Op>>

    /** Sizes are at least 1 and the buffer is exactly what was added, in order. */
    ghost predicate Valid()
      reads this
    {
      width >= 1 && height >= 1 && buffer == Concat(added)
    }

    /** `Page::new`: sizes raised to at least 1, an empty buffer. */
    constructor (width: int, height: int)
      ensures Valid()
      ensures this.width == AtLeastInt(width, 1) && this.height == AtLeastInt(height, 1)
      ensures buffer == [] && added == []
    {
      this.width := AtLeastInt(width, 1);
      this.height := AtLeastInt(height, 1);
      buffer := [];
      added := [];
    }

    /** Appends the item's serialisation; nothing already there is removed or reordered. */
    method Add(item: Item)
      requires Valid() && ItemValid(item)
      modifies this
      ensures Valid()
      ensures width == old(width) && height == old(height)
      ensures buffer == old(buffer) + Serialization(item)
      ensures added == old(added) + [Serialization(item)]
      ensures old(buffer) <= buffer && |buffer| == |old(buffer)| + |Serialization(item)|
    {
      var serialized: seq<Op>;
      match item {
        case RectItem(r) => serialized := r.ToPostScript();
        case LineItem(l) => serialized := l.ToPostScript();
      }
      ConcatSnoc(added, serialized);
      buffer := buffer + serialized;
      added := added + [serialized];
    }

    /**
     * `fabricate`: the bounding box and page size, then the buffered markup,
     * then `showpage`, in three writes appended to `sink`. The page itself
     * is left as it was (nothing is modified).
     */
    method Fabricate(sink: seq<Chunk>) returns (out: seq<Chunk>)
      requires Valid()
      ensures out == sink + [Directives([PageBoundingBoxLine(width, height), PageSizeLine(width, height)]),
                             Markup(buffer),
                             Directives(["showpage"])]
      ensures out[|sink| + 1] == Markup(Concat(added))
    {
      out := sink + [Directives([PageBoundingBoxLine(width, height), PageSizeLine(width, height)])];
      out := out + [Markup(buffer)];
      out := out + [Directives(["showpage"])];
    }
  }

  /** A 500 by 300 page is framed as `%%PageBoundingBox: 0 0 500 300`. */
  lemma FiveHundredByThreeHundred()
    ensures PageBoundingBoxLine(500, 300) == "%%PageBoundingBox: 0 0 500 300"
  {
    DimensionsFiveHundredByThreeHundred();
  }

  /** ... and requests a 500 by 300 page size. */
  lemma FiveHundredByThreeHundredSize()
    ensures PageSizeLine(500, 300) == "<< /PageSize [500 300] >> setpagedevice"
  {
    DimensionsFiveHundredByThreeHundred();
  }

  lemma DimensionsFiveHundredByThreeHundred()
    ensures Dimensions(500, 300) == "500 300"
  {
    Decimal.ShowFiveHundredAndThreeHundred();
  }

  /**
   * An untransformed, filled, unstroked rectangle has one fill, no stroke,
   * balanced saves, and sets its fill colour in the fill mode's operator.
   */
  lemma FillOnlyMarkup(s: Rects.RectState)
    requires s.Valid() && !Rects.Transformed(s) && s.doFill && s.strokeWidth == 0.0
    ensures multiset(Rects.RectTokens(s))[Fill] == 1
    ensures multiset(Rects.RectTokens(s))[Op.Stroke] == 0
    ensures Balanced(Rects.RectTokens(s))
    ensures SetColor(s.fillMode, s.fillRgb, s.fillCmyk) in Rects.RectTokens(s)
  {
    Rects.RectBalanced(s);
    var paint := SetColor(s.fillMode, s.fillRgb, s.fillCmyk);
    assert Rects.RectTokens(s) == [Call("rect", Rects.RectOperands(s)), Gsave, paint, Fill, Grestore];
    CountPaint(Rects.RectOperands(s), paint);
  }

  lemma CountPaint(operands: seq<real>, paint: Op)
    requires paint.SetRgbColor? || paint.SetCmykColor?
    ensures multiset([Call("rect", operands), Gsave, paint, Fill, Grestore])[Fill] == 1
    ensures multiset([Call("rect", operands), Gsave, paint, Fill, Grestore])[Op.Stroke] == 0
  {
  }

  /**
   * The encapsulated-document scenario: a 500 by 300 page holding one
   * rectangle at (50, 100), 400 by 100, filled in CMYK (0.5, 1, 0.5, 0)
   * with no stroke is framed with the matching bounding box, and its markup
   * has exactly one fill, no stroke, and balanced saves.
   */
  method CmykFilledPage() returns (framed: seq<Chunk>)
    ensures |framed| == 3
    ensures framed[0] == Directives(["%%PageBoundingBox: 0 0 500 300", "<< /PageSize [500 300] >> setpagedevice"])
    ensures framed[1].Markup? && multiset(framed[1].ops)[Fill] == 1 && multiset(framed[1].ops)[Op.Stroke] == 0
    ensures framed[1].Markup? && Balanced(framed[1].ops)
    ensures framed[1].Markup? && SetCmykColor(Cmyk(0.5, 1.0, 0.5, 0.0)) in framed[1].ops
    ensures framed[2] == Directives(["showpage"])
  {
    var page := new Page(500, 300);
    var rect := new Rects.Rect(50.0, 100.0, 400.0, 100.0);
    rect.FillCmyk(0.5, 1.0, 0.5, 0.0);
    ghost var st := rect.State();
    assert st.Valid() && !Rects.Transformed(st) && st.doFill && st.strokeWidth == 0.0;
    assert st.fillMode == CMYK && st.fillCmyk == Cmyk(0.5, 1.0, 0.5, 0.0);
    page.Add(RectItem(rect));
    assert page.buffer == Rects.RectTokens(st);
    FillOnlyMarkup(st);
    framed := page.Fabricate([]);
    FiveHundredByThreeHundred();
    FiveHundredByThreeHundredSize();
  }
}
