/** `createStripedContainer` of src/ts/stripedContainer.ts: vertical lines
    `lineWidth + offsetWidth` apart across a width, each its own Graphics
    object in one container, and the container's hit area. */
module StripedContainer {
  import opened Common
  import opened Geometry
  import opened Pixi

  /** The Graphics object of the stripe at offset `offset` from x: line
      style, an empty fill, a vertical line down the full height, end of
      fill. */
  function StripeRecord(x: real, y: real, height: real, lineWidth: real, lineColor: string, offset: real): GraphicsRecord
  {
    NewGraphics.(calls := [LineStyle(lineWidth, Css(lineColor)), BeginFill(None),
                           MoveTo(Point(x + offset, y)), LineTo(Point(x + offset, y + height)), EndFill])
  }

  /** The offset of the k-th stripe from x: `i` after k steps. */
  function Offset(k: nat, step: real): real
  {
    k as real * step
  }

  /** The first `count` stripes, the k-th at offset k * step. */
  function StripeRecords(x: real, y: real, height: real, lineWidth: real, lineColor: string, step: real, count: nat)
    : (r: seq<GraphicsRecord>)
    ensures |r| == count
  {
    seq(count, k requires 0 <= k < count => StripeRecord(x, y, height, lineWidth, lineColor, Offset(k, step)))
  }

  /** The loop `for (i = 0; i < width; i += step)` runs `n` times: every
      offset before the n-th is below the width, the n-th is not. */
  predicate IsStripeCount(n: nat, width: real, step: real)
  {
    BelowWidth(n, width, step) && Offset(n, step) >= width
  }

  /** The first `n` offsets are all below the width. */
  predicate BelowWidth(n: nat, width: real, step: real)
  {
    forall k: nat :: k < n ==> Offset(k, step) < width
  }

  /** `new PIXI.Rectangle(x, y, width, height)` over the stripes. */
  function HitArea(x: real, y: real, width: real, height: real): (r: Rectangle)
    ensures r.x == x && r.y == y && r.x + r.width == x + width && r.y + r.height == y + height
  {
    Rectangle(x, y, width, height)
  }

  /** The rectangle the source passes: the right and bottom edges where the
      width and height belong, so the area reaches x further right and y
      further down than the stripes. */
  function HitAreaAsWritten(x: real, y: real, width: real, height: real): (r: Rectangle)
    ensures r.x == x && r.y == y
    ensures r.x + r.width == (x + width) + x && r.y + r.height == (y + height) + y
  {
    Rectangle(x, y, x + width, y + height)
  }

  /** `createStripedContainer`. Where the width is positive, the loop ends
      only when `lineWidth + offsetWidth` is positive. The hit area is the
      rectangle as the source writes it. */
  method CreateStripedContainer(x: real, y: real, width: real, height: real,
                                lineWidth: real, offsetWidth: real, lineColor: string)
    returns (container: Container)
    requires width <= 0.0 || lineWidth + offsetWidth > 0.0
    ensures fresh(container)
    ensures container.name == None
    ensures AllGraphics(container.children)
    ensures IsStripeCount(|container.children|, width, lineWidth + offsetWidth)
    ensures Drawn(container.children)
      == StripeRecords(x, y, height, lineWidth, lineColor, lineWidth + offsetWidth, |container.children|)
    ensures container.hitArea == Some(HitAreaAsWritten(x, y, width, height))
  {
    container := new Container();
    var step := lineWidth + offsetWidth;
    ghost var bound := StripeBound(width, step);
    var i := 0.0;
    ghost var count: nat := 0;
    while i < width
      invariant i == Offset(count, step) && BelowWidth(count, width, step)
      invariant step <= 0.0 ==> count == 0
      invariant container.name == None && container.hitArea == None
      invariant AllGraphics(container.children)
      invariant Drawn(container.children) == StripeRecords(x, y, height, lineWidth, lineColor, step, count)
      decreases bound - count
    {
      assert step > 0.0;
      BelowBound(count, step, width);
      AddStripe(container, x, y, height, lineWidth, lineColor, step, count, i);
      BelowWidthStep(count, width, step);
      OffsetStep(count, step);
      i := i + step;
      count := count + 1;
    }
    assert container !in GraphicsObjects(container.children);
    container.SetHitArea(Rectangle(x, y, x + width, y + height));
  }

  /** The body of the loop: the stripe at offset `i`, the count-th, added
      to the container. */
  method AddStripe(container: Container, x: real, y: real, height: real, lineWidth: real, lineColor: string,
                   step: real, ghost count: nat, i: real)
    modifies container
    requires i == Offset(count, step)
    requires AllGraphics(container.children)
    requires Drawn(container.children) == StripeRecords(x, y, height, lineWidth, lineColor, step, count)
    ensures container.name == old(container.name) && container.hitArea == old(container.hitArea)
    ensures AllGraphics(container.children)
    ensures Drawn(container.children) == StripeRecords(x, y, height, lineWidth, lineColor, step, count + 1)
  {
    var line := CreateStripe(x, y, height, lineWidth, lineColor, i);
    ghost var before := container.children;
    assert container !in GraphicsObjects(before);
    container.AddChild(GraphicsChild(line));
    DrawnSnoc(before, line);
    StripeRecordsStep(x, y, height, lineWidth, lineColor, step, count);
  }

  lemma BelowWidthStep(n: nat, width: real, step: real)
    requires BelowWidth(n, width, step) && Offset(n, step) < width
    ensures BelowWidth(n + 1, width, step)
  {
  }

  /** A new Graphics object holding one stripe at offset `i`. */
  method CreateStripe(x: real, y: real, height: real, lineWidth: real, lineColor: string, i: real)
    returns (line: Graphics)
    ensures fresh(line)
    ensures line.Record() == StripeRecord(x, y, height, lineWidth, lineColor, i)
  {
    line := new Graphics();
    line.Draw(LineStyle(lineWidth, Css(lineColor)));
    line.Draw(BeginFill(None));
    line.Draw(MoveTo(Point(x + i, y)));
    line.Draw(LineTo(Point(x + i, y + height)));
    line.Draw(EndFill);
  }

  /** One more stripe is one more record at the end. */
  lemma StripeRecordsStep(x: real, y: real, height: real, lineWidth: real, lineColor: string, step: real, count: nat)
    ensures StripeRecords(x, y, height, lineWidth, lineColor, step, count + 1)
      == StripeRecords(x, y, height, lineWidth, lineColor, step, count)
         + [StripeRecord(x, y, height, lineWidth, lineColor, Offset(count, step))]
  {
  }

  lemma OffsetStep(k: nat, step: real)
    ensures Offset(k + 1, step) == Offset(k, step) + step
  {
  }

  /** A bound on the number of stripes: floor(width / step) + 1 for a
      positive step. */
  function StripeBound(width: real, step: real): int
  {
    if step > 0.0 then (width / step).Floor + 1 else 0
  }

  /** With a positive step, an offset below the width is one of at most
      floor(width / step) + 1. */
  lemma BelowBound(k: nat, step: real, width: real)
    requires step > 0.0 && Offset(k, step) < width
    ensures k < StripeBound(width, step)
  {
    var q := width / step;
    assert q * step == width;
    assert (q - k as real) * step > 0.0;
  }

  /** The number of stripes is determined by the width and the step. */
  lemma StripeCountUnique(n1: nat, n2: nat, width: real, step: real)
    requires IsStripeCount(n1, width, step) && IsStripeCount(n2, width, step)
    ensures n1 == n2
  {
  }

  /** With a positive step the stripes go left to right, each strictly
      right of the one before, all of them at or right of x and left of
      x + width; with a positive width there is at least one. */
  lemma StripesLeftToRight(width: real, step: real, n: nat)
    requires step > 0.0 && IsStripeCount(n, width, step)
    ensures width > 0.0 ==> n >= 1
    ensures forall j: nat, k: nat :: j < k < n ==> Offset(j, step) < Offset(k, step)
    ensures forall k: nat :: k < n ==> 0.0 <= Offset(k, step) < width
  {
    assert BelowWidth(n, width, step);
    forall j: nat, k: nat | j < k < n
      ensures Offset(j, step) < Offset(k, step)
    {
      var d := k as real - j as real;
      assert d > 0.0;
      assert Offset(k, step) == Offset(j, step) + d * step;
      assert d * step > 0.0;
    }
    forall k: nat | k < n
      ensures 0.0 <= Offset(k, step) < width
    {
      assert k as real * step >= 0.0;
    }
  }

  /** Every stripe is a vertical line from the top edge of the hit area to
      its bottom edge, at an x inside it, drawn with the given line style
      and no fill colour. */
  lemma StripesInsideHitArea(x: real, y: real, width: real, height: real, lineWidth: real, lineColor: string,
                             step: real, n: nat, k: nat)
    requires step > 0.0 && IsStripeCount(n, width, step) && k < n
    ensures var s := StripeRecords(x, y, height, lineWidth, lineColor, step, n)[k];
      var h := HitArea(x, y, width, height);
      var px := x + Offset(k, step);
      && h.x <= px < h.x + h.width
      && s.calls == [LineStyle(lineWidth, Css(lineColor)), BeginFill(None),
                     MoveTo(Point(px, h.y)), LineTo(Point(px, h.y + h.height)), EndFill]
  {
    StripesLeftToRight(width, step, n);
  }

  /** The rectangle as written reaches x + width too far to the right and
      y + height too far down: with x = 10 and width 100 its right edge is
      at 120, while the stripes stop short of 110. */
  lemma HitAreaAsWrittenOvershoots()
    ensures var r := HitAreaAsWritten(10.0, 0.0, 100.0, 50.0);
      r.x + r.width == 120.0 && HitArea(10.0, 0.0, 100.0, 50.0).x + HitArea(10.0, 0.0, 100.0, 50.0).width == 110.0
  {
  }

  /** The two agree only for a container at the origin. */
  lemma HitAreaAsWrittenAgreesOnlyAtOrigin(x: real, y: real, width: real, height: real)
    ensures HitAreaAsWritten(x, y, width, height) == HitArea(x, y, width, height) <==> x == 0.0 && y == 0.0
  {
  }
}
