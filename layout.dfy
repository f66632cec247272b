/**
 * The proportional layout rule of the slicer's axes locator (`_locator`):
 * the frame's horizontal span is shared among the three views in proportion
 * to the widths of their union boxes, and the views are placed left to
 * right in the order x, y, z, each spanning the full height 0..1.
 */
module Layout {
  import opened Geometry
  import opened Bounds

  /** The content width of a union box. */
  function Width(b: Box): real
  {
    b.xmax - b.xmin
  }

  /** The summed content width of the three views. */
  function TotalWidth(u: PerView<Box>): real
  {
    Width(u.x) + Width(u.y) + Width(u.z)
  }

  /** A width `w`, out of a total `total`, rescaled to the span `span`. */
  function Scale(w: real, total: real, span: real): (r: real)
    requires total != 0.0
    ensures r * total == w * span
  {
    w / total * span
  }

  /** The part of the frame's horizontal span given to view `v`. */
  function Share(frame: Rect, u: PerView<Box>, v: View): real
    requires TotalWidth(u) != 0.0
  {
    Scale(Width(u.At(v)), TotalWidth(u), frame.x1 - frame.x0)
  }

  /** The left edge of view `v`: the frame's left edge plus the shares of the views before it. */
  function Left(frame: Rect, u: PerView<Box>, v: View): real
    requires TotalWidth(u) != 0.0
  {
    match v
    case X => frame.x0
    case Y => frame.x0 + Share(frame, u, X)
    case Z => frame.x0 + Share(frame, u, X) + Share(frame, u, Y)
  }

  /**
   * The box the locator returns for view `v`, given the frame rectangle and
   * the union boxes of the three views. It always spans 0..1 vertically,
   * whatever the frame's own vertical extent, and its horizontal size is
   * the view's content width scaled by span / total.
   */
  function Locator(frame: Rect, u: PerView<Box>, v: View): (r: Rect)
    requires TotalWidth(u) != 0.0
    ensures r.y0 == 0.0 && r.y1 == 1.0
    ensures (r.x1 - r.x0) * TotalWidth(u) == Width(u.At(v)) * (frame.x1 - frame.x0)
  {
    var left := Left(frame, u, v);
    Rect(left, 0.0, left + Share(frame, u, v), 1.0)
  }

  /** The three shares add up to exactly the frame's horizontal span. */
  lemma SharesSumToSpan(frame: Rect, u: PerView<Box>)
    requires TotalWidth(u) != 0.0
    ensures Share(frame, u, X) + Share(frame, u, Y) + Share(frame, u, Z) == frame.x1 - frame.x0
  {
    ScalesSum(Width(u.x), Width(u.y), Width(u.z), frame.x1 - frame.x0);
  }

  /** Three parts rescaled by their own sum add up to the span. */
  lemma ScalesSum(a: real, b: real, c: real, span: real)
    requires a + b + c != 0.0
    ensures Scale(a, a + b + c, span) + Scale(b, a + b + c, span) + Scale(c, a + b + c, span) == span
  {
    var t := a + b + c;
    var p, q, r := Scale(a, t, span), Scale(b, t, span), Scale(c, t, span);
    assert (p + q + r) * t == span * t;
    CancelFactor(p + q + r, span, t);
  }

  /**
   * The views tile the frame horizontally: x starts at the frame's left
   * edge, each view ends where the next begins, and z ends at the frame's
   * right edge.
   */
  lemma LocatorTilesFrame(frame: Rect, u: PerView<Box>)
    requires TotalWidth(u) != 0.0
    ensures Locator(frame, u, X).x0 == frame.x0
    ensures Locator(frame, u, X).x1 == Locator(frame, u, Y).x0
    ensures Locator(frame, u, Y).x1 == Locator(frame, u, Z).x0
    ensures Locator(frame, u, Z).x1 == frame.x1
  {
    SharesSumToSpan(frame, u);
  }

  /** The laid-out widths sum to the frame's span. */
  lemma LocatorWidthsSumToSpan(frame: Rect, u: PerView<Box>)
    requires TotalWidth(u) != 0.0
    ensures (Locator(frame, u, X).x1 - Locator(frame, u, X).x0)
          + (Locator(frame, u, Y).x1 - Locator(frame, u, Y).x0)
          + (Locator(frame, u, Z).x1 - Locator(frame, u, Z).x0) == frame.x1 - frame.x0
  {
    SharesSumToSpan(frame, u);
  }

  lemma CancelFactor(p: real, q: real, t: real)
    requires t != 0.0 && p * t == q * t
    ensures p == q
  {
    assert p == (p * t) / t;
    assert q == (q * t) / t;
  }

  lemma ScaleNonNegative(w: real, t: real, span: real)
    requires w >= 0.0 && t > 0.0 && span >= 0.0
    ensures Scale(w, t, span) >= 0.0
  {
    assert w / t >= 0.0;
  }

  /** Ordered union boxes have a non-negative total width, so a non-zero total is a positive one. */
  lemma TotalWidthOfOrdered(u: PerView<Box>)
    requires Ordered(u.x) && Ordered(u.y) && Ordered(u.z)
    ensures TotalWidth(u) >= 0.0
    ensures TotalWidth(u) != 0.0 <==> Width(u.x) > 0.0 || Width(u.y) > 0.0 || Width(u.z) > 0.0
  {
  }

  /**
   * With ordered union boxes and a frame whose right edge is not left of its
   * left edge, every view's box lies within the frame, in the order x, y, z.
   */
  lemma LocatorWithinFrame(frame: Rect, u: PerView<Box>)
    requires Ordered(u.x) && Ordered(u.y) && Ordered(u.z)
    requires TotalWidth(u) != 0.0
    requires frame.x0 <= frame.x1
    ensures frame.x0 <= Locator(frame, u, X).x0 <= Locator(frame, u, X).x1
    ensures Locator(frame, u, X).x1 <= Locator(frame, u, Y).x0 <= Locator(frame, u, Y).x1
    ensures Locator(frame, u, Y).x1 <= Locator(frame, u, Z).x0 <= Locator(frame, u, Z).x1 <= frame.x1
  {
    forall v: View ensures Share(frame, u, v) >= 0.0 {
      ScaleNonNegative(Width(u.At(v)), TotalWidth(u), frame.x1 - frame.x0);
    }
    LocatorTilesFrame(frame, u);
  }

  /**
   * The locator's arithmetic on the three union boxes `u`. Both passes walk
   * a dictionary keyed by view, so they visit the views in no particular
   * order.
   */
  method Place(frame: Rect, u: PerView<Box>, v: View) returns (r: Rect)
    requires TotalWidth(u) != 0.0
    ensures r == Locator(frame, u, v)
  {
    var widths: map<View, real> := map[];
    var todo := {X, Y, Z};
    while todo != {}
      invariant todo <= {X, Y, Z}
      invariant widths.Keys == {X, Y, Z} - todo
      invariant forall w :: w in widths ==> widths[w] == Width(u.At(w))
      decreases todo
    {
      var w :| w in todo;
      var b := u.At(w);
      widths := widths[w := b.xmax - b.xmin];
      todo := todo - {w};
    }
    var total := widths[X] + widths[Y] + widths[Z];
    assert total == TotalWidth(u);
    todo := {X, Y, Z};
    while todo != {}
      invariant todo <= {X, Y, Z}
      invariant widths.Keys == {X, Y, Z}
      invariant forall w :: w in todo ==> widths[w] == Width(u.At(w))
      invariant forall w :: w in widths && w !in todo ==> widths[w] == Share(frame, u, w)
      decreases todo
    {
      var w :| w in todo;
      widths := widths[w := Scale(widths[w], total, frame.x1 - frame.x0)];
      todo := todo - {w};
    }
    var left := map[X := frame.x0, Y := frame.x0 + widths[X], Z := frame.x0 + widths[X] + widths[Y]];
    r := Rect(left[v], 0.0, left[v] + widths[v], 1.0);
  }
}
