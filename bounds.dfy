/**
 * The union box of the entries a view has registered (`_get_object_bounds`).
 * Per axis it is the minimum and the maximum over BOTH columns of the
 * entries, so the result is an ordered box even when some entry is
 * inverted.
 *
 * `Union` folds the entries one at a time, which is how the registry grows;
 * `ColumnBounds` is the per-column formula as the source writes it, and
 * `ColumnBoundsIsUnion` shows the two agree on every non-empty list.
 */
module Bounds {
  import opened Geometry

  function Min(a: real, b: real): real { if a <= b then a else b }
  function Max(a: real, b: real): real { if a <= b then b else a }

  /** A box whose minima do not exceed its maxima. */
  predicate Ordered(b: Box)
  {
    b.xmin <= b.xmax && b.ymin <= b.ymax
  }

  /**
   * `outer` covers `inner`, reading `inner` as an unordered pair of x values
   * and an unordered pair of y values.
   */
  predicate Encloses(outer: Box, inner: Box)
  {
    outer.xmin <= Min(inner.xmin, inner.xmax) && Max(inner.xmin, inner.xmax) <= outer.xmax &&
    outer.ymin <= Min(inner.ymin, inner.ymax) && Max(inner.ymin, inner.ymax) <= outer.ymax
  }

  /** The entry `e` read as an ordered box: the least ordered box covering it. */
  function Normalize(e: Box): (r: Box)
    ensures Ordered(r) && Encloses(r, e)
    ensures forall c: Box :: Encloses(c, e) ==> Encloses(c, r)
  {
    Box(Min(e.xmin, e.xmax), Max(e.xmin, e.xmax), Min(e.ymin, e.ymax), Max(e.ymin, e.ymax))
  }

  /** The ordered box `b` widened just enough to cover the entry `e`. */
  function Widen(b: Box, e: Box): (r: Box)
    requires Ordered(b)
    ensures Ordered(r) && Encloses(r, b) && Encloses(r, e)
    ensures forall c: Box :: Encloses(c, b) && Encloses(c, e) ==> Encloses(c, r)
  {
    Box(Min(b.xmin, Min(e.xmin, e.xmax)), Max(b.xmax, Max(e.xmin, e.xmax)),
        Min(b.ymin, Min(e.ymin, e.ymax)), Max(b.ymax, Max(e.ymin, e.ymax)))
  }

  /** The union box of a non-empty list of entries, folded from the oldest entry on. */
  function Union(s: seq<Box>): (r: Box)
    requires |s| > 0
    ensures Ordered(r)
  {
    if |s| == 1 then Normalize(s[0]) else Widen(Union(s[..|s| - 1]), s[|s| - 1])
  }

  /** The union box covers every entry, inverted or not. */
  lemma {:induction false} UnionEnclosesEntries(s: seq<Box>)
    requires |s| > 0
    ensures forall i :: 0 <= i < |s| ==> Encloses(Union(s), s[i])
  {
    if |s| > 1 {
      var init := s[..|s| - 1];
      UnionEnclosesEntries(init);
      forall i | 0 <= i < |s| - 1
        ensures Encloses(Union(s), s[i])
      {
        assert init[i] == s[i];
        EnclosesTransitive(Union(s), Union(init), s[i]);
      }
    }
  }

  lemma EnclosesTransitive(a: Box, b: Box, c: Box)
    requires Ordered(b) && Encloses(a, b) && Encloses(b, c)
    ensures Encloses(a, c)
  {
  }

  /**
   * The union box is the least one covering every entry: any box that
   * covers them all covers the union too.
   */
  lemma {:induction false} UnionIsLeast(s: seq<Box>, c: Box)
    requires |s| > 0
    requires forall i :: 0 <= i < |s| ==> Encloses(c, s[i])
    ensures Encloses(c, Union(s))
  {
    if |s| > 1 {
      var init := s[..|s| - 1];
      forall i | 0 <= i < |init| ensures Encloses(c, init[i]) {
        assert init[i] == s[i];
      }
      UnionIsLeast(init, c);
    }
  }

  /** The union depends only on which entries are registered, not on their order or repetition. */
  lemma UnionOrderIndependent(s: seq<Box>, t: seq<Box>)
    requires |s| > 0 && |t| > 0
    requires forall e :: e in s <==> e in t
    ensures Union(s) == Union(t)
  {
    UnionEnclosesEntries(s);
    UnionEnclosesEntries(t);
    forall i | 0 <= i < |t| ensures Encloses(Union(s), t[i]) {
      assert t[i] in s;
    }
    forall i | 0 <= i < |s| ensures Encloses(Union(t), s[i]) {
      assert s[i] in t;
    }
    UnionIsLeast(t, Union(s));
    UnionIsLeast(s, Union(t));
  }

  /**
   * Appending one entry widens the union by exactly that entry: the union
   * can be maintained incrementally, one registration at a time.
   */
  lemma UnionAppend(s: seq<Box>, e: Box)
    requires |s| > 0
    ensures Union(s + [e]) == Widen(Union(s), e)
  {
    assert (s + [e])[..|s|] == s;
  }

  // ---------------------------------------------------------------------
  // The per-column formula of the source.
  // ---------------------------------------------------------------------

  /** The smallest element of a non-empty sequence. */
  function MinOf(s: seq<real>): (r: real)
    requires |s| > 0
    ensures forall i :: 0 <= i < |s| ==> r <= s[i]
  {
    if |s| == 1 then s[0]
    else
      var m := MinOf(s[..|s| - 1]);
      assert forall i :: 0 <= i < |s| - 1 ==> s[..|s| - 1][i] == s[i];
      Min(m, s[|s| - 1])
  }

  /** The largest element of a non-empty sequence. */
  function MaxOf(s: seq<real>): (r: real)
    requires |s| > 0
    ensures forall i :: 0 <= i < |s| ==> s[i] <= r
  {
    if |s| == 1 then s[0]
    else
      var m := MaxOf(s[..|s| - 1]);
      assert forall i :: 0 <= i < |s| - 1 ==> s[..|s| - 1][i] == s[i];
      Max(m, s[|s| - 1])
  }

  /** The minimum is attained: it is one of the elements. */
  lemma {:induction false} MinOfAttained(s: seq<real>) returns (k: nat)
    requires |s| > 0
    ensures k < |s| && MinOf(s) == s[k]
  {
    if |s| == 1 {
      k := 0;
    } else {
      var init := s[..|s| - 1];
      k := MinOfAttained(init);
      if s[|s| - 1] < MinOf(init) {
        k := |s| - 1;
      }
    }
  }

  /** The maximum is attained: it is one of the elements. */
  lemma {:induction false} MaxOfAttained(s: seq<real>) returns (k: nat)
    requires |s| > 0
    ensures k < |s| && MaxOf(s) == s[k]
  {
    if |s| == 1 {
      k := 0;
    } else {
      var init := s[..|s| - 1];
      k := MaxOfAttained(init);
      if MaxOf(init) < s[|s| - 1] {
        k := |s| - 1;
      }
    }
  }

  // The four columns of the entry array (the transposed `np.array(...).T`).
  function XMins(s: seq<Box>): (c: seq<real>)
    ensures |c| == |s| && forall i :: 0 <= i < |s| ==> c[i] == s[i].xmin
  { seq(|s|, i requires 0 <= i < |s| => s[i].xmin) }

  function XMaxs(s: seq<Box>): (c: seq<real>)
    ensures |c| == |s| && forall i :: 0 <= i < |s| ==> c[i] == s[i].xmax
  { seq(|s|, i requires 0 <= i < |s| => s[i].xmax) }

  function YMins(s: seq<Box>): (c: seq<real>)
    ensures |c| == |s| && forall i :: 0 <= i < |s| ==> c[i] == s[i].ymin
  { seq(|s|, i requires 0 <= i < |s| => s[i].ymin) }

  function YMaxs(s: seq<Box>): (c: seq<real>)
    ensures |c| == |s| && forall i :: 0 <= i < |s| ==> c[i] == s[i].ymax
  { seq(|s|, i requires 0 <= i < |s| => s[i].ymax) }

  /**
   * The union box as the source computes it: per axis, the larger of the two
   * columns' maxima and the smaller of their minima.
   */
  function ColumnBounds(s: seq<Box>): (r: Box)
    requires |s| > 0
    ensures Ordered(r)
  {
    var xmins, xmaxs, ymins, ymaxs := XMins(s), XMaxs(s), YMins(s), YMaxs(s);
    assert MinOf(xmins) <= xmins[0] <= MaxOf(xmins);
    assert MinOf(ymins) <= ymins[0] <= MaxOf(ymins);
    Box(Min(MinOf(xmins), MinOf(xmaxs)), Max(MaxOf(xmaxs), MaxOf(xmins)),
        Min(MinOf(ymins), MinOf(ymaxs)), Max(MaxOf(ymaxs), MaxOf(ymins)))
  }

  /** Two columns lying within [lo, hi] have their joint minimum and maximum there too. */
  lemma ColumnsWithin(a: seq<real>, b: seq<real>, lo: real, hi: real)
    requires |a| > 0 && |b| > 0
    requires forall i :: 0 <= i < |a| ==> lo <= a[i] <= hi
    requires forall i :: 0 <= i < |b| ==> lo <= b[i] <= hi
    ensures lo <= Min(MinOf(a), MinOf(b)) && Max(MaxOf(b), MaxOf(a)) <= hi
  {
    var i := MinOfAttained(a);
    var j := MaxOfAttained(a);
    var k := MinOfAttained(b);
    var l := MaxOfAttained(b);
  }

  /** The per-column box covers every entry. */
  lemma ColumnBoundsEnclosesEntries(s: seq<Box>)
    requires |s| > 0
    ensures forall i :: 0 <= i < |s| ==> Encloses(ColumnBounds(s), s[i])
  {
    var xmins, xmaxs, ymins, ymaxs := XMins(s), XMaxs(s), YMins(s), YMaxs(s);
    forall i | 0 <= i < |s|
      ensures Encloses(ColumnBounds(s), s[i])
    {
      assert MinOf(xmins) <= xmins[i] <= MaxOf(xmins);
      assert MinOf(xmaxs) <= xmaxs[i] <= MaxOf(xmaxs);
      assert MinOf(ymins) <= ymins[i] <= MaxOf(ymins);
      assert MinOf(ymaxs) <= ymaxs[i] <= MaxOf(ymaxs);
    }
  }

  /** The per-column box lies within the fold's box, since every column value does. */
  lemma ColumnBoundsWithinUnion(s: seq<Box>)
    requires |s| > 0
    ensures Union(s).xmin <= ColumnBounds(s).xmin && ColumnBounds(s).xmax <= Union(s).xmax
    ensures Union(s).ymin <= ColumnBounds(s).ymin && ColumnBounds(s).ymax <= Union(s).ymax
  {
    var u := Union(s);
    UnionEnclosesEntries(s);
    var xmins, xmaxs, ymins, ymaxs := XMins(s), XMaxs(s), YMins(s), YMaxs(s);
    forall i | 0 <= i < |s|
      ensures u.xmin <= xmins[i] <= u.xmax && u.xmin <= xmaxs[i] <= u.xmax
    {
      EnclosedEnds(u, s[i]);
    }
    ColumnsWithin(xmins, xmaxs, u.xmin, u.xmax);
    forall i | 0 <= i < |s|
      ensures u.ymin <= ymins[i] <= u.ymax && u.ymin <= ymaxs[i] <= u.ymax
    {
      EnclosedEnds(u, s[i]);
    }
    ColumnsWithin(ymins, ymaxs, u.ymin, u.ymax);
  }

  lemma EnclosedEnds(outer: Box, e: Box)
    requires Encloses(outer, e)
    ensures outer.xmin <= e.xmin <= outer.xmax && outer.xmin <= e.xmax <= outer.xmax
    ensures outer.ymin <= e.ymin <= outer.ymax && outer.ymin <= e.ymax <= outer.ymax
  {
  }

  /** The per-column formula and the fold give the same box on every non-empty list. */
  lemma ColumnBoundsIsUnion(s: seq<Box>)
    requires |s| > 0
    ensures ColumnBounds(s) == Union(s)
  {
    ColumnBoundsEnclosesEntries(s);
    UnionIsLeast(s, ColumnBounds(s));
    ColumnBoundsWithinUnion(s);
  }
}
