/**
 * The OrthoSlicer object: three linked views of a 3-D map, one content-bounds
 * registry per view, the plotting bookkeeping that fills it, the locator that
 * lays the views out from it, and the crosshair.
 *
 * The dictionary that the source keys by axes object becomes one sequence
 * field per view; the drawing calls themselves are not modelled, only the
 * numbers handed to them (returned as values).
 */
module Slicer {
  import opened Geometry
  import opened Bounds
  import opened Layout

  /**
   * What plot_map hands to one view: the slice (the axis it is cut across
   * and the voxel index there), the image extent, and the axis limits set
   * right after the view's registry was extended.
   */
  datatype Image = Image(cutAxis: Axis, sliceIndex: int, extent: Box, limits: Box)

  /** The content box plot_map registers: the mask bounds when the map has a mask, else the full bounds. */
  function ContentBounds(full: Bounds6, mask: Option<Bounds6>): (r: Bounds6)
    ensures mask.Some? ==> r == mask.value
    ensures mask.None? ==> r == full
  {
    match mask
    case Some(m) => m
    case None => full
  }

  class OrthoSlicer {
    /** The default cut position, in world space. */
    const cutCoords: Coords
    /** The frame rectangle (x0, y0, x1, y1) the three views share. */
    const rect: Rect
    /** The registered content boxes of views x, y and z, oldest first. */
    var xEntries: seq<Box>
    var yEntries: seq<Box>
    var zEntries: seq<Box>

    function Entries(v: View): seq<Box>
      reads this
    {
      match v
      case X => xEntries
      case Y => yEntries
      case Z => zEntries
    }

    /** Every view has registered at least one content box. */
    predicate AllRegistered()
      reads this
    {
      |xEntries| > 0 && |yEntries| > 0 && |zEntries| > 0
    }

    /**
     * The union box of view `v`'s registered entries (equal to the source's
     * per-column formula by `ColumnBoundsIsUnion`). Undefined while the view
     * has none (the source fails unpacking an empty array).
     */
    function ObjectBounds(v: View): (r: Box)
      reads this
      requires |Entries(v)| > 0
      ensures Ordered(r)
    {
      Union(Entries(v))
    }

    /** The union boxes of all three views. */
    function Unions(): (u: PerView<Box>)
      reads this
      requires AllRegistered()
      ensures Ordered(u.x) && Ordered(u.y) && Ordered(u.z)
    {
      PerView(ObjectBounds(X), ObjectBounds(Y), ObjectBounds(Z))
    }

    /** Store the cut position and frame; every view starts with no content. */
    constructor (cut: Coords, frame: Rect)
      ensures cutCoords == cut && rect == frame
      ensures forall v: View :: Entries(v) == []
    {
      cutCoords := cut;
      rect := frame;
      xEntries := [];
      yEntries := [];
      zEntries := [];
    }

    /**
     * Append the content box `e` to view `v`'s entries and return the view's
     * new limits, its union box. The union widens by exactly `e`; the other
     * views' entries are untouched.
     */
    method Register(v: View, e: Box) returns (limits: Box)
      modifies this
      ensures Entries(v) == old(Entries(v)) + [e]
      ensures forall w :: w != v ==> Entries(w) == old(Entries(w))
      ensures limits == ObjectBounds(v)
      ensures |old(Entries(v))| > 0 ==> limits == Widen(old(ObjectBounds(v)), e)
      ensures |old(Entries(v))| == 0 ==> limits == Normalize(e)
    {
      ghost var before := Entries(v);
      var after := Entries(v) + [e];
      match v {
        case X => xEntries := after;
        case Y => yEntries := after;
        case Z => zEntries := after;
      }
      limits := Union(after);
      if |before| > 0 {
        UnionAppend(before, e);
      } else {
        assert after == [e];
      }
    }

    /**
     * Plot a map with world bounds `full` (and, if it is masked, bounds
     * `mask` of its unmasked part) whose cut position falls at voxel `voxel`.
     * Each view gets one new entry, the projection of the content bounds,
     * appended after its earlier ones (so, by `UnionAppend`, its union widens
     * by exactly that entry); each view is drawn with its slice, its extent
     * and, as limits, its new union box.
     */
    method PlotMap(full: Bounds6, mask: Option<Bounds6>, voxel: VoxelIndex) returns (drawn: PerView<Image>)
      modifies this
      ensures forall v: View :: Entries(v) == old(Entries(v)) + [Project(ContentBounds(full, mask), v)]
      ensures forall v: View :: drawn.At(v) == Image(CutAxis(v), Index(voxel, CutAxis(v)), Project(full, v), ObjectBounds(v))
    {
      var content := ContentBounds(full, mask);

      var limitsX := Register(X, Project(content, X));
      var ix := Image(CutAxis(X), SliceIndex(voxel, X), Project(full, X), limitsX);

      var limitsY := Register(Y, Project(content, Y));
      var iy := Image(CutAxis(Y), SliceIndex(voxel, Y), Project(full, Y), limitsY);

      var limitsZ := Register(Z, Project(content, Z));
      var iz := Image(CutAxis(Z), SliceIndex(voxel, Z), Project(full, Z), limitsZ);

      drawn := PerView(ix, iy, iz);
    }

    /**
     * The locator: the box view `v` is placed in. It needs content on every
     * view and a non-zero total content width, and it changes nothing.
     */
    method Locate(v: View) returns (r: Rect)
      requires AllRegistered()
      requires TotalWidth(Unions()) != 0.0
      ensures r == Locator(rect, Unions(), v)
    {
      var u := Unions();
      r := Place(rect, u, v);
    }

    /**
     * The crosshair lines of every view, at `cut` when given, else at the
     * stored cut position. The source computes view y's union box on the
     * way (and discards it), so view y must have content.
     */
    method DrawCross(cut: Option<Coords>) returns (lines: PerView<Cross>)
      requires |yEntries| > 0
      ensures forall v: View :: lines.At(v) == CrossAt(if cut.Some? then cut.value else cutCoords, v)
    {
      var c := if cut.None? then cutCoords else cut.value;
      lines := PerView(CrossAt(c, X), CrossAt(c, Y), CrossAt(c, Z));
      var yBounds := ObjectBounds(Y);
    }
  }
}
