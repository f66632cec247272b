# OrthoSlicer bookkeeping and layout, modelled in Dafny

The `OrthoSlicer` of `nipy/neurospin/viz/ortho_slicer.py` draws three orthogonal
cuts of a 3-D map side by side: view `x` shows world axes (x, z), view `y`
shows (y, z), and view `z` shows (x, y). Behind the matplotlib calls it keeps a
small amount of logic:

- **A content-bounds registry per view.** Each plotted map appends one 2-D box
  to every view's list. The list is folded into a union box. Per axis, the
  union is the minimum and maximum over both columns of the entries, so it is
  ordered even when an entry is inverted.
- **A proportional layout rule (the axes locator).** The frame's horizontal
  span is shared among the views in proportion to the widths of their union
  boxes. The views are placed left to right in the order x, y, z, and each
  spans the full height 0..1.
- **Fixed projection tables.** These say which world coordinates each view's
  crosshair lines use, which voxel index each view's slice is taken at, and
  which projection of the 6-value bounds each view records.

The model has four modules:

- `Geometry` (`geometry.dfy`): value types and the projection tables.
- `Bounds` (`bounds.dfy`): the union box as an incremental fold. It also has
  the source's per-column formula and a proof that the two agree.
- `Layout` (`layout.dfy`):
  - the locator as a pure function over `real`, with its tiling,
    span-sharing and ordering lemmas;
  - `Place`, the locator's two dictionary-update loops, proved against that
    function.
- `Slicer` (`slicer.dfy`): the class `OrthoSlicer`. Its three `seq<Box>` fields
  replace the dictionary the source keys by axes object. It holds the
  methods for registering, plotting, locating and drawing the cross.

Coordinates are floating point in the source and exact `real`s here. The
drawing calls are not modelled; the methods return the numbers handed to them.

Three details of the code that the model keeps exactly:

- **Slice indices.** View `x` slices `map[:, y_map, :]`, which fixes the
  second voxel index. View `y` slices `map[x_map, :, :]`, which fixes the
  first. View `z` slices `map[:, :, z_map]`, which fixes the third.
- **Crosshair insets.** Only the vertical crosshair lines are inset to 5%..95%
  of the view's height. Of the horizontal lines, only view `y`'s is shortened,
  and only at its right end (to 95%).
- **Vertical extent.** The locator's box spans 0..1 vertically whatever the
  frame's own `y0`/`y1` are.

## Model

| member | source | states |
|---|---|---|
| Geometry.Project | nipy/neurospin/viz/ortho_slicer.py:248 | the box a view records keeps the bounds of the view's horizontal axis as x and of its vertical axis as y: (x, z) for view x, (y, z) for view y, (x, y) for view z (also lines 255, 262) |
| Geometry.CrossAt | nipy/neurospin/viz/ortho_slicer.py:115-128 | the vertical line sits at the coordinate of the view's horizontal axis and the horizontal line at that of its vertical axis; vertical lines span 5%..95%; horizontal lines start at 0 and stop short of 1 exactly on view y |
| Geometry.SliceIndex | nipy/neurospin/viz/ortho_slicer.py:245 | each view's slice fixes the voxel index of the axis the view does not show: second index for view x, first for view y (line 252), third for view z (line 259) |
| Geometry.CrossInsideProjection | nipy/neurospin/viz/ortho_slicer.py:113-128 | a cut position inside a volume's bounds draws its crosshair inside the box that volume registers, on every view |
| Bounds.Normalize | nipy/neurospin/viz/ortho_slicer.py:70-73 | a single entry's union box is ordered, covers the entry, and is covered by every box that covers the entry |
| Bounds.Widen | nipy/neurospin/viz/ortho_slicer.py:70-73 | widening an ordered union by one entry gives an ordered box covering both, and the least such box |
| Bounds.Union | nipy/neurospin/viz/ortho_slicer.py:69-74 | the union box of a non-empty list is ordered (min and max taken over both columns), even with inverted entries |
| Bounds.UnionEnclosesEntries | nipy/neurospin/viz/ortho_slicer.py:69-74 | the union box covers every registered entry, read as unordered x and y pairs |
| Bounds.UnionIsLeast | nipy/neurospin/viz/ortho_slicer.py:69-74 | any box covering every entry covers the union box, so the union is the smallest covering box |
| Bounds.UnionOrderIndependent | nipy/neurospin/viz/ortho_slicer.py:69-74 | two lists with the same entries, in any order and with any repetition, have the same union box |
| Bounds.UnionAppend | nipy/neurospin/viz/ortho_slicer.py:248-249 | appending an entry widens the old union box by exactly that entry |
| Bounds.MinOf | nipy/neurospin/viz/ortho_slicer.py:71 | the column minimum is below every element |
| Bounds.MaxOf | nipy/neurospin/viz/ortho_slicer.py:70 | the column maximum is above every element |
| Bounds.MinOfAttained | nipy/neurospin/viz/ortho_slicer.py:71 | the column minimum is one of the elements |
| Bounds.MaxOfAttained | nipy/neurospin/viz/ortho_slicer.py:70 | the column maximum is one of the elements |
| Bounds.ColumnsWithin | nipy/neurospin/viz/ortho_slicer.py:70-73 | when two columns lie within [lo, hi], so do their joint minimum and maximum |
| Bounds.ColumnBoundsEnclosesEntries | nipy/neurospin/viz/ortho_slicer.py:69-74 | the per-column box of the source covers every entry |
| Bounds.ColumnBoundsWithinUnion | nipy/neurospin/viz/ortho_slicer.py:69-74 | the per-column box lies within the folded union box |
| Bounds.ColumnBounds | nipy/neurospin/viz/ortho_slicer.py:69-74 | the source's per-column min/max formula gives an ordered box; it equals `Union` on every non-empty list (`ColumnBoundsIsUnion`) |
| Bounds.ColumnBoundsIsUnion | nipy/neurospin/viz/ortho_slicer.py:69-74 | the source's per-column formula equals the incremental union box on every non-empty list |
| Layout.Scale | nipy/neurospin/viz/ortho_slicer.py:92 | a rescaled width stands to the span as the width stands to the total |
| Layout.Locator | nipy/neurospin/viz/ortho_slicer.py:77-98 | the locator box spans 0..1 vertically, and its width times the total content width equals the view's content width times the frame span |
| Layout.SharesSumToSpan | nipy/neurospin/viz/ortho_slicer.py:87-92 | the three rescaled widths add up to exactly the frame's span |
| Layout.ScalesSum | nipy/neurospin/viz/ortho_slicer.py:90-92 | three widths rescaled by their own sum add up to the span |
| Layout.LocatorTilesFrame | nipy/neurospin/viz/ortho_slicer.py:93-98 | view x starts at the frame's left edge, each view ends where the next begins, and view z ends at the frame's right edge |
| Layout.LocatorWidthsSumToSpan | nipy/neurospin/viz/ortho_slicer.py:87-98 | the laid-out widths of the three views sum to the frame's span |
| Layout.TotalWidthOfOrdered | nipy/neurospin/viz/ortho_slicer.py:87-90 | with ordered union boxes the total width is non-negative, and non-zero exactly when some view has positive width |
| Layout.LocatorWithinFrame | nipy/neurospin/viz/ortho_slicer.py:93-98 | with ordered union boxes and a left-to-right frame, the three views lie inside the frame in the order x, y, z without overlapping |
| Layout.Place | nipy/neurospin/viz/ortho_slicer.py:81-98 | the locator's width loop and rescaling loop, in any visiting order, return exactly the `Locator` box |
| Slicer.OrthoSlicer.ObjectBounds | nipy/neurospin/viz/ortho_slicer.py:66-74 | a view's union box, defined only when the view has entries, is ordered |
| Slicer.OrthoSlicer.Unions | nipy/neurospin/viz/ortho_slicer.py:87-89 | the three views' union boxes, all ordered |
| Slicer.OrthoSlicer.constructor | nipy/neurospin/viz/ortho_slicer.py:46-63 | the cut position and frame are stored, and every view's entry list starts empty |
| Slicer.OrthoSlicer.Register | nipy/neurospin/viz/ortho_slicer.py:248-249 | the entry is appended to the end of one view's list, the other views are untouched, and the returned limits are the new union box: the old union widened by the entry, or the entry's own box for a first entry |
| Slicer.OrthoSlicer.PlotMap | nipy/neurospin/viz/ortho_slicer.py:215-263 | every view gets exactly one new entry at the end, the projection of the content bounds; each view's image uses its cut axis, the voxel index on that axis, the projection of the full bounds as extent, and the view's new union box as limits |
| Slicer.OrthoSlicer.Locate | nipy/neurospin/viz/ortho_slicer.py:77-98 | with entries on every view and a non-zero total width, the locator returns the `Locator` box for the current union boxes and changes nothing |
| Slicer.OrthoSlicer.DrawCross | nipy/neurospin/viz/ortho_slicer.py:101-128 | every view's crosshair is `CrossAt` the given position, or at the stored cut position when none is given; view y must have entries |

## Left out

- The matplotlib calls are not modelled: creating axes, `axis('off')`, `set_axes_locator`, `imshow`, `axvline`/`axhline`, `text`, building the `Bbox`, and `ax.axis(...)`. Only the numbers passed to them are modelled.
- The frame axes' own position (`get_position`) is not modelled: `rect` is a constructor input. Neither are the placeholder positions of the three view axes created at line 59 modelled.
- `coord_transform`, `get_bounds`, `get_mask_bounds` and `np.linalg.inv` come from `coord_tools` and numpy, which are not part of this model. The six bounds (full and mask) and the voxel indices are inputs to `PlotMap`.
- `int(round(...))` of the transformed cut position is not modelled: `PlotMap` takes the voxel indices already rounded.
- The `vmin`/`vmax` defaults taken from `map.min()`/`map.max()` are not modelled. They are array numerics passed straight to `imshow`.
- The pixel data of the slices (`np.rot90` of the sliced array) is not modelled: only the fixed index of each view's slice is.
- `annotate` (lines 131-212) is not modelled. It only places text. When `left_right` is false and `positions` is true, it reads `ax_x` and `ax_z` before they are bound, so that combination fails.
- The `__main__` demo is not modelled. It calls the constructor and `plot_map` with the wrong arguments and cannot run.
- The locator's `renderer` argument is not modelled, because the locator never uses it. Neither is the call for an axes that is not one of the three views.
- Floating-point rounding is not modelled. In particular, the three rescaled widths sum to the span exactly here, but the source's float sum may differ in the last bit.
- `Slicer.OrthoSlicer.PlotMap` does not model the map's shape, so it appends one entry to every view for every voxel index. In the source, each view's slice (lines 245, 252, 259) runs before that view's append (lines 248, 255, 262). An index past the end of its axis therefore raises IndexError after the earlier views have already registered their entries, and leaves the three lists with unequal lengths. For example, an out-of-range `x_map` leaves view `x` registered while views `y` and `z` are not. A negative index that is still in range silently selects a slice from the far end of the volume. The model captures neither the partial registration nor the wrap-around.
- `Slicer.OrthoSlicer.ObjectBounds`, `Slicer.OrthoSlicer.Locate` and `Slicer.OrthoSlicer.DrawCross` require view entries to be present. This is where the source raises an exception: unpacking the transposed empty array at line 69 fails. For `DrawCross`, the precondition also hides a partial effect: the source has already drawn view `x`'s two lines (lines 118-119) when the call on view `y` at line 122 raises.
- `Layout.Locator`, `Layout.Place` and `Slicer.OrthoSlicer.Locate` require a non-zero total width. The source does not raise there. The widths are numpy scalars, so with a zero total, line 92 computes 0/0 as NaN with a runtime warning. The locator then returns a box whose right edge is NaN, and whose left edge is NaN too for views `y` and `z`. Reals cannot express this degenerate NaN layout, so the precondition excludes it.
- The keyword arguments forwarded to `imshow`, `axvline` and `axhline` are not modelled.
