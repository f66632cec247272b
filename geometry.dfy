/**
 * The value types shared by the ortho slicer model: the three views, the
 * three world axes, cut coordinates, six-value volume bounds, the 2-D boxes
 * each view registers, frame rectangles, and the fixed tables that say
 * which world axes a view shows and which voxel index it slices at.
 *
 * All coordinates are world-space floating point numbers in the source;
 * here they are exact `real`s.
 */
module Geometry {

  datatype Option<T> = None | Some(value: T)

  /** The three sub-views of the slicer, keyed 'x', 'y' and 'z' in the source. */
  datatype View = X | Y | Z

  /** The three world (and voxel) axes. */
  datatype Axis = XAxis | YAxis | ZAxis

  /** A cut position in world space. */
  datatype Coords = Coords(x: real, y: real, z: real)

  /** Voxel indices (the rounded, inverse-affine image of a cut position). */
  datatype VoxelIndex = VoxelIndex(i: int, j: int, k: int)

  /** World-space bounds of a volume: (xmin, xmax, ymin, ymax, zmin, zmax). */
  datatype Bounds6 = Bounds6(xmin: real, xmax: real, ymin: real, ymax: real, zmin: real, zmax: real)

  /** A 2-D box (xmin, xmax, ymin, ymax) in a view's own data coordinates. */
  datatype Box = Box(xmin: real, xmax: real, ymin: real, ymax: real)

  /** A rectangle given by two corners (x0, y0) and (x1, y1). */
  datatype Rect = Rect(x0: real, y0: real, x1: real, y1: real)

  /** One value per view. */
  datatype PerView<T> = PerView(x: T, y: T, z: T)
  {
    function At(v: View): T
    {
      match v
      case X => x
      case Y => y
      case Z => z
    }
  }

  /** A vertical line at data abscissa `at`, spanning the axes fractions [from, to]. */
  datatype VLine = VLine(at: real, from: real, to: real)

  /** A horizontal line at data ordinate `at`, spanning the axes fractions [from, to]. */
  datatype HLine = HLine(at: real, from: real, to: real)

  /** The two lines of the crosshair drawn on one view. */
  datatype Cross = Cross(vertical: VLine, horizontal: HLine)

  // ---------------------------------------------------------------------
  // Anatomical convention: which world axis each view shows horizontally
  // and vertically, and which one it cuts across.
  // ---------------------------------------------------------------------

  function HorizontalAxis(v: View): Axis
  {
    match v
    case X => XAxis
    case Y => YAxis
    case Z => XAxis
  }

  function VerticalAxis(v: View): Axis
  {
    match v
    case X => ZAxis
    case Y => ZAxis
    case Z => YAxis
  }

  /** The axis left out of a view's picture: the one its slice is taken across. */
  function CutAxis(v: View): Axis
  {
    match v
    case X => YAxis
    case Y => XAxis
    case Z => ZAxis
  }

  function Coordinate(c: Coords, a: Axis): real
  {
    match a
    case XAxis => c.x
    case YAxis => c.y
    case ZAxis => c.z
  }

  function Lower(b: Bounds6, a: Axis): real
  {
    match a
    case XAxis => b.xmin
    case YAxis => b.ymin
    case ZAxis => b.zmin
  }

  function Upper(b: Bounds6, a: Axis): real
  {
    match a
    case XAxis => b.xmax
    case YAxis => b.ymax
    case ZAxis => b.zmax
  }

  function Index(p: VoxelIndex, a: Axis): int
  {
    match a
    case XAxis => p.i
    case YAxis => p.j
    case ZAxis => p.k
  }

  /** Every view shows two different axes and cuts across the third. */
  lemma ViewAxesArePermutation(v: View)
    ensures HorizontalAxis(v) != VerticalAxis(v)
    ensures CutAxis(v) != HorizontalAxis(v) && CutAxis(v) != VerticalAxis(v)
  {
  }

  // ---------------------------------------------------------------------
  // The three projection tables of the slicer.
  // ---------------------------------------------------------------------

  /**
   * The 2-D box a view records for a volume with bounds `b`: view x keeps
   * (x, z), view y keeps (y, z), view z keeps (x, y).
   */
  function Project(b: Bounds6, v: View): (r: Box)
    ensures r.xmin == Lower(b, HorizontalAxis(v)) && r.xmax == Upper(b, HorizontalAxis(v))
    ensures r.ymin == Lower(b, VerticalAxis(v)) && r.ymax == Upper(b, VerticalAxis(v))
  {
    match v
    case X => Box(b.xmin, b.xmax, b.zmin, b.zmax)
    case Y => Box(b.ymin, b.ymax, b.zmin, b.zmax)
    case Z => Box(b.xmin, b.xmax, b.ymin, b.ymax)
  }

  /**
   * The crosshair of view `v` for cut position `c`. The vertical line sits at
   * the coordinate of the view's horizontal axis and the horizontal line at
   * that of its vertical axis; vertical lines are inset to 5%..95% of the
   * view's height, and view y's horizontal line stops at 95% of its width.
   */
  function CrossAt(c: Coords, v: View): (r: Cross)
    ensures r.vertical.at == Coordinate(c, HorizontalAxis(v))
    ensures r.horizontal.at == Coordinate(c, VerticalAxis(v))
    ensures 0.0 < r.vertical.from < r.vertical.to < 1.0
    ensures 0.0 == r.horizontal.from < r.horizontal.to <= 1.0
    ensures r.horizontal.to < 1.0 <==> v == Y
  {
    match v
    case X => Cross(VLine(c.x, 0.05, 0.95), HLine(c.z, 0.0, 1.0))
    case Y => Cross(VLine(c.y, 0.05, 0.95), HLine(c.z, 0.0, 0.95))
    case Z => Cross(VLine(c.x, 0.05, 0.95), HLine(c.y, 0.0, 1.0))
  }

  /**
   * The voxel index a view's slice is fixed at: view x fixes the second
   * index, view y the first and view z the third, i.e. always the index of
   * the axis the view does not show.
   */
  function SliceIndex(p: VoxelIndex, v: View): (r: int)
    ensures r == Index(p, CutAxis(v))
  {
    match v
    case X => p.j
    case Y => p.i
    case Z => p.k
  }

  predicate Inside(c: Coords, b: Bounds6)
  {
    b.xmin <= c.x <= b.xmax && b.ymin <= c.y <= b.ymax && b.zmin <= c.z <= b.zmax
  }

  /**
   * The crosshair and the recorded box use the same projection: a cut
   * position inside a volume's bounds draws its cross inside the box that
   * volume registers on every view.
   */
  lemma CrossInsideProjection(c: Coords, b: Bounds6, v: View)
    requires Inside(c, b)
    ensures Project(b, v).xmin <= CrossAt(c, v).vertical.at <= Project(b, v).xmax
    ensures Project(b, v).ymin <= CrossAt(c, v).horizontal.at <= Project(b, v).ymax
  {
  }
}
