/**
 * The Zephyr node placer and layout builder of dwave_networkx's drawing
 * package: a closed-form map from a Zephyr index (u, w, k, j, z) to a point
 * with `dim` real coordinates, and the builder that applies it to every node
 * of a Zephyr graph, resolving each node's index from the graph's labelling.
 *
 * Arithmetic is exact: the constants 0.625, 0.125 and 0.5 are dyadic, and
 * points are sequences of reals.
 */
module ZephyrLayout {

  datatype Option<+T> = None | Some(value: T)

  /** The exceptions the two functions raise on the modelled inputs, one constructor per cause. */
  datatype LayoutError =
    | NotAZephyrGraph          // "G must be generated by dwave_networkx.zephyr_graph"
    | ZeroDivision             // the scale is divided by rows * tile
    | TooFewDimensions         // "layout must have at least two dimensions"
    | CenterDimensionMismatch  // "length of center coordinates must match dimension of layout"
    | NodeNotAnIndex           // coordinate labels, but a node is not a 5-tuple
    | MissingZephyrIndex       // a node has no 'zephyr_index' attribute
    | NodeNotLinear            // linear labels, but a node is not an integer

  datatype Result<+T> = Ok(value: T) | Err(error: LayoutError)

  /** A Zephyr index: orientation, major, secondary and minor perpendicular offsets, parallel offset. */
  datatype ZephyrIndex = ZephyrIndex(u: int, w: int, k: int, j: int, z: int)

  /** A node label: a Zephyr index itself (coordinate labels) or a linear integer label. */
  datatype Node = Tuple(index: ZephyrIndex) | Linear(id: int)

  /** The attributes of a node that the layout reads. */
  datatype NodeData = NodeData(zephyrIndex: Option<ZephyrIndex>)

  /** A graph: the metadata entries the layout reads, and its nodes with their attributes. */
  datatype Graph = Graph(
    family: Option<string>,
    rows: int,
    tile: int,
    labels: Option<string>,
    data: bool,
    nodes: map<Node, NodeData>)

  type Point = seq<real>

  function Zeros(n: nat): Point
  {
    seq(n, _ => 0.0)
  }

  function Scaled(v: Point, s: real): Point
  {
    seq(|v|, i requires 0 <= i < |v| => v[i] * s)
  }

  function Add(a: Point, b: Point): Point
    requires |a| == |b|
  {
    seq(|a|, i requires 0 <= i < |a| => a[i] + b[i])
  }

  function Sub(a: Point, b: Point): Point
    requires |a| == |b|
  {
    seq(|a|, i requires 0 <= i < |a| => a[i] - b[i])
  }

  /** What the closure returned by the placer captures: the tile width, the normalised scale, the padding and the center. */
  datatype Placer = Placer(tileWidth: int, scale: real, padDims: nat, center: Point) {
    predicate Valid()
    {
      |center| == padDims + 2
    }
  }

  /**
   * Validates the configuration and builds the placer. The checks run in the
   * source's order: the division by rows * tile, then the dimension, then the
   * length of the center.
   */
  function NodePlacer(g: Graph, scale: real, center: Option<Point>, dim: nat): (r: Result<Placer>)
    ensures r == Err(ZeroDivision) <==> g.rows * g.tile == 0
    ensures r == Err(TooFewDimensions) <==> g.rows * g.tile != 0 && dim < 2
    ensures r == Err(CenterDimensionMismatch) <==>
      g.rows * g.tile != 0 && 2 <= dim && center.Some? && |center.value| != dim
    ensures r.Ok? <==> g.rows * g.tile != 0 && 2 <= dim && (center.None? || |center.value| == dim)
    ensures r.Ok? ==> r.value.Valid() && |r.value.center| == dim && r.value.tileWidth == g.tile
    ensures r.Ok? ==> r.value.scale * (g.rows * g.tile) as real == scale
    ensures r.Ok? && center.None? ==> forall i :: 0 <= i < dim ==> r.value.center[i] == 0.0
    ensures r.Ok? && center.Some? ==> r.value.center == center.value
  {
    var mt := g.rows * g.tile;
    if mt == 0 then Err(ZeroDivision)
    else
      var s := scale / mt as real;
      var c := if center.None? then Zeros(dim) else center.value;
      if dim < 2 then Err(TooFewDimensions)
      else if |c| != dim then Err(CenterDimensionMismatch)
      else Ok(Placer(g.tile, s, dim - 2, c))
  }

  /** W, the perpendicular coordinate of an index; at least 1/8 for nonnegative offsets. */
  function Perpendicular(t: int, q: ZephyrIndex): (r: real)
    ensures 1 <= t && 0 <= q.w && 0 <= q.k && 0 <= q.j ==> r >= 0.125
  {
    assert 1 <= t && 0 <= q.w ==> 0 <= 2 * t * q.w;
    (2 * t * q.w + 2 * q.k) as real + 0.625 * q.j as real + 0.125
  }

  /** Z, the parallel coordinate of an index; at least 2t - 1/2 for nonnegative offsets. */
  function Parallel(t: int, q: ZephyrIndex): (r: real)
    ensures 1 <= t && 0 <= q.j && 0 <= q.z ==> r >= (2 * t) as real - 0.5
  {
    assert 1 <= t && 0 <= q.j && 0 <= q.z ==> (2 * q.z + q.j + 1) * 2 * t >= 2 * t;
    ((2 * q.z + q.j + 1) * 2 * t) as real - 0.5
  }

  /** The unscaled planar point: (W, -Z) when u is truthy, (Z, -W) when it is 0. */
  function BaseXY(t: int, q: ZephyrIndex): (xy: Point)
    ensures |xy| == 2
    ensures q.u != 0 ==> xy[0] == Perpendicular(t, q) && xy[1] == -Parallel(t, q)
    ensures q.u == 0 ==> xy[0] == Parallel(t, q) && xy[1] == -Perpendicular(t, q)
  {
    if q.u != 0 then [Perpendicular(t, q), -Parallel(t, q)]
    else [Parallel(t, q), -Perpendicular(t, q)]
  }

  /** The placer applied to an index: scale, pad with zeros, translate by the center. */
  function Place(p: Placer, q: ZephyrIndex): (r: Point)
    requires p.Valid()
    ensures |r| == |p.center|
    ensures forall i :: 2 <= i < |r| ==> r[i] == p.center[i]
  {
    Add(Scaled(BaseXY(p.tileWidth, q), p.scale) + Zeros(p.padDims), p.center)
  }

  /** The three ways the builder finds a node's index, in priority order. */
  datatype LabelMode = CoordinateLabels | IndexAttribute | LinearLabels

  function Mode(g: Graph): (m: LabelMode)
    ensures m == CoordinateLabels <==> g.labels == Some("coordinate")
    ensures m == IndexAttribute <==> g.labels != Some("coordinate") && g.data
    ensures m == LinearLabels <==> g.labels != Some("coordinate") && !g.data
  {
    if g.labels == Some("coordinate") then CoordinateLabels
    else if g.data then IndexAttribute
    else LinearLabels
  }

  /** The index of node v under the graph's labelling, or None where the source raises. */
  function ResolveIndex(g: Graph, v: Node, linearToZephyr: (int, int, int) -> ZephyrIndex): (r: Option<ZephyrIndex>)
    requires v in g.nodes
    ensures Mode(g) == CoordinateLabels ==> (r.Some? <==> v.Tuple?) && (r.Some? ==> r.value == v.index)
    ensures Mode(g) == IndexAttribute ==> r == g.nodes[v].zephyrIndex
    ensures Mode(g) == LinearLabels ==>
      (r.Some? <==> v.Linear?) && (r.Some? ==> r.value == linearToZephyr(g.rows, g.tile, v.id))
  {
    match Mode(g)
    case CoordinateLabels => if v.Tuple? then Some(v.index) else None
    case IndexAttribute => g.nodes[v].zephyrIndex
    case LinearLabels => if v.Linear? then Some(linearToZephyr(g.rows, g.tile, v.id)) else None
  }

  /** The error raised when some node's index cannot be resolved. */
  function ResolveFailure(m: LabelMode): LayoutError
  {
    match m
    case CoordinateLabels => NodeNotAnIndex
    case IndexAttribute => MissingZephyrIndex
    case LinearLabels => NodeNotLinear
  }

  /**
   * The layout: a position for every node of the graph. `linearToZephyr`
   * stands for the generator's conversion from (rows, tile, linear label)
   * to a Zephyr index.
   */
  function Layout(g: Graph, scale: real, center: Option<Point>, dim: nat,
                  linearToZephyr: (int, int, int) -> ZephyrIndex): (r: Result<map<Node, Point>>)
    ensures r == Err(NotAZephyrGraph) <==> g.family != Some("zephyr")
    ensures g.family == Some("zephyr") && NodePlacer(g, scale, center, dim).Err? ==>
      r == Err(NodePlacer(g, scale, center, dim).error)
    ensures r.Ok? ==> g.family == Some("zephyr") && NodePlacer(g, scale, center, dim).Ok?
    ensures r.Ok? ==> r.value.Keys == g.nodes.Keys
    ensures r.Ok? ==> forall v :: v in r.value ==> |r.value[v]| == dim
    ensures r.Ok? ==> forall v, i :: v in r.value && 2 <= i < dim ==>
      r.value[v][i] == NodePlacer(g, scale, center, dim).value.center[i]
  {
    if g.family != Some("zephyr") then Err(NotAZephyrGraph)
    else
      match NodePlacer(g, scale, center, dim)
      case Err(e) => Err(e)
      case Ok(p) =>
        if forall v | v in g.nodes :: ResolveIndex(g, v, linearToZephyr).Some? then
          Ok(map v | v in g.nodes :: Place(p, ResolveIndex(g, v, linearToZephyr).value))
        else
          Err(ResolveFailure(Mode(g)))
  }
}
