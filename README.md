# Zephyr layout

A Dafny model of the coordinate placer and layout builder for Zephyr lattice
graphs in `dwave_networkx/drawing/zephyr_layout.py`.

- `zephyr_node_placer_2d` reads the graph's `rows` (m) and `tile` (t). It
  divides the requested scale by m·t. It then validates `dim` and `center`,
  and returns a closure. The closure maps a Zephyr index (u, w, k, j, z) to a
  point with `dim` coordinates:
  - W = 2tw + 2k + 0.625j + 0.125 and Z = (2z + j + 1)·2t − 0.5;
  - the planar point is (W, −Z) when u is truthy and (Z, −W) when u is 0;
  - that point is scaled, padded with `dim − 2` zeros and translated by
    `center`.
- `zephyr_layout` rejects graphs whose `family` is not `"zephyr"`. It builds
  the placer, then maps every node to a point. It finds each node's index in
  priority order:
  - the node itself, when `labels` is `"coordinate"`;
  - else the node's `zephyr_index` attribute, when the graph's `data` flag is
    set;
  - else the generator's linear-to-Zephyr conversion.

Module `ZephyrLayout` (`zephyr_layout.dfy`) holds the model:
- the graph record (`Graph`: family, rows, tile, labels, data, nodes with
  their attributes);
- `NodePlacer`, which returns the closure's captured state as a `Placer`
  value;
- `Place`, the closure itself;
- `Layout`, the builder.

Module `ZephyrLayoutLemmas` (`zephyr_layout_lemmas.dfy`) proves the geometric
laws and the resolution priority.

Arithmetic is exact: points are `seq<real>`. The constants 0.625, 0.125 and
0.5 are dyadic, so `real` matches the formula without rounding. On the
modelled inputs (integer `rows` and `tile`, nodes that are 5-tuples or
integers), every exception the source raises becomes an `Err` value of
`LayoutError`, one constructor per cause. The checks run in the source's
order:
1. the family check (line 70);
2. the division by m·t (line 120), which raises `ZeroDivisionError` when m·t
   is 0;
3. the dimension check (line 129), which therefore wins over the center check
   when both fail;
4. the center-length check (line 132);
5. the per-node index resolution. Unpacking an integer node under coordinate
   labels fails, so does a missing `zephyr_index` attribute, and so does
   converting a tuple node under linear labels.

The division by m·t is the error result `ZeroDivision`, because the source
does not check m·t and Python raises there. The sign lemma assumes m ≥ 1 and
t ≥ 1.

For index (1, 0, 0, 0, 0), W = 1/8 and Z = 2t − 1/2, so at scale 1 the point
is (1/(8mt), −(2t − 1/2)/(mt)); `CornerNodeExample` proves (1/64, −15/16) for
m = 2, t = 4.

## Model

| member | source | states |
|---|---|---|
| ZephyrLayout.NodePlacer | dwave_networkx/drawing/zephyr_layout.py:116-132 | Fails with ZeroDivision exactly when rows·tile = 0. Otherwise fails with TooFewDimensions exactly when dim < 2, whatever the center. Otherwise fails with CenterDimensionMismatch exactly when a supplied center's length differs from dim. On success the placer has dim coordinates of center and the graph's tile width. Its scale times rows·tile equals the requested scale. Its center is the supplied one, or all zeros when omitted. |
| ZephyrLayout.Perpendicular | dwave_networkx/drawing/zephyr_layout.py:136 | Computes W = 2tw + 2k + 5j/8 + 1/8, the coordinate across the qubit's orientation. For t ≥ 1 and nonnegative w, k, j it is at least 1/8. |
| ZephyrLayout.Parallel | dwave_networkx/drawing/zephyr_layout.py:137 | Computes Z = 2t(2z + j + 1) − 1/2, the coordinate along the qubit's orientation. For t ≥ 1 and nonnegative j, z it is at least 2t − 1/2. |
| ZephyrLayout.BaseXY | dwave_networkx/drawing/zephyr_layout.py:139-142 | The unscaled planar point has two coordinates. It is (W, −Z) when u is nonzero (truthy) and (Z, −W) when u is 0. |
| ZephyrLayout.Place | dwave_networkx/drawing/zephyr_layout.py:134-144 | Every point has exactly as many coordinates as the center (dim). Every coordinate at position 2 or later equals the matching center component (zero padding before translation). |
| ZephyrLayout.Mode | dwave_networkx/drawing/zephyr_layout.py:74-78 | The labelling in priority order: coordinate labels exactly when `labels` is "coordinate"; otherwise the `zephyr_index` attribute exactly when the `data` flag is set; otherwise linear labels. |
| ZephyrLayout.ResolveIndex | dwave_networkx/drawing/zephyr_layout.py:74-82 | Under coordinate labels a node resolves exactly when it is a 5-tuple, to itself. Under the attribute mode it resolves to its `zephyr_index` attribute, and fails exactly when that is missing. Under linear labels it resolves exactly when it is an integer, to linear_to_zephyr(rows, tile, node). |
| ZephyrLayout.Layout | dwave_networkx/drawing/zephyr_layout.py:69-84 | Fails with NotAZephyrGraph exactly when the family tag is not "zephyr". Otherwise a placer error propagates unchanged. A success implies a valid placer. The result's keys are exactly the graph's nodes. Every point has dim coordinates, and coordinates 2 and later equal the center's. |
| ZephyrLayoutLemmas.PlaceDisplacement | dwave_networkx/drawing/zephyr_layout.py:136-144 | Each of the first two coordinates minus the center equals the normalised scale times the base point (W, −Z) or (Z, −W). Every later coordinate minus the center is 0. |
| ZephyrLayoutLemmas.PlaceTranslation | dwave_networkx/drawing/zephyr_layout.py:122-144 | The point placed with center C equals the point placed with the zero center plus C, coordinate-wise. |
| ZephyrLayoutLemmas.LayoutTranslation | dwave_networkx/drawing/zephyr_layout.py:72-84 | Take an explicit center C of length dim. The layout with C succeeds exactly when the layout with the default center does. Failures are identical. On success every node's point is its default-center point plus C. |
| ZephyrLayoutLemmas.NodePlacerScale | dwave_networkx/drawing/zephyr_layout.py:120 | Multiplying the requested scale by c multiplies the normalised scale by c. It leaves the placer's other fields and its success unchanged. |
| ZephyrLayoutLemmas.PlaceScaleLinearity | dwave_networkx/drawing/zephyr_layout.py:136-144 | Multiplying the placer's scale by c multiplies the point's displacement from the center by c. |
| ZephyrLayoutLemmas.LayoutAt | dwave_networkx/drawing/zephyr_layout.py:74-82 | In a successful layout every node's index resolves. The node's point is the placer applied to that index. |
| ZephyrLayoutLemmas.NodeScaleLinearity | dwave_networkx/drawing/zephyr_layout.py:120-144 | For one node of two successful layouts whose scales differ by a factor c, the displacements from the center differ by c. |
| ZephyrLayoutLemmas.LayoutScaleLinearity | dwave_networkx/drawing/zephyr_layout.py:72-84 | If the layout succeeds at scale s, it succeeds at scale c·s. Every node's displacement from the center is then c times the one at s. |
| ZephyrLayoutLemmas.OrientationSwap | dwave_networkx/drawing/zephyr_layout.py:136-142 | With w, k, j, z fixed, a nonzero u gives displacement (sW, −sZ). Setting u to 0 gives (sZ, −sW). So setting u to 0 maps (x, y) to (−y, −x). |
| ZephyrLayoutLemmas.PlaceSign | dwave_networkx/drawing/zephyr_layout.py:136-144 | Take a placer with tile width ≥ 1, a positive scale and nonnegative offsets. The first coordinate is then greater than the center's, and the second is smaller. |
| ZephyrLayoutLemmas.PlacementSign | dwave_networkx/drawing/zephyr_layout.py:136-144 | Take rows, tile ≥ 1, a positive scale and nonnegative offsets. The first coordinate is then greater than the center's, and the second is smaller. With the default center this is x > 0 and y < 0, the documented placement. |
| ZephyrLayoutLemmas.CoordinateLabelsPlaceNodeItself | dwave_networkx/drawing/zephyr_layout.py:74-75 | Take coordinate labels and a valid placer. The layout succeeds exactly when every node is a 5-tuple, and otherwise fails with NodeNotAnIndex. On success each node is placed at itself. |
| ZephyrLayoutLemmas.DataGraphUsesIndexAttribute | dwave_networkx/drawing/zephyr_layout.py:76-77 | Take labels that are not "coordinate" and the data flag set. The layout succeeds exactly when every node has a zephyr_index attribute, and otherwise fails with MissingZephyrIndex. On success each node is placed at that attribute. |
| ZephyrLayoutLemmas.LinearLabelsAreConverted | dwave_networkx/drawing/zephyr_layout.py:78-82 | Take labels that are not "coordinate" and the data flag unset. The layout succeeds exactly when every node is an integer, and otherwise fails with NodeNotLinear. On success each node is placed at linear_to_zephyr(rows, tile, node). |
| ZephyrLayoutLemmas.CornerNodeExample | dwave_networkx/drawing/zephyr_layout.py:116-144 | The layout of a rows-2, tile-4 graph with coordinate labels and node (1, 0, 0, 0, 0), at scale 1, is exactly {node: (1/64, −15/16)}. |

## Left out

- `draw_zephyr`, `draw_zephyr_embedding` and `draw_zephyr_yield` (lines 149–284) are left out. They only pass the layout to the generic drawers in `qubit_layout` and to matplotlib, which is rendering and I/O. `qubit_layout` is not part of this model.
- `zephyr_graph` and `zephyr_coordinates.linear_to_zephyr` are not part of this model. The conversion is the function parameter `linearToZephyr`, applied to (rows, tile, node). Tuple nodes under linear labels are modelled as an error, since the conversion does integer arithmetic on the label.
- NumPy array mechanics and IEEE floating-point rounding are left out. Points are exact `seq<real>`, and integer arithmetic on the index is unbounded, as in Python.
- `rows` and `tile` are integers; a graph missing either (lines 116-117 give None, line 120 raises TypeError) is not modelled.
- A negative `dim` is left out: `dim` is a `nat`. With the default center, `np.zeros(dim)` would raise before the dimension check.
- The docstring's claim that scale 1 fits every position within [0, 1] × [−1, 0] (lines 45–46) is not proved. The formula alone does not bound W and Z by rows·tile. Only the sign half of that claim is proved (`PlacementSign`).
- The `isinstance(G, nx.Graph)` test on line 69 is left out. Only the family tag is checked. Node labels are only Zephyr 5-tuples or integers, the two labellings Zephyr graphs use.
- Errors from node resolution do not name the node. Which node Python reports first depends on the graph's iteration order. Under each labelling every resolution failure has the same kind.
- Determinism is not stated as a lemma. Every member is a Dafny function, so equal inputs give equal points by construction.
