/**
 * Geometric laws of the Zephyr placer (displacement, translation, scale
 * linearity, orientation swap, sign) and the label-resolution priority of
 * the layout builder.
 */
module ZephyrLayoutLemmas {
  import opened ZephyrLayout

  /** The displacement of a placed point from the center is the scaled base point, padded with zeros. */
  lemma PlaceDisplacement(p: Placer, q: ZephyrIndex)
    requires p.Valid()
    ensures forall i :: 0 <= i < 2 ==> Place(p, q)[i] - p.center[i] == p.scale * BaseXY(p.tileWidth, q)[i]
    ensures forall i :: 2 <= i < |p.center| ==> Place(p, q)[i] - p.center[i] == 0.0
  {
    var xy := Scaled(BaseXY(p.tileWidth, q), p.scale) + Zeros(p.padDims);
    forall i | 0 <= i < 2
      ensures Place(p, q)[i] - p.center[i] == p.scale * BaseXY(p.tileWidth, q)[i]
    {
      assert xy[i] == BaseXY(p.tileWidth, q)[i] * p.scale;
    }
  }

  /** Translation: placing with center C is placing with the zero center, then adding C. */
  lemma PlaceTranslation(p: Placer, q: ZephyrIndex)
    requires p.Valid()
    ensures Place(p, q) == Add(Place(p.(center := Zeros(|p.center|)), q), p.center)
  {
    var p0 := p.(center := Zeros(|p.center|));
    var a := Place(p, q);
    var b := Add(Place(p0, q), p.center);
    PlaceDisplacement(p, q);
    PlaceDisplacement(p0, q);
    assert |a| == |b|;
    forall i | 0 <= i < |a|
      ensures a[i] == b[i]
    {
      assert p0.center[i] == 0.0;
    }
  }

  /** Translation for the whole layout: an explicit center of the right length shifts every point by it. */
  lemma LayoutTranslation(g: Graph, scale: real, c: Point, dim: nat,
                          linearToZephyr: (int, int, int) -> ZephyrIndex)
    requires |c| == dim
    ensures Layout(g, scale, Some(c), dim, linearToZephyr).Ok? <==> Layout(g, scale, None, dim, linearToZephyr).Ok?
    ensures Layout(g, scale, Some(c), dim, linearToZephyr).Err? ==>
      Layout(g, scale, Some(c), dim, linearToZephyr) == Layout(g, scale, None, dim, linearToZephyr)
    ensures Layout(g, scale, Some(c), dim, linearToZephyr).Ok? ==>
      var shifted := Layout(g, scale, Some(c), dim, linearToZephyr).value;
      var origin := Layout(g, scale, None, dim, linearToZephyr).value;
      forall v :: v in g.nodes ==> v in shifted && v in origin && shifted[v] == Add(origin[v], c)
  {
    var rc := NodePlacer(g, scale, Some(c), dim);
    var r0 := NodePlacer(g, scale, None, dim);
    if g.family == Some("zephyr") && rc.Ok? {
      var pc, p0 := rc.value, r0.value;
      assert pc == p0.(center := c);
      assert p0.center == Zeros(dim);
      var shifted := Layout(g, scale, Some(c), dim, linearToZephyr);
      var origin := Layout(g, scale, None, dim, linearToZephyr);
      if shifted.Ok? {
        forall v | v in g.nodes
          ensures shifted.value[v] == Add(origin.value[v], c)
        {
          PlaceTranslation(pc, ResolveIndex(g, v, linearToZephyr).value);
        }
      }
    }
  }

  /** Scaling the requested scale by c scales the normalised scale by c, and changes nothing else. */
  lemma NodePlacerScale(g: Graph, scale: real, c: real, center: Option<Point>, dim: nat)
    requires NodePlacer(g, scale, center, dim).Ok?
    ensures NodePlacer(g, c * scale, center, dim).Ok?
    ensures var p := NodePlacer(g, scale, center, dim).value;
      NodePlacer(g, c * scale, center, dim).value == p.(scale := c * p.scale)
  {
    var mt := (g.rows * g.tile) as real;
    assert c * scale / mt == c * (scale / mt);
  }

  /** Scale linearity of one placement: multiplying the scale by c multiplies the displacement by c. */
  lemma PlaceScaleLinearity(p: Placer, c: real, q: ZephyrIndex)
    requires p.Valid()
    ensures Sub(Place(p.(scale := c * p.scale), q), p.center) == Scaled(Sub(Place(p, q), p.center), c)
  {
    var pc := p.(scale := c * p.scale);
    var d, dc := Sub(Place(p, q), p.center), Sub(Place(pc, q), p.center);
    PlaceDisplacement(p, q);
    PlaceDisplacement(pc, q);
    forall i | 0 <= i < |p.center|
      ensures dc[i] == Scaled(d, c)[i]
    {
      if i < 2 {
        assert c * p.scale * BaseXY(p.tileWidth, q)[i] == (p.scale * BaseXY(p.tileWidth, q)[i]) * c;
      }
    }
  }

  /** Each node's point in a successful layout is the placer applied to the node's resolved index. */
  lemma LayoutAt(g: Graph, scale: real, center: Option<Point>, dim: nat,
                 linearToZephyr: (int, int, int) -> ZephyrIndex, v: Node)
    requires Layout(g, scale, center, dim, linearToZephyr).Ok? && v in g.nodes
    ensures NodePlacer(g, scale, center, dim).Ok? && ResolveIndex(g, v, linearToZephyr).Some?
    ensures Layout(g, scale, center, dim, linearToZephyr).value[v]
      == Place(NodePlacer(g, scale, center, dim).value, ResolveIndex(g, v, linearToZephyr).value)
  {
  }

  /** Scale linearity at one node of the layout. */
  lemma NodeScaleLinearity(g: Graph, scale: real, c: real, center: Option<Point>, dim: nat,
                           linearToZephyr: (int, int, int) -> ZephyrIndex, v: Node)
    requires Layout(g, scale, center, dim, linearToZephyr).Ok?
    requires Layout(g, c * scale, center, dim, linearToZephyr).Ok?
    requires v in g.nodes
    ensures var o := NodePlacer(g, scale, center, dim).value.center;
      Sub(Layout(g, c * scale, center, dim, linearToZephyr).value[v], o)
      == Scaled(Sub(Layout(g, scale, center, dim, linearToZephyr).value[v], o), c)
  {
    NodePlacerScale(g, scale, c, center, dim);
    var p := NodePlacer(g, scale, center, dim).value;
    LayoutAt(g, scale, center, dim, linearToZephyr, v);
    LayoutAt(g, c * scale, center, dim, linearToZephyr, v);
    var q := ResolveIndex(g, v, linearToZephyr).value;
    var a := Layout(g, scale, center, dim, linearToZephyr).value[v];
    var b := Layout(g, c * scale, center, dim, linearToZephyr).value[v];
    var pc := NodePlacer(g, c * scale, center, dim).value;
    assert pc == p.(scale := c * p.scale);
    assert a == Place(p, q);
    assert b == Place(pc, q);
    PlaceScaleLinearity(p, c, q);
  }

  /** Scale linearity of the layout: every node's displacement from the center is multiplied by c. */
  lemma LayoutScaleLinearity(g: Graph, scale: real, c: real, center: Option<Point>, dim: nat,
                             linearToZephyr: (int, int, int) -> ZephyrIndex)
    requires Layout(g, scale, center, dim, linearToZephyr).Ok?
    ensures Layout(g, c * scale, center, dim, linearToZephyr).Ok?
    ensures var base := Layout(g, scale, center, dim, linearToZephyr).value;
      var scaled := Layout(g, c * scale, center, dim, linearToZephyr).value;
      var o := NodePlacer(g, scale, center, dim).value.center;
      forall v :: v in g.nodes ==>
        v in base && v in scaled && Sub(scaled[v], o) == Scaled(Sub(base[v], o), c)
  {
    NodePlacerScale(g, scale, c, center, dim);
    var lin := linearToZephyr;
    assert Layout(g, c * scale, center, dim, lin).Ok? by {
      forall v | v in g.nodes ensures ResolveIndex(g, v, lin).Some? {
        LayoutAt(g, scale, center, dim, lin, v);
      }
    }
    forall v | v in g.nodes {
      NodeScaleLinearity(g, scale, c, center, dim, lin, v);
    }
  }

  /**
   * Orientation swap: with the other offsets fixed, a truthy u gives the
   * displacement (sW, -sZ) and u = 0 gives (sZ, -sW), so the second is the
   * first reflected across the line y = -x.
   */
  lemma OrientationSwap(p: Placer, q: ZephyrIndex)
    requires p.Valid() && q.u != 0
    ensures var a := Place(p, q);
      a[0] - p.center[0] == p.scale * Perpendicular(p.tileWidth, q)
      && a[1] - p.center[1] == -(p.scale * Parallel(p.tileWidth, q))
    ensures var b := Place(p, q.(u := 0));
      b[0] - p.center[0] == p.scale * Parallel(p.tileWidth, q)
      && b[1] - p.center[1] == -(p.scale * Perpendicular(p.tileWidth, q))
    ensures var a, b := Place(p, q), Place(p, q.(u := 0));
      b[0] - p.center[0] == -(a[1] - p.center[1]) && b[1] - p.center[1] == -(a[0] - p.center[0])
  {
    var q0 := q.(u := 0);
    var w, z := Perpendicular(p.tileWidth, q), Parallel(p.tileWidth, q);
    assert BaseXY(p.tileWidth, q) == [w, -z];
    assert BaseXY(p.tileWidth, q0) == [z, -w];
    PlaceDisplacement(p, q);
    PlaceDisplacement(p, q0);
    assert Place(p, q)[1] - p.center[1] == p.scale * -z;
    assert Place(p, q0)[1] - p.center[1] == p.scale * -w;
  }

  /** Sign for one placer: with a positive scale, the point lies right of and below the center. */
  lemma PlaceSign(p: Placer, q: ZephyrIndex)
    requires p.Valid() && 1 <= p.tileWidth && 0.0 < p.scale
    requires 0 <= q.w && 0 <= q.k && 0 <= q.j && 0 <= q.z
    ensures Place(p, q)[0] > p.center[0] && Place(p, q)[1] < p.center[1]
  {
    var w, z := Perpendicular(p.tileWidth, q), Parallel(p.tileWidth, q);
    assert 0.0 < w * p.scale && 0.0 < z * p.scale;
    PlaceDisplacement(p, q);
    if q.u != 0 {
      assert BaseXY(p.tileWidth, q) == [w, -z];
    } else {
      assert BaseXY(p.tileWidth, q) == [z, -w];
    }
  }

  /**
   * Sign: with nonnegative offsets, rows and tile at least 1 and a positive
   * scale, every point lies right of and below the center; with the default
   * center, x > 0 and y < 0.
   */
  lemma PlacementSign(g: Graph, scale: real, center: Option<Point>, dim: nat, q: ZephyrIndex)
    requires 1 <= g.rows && 1 <= g.tile && 0.0 < scale
    requires NodePlacer(g, scale, center, dim).Ok?
    requires 0 <= q.w && 0 <= q.k && 0 <= q.j && 0 <= q.z
    ensures var p := NodePlacer(g, scale, center, dim).value;
      Place(p, q)[0] > p.center[0] && Place(p, q)[1] < p.center[1]
    ensures center.None? ==>
      var p := NodePlacer(g, scale, center, dim).value;
      Place(p, q)[0] > 0.0 && Place(p, q)[1] < 0.0
  {
    var p := NodePlacer(g, scale, center, dim).value;
    var mt := (g.rows * g.tile) as real;
    assert 1.0 <= mt by { assert 1 <= g.rows * g.tile; }
    assert p.scale * mt == scale;
    assert p.scale <= 0.0 ==> p.scale * mt <= 0.0;
    PlaceSign(p, q);
  }

  /** Coordinate labels take priority: each node is its own index, and a non-tuple node is an error. */
  lemma CoordinateLabelsPlaceNodeItself(g: Graph, scale: real, center: Option<Point>, dim: nat,
                                        linearToZephyr: (int, int, int) -> ZephyrIndex)
    requires g.family == Some("zephyr") && g.labels == Some("coordinate")
    requires NodePlacer(g, scale, center, dim).Ok?
    ensures var r := Layout(g, scale, center, dim, linearToZephyr);
      (r.Ok? <==> forall v :: v in g.nodes ==> v.Tuple?)
      && (r.Err? ==> r.error == NodeNotAnIndex)
      && (r.Ok? ==> forall v :: v in g.nodes ==>
            v.Tuple? && r.value[v] == Place(NodePlacer(g, scale, center, dim).value, v.index))
  {
  }

  /** Without coordinate labels, a graph that carries data reads each node's 'zephyr_index' attribute. */
  lemma DataGraphUsesIndexAttribute(g: Graph, scale: real, center: Option<Point>, dim: nat,
                                    linearToZephyr: (int, int, int) -> ZephyrIndex)
    requires g.family == Some("zephyr") && g.labels != Some("coordinate") && g.data
    requires NodePlacer(g, scale, center, dim).Ok?
    ensures var r := Layout(g, scale, center, dim, linearToZephyr);
      (r.Ok? <==> forall v :: v in g.nodes ==> g.nodes[v].zephyrIndex.Some?)
      && (r.Err? ==> r.error == MissingZephyrIndex)
      && (r.Ok? ==> forall v :: v in g.nodes ==>
            g.nodes[v].zephyrIndex.Some?
            && r.value[v] == Place(NodePlacer(g, scale, center, dim).value, g.nodes[v].zephyrIndex.value))
  {
  }

  /** Otherwise every node is a linear label, converted with the graph's rows and tile. */
  lemma LinearLabelsAreConverted(g: Graph, scale: real, center: Option<Point>, dim: nat,
                                 linearToZephyr: (int, int, int) -> ZephyrIndex)
    requires g.family == Some("zephyr") && g.labels != Some("coordinate") && !g.data
    requires NodePlacer(g, scale, center, dim).Ok?
    ensures var r := Layout(g, scale, center, dim, linearToZephyr);
      (r.Ok? <==> forall v :: v in g.nodes ==> v.Linear?)
      && (r.Err? ==> r.error == NodeNotLinear)
      && (r.Ok? ==> forall v :: v in g.nodes ==>
            v.Linear?
            && r.value[v] == Place(NodePlacer(g, scale, center, dim).value, linearToZephyr(g.rows, g.tile, v.id)))
  {
  }

  /**
   * A worked value: rows 2, tile 4, coordinate labels, scale 1. The node
   * (1, 0, 0, 0, 0) has W = 1/8 and Z = 15/2; the scale is normalised to 1/8,
   * so the point is (1/64, -15/16).
   */
  lemma CornerNodeExample(linearToZephyr: (int, int, int) -> ZephyrIndex)
    ensures var v := Tuple(ZephyrIndex(1, 0, 0, 0, 0));
      var g := Graph(Some("zephyr"), 2, 4, Some("coordinate"), false, map[v := NodeData(None)]);
      Layout(g, 1.0, None, 2, linearToZephyr) == Ok(map[v := [1.0 / 64.0, -15.0 / 16.0]])
  {
    var v := Tuple(ZephyrIndex(1, 0, 0, 0, 0));
    var g := Graph(Some("zephyr"), 2, 4, Some("coordinate"), false, map[v := NodeData(None)]);
    var p := NodePlacer(g, 1.0, None, 2).value;
    assert p.scale == 1.0 / 8.0;
    PlaceDisplacement(p, v.index);
    assert Place(p, v.index) == [1.0 / 64.0, -15.0 / 16.0];
    LayoutAt(g, 1.0, None, 2, linearToZephyr, v);
    assert Layout(g, 1.0, None, 2, linearToZephyr).value == map[v := [1.0 / 64.0, -15.0 / 16.0]];
  }
}
