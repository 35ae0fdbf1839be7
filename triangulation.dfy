/**
 * The Yin-Yang prism mesh built by `_surface_triangulation` in
 * pypStag/stagViewer.py: the yin and yang grids of a spherical shell are
 * re-laid out as depth layers, the surface layer is triangulated by a convex
 * hull, every triangle is extruded downward into 6-vertex prisms, and the
 * coordinates and field values are flattened so that each global point number
 * addresses the matching grid point.
 *
 * Coordinates and field values are of an opaque type T: only their positions
 * matter here. The convex hull is a parameter `hull`.
 */
module Triangulation {
  import opened Numbering
  import opened Outcomes

  /** One quantity sampled on both grids, each array flat with `NxNy*Nz` entries in C order. */
  datatype YinYang<T> = YinYang(yin: seq<T>, yang: seq<T>)

  /** What `_surface_triangulation` reads from a StagData object. */
  datatype YYData<T> = YYData(
    layers: nat,            // len(stagData.slayers)
    fieldNature: string,
    x: YinYang<T>, y: YinYang<T>, z: YinYang<T>,
    v: YinYang<T>,
    vx: YinYang<T>, vy: YinYang<T>, vz: YinYang<T>,
    vr: YinYang<T>, vtheta: YinYang<T>, vphi: YinYang<T>,
    p: YinYang<T>)

  /** `selectedLayer`: the string 'surface' (the default) or a layer index. */
  datatype LayerSelection = Named(name: string) | Index(index: int)

  predicate IsSurface(s: LayerSelection) { s == Named("surface") }

  datatype Point<T> = Point(x: T, y: T, z: T)

  /** A simplex of the surface hull: three positions in the surface point list. */
  datatype Triangle = Triangle(a: nat, b: nat, c: nat)

  /** An element `[u0, u1, u2, l0, l1, l2]`: upper face on layer iz+1, lower face on layer iz. */
  datatype Prism = Prism(u0: nat, u1: nat, u2: nat, l0: nat, l1: nat, l2: nat)

  /** `vstack`: one scalar list, or the seven vectorial lists in the order x, y, z, r, theta, phi, P. */
  datatype VStack<T> =
    | ScalarStack(values: seq<T>)
    | VectorStack(sx: seq<T>, sy: seq<T>, sz: seq<T>, sr: seq<T>, stheta: seq<T>, sphi: seq<T>, sp: seq<T>)

  /** The tuple `(NxNy, Nz, Points, ElementNumbers, vstack)`. */
  datatype Mesh<T> = Mesh(nxny: nat, nz: nat, points: seq<Point<T>>, elements: seq<Prism>, vstack: VStack<T>)

  datatype MeshError =
    | NoLayers                      // len(x1)/Nz with Nz == 0
    | ReshapeMismatch               // an array does not have NxNy*Nz entries
    | StackUnbound(nature: string)  // fieldNature is none of 'Scalar', '', 'Vectorial'

  predicate Shaped<T>(c: YinYang<T>, nxny: nat, nz: nat)
  {
    |c.yin| == nxny * nz && |c.yang| == nxny * nz
  }

  /** Value of quantity c at grid point g: entry `[g.i][g.iz]` of the C-order reshape. */
  function At<T>(c: YinYang<T>, nxny: nat, nz: nat, g: GridPoint): T
    requires Shaped(c, nxny, nz) && InGrid(nxny, nz, g)
  {
    CIndexInRange(nxny, nz, g.i, g.iz);
    (if g.yang then c.yang else c.yin)[CIndex(nz, g.i, g.iz)]
  }

  function PointAt<T>(d: YYData<T>, nxny: nat, nz: nat, g: GridPoint): Point<T>
    requires Shaped(d.x, nxny, nz) && Shaped(d.y, nxny, nz) && Shaped(d.z, nxny, nz)
    requires InGrid(nxny, nz, g)
  {
    Point(At(d.x, nxny, nz, g), At(d.y, nxny, nz, g), At(d.z, nxny, nz, g))
  }

  // ---------------------------------------------------------------------
  // Depth layers and the surface point list
  // ---------------------------------------------------------------------

  /** `[x1[i][j] for i in range(NxNy)]`: column j of the C-order reshape. */
  function Column<T>(flat: seq<T>, nxny: nat, nz: nat, j: nat): (r: seq<T>)
    requires |flat| == nxny * nz && j < nz
    ensures |r| == nxny
  {
    seq(nxny, i requires 0 <= i < nxny => ColumnEntry(flat, nxny, nz, i, j))
  }

  function ColumnEntry<T>(flat: seq<T>, nxny: nat, nz: nat, i: nat, j: nat): T
    requires |flat| == nxny * nz && i < nxny && j < nz
  {
    CIndexInRange(nxny, nz, i, j);
    flat[CIndex(nz, i, j)]
  }

  /** `x1t + x2t`: layer j of one coordinate, yin points first, then yang points. */
  function LayerList<T>(c: YinYang<T>, nxny: nat, nz: nat, j: nat): (r: seq<T>)
    requires Shaped(c, nxny, nz) && j < nz
    ensures |r| == 2 * nxny
  {
    Column(c.yin, nxny, nz, j) + Column(c.yang, nxny, nz, j)
  }

  /** Entry t of layer j's list is the value at the t-th surface-ordered point of layer j. */
  lemma LayerListAt<T>(c: YinYang<T>, nxny: nat, nz: nat, j: nat, t: nat)
    requires Shaped(c, nxny, nz) && j < nz && t < 2 * nxny
    ensures InGrid(nxny, nz, SurfacePoint(nxny, t, j))
    ensures LayerList(c, nxny, nz, j)[t] == At(c, nxny, nz, SurfacePoint(nxny, t, j))
  {
  }

  /**
   * The `for j in range(Nz)` loop that appends one list per depth layer to
   * X, Y and Z.
   */
  method DepthLayers<T>(x: YinYang<T>, y: YinYang<T>, z: YinYang<T>, nxny: nat, nz: nat)
    returns (xs: seq<seq<T>>, ys: seq<seq<T>>, zs: seq<seq<T>>)
    requires Shaped(x, nxny, nz) && Shaped(y, nxny, nz) && Shaped(z, nxny, nz)
    ensures |xs| == nz && |ys| == nz && |zs| == nz
    ensures forall j :: 0 <= j < nz ==>
      xs[j] == LayerList(x, nxny, nz, j) && ys[j] == LayerList(y, nxny, nz, j) && zs[j] == LayerList(z, nxny, nz, j)
  {
    xs, ys, zs := [], [], [];
    for j := 0 to nz
      invariant |xs| == j && |ys| == j && |zs| == j
      invariant forall l :: 0 <= l < j ==>
        xs[l] == LayerList(x, nxny, nz, l) && ys[l] == LayerList(y, nxny, nz, l) && zs[l] == LayerList(z, nxny, nz, l)
    {
      var x1t := Column(x.yin, nxny, nz, j);
      var x2t := Column(x.yang, nxny, nz, j);
      xs := xs + [x1t + x2t];
      var y1t := Column(y.yin, nxny, nz, j);
      var y2t := Column(y.yang, nxny, nz, j);
      ys := ys + [y1t + y2t];
      var z1t := Column(z.yin, nxny, nz, j);
      var z2t := Column(z.yang, nxny, nz, j);
      zs := zs + [z1t + z2t];
    }
  }

  /** `[[X_s[i], Y_s[i], Z_s[i]] for i in range(len(X_s))]`. */
  function Zip3<T>(xs: seq<T>, ys: seq<T>, zs: seq<T>): (r: seq<Point<T>>)
    requires |ys| == |xs| && |zs| == |xs|
    ensures |r| == |xs|
    ensures forall i :: 0 <= i < |xs| ==> r[i] == Point(xs[i], ys[i], zs[i])
  {
    seq(|xs|, i requires 0 <= i < |xs| => Point(xs[i], ys[i], zs[i]))
  }

  /** The point list given to the convex hull: layer Nz-1 of X, Y and Z. */
  function SurfacePoints<T>(d: YYData<T>, nxny: nat, nz: nat): (r: seq<Point<T>>)
    requires Shaped(d.x, nxny, nz) && Shaped(d.y, nxny, nz) && Shaped(d.z, nxny, nz) && nz > 0
    ensures |r| == 2 * nxny
  {
    Zip3(LayerList(d.x, nxny, nz, nz - 1), LayerList(d.y, nxny, nz, nz - 1), LayerList(d.z, nxny, nz, nz - 1))
  }

  // ---------------------------------------------------------------------
  // Prism elements
  // ---------------------------------------------------------------------

  predicate ValidTriangles(tris: seq<Triangle>, n: nat)
  {
    forall k :: 0 <= k < |tris| ==> tris[k].a < n && tris[k].b < n && tris[k].c < n
  }

  /** One entry of `num_tri`: the triangle's positions looked up in the upper and lower number lists. */
  function PrismOf(upper: seq<nat>, lower: seq<nat>, t: Triangle): Prism
    requires t.a < |upper| && t.b < |upper| && t.c < |upper|
    requires t.a < |lower| && t.b < |lower| && t.c < |lower|
  {
    Prism(upper[t.a], upper[t.b], upper[t.c], lower[t.a], lower[t.b], lower[t.c])
  }

  /** `num_tri` for layer iz: every triangle paired between layers iz+1 and iz. */
  function LayerPrisms(tris: seq<Triangle>, nxny: nat, nz: nat, iz: nat): (r: seq<Prism>)
    requires ValidTriangles(tris, 2 * nxny)
    ensures |r| == |tris|
  {
    seq(|tris|, k requires 0 <= k < |tris| =>
      PrismOf(LayerNumbers(nxny, nz, iz + 1), LayerNumbers(nxny, nz, iz), tris[k]))
  }

  /** Each upper vertex is its lower partner one layer up: `uk == lk + NxNy`. */
  predicate Stacked(e: Prism, nxny: nat)
  {
    e.u0 == e.l0 + nxny && e.u1 == e.l1 + nxny && e.u2 == e.l2 + nxny
  }

  predicate NumbersBelow(e: Prism, n: nat)
  {
    e.u0 < n && e.u1 < n && e.u2 < n && e.l0 < n && e.l1 < n && e.l2 < n
  }

  /** The six vertices of a layer-iz prism are the numbers of the triangle's points on layers iz+1 and iz. */
  lemma PrismVertices(tris: seq<Triangle>, nxny: nat, nz: nat, iz: nat, k: nat)
    requires ValidTriangles(tris, 2 * nxny) && k < |tris|
    ensures var e, t := LayerPrisms(tris, nxny, nz, iz)[k], tris[k];
      && e.u0 == Number(nxny, nz, SurfacePoint(nxny, t.a, iz + 1))
      && e.u1 == Number(nxny, nz, SurfacePoint(nxny, t.b, iz + 1))
      && e.u2 == Number(nxny, nz, SurfacePoint(nxny, t.c, iz + 1))
      && e.l0 == Number(nxny, nz, SurfacePoint(nxny, t.a, iz))
      && e.l1 == Number(nxny, nz, SurfacePoint(nxny, t.b, iz))
      && e.l2 == Number(nxny, nz, SurfacePoint(nxny, t.c, iz))
  {
    var t := tris[k];
    LayerNumbersAt(nxny, nz, iz + 1, t.a);
    LayerNumbersAt(nxny, nz, iz + 1, t.b);
    LayerNumbersAt(nxny, nz, iz + 1, t.c);
    LayerNumbersAt(nxny, nz, iz, t.a);
    LayerNumbersAt(nxny, nz, iz, t.b);
    LayerNumbersAt(nxny, nz, iz, t.c);
  }

  /** Prisms between layers iz and iz+1 < Nz are stacked and address only existing points. */
  lemma LayerPrismsWellFormed(tris: seq<Triangle>, nxny: nat, nz: nat, iz: nat)
    requires ValidTriangles(tris, 2 * nxny) && iz + 1 < nz
    ensures forall e :: e in LayerPrisms(tris, nxny, nz, iz) ==>
      Stacked(e, nxny) && NumbersBelow(e, 2 * nxny * nz)
  {
    var r := LayerPrisms(tris, nxny, nz, iz);
    forall k | 0 <= k < |tris| ensures Stacked(r[k], nxny) && NumbersBelow(r[k], 2 * nxny * nz) {
      var t := tris[k];
      LayerNumbersShift(nxny, nz, iz, t.a);
      LayerNumbersShift(nxny, nz, iz, t.b);
      LayerNumbersShift(nxny, nz, iz, t.c);
      PrismVertices(tris, nxny, nz, iz, k);
      NumberDecodes(nxny, nz, SurfacePoint(nxny, t.a, iz + 1));
      NumberDecodes(nxny, nz, SurfacePoint(nxny, t.b, iz + 1));
      NumberDecodes(nxny, nz, SurfacePoint(nxny, t.c, iz + 1));
      NumberDecodes(nxny, nz, SurfacePoint(nxny, t.a, iz));
      NumberDecodes(nxny, nz, SurfacePoint(nxny, t.b, iz));
      NumberDecodes(nxny, nz, SurfacePoint(nxny, t.c, iz));
    }
  }

  /** Two surface positions on two layers get the same number only if they are the same position on the same layer. */
  lemma LayerNumbersDiffer(nxny: nat, nz: nat, t1: nat, iz1: nat, t2: nat, iz2: nat)
    requires t1 < 2 * nxny && t2 < 2 * nxny && iz1 < nz && iz2 < nz
    requires t1 != t2 || iz1 != iz2
    ensures LayerNumbers(nxny, nz, iz1)[t1] != LayerNumbers(nxny, nz, iz2)[t2]
  {
    LayerNumbersAt(nxny, nz, iz1, t1);
    LayerNumbersAt(nxny, nz, iz2, t2);
    NumberInjective(nxny, nz, SurfacePoint(nxny, t1, iz1), SurfacePoint(nxny, t2, iz2));
  }

  /** A triangle with three distinct corners gives a prism with six distinct vertices. */
  lemma PrismDistinct(tris: seq<Triangle>, nxny: nat, nz: nat, iz: nat, k: nat)
    requires ValidTriangles(tris, 2 * nxny) && iz + 1 < nz && k < |tris|
    requires tris[k].a != tris[k].b && tris[k].b != tris[k].c && tris[k].a != tris[k].c
    ensures var e := LayerPrisms(tris, nxny, nz, iz)[k];
      |{e.u0, e.u1, e.u2, e.l0, e.l1, e.l2}| == 6
  {
    var t := tris[k];
    var u, l := iz + 1, iz;
    LayerNumbersDiffer(nxny, nz, t.a, u, t.b, u);
    LayerNumbersDiffer(nxny, nz, t.a, u, t.c, u);
    LayerNumbersDiffer(nxny, nz, t.a, u, t.a, l);
    LayerNumbersDiffer(nxny, nz, t.a, u, t.b, l);
    LayerNumbersDiffer(nxny, nz, t.a, u, t.c, l);
    LayerNumbersDiffer(nxny, nz, t.b, u, t.c, u);
    LayerNumbersDiffer(nxny, nz, t.b, u, t.a, l);
    LayerNumbersDiffer(nxny, nz, t.b, u, t.b, l);
    LayerNumbersDiffer(nxny, nz, t.b, u, t.c, l);
    LayerNumbersDiffer(nxny, nz, t.c, u, t.a, l);
    LayerNumbersDiffer(nxny, nz, t.c, u, t.b, l);
    LayerNumbersDiffer(nxny, nz, t.c, u, t.c, l);
    LayerNumbersDiffer(nxny, nz, t.a, l, t.b, l);
    LayerNumbersDiffer(nxny, nz, t.a, l, t.c, l);
    LayerNumbersDiffer(nxny, nz, t.b, l, t.c, l);
    var e := LayerPrisms(tris, nxny, nz, iz)[k];
    DistinctSix(e.u0, e.u1, e.u2, e.l0, e.l1, e.l2);
  }

  lemma DistinctSix(a: nat, b: nat, c: nat, d: nat, e: nat, f: nat)
    requires a != b && a != c && a != d && a != e && a != f
    requires b != c && b != d && b != e && b != f
    requires c != d && c != e && c != f
    requires d != e && d != f && e != f
    ensures |{a, b, c, d, e, f}| == 6
  {
    assert |{a}| == 1;
    assert |{a, b}| == 2 by { assert {a, b} == {a} + {b}; }
    assert |{a, b, c}| == 3 by { assert {a, b, c} == {a, b} + {c}; }
    assert |{a, b, c, d}| == 4 by { assert {a, b, c, d} == {a, b, c} + {d}; }
    assert |{a, b, c, d, e}| == 5 by { assert {a, b, c, d, e} == {a, b, c, d} + {e}; }
    assert {a, b, c, d, e, f} == {a, b, c, d, e} + {f};
  }

  /**
   * The element list, in order: with the surface selection the prisms of the
   * top layer pass `iz = Nz-2` (none when Nz < 2); otherwise the prisms of
   * every pass, layer iz's k-th at position `iz*len(tris) + k`.
   */
  ghost predicate ElementsOf(tris: seq<Triangle>, nxny: nat, nz: nat, surface: bool, elems: seq<Prism>)
    requires ValidTriangles(tris, 2 * nxny)
  {
    if surface then
      elems == if nz >= 2 then LayerPrisms(tris, nxny, nz, nz - 2) else []
    else
      |elems| == LayerCount(nz) * |tris|
      && forall iz, k :: 0 <= iz < LayerCount(nz) && 0 <= k < |tris| ==>
           CIndex(|tris|, iz, k) < |elems| && elems[CIndex(|tris|, iz, k)] == LayerPrisms(tris, nxny, nz, iz)[k]
  }

  function LayerCount(nz: nat): nat { if nz == 0 then 0 else nz - 1 }

  /**
   * The `for iz in range(Nz-1)` loop that extends `ElementNumbers`. With the
   * surface selection only the pass `iz == Nz-2` contributes; otherwise every
   * pass does, in layer order.
   */
  method ElementNumbers(tris: seq<Triangle>, nxny: nat, nz: nat, surface: bool) returns (elems: seq<Prism>)
    requires ValidTriangles(tris, 2 * nxny)
    ensures ElementsOf(tris, nxny, nz, surface, elems)
    ensures forall e :: e in elems ==> Stacked(e, nxny) && NumbersBelow(e, 2 * nxny * nz)
  {
    elems := [];
    var n := |tris|;
    if surface {
      for iz := 0 to LayerCount(nz)
        invariant elems == if iz == LayerCount(nz) && nz >= 2 then LayerPrisms(tris, nxny, nz, nz - 2) else []
      {
        if iz == nz - 2 {
          elems := elems + LayerPrisms(tris, nxny, nz, iz);
        }
      }
      if nz >= 2 {
        LayerPrismsWellFormed(tris, nxny, nz, nz - 2);
      }
    } else {
      for iz := 0 to LayerCount(nz)
        invariant |elems| == iz * n
        invariant forall l, k :: 0 <= l < iz && 0 <= k < n ==>
          CIndex(n, l, k) < |elems| && elems[CIndex(n, l, k)] == LayerPrisms(tris, nxny, nz, l)[k]
        invariant forall e :: e in elems ==> Stacked(e, nxny) && NumbersBelow(e, 2 * nxny * nz)
      {
        var numTri := LayerPrisms(tris, nxny, nz, iz);
        LayerPrismsWellFormed(tris, nxny, nz, iz);
        ghost var before := elems;
        elems := elems + numTri;
        forall l, k | 0 <= l < iz + 1 && 0 <= k < n
          ensures CIndex(n, l, k) < |elems| && elems[CIndex(n, l, k)] == LayerPrisms(tris, nxny, nz, l)[k]
        {
          CIndexInRange(iz + 1, n, l, k);
          assert (iz + 1) * n == iz * n + n;
          if l == iz {
            assert CIndex(n, l, k) == |before| + k;
          } else {
            CIndexInRange(iz, n, l, k);
          }
        }
        assert |elems| == (iz + 1) * n;
      }
    }
  }

  // ---------------------------------------------------------------------
  // Points and field values in global-number order
  // ---------------------------------------------------------------------

  /** `list(c1.reshape(NxNy*Nz, order='F')) + list(c2.reshape(NxNy*Nz, order='F'))`. */
  function Flatten<T>(c: YinYang<T>, nxny: nat, nz: nat): (r: seq<T>)
    requires Shaped(c, nxny, nz)
    ensures |r| == 2 * nxny * nz
  {
    CToFortran(c.yin, nxny, nz) + CToFortran(c.yang, nxny, nz)
  }

  /** Entry `Number(g)` of the flattened list is the value at grid point g. */
  lemma FlattenAt<T>(c: YinYang<T>, nxny: nat, nz: nat, g: GridPoint)
    requires Shaped(c, nxny, nz) && InGrid(nxny, nz, g)
    ensures Number(nxny, nz, g) < 2 * nxny * nz
    ensures Flatten(c, nxny, nz)[Number(nxny, nz, g)] == At(c, nxny, nz, g)
  {
    NumberDecodes(nxny, nz, g);
    CToFortranAt(if g.yang then c.yang else c.yin, nxny, nz, g.i, g.iz);
  }

  /** The flattened list holds exactly the yin and yang values, rearranged. */
  lemma FlattenPermutes<T>(c: YinYang<T>, nxny: nat, nz: nat)
    requires Shaped(c, nxny, nz)
    ensures multiset(Flatten(c, nxny, nz)) == multiset(c.yin + c.yang)
  {
    CToFortranIsPermutation(c.yin, nxny, nz);
    CToFortranIsPermutation(c.yang, nxny, nz);
  }

  /** `np.array([X, Y, Z]).transpose()`: one row per global number. */
  function PointsOf<T>(d: YYData<T>, nxny: nat, nz: nat): (r: seq<Point<T>>)
    requires Shaped(d.x, nxny, nz) && Shaped(d.y, nxny, nz) && Shaped(d.z, nxny, nz)
    ensures |r| == 2 * nxny * nz
  {
    Zip3(Flatten(d.x, nxny, nz), Flatten(d.y, nxny, nz), Flatten(d.z, nxny, nz))
  }

  /** Row `Number(g)` of Points is the coordinate triple of grid point g. */
  lemma PointsOfAt<T>(d: YYData<T>, nxny: nat, nz: nat, g: GridPoint)
    requires Shaped(d.x, nxny, nz) && Shaped(d.y, nxny, nz) && Shaped(d.z, nxny, nz)
    requires InGrid(nxny, nz, g)
    ensures Number(nxny, nz, g) < 2 * nxny * nz
    ensures PointsOf(d, nxny, nz)[Number(nxny, nz, g)] == PointAt(d, nxny, nz, g)
  {
    FlattenAt(d.x, nxny, nz, g);
    FlattenAt(d.y, nxny, nz, g);
    FlattenAt(d.z, nxny, nz, g);
  }

  /**
   * The hull's point list lines up with the upper numbers of the last layer
   * pass: surface position t is the point numbered `num_upper[t]` at
   * `iz = Nz-2`, so each hull triangle is the upper face of its prism.
   */
  lemma SurfaceMatchesUpper<T>(d: YYData<T>, nxny: nat, nz: nat, t: nat)
    requires Shaped(d.x, nxny, nz) && Shaped(d.y, nxny, nz) && Shaped(d.z, nxny, nz)
    requires nz > 0 && t < 2 * nxny
    ensures LayerNumbers(nxny, nz, nz - 1)[t] < 2 * nxny * nz
    ensures SurfacePoints(d, nxny, nz)[t] == PointsOf(d, nxny, nz)[LayerNumbers(nxny, nz, nz - 1)[t]]
  {
    var g := SurfacePoint(nxny, t, nz - 1);
    LayerNumbersAt(nxny, nz, nz - 1, t);
    LayerListAt(d.x, nxny, nz, nz - 1, t);
    LayerListAt(d.y, nxny, nz, nz - 1, t);
    LayerListAt(d.z, nxny, nz, nz - 1, t);
    PointsOfAt(d, nxny, nz, g);
  }

  predicate IsScalarNature(nature: string) { nature == "Scalar" || nature == "" }

  predicate FieldShaped<T>(d: YYData<T>, nxny: nat, nz: nat)
  {
    if IsScalarNature(d.fieldNature) then Shaped(d.v, nxny, nz)
    else if d.fieldNature == "Vectorial" then
      Shaped(d.vx, nxny, nz) && Shaped(d.vy, nxny, nz) && Shaped(d.vz, nxny, nz) && Shaped(d.vr, nxny, nz)
      && Shaped(d.vtheta, nxny, nz) && Shaped(d.vphi, nxny, nz) && Shaped(d.p, nxny, nz)
    else true
  }

  /** The `vstack` part: chosen by fieldNature, each list flattened like the coordinates. */
  function Stack<T>(d: YYData<T>, nxny: nat, nz: nat): (r: Result<VStack<T>, MeshError>)
    ensures r.Err? <==> !FieldShaped(d, nxny, nz) || !(IsScalarNature(d.fieldNature) || d.fieldNature == "Vectorial")
    ensures r.Ok? ==> (r.value.ScalarStack? <==> IsScalarNature(d.fieldNature))
    ensures r.Err? ==> r.error == if FieldShaped(d, nxny, nz) then StackUnbound(d.fieldNature) else ReshapeMismatch
  {
    if IsScalarNature(d.fieldNature) then
      if Shaped(d.v, nxny, nz) then Ok(ScalarStack(Flatten(d.v, nxny, nz))) else Err(ReshapeMismatch)
    else if d.fieldNature == "Vectorial" then
      if FieldShaped(d, nxny, nz) then
        Ok(VectorStack(Flatten(d.vx, nxny, nz), Flatten(d.vy, nxny, nz), Flatten(d.vz, nxny, nz),
                       Flatten(d.vr, nxny, nz), Flatten(d.vtheta, nxny, nz), Flatten(d.vphi, nxny, nz),
                       Flatten(d.p, nxny, nz)))
      else Err(ReshapeMismatch)
    else Err(StackUnbound(d.fieldNature))
  }

  /** List s holds quantity c in global-number order: entry `Number(g)` is the value at g. */
  ghost predicate Aligned<T>(c: YinYang<T>, nxny: nat, nz: nat, s: seq<T>)
    requires Shaped(c, nxny, nz)
  {
    |s| == 2 * nxny * nz &&
    forall g | InGrid(nxny, nz, g) :: Number(nxny, nz, g) < |s| && s[Number(nxny, nz, g)] == At(c, nxny, nz, g)
  }

  lemma FlattenAligned<T>(c: YinYang<T>, nxny: nat, nz: nat)
    requires Shaped(c, nxny, nz)
    ensures Aligned(c, nxny, nz, Flatten(c, nxny, nz))
  {
    forall g | InGrid(nxny, nz, g)
      ensures Number(nxny, nz, g) < 2 * nxny * nz
      ensures Flatten(c, nxny, nz)[Number(nxny, nz, g)] == At(c, nxny, nz, g)
    {
      FlattenAt(c, nxny, nz, g);
    }
  }

  /** Every list of vstack is indexed by the global numbers, like Points. */
  ghost predicate StackAligned<T>(d: YYData<T>, nxny: nat, nz: nat, s: VStack<T>)
  {
    match s
    case ScalarStack(values) =>
      IsScalarNature(d.fieldNature) && Shaped(d.v, nxny, nz) && Aligned(d.v, nxny, nz, values)
    case VectorStack(sx, sy, sz, sr, stheta, sphi, sp) =>
      && d.fieldNature == "Vectorial" && FieldShaped(d, nxny, nz)
      && Aligned(d.vx, nxny, nz, sx) && Aligned(d.vy, nxny, nz, sy) && Aligned(d.vz, nxny, nz, sz)
      && Aligned(d.vr, nxny, nz, sr) && Aligned(d.vtheta, nxny, nz, stheta) && Aligned(d.vphi, nxny, nz, sphi)
      && Aligned(d.p, nxny, nz, sp)
  }

  lemma StackIsAligned<T>(d: YYData<T>, nxny: nat, nz: nat)
    requires Stack(d, nxny, nz).Ok?
    ensures StackAligned(d, nxny, nz, Stack(d, nxny, nz).value)
  {
    if IsScalarNature(d.fieldNature) {
      FlattenAligned(d.v, nxny, nz);
    } else {
      FlattenAligned(d.vx, nxny, nz);
      FlattenAligned(d.vy, nxny, nz);
      FlattenAligned(d.vz, nxny, nz);
      FlattenAligned(d.vr, nxny, nz);
      FlattenAligned(d.vtheta, nxny, nz);
      FlattenAligned(d.vphi, nxny, nz);
      FlattenAligned(d.p, nxny, nz);
    }
  }

  // ---------------------------------------------------------------------
  // The whole routine
  // ---------------------------------------------------------------------

  /** `NxNy = int(len(x1)/Nz)` and the coordinate reshapes succeed. */
  predicate CoordsShaped<T>(d: YYData<T>)
  {
    d.layers > 0 && var nxny := |d.x.yin| / d.layers;
    Shaped(d.x, nxny, d.layers) && Shaped(d.y, nxny, d.layers) && Shaped(d.z, nxny, d.layers)
  }

  /**
   * What a successful run returns, stated point by point: the sizes, the
   * coordinates of every numbered point, the elements in their order, and
   * the field lists aligned with the numbers.
   */
  ghost predicate IsMeshOf<T>(d: YYData<T>, sel: LayerSelection, tris: seq<Triangle>, m: Mesh<T>)
  {
    && m.nz == d.layers > 0
    && Shaped(d.x, m.nxny, m.nz) && Shaped(d.y, m.nxny, m.nz) && Shaped(d.z, m.nxny, m.nz)
    && ValidTriangles(tris, 2 * m.nxny)
    && PointsAligned(d, m.nxny, m.nz, m.points)
    && ElementsOf(tris, m.nxny, m.nz, IsSurface(sel), m.elements)
    && (forall e :: e in m.elements ==> Stacked(e, m.nxny) && NumbersBelow(e, |m.points|))
    && StackAligned(d, m.nxny, m.nz, m.vstack)
  }

  /** Row `Number(g)` of the point list holds the coordinates of grid point g. */
  ghost predicate PointsAligned<T>(d: YYData<T>, nxny: nat, nz: nat, pts: seq<Point<T>>)
    requires Shaped(d.x, nxny, nz) && Shaped(d.y, nxny, nz) && Shaped(d.z, nxny, nz)
  {
    |pts| == 2 * nxny * nz &&
    forall g | InGrid(nxny, nz, g) :: Number(nxny, nz, g) < |pts| && pts[Number(nxny, nz, g)] == PointAt(d, nxny, nz, g)
  }

  /** The point list of a shaped grid is aligned with the global numbers. */
  lemma PointsOfAligned<T>(d: YYData<T>, nxny: nat, nz: nat)
    requires Shaped(d.x, nxny, nz) && Shaped(d.y, nxny, nz) && Shaped(d.z, nxny, nz)
    ensures PointsAligned(d, nxny, nz, PointsOf(d, nxny, nz))
  {
    var rows := PointsOf(d, nxny, nz);
    forall g | InGrid(nxny, nz, g)
      ensures Number(nxny, nz, g) < |rows| && rows[Number(nxny, nz, g)] == PointAt(d, nxny, nz, g)
    {
      PointsOfAt(d, nxny, nz, g);
    }
  }

  /** The depth layers of X, Y and Z, zipped at the upper layer `Nz-1` into the hull's input. */
  method SurfaceLayer<T>(d: YYData<T>, nxny: nat, nz: nat) returns (points: seq<Point<T>>)
    requires Shaped(d.x, nxny, nz) && Shaped(d.y, nxny, nz) && Shaped(d.z, nxny, nz) && nz > 0
    ensures points == SurfacePoints(d, nxny, nz)
  {
    var xs, ys, zs := DepthLayers(d.x, d.y, d.z, nxny, nz);
    points := Zip3(xs[nz - 1], ys[nz - 1], zs[nz - 1]);
  }

  /** The parts of a mesh, each checked on its own, make up IsMeshOf. */
  lemma MeshOfParts<T>(d: YYData<T>, sel: LayerSelection, tris: seq<Triangle>, m: Mesh<T>)
    requires m.nz == d.layers > 0
    requires Shaped(d.x, m.nxny, m.nz) && Shaped(d.y, m.nxny, m.nz) && Shaped(d.z, m.nxny, m.nz)
    requires ValidTriangles(tris, 2 * m.nxny)
    requires m.points == PointsOf(d, m.nxny, m.nz)
    requires ElementsOf(tris, m.nxny, m.nz, IsSurface(sel), m.elements)
    requires forall e :: e in m.elements ==> Stacked(e, m.nxny) && NumbersBelow(e, 2 * m.nxny * m.nz)
    requires StackAligned(d, m.nxny, m.nz, m.vstack)
    ensures IsMeshOf(d, sel, tris, m)
  {
    PointsOfAligned(d, m.nxny, m.nz);
  }

  /**
   * `_surface_triangulation(stagData, selectedLayer)` with the convex hull
   * passed in as `hull`, which must return triangles over the points it is given.
   */
  method SurfaceTriangulation<T>(d: YYData<T>, sel: LayerSelection, hull: seq<Point<T>> -> seq<Triangle>)
    returns (r: Result<Mesh<T>, MeshError>)
    requires forall pts :: ValidTriangles(hull(pts), |pts|)
    ensures d.layers == 0 ==> r == Err(NoLayers)
    ensures d.layers > 0 && !CoordsShaped(d) ==> r == Err(ReshapeMismatch)
    ensures CoordsShaped(d) ==> var nxny := |d.x.yin| / d.layers;
      && (r.Ok? <==> Stack(d, nxny, d.layers).Ok?)
      && (r.Err? ==> r.error == Stack(d, nxny, d.layers).error)
      && (r.Ok? ==> r.value.nxny == nxny
                    && IsMeshOf(d, sel, hull(SurfacePoints(d, nxny, d.layers)), r.value))
  {
    var nz := d.layers;
    if nz == 0 {
      return Err(NoLayers);
    }
    var nxny := |d.x.yin| / nz;
    if !(Shaped(d.x, nxny, nz) && Shaped(d.y, nxny, nz) && Shaped(d.z, nxny, nz)) {
      return Err(ReshapeMismatch);
    }
    // 1) the surface of both grids, triangulated
    var points := SurfaceLayer(d, nxny, nz);
    var tris := hull(points);
    // 2) prisms between consecutive layers
    var elements := ElementNumbers(tris, nxny, nz, IsSurface(sel));
    // 3) coordinates and values in global-number order
    var rows := PointsOf(d, nxny, nz);
    var stack := Stack(d, nxny, nz);
    if stack.Err? {
      return Err(stack.error);
    }
    StackIsAligned(d, nxny, nz);
    r := Ok(Mesh(nxny, nz, rows, elements, stack.value));
    MeshOfParts(d, sel, tris, r.value);
  }
}
