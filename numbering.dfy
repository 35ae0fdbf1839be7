/**
 * Index arithmetic of the Yin-Yang prism mesh.
 *
 * A Yin (or Yang) grid holds NxNy points per depth layer and Nz layers. The
 * raw coordinate arrays are flat; `reshape(NxNy, Nz)` reads them in C order
 * (point-major), `reshape(NxNy*Nz, order='F')` writes them back in Fortran
 * order (layer-major). Every grid point gets a global number: Yin point
 * (i, iz) is `i + iz*NxNy` and the matching Yang point is that plus
 * `NxNy*Nz`.
 */
module Numbering {

  /** Position of grid entry (i, j) in a flat array read in C order with `cols` columns. */
  function CIndex(cols: nat, i: nat, j: nat): nat { i * cols + j }

  /** Position of grid entry (i, j) in a flat array read in Fortran order with `rows` rows. */
  function FIndex(rows: nat, i: nat, j: nat): nat { i + j * rows }

  lemma DivModOf(n: nat, d: nat, q: nat, r: nat)
    requires 0 <= r < d && n == q * d + r
    ensures n / d == q && n % d == r
  {
    var q', r' := n / d, n % d;
    assert n == q' * d + r';
    MulAtLeast(q - q', d);
    MulAtLeast(q' - q, d);
    assert q * d - q' * d == (q - q') * d;
  }

  lemma MulAtLeast(a: int, d: nat)
    ensures a >= 1 ==> a * d >= d
  {
    if a >= 1 {
      assert a * d == (a - 1) * d + d;
    }
  }

  /** `i*cols + j` is inside a `rows` by `cols` grid. */
  lemma CIndexInRange(rows: nat, cols: nat, i: nat, j: nat)
    requires i < rows && j < cols
    ensures CIndex(cols, i, j) < rows * cols
  {
    assert (i + 1) * cols <= rows * cols by { MulMono(i + 1, rows, cols); }
    assert (i + 1) * cols == i * cols + cols;
  }

  /** `i + j*rows` is inside a `rows` by `cols` grid. */
  lemma FIndexInRange(rows: nat, cols: nat, i: nat, j: nat)
    requires i < rows && j < cols
    ensures FIndex(rows, i, j) < rows * cols
  {
    assert (j + 1) * rows <= cols * rows by { MulMono(j + 1, cols, rows); }
    assert (j + 1) * rows == j * rows + rows;
    assert cols * rows == rows * cols;
  }

  lemma MulMono(a: nat, b: nat, c: nat)
    requires a <= b
    ensures a * c <= b * c
  {
    assert b * c == a * c + (b - a) * c;
  }

  /** Row of the entry at Fortran position k. */
  function FRow(rows: nat, k: nat): nat requires rows > 0 { k % rows }

  /** Column of the entry at Fortran position k. */
  function FCol(rows: nat, k: nat): nat requires rows > 0 { k / rows }

  /** Reading a Fortran position back gives the entry it was written from. */
  lemma FIndexDecode(rows: nat, cols: nat, i: nat, j: nat)
    requires i < rows && j < cols
    ensures FRow(rows, FIndex(rows, i, j)) == i && FCol(rows, FIndex(rows, i, j)) == j
  {
    DivModOf(FIndex(rows, i, j), rows, j, i);
  }

  /** Every Fortran position inside the grid comes from exactly one entry. */
  lemma FIndexEncode(rows: nat, cols: nat, k: nat)
    requires k < rows * cols
    ensures rows > 0
    ensures FRow(rows, k) < rows && FCol(rows, k) < cols
    ensures FIndex(rows, FRow(rows, k), FCol(rows, k)) == k
  {
    assert rows == 0 ==> rows * cols == 0;
    var i, j := k % rows, k / rows;
    assert k == j * rows + i;
    MulMonoImp(cols, j, rows);
    assert cols * rows == rows * cols;
  }

  lemma MulMonoImp(a: nat, b: nat, c: nat)
    ensures a <= b ==> a * c <= b * c
  {
    if a <= b {
      MulMono(a, b, c);
    }
  }

  /**
   * numpy's `flat.reshape(rows, cols).reshape(rows*cols, order='F')`: entry k
   * of the result is grid entry (k % rows, k / rows) of the C-order grid.
   */
  function CToFortran<T>(flat: seq<T>, rows: nat, cols: nat): (r: seq<T>)
    requires |flat| == rows * cols
    ensures |r| == rows * cols
  {
    seq(rows * cols, k requires 0 <= k < rows * cols =>
      FortranEntry(flat, rows, cols, k))
  }

  function FortranEntry<T>(flat: seq<T>, rows: nat, cols: nat, k: nat): T
    requires |flat| == rows * cols && k < rows * cols
  {
    FIndexEncode(rows, cols, k);
    CIndexInRange(rows, cols, FRow(rows, k), FCol(rows, k));
    flat[CIndex(cols, FRow(rows, k), FCol(rows, k))]
  }

  /** Grid entry (i, j) sits at Fortran position `i + j*rows` of the relaid array. */
  lemma CToFortranAt<T>(flat: seq<T>, rows: nat, cols: nat, i: nat, j: nat)
    requires |flat| == rows * cols && i < rows && j < cols
    ensures FIndex(rows, i, j) < rows * cols && CIndex(cols, i, j) < rows * cols
    ensures CToFortran(flat, rows, cols)[FIndex(rows, i, j)] == flat[CIndex(cols, i, j)]
  {
    FIndexInRange(rows, cols, i, j);
    CIndexInRange(rows, cols, i, j);
    FIndexDecode(rows, cols, i, j);
  }

  /**
   * The relayout is a permutation: the position map is a bijection of
   * [0, rows*cols), and it carries every input entry to exactly one output entry.
   */
  lemma CToFortranIsPermutation<T>(flat: seq<T>, rows: nat, cols: nat)
    requires |flat| == rows * cols
    ensures multiset(CToFortran(flat, rows, cols)) == multiset(flat)
  {
    var r := CToFortran(flat, rows, cols);
    var n := rows * cols;
    // p sends each output position to the input position it copies
    var p := seq(n, k requires 0 <= k < n => CPosOf(rows, cols, k));
    forall k | 0 <= k < n ensures p[k] < n && r[k] == flat[p[k]] {
      FIndexEncode(rows, cols, k);
      CIndexInRange(rows, cols, FRow(rows, k), FCol(rows, k));
    }
    forall a, b | 0 <= a < b < n ensures p[a] != p[b] {
      CPosInjective(rows, cols, a, b);
    }
    ReindexPermutes(flat, r, p);
  }

  function CPosOf(rows: nat, cols: nat, k: nat): nat
    requires k < rows * cols
  {
    FIndexEncode(rows, cols, k);
    CIndex(cols, FRow(rows, k), FCol(rows, k))
  }

  lemma CPosInjective(rows: nat, cols: nat, a: nat, b: nat)
    requires a < rows * cols && b < rows * cols && a != b
    ensures CPosOf(rows, cols, a) != CPosOf(rows, cols, b)
  {
    FIndexEncode(rows, cols, a);
    FIndexEncode(rows, cols, b);
    var ia, ja, ib, jb := FRow(rows, a), FCol(rows, a), FRow(rows, b), FCol(rows, b);
    DivModOf(CIndex(cols, ia, ja), cols, ia, ja);
    DivModOf(CIndex(cols, ib, jb), cols, ib, jb);
  }

  /**
   * A sequence that copies `s` through an injective position map `p` onto
   * [0, |s|) holds the same multiset of entries as `s`.
   */
  lemma {:induction false} ReindexPermutes<T>(s: seq<T>, r: seq<T>, p: seq<nat>)
    requires |r| == |s| && |p| == |s|
    requires forall k :: 0 <= k < |p| ==> p[k] < |s| && r[k] == s[p[k]]
    requires forall a, b :: 0 <= a < b < |p| ==> p[a] != p[b]
    ensures multiset(r) == multiset(s)
    decreases |s|
  {
    if |s| > 0 {
      var n := |s| - 1;
      // drop the last output entry and the input entry it copies
      var j := p[n];
      var s' := s[..j] + s[j + 1..];
      var r' := r[..n];
      var p' := seq(n, k requires 0 <= k < n => if p[k] < j then p[k] else p[k] - 1);
      forall k | 0 <= k < n ensures p'[k] < n && r'[k] == s'[p'[k]] {
        assert p[k] != j;
      }
      forall a, b | 0 <= a < b < n ensures p'[a] != p'[b] {
        assert p[a] != j && p[b] != j && p[a] != p[b];
      }
      ReindexPermutes(s', r', p');
      assert s == s[..j] + [s[j]] + s[j + 1..];
      assert r == r' + [r[n]];
    }
  }

  // ---------------------------------------------------------------------
  // Global point numbers
  // ---------------------------------------------------------------------

  /** A point of the Yin-Yang mesh: the grid it belongs to, its index in the layer, its layer. */
  datatype GridPoint = GridPoint(yang: bool, i: nat, iz: nat)

  predicate InGrid(nxny: nat, nz: nat, g: GridPoint) { g.i < nxny && g.iz < nz }

  /** `NUMBER_1[i, iz]`: the Fortran-order reshape of `range(NxNy*Nz)`. */
  function YinNumber(nxny: nat, i: nat, iz: nat): nat { FIndex(nxny, i, iz) }

  /** `NUMBER_2[i, iz] = NUMBER_1[i, iz] + NxNy*Nz`. */
  function YangNumber(nxny: nat, nz: nat, i: nat, iz: nat): nat { YinNumber(nxny, i, iz) + nxny * nz }

  function Number(nxny: nat, nz: nat, g: GridPoint): nat
  {
    if g.yang then YangNumber(nxny, nz, g.i, g.iz) else YinNumber(nxny, g.i, g.iz)
  }

  /** The grid point a global number stands for. */
  function PointOf(nxny: nat, nz: nat, n: nat): (g: GridPoint)
    requires n < 2 * nxny * nz
    ensures InGrid(nxny, nz, g)
  {
    var yang := n >= nxny * nz;
    var m := if yang then n - nxny * nz else n;
    FIndexEncode(nxny, nz, m);
    GridPoint(yang, FRow(nxny, m), FCol(nxny, m))
  }

  /** Numbers of grid points lie in [0, 2*NxNy*Nz) and decode back to their point. */
  lemma NumberDecodes(nxny: nat, nz: nat, g: GridPoint)
    requires InGrid(nxny, nz, g)
    ensures Number(nxny, nz, g) < 2 * nxny * nz
    ensures PointOf(nxny, nz, Number(nxny, nz, g)) == g
  {
    FIndexInRange(nxny, nz, g.i, g.iz);
    FIndexDecode(nxny, nz, g.i, g.iz);
  }

  /** Every number in [0, 2*NxNy*Nz) is the number of the point it decodes to. */
  lemma PointOfEncodes(nxny: nat, nz: nat, n: nat)
    requires n < 2 * nxny * nz
    ensures Number(nxny, nz, PointOf(nxny, nz, n)) == n
  {
    var m := if n >= nxny * nz then n - nxny * nz else n;
    FIndexEncode(nxny, nz, m);
  }

  /** Distinct grid points get distinct numbers. */
  lemma NumberInjective(nxny: nat, nz: nat, g: GridPoint, h: GridPoint)
    requires InGrid(nxny, nz, g) && InGrid(nxny, nz, h) && g != h
    ensures Number(nxny, nz, g) != Number(nxny, nz, h)
  {
    NumberDecodes(nxny, nz, g);
    NumberDecodes(nxny, nz, h);
  }

  /**
   * `list(NUMBER_1[:, iz]) + list(NUMBER_2[:, iz])`: the numbers of layer iz
   * in surface-list order (Yin points first, then Yang points).
   */
  function LayerNumbers(nxny: nat, nz: nat, iz: nat): (r: seq<nat>)
    ensures |r| == 2 * nxny
  {
    seq(nxny, i requires 0 <= i < nxny => YinNumber(nxny, i, iz))
      + seq(nxny, i requires 0 <= i < nxny => YangNumber(nxny, nz, i, iz))
  }

  /** Grid point of entry t of a surface-ordered layer list. */
  function SurfacePoint(nxny: nat, t: nat, iz: nat): GridPoint
  {
    if t < nxny then GridPoint(false, t, iz) else GridPoint(true, t - nxny, iz)
  }

  /** Entry t of layer iz's number list is the number of the t-th surface-ordered point of that layer. */
  lemma LayerNumbersAt(nxny: nat, nz: nat, iz: nat, t: nat)
    requires t < 2 * nxny
    ensures LayerNumbers(nxny, nz, iz)[t] == Number(nxny, nz, SurfacePoint(nxny, t, iz))
  {
  }

  /** Moving one layer up adds exactly NxNy to every number. */
  lemma LayerNumbersShift(nxny: nat, nz: nat, iz: nat, t: nat)
    requires t < 2 * nxny
    ensures LayerNumbers(nxny, nz, iz + 1)[t] == LayerNumbers(nxny, nz, iz)[t] + nxny
  {
    var i := if t < nxny then t else t - nxny;
    assert FIndex(nxny, i, iz + 1) == FIndex(nxny, i, iz) + nxny;
  }
}
