# pypStag viewer core, modelled in Dafny

pypStag's `stagViewer.py` draws fields from the StagYY mantle-convection code on
Cartesian, annulus and spherical Yin-Yang grids. Most of the file is calls into
plotting libraries. This project models the three parts that are plain logic:

- **The Yin-Yang prism mesh** (`_surface_triangulation`, `Triangulation` and
  `Numbering` modules). The yin and yang grids each have NxNy points per depth
  layer and Nz layers. Each grid point gets a global number. The surface layer
  is triangulated, and each triangle is extruded into 6-vertex prisms between
  consecutive layers. The coordinates and field values are flattened in
  Fortran order, so each number addresses its grid point. `seal3D_YYSurface`
  contains an identical nested copy (pypStag/stagViewer.py:2237-2410). The
  same members model both copies.
- **Field, geometry and title selection** (`__builder`, `Builder` module). The
  geometry is checked first. Then the field name is mapped to a data
  component, and vector components are rejected on non-vectorial data. Then
  the title is taken from the caller, from the plot parameters, or built
  automatically. The colour range comes from the plot parameters or from the
  data's extrema.
- **Arrow selection** (`Arrows` module). This covers the default arrow count
  loop, the choice between a caller's `mask_arrowsID` and a random sample, and
  the indexing `xa[mask_arrows]`. The annulus map's variant of this code is
  modelled as well.

Coordinates and field values have an opaque type parameter. Nothing depends
on floating-point values. Four things are passed in as parameters:

- the convex hull, as a function from a point list to triangles;
- `np.log10`, `np.amin` and `np.amax`, as functions on the field type;
- the result of `random.sample`, constrained to be a sample it can return;
- the length `len(stagData.slayers)`.

Two behaviours of the code worth knowing:

- The automatic title is built from the data's `fieldType`, not from the
  requested field name.
- A `fieldNature` other than `'Scalar'`, `''` or `'Vectorial'` leaves `vstack`
  unbound. The model reports that case as the error `StackUnbound`.

## Model

| member | source | states |
|---|---|---|
| `Numbering.CToFortranAt` | pypStag/stagViewer.py:2595-2598 | after `reshape(NxNy,Nz)` and `reshape(NxNy*Nz, order='F')`, grid entry (i, j), which is flat input entry `i*Nz + j`, sits at position `i + j*NxNy` |
| `Numbering.CToFortranIsPermutation` | pypStag/stagViewer.py:2595-2598 | the Fortran relayout is a permutation of its input (equal multisets) |
| `Numbering.NumberDecodes` | pypStag/stagViewer.py:2548-2550 | every grid point's number (`i + iz*NxNy`, plus `NxNy*Nz` on yang) is below `2*NxNy*Nz` and decodes back to that point |
| `Numbering.PointOfEncodes` | pypStag/stagViewer.py:2548-2550 | every number in `[0, 2*NxNy*Nz)` is the number of exactly the point it decodes to, so the numbering is onto |
| `Numbering.NumberInjective` | pypStag/stagViewer.py:2548-2550 | distinct grid points get distinct numbers |
| `Numbering.LayerNumbersAt` | pypStag/stagViewer.py:2558-2563 | entry t of `num_upper`/`num_lower` is the number of yin point t for t < NxNy, else of yang point t-NxNy, on that layer |
| `Numbering.LayerNumbersShift` | pypStag/stagViewer.py:2548-2550 | one layer up adds exactly NxNy to every entry of the layer's number list |
| `Triangulation.LayerListAt` | pypStag/stagViewer.py:2515-2525 | entry t of depth layer j's list (`x1t + x2t`) is the yin value `[t][j]` when t < NxNy, else the yang value `[t-NxNy][j]` |
| `Triangulation.DepthLayers` | pypStag/stagViewer.py:2512-2525 | the `for j in range(Nz)` loop produces Nz layers per coordinate, layer j being that coordinate's yin column j followed by its yang column j |
| `Triangulation.SurfaceLayer` | pypStag/stagViewer.py:2512-2541 | the points handed to `ConvexHull` are the (X, Y, Z) triples of layer `Nz-1`, yin points first, then yang |
| `Triangulation.PrismVertices` | pypStag/stagViewer.py:2565-2570 | a prism's upper vertices are the numbers of its triangle's surface points on layer iz+1, and its lower vertices the numbers of the same points on layer iz |
| `Triangulation.LayerPrismsWellFormed` | pypStag/stagViewer.py:2556-2587 | for `iz+1 < Nz` and triangle indices below `2*NxNy`, every prism has `uk == lk + NxNy` and all six numbers below `2*NxNy*Nz` |
| `Triangulation.PrismDistinct` | pypStag/stagViewer.py:2565-2570 | a triangle with three distinct corners gives a prism with six distinct vertices |
| `Triangulation.ElementNumbers` | pypStag/stagViewer.py:2554-2587 | surface selection: exactly the `len(tris)` prisms of pass `iz = Nz-2`, or none when Nz < 2. Otherwise: `(Nz-1)*len(tris)` prisms, layer iz's k-th at `iz*len(tris)+k`. In both cases all elements are stacked and in range |
| `Triangulation.FlattenAt` | pypStag/stagViewer.py:2595-2607 | entry `Number(g)` of a flattened yin+yang list is the value at grid point g, for yin and yang points alike |
| `Triangulation.FlattenPermutes` | pypStag/stagViewer.py:2595-2607 | a flattened list holds exactly the yin and yang values, rearranged |
| `Triangulation.PointsOfAt` | pypStag/stagViewer.py:2595-2598 | row `Number(g)` of `Points` is the (x, y, z) triple of grid point g |
| `Triangulation.SurfaceMatchesUpper` | pypStag/stagViewer.py:2532-2563 | the hull's surface point t is the point `Points[num_upper[t]]` at `iz = Nz-2`, so each hull triangle is the upper face of its prism |
| `Triangulation.Stack` | pypStag/stagViewer.py:2601-2655 | `'Scalar'`/`''` gives one list and `'Vectorial'` gives seven. Any other nature is the unbound-`vstack` error. A field array of the wrong size is a reshape error |
| `Triangulation.StackIsAligned` | pypStag/stagViewer.py:2601-2655 | every `vstack` list (scalar, or each of x, y, z, r, theta, phi, P) is indexed by the global numbers, like `Points` |
| `Triangulation.SurfaceTriangulation` | pypStag/stagViewer.py:2466-2657 | Nz = 0 is an error, and so are coordinate arrays that do not reshape to NxNy×Nz. Otherwise the run fails exactly when `vstack` fails. On success: NxNy = len(x1)/Nz, `Points` row-aligned with the numbers, elements as in `ElementNumbers` over the hull of the surface points, and `vstack` aligned |
| `Builder.SelectComponent` | pypStag/stagViewer.py:124-162 | a name selects component c exactly when it is one of c's names and c is `v` or the data is vectorial. A known vector name on other data raises StagMapFieldError(field, geometry, nature). Any other name raises StagMapUnknownFieldError |
| `Builder.FieldNamesAreComponentNames` | pypStag/stagViewer.py:124-162 | the names the chain recognises are exactly the component names (`v`/`scalar`, `vx`, `vy`, `vz`, `vphi`, `vtheta`, `vr`, `p`/`P`) |
| `Builder.IntToStringParses` | pypStag/stagViewer.py:172-174 | `str()` of an int axis reads back as the same int |
| `Builder.Title` | pypStag/stagViewer.py:167-177 | a given title is used unchanged. Otherwise a non-empty generic title is used. Otherwise the automatic title is built |
| `Builder.AutoTitleShape` | pypStag/stagViewer.py:167-177 | the automatic title starts with `stagMap: axis=<axis>`, then ` normal=<normal>` when axis is 0 or 'annulus' and ` layer=<layer>` otherwise, and ends with ` field=` and the fieldType, wrapped as `log10(...)` for log plots |
| `Builder.AutoTitleNamesAxis` | pypStag/stagViewer.py:172-174 | the axis of an automatic title with an int axis can be read back from the title |
| `Builder.Cart3DAutoTitle` | pypStag/stagViewer.py:392 | the Cartesian maps pass axis, normal and layer as None, so their automatic title is `stagMap: axis=None layer=None field=...` |
| `Builder.Bound` | pypStag/stagViewer.py:179-186 | a vmin/vmax set in the plot parameters overrides the data extremum |
| `Builder.Build` | pypStag/stagViewer.py:98-190 | a geometry outside cart2D/cart3D/annulus/yy/spherical raises VisuGridGeometryError. Otherwise field errors propagate. Otherwise the result is the selected component (log10 applied when set), the defaulted title, and bounds taken from the parameters or from the extrema of the returned field |
| `Builder.GeometryCheckedFirst` | pypStag/stagViewer.py:103-106 | with a bad geometry the result does not depend on the field name |
| `Builder.ScalarAlwaysDrawable` | pypStag/stagViewer.py:124-165 | on every drawable geometry, `v` and `scalar` succeed and select `stagData.v`, or `log10(stagData.v)` on log plots, whatever the field nature |
| `Arrows.FirstAtMostIsLargest` | pypStag/stagViewer.py:348-351 | on a descending candidate list, the first entry that fits is the largest entry at most the limit |
| `Arrows.DefaultCount` | pypStag/stagViewer.py:348-351 | the default count is one of 1000, 100, 10, 1, 0. It is at most `len(xa)`, and no larger candidate is |
| `Arrows.DefaultArrowCount` | pypStag/stagViewer.py:348-351 | the `while noa > len(xa): noa = int(noa/10)` loop terminates with the largest of 1000, 100, 10, 1, 0 not exceeding `len(xa)` (same code at 496-499) |
| `Arrows.ArrowCount` | pypStag/stagViewer.py:340-354 | `plotparam_velo.noa` when arrow parameters are given, else the default count, which is at most `len(xa)` |
| `Arrows.ChooseMask` | pypStag/stagViewer.py:356-360 | a given `mask_arrowsID` is used verbatim (same code at 504-508). Otherwise `random.sample` gives `noa` distinct indices of `xa`, or raises when `noa` is negative or exceeds `len(xa)` |
| `Arrows.Take` | pypStag/stagViewer.py:361-364 | `xa[mask]` succeeds exactly when every index is in `[-len, len)`, and then returns the entries at the mask's indices, in mask order |
| `Arrows.DefaultArrowsAreDrawn` | pypStag/stagViewer.py:347-364 | with neither a mask nor arrow parameters, sampling always succeeds and exactly DefaultCount(len(xa)) arrows are drawn |
| `Arrows.GivenMaskIsUsed` | pypStag/stagViewer.py:357-364 | a caller's in-range mask selects exactly the entries it indexes |
| `Arrows.AnnulusMaskAsWritten` | pypStag/stagViewer.py:724-746 | as written: a given mask fails at line 742. With default parameters, sampling succeeds only when there are at least 1000 points |
| `Arrows.AnnulusDropsGivenMask` | pypStag/stagViewer.py:742 | a concrete call with a mask fails with the unbound-mask error |
| `Arrows.AnnulusDefaultTooLarge` | pypStag/stagViewer.py:733-740 | a concrete call on 999 points with default parameters fails in `random.sample` |
| `Arrows.AnnulusMask` | pypStag/stagViewer.py:724-746 | corrected: a given mask is used verbatim, and the default count is reduced so that sampling always succeeds |

## Left out

- Every matplotlib, cartopy and pyqtgraph/OpenGL call: figures, colour maps and colour bars, quiver, polar axes, the Qt event loop, `savefig`. They have no result that can be stated.
- `scipy.spatial.ConvexHull` and `scipy.interpolate.griddata`, which are foreign code. The hull is a total function parameter that returns triangles over the points it is given. The Qhull failure on degenerate point sets is not modelled.
- `random.sample` is nondeterministic. Its result is an input, constrained to `noa` distinct in-range indices.
- Floating-point work: `np.log10`, `np.amin`/`np.amax` (parameters), `np.linspace` levels, the `Qscale` mean, pollen rescaling and smoothing, `Rgt` and the rotation fit, the slicing-plane projection, the annulus `+ dtheta` closing.
- `int(len(x1)/Nz)` goes through a float division. It is modelled as exact floor division, which differs only past 2^53 points.
- `PlotParam()` defaults and `PlotParam.update()`: stagViewerMod.py is not part of this model. The builder takes the already-updated `title`, `log10`, `vmin` and `vmax`.
- The colour-map choice in `__builder` (pypStag/stagViewer.py:108-122) depends on `GCMTcolormap`; cptReader.py is not part of this model.
- `SliceData.slicing` and `sliceYYInterpolator_mapping`: stagData.py and stagInterpolator.py are not part of this model.
- `Builder.Str`: Python's `str()` is modelled for None, ints, strings and lists of ints only. A float, bool, tuple or numpy-array axis, normal or layer is not covered; numpy prints an array `normal` as `[1 0 0]` and a tuple prints as `(1, 0, 0)`, which the model does not produce.
- The verbose `im(...)` and `print()` progress messages (pypStag/stagViewer.py:2480-2485, 2529, 2593, and 2250-2255 in the nested copy) are console output with no effect on the result.
- `Triangulation.SurfaceTriangulation`: a triangle index of `2*NxNy` or more would raise IndexError in `num_upper[t]`. The model instead requires the hull to return in-range indices, which ConvexHull guarantees.
- setup.py, which is packaging metadata.

## Findings

| source | as written | input that shows it | evidently intended | confidence | as-written member | corrected member |
|---|---|---|---|---|---|---|
| pypStag/stagViewer.py:742 | `mask_arrows == mask_arrowsID` compares instead of assigning. `mask_arrows` is unbound at that point, so the call raises UnboundLocalError | annulus map with a velocity field and `mask_arrowsID=[0, 1]` | `mask_arrows = mask_arrowsID`, as at lines 360 and 508 | high, not executed | `Arrows.AnnulusDropsGivenMask` | `Arrows.AnnulusMask` |
| pypStag/stagViewer.py:733 | default `noa = 1000` is not reduced, so `random.sample(id, 1000)` raises ValueError on slices with fewer than 1000 points | annulus velocity slice of 999 points, no `plotparam_velo`, no mask | reduce `noa` by tens until it fits, as at lines 349-351 and 497-499 | medium, not executed | `Arrows.AnnulusDefaultTooLarge` | `Arrows.AnnulusMask` |
