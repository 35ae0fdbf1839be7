/**
 * The checks and defaults of `__builder` in pypStag/stagViewer.py, shared by
 * every map routine: the grid geometry must be one the viewer can draw, the
 * requested field name selects a component of the data (vector components
 * only on vectorial data), the title comes from the caller, from the plot
 * parameters or is built automatically, and the colour range comes from the
 * plot parameters or from the data.
 *
 * Field arrays are of an opaque type F and range bounds of an opaque type V;
 * `np.log10`, `np.amin` and `np.amax` are passed in as functions on them.
 */
module Builder {
  import opened Outcomes

  /** What `__builder` reads from a StagData (or SliceData) object. */
  datatype StagFields<F> = StagFields(
    geometry: string, fieldNature: string, fieldType: string,
    v: F, vx: F, vy: F, vz: F, vphi: F, vtheta: F, vr: F, p: F)

  /** The PlotParam attributes `__builder` consults. */
  datatype PlotParam<V> = PlotParam(title: string, log10: bool, vmin: Option<V>, vmax: Option<V>)

  datatype MapError =
    | VisuGridGeometryError(geometry: string)
    | StagMapFieldError(field: string, geometry: string, nature: string)
    | StagMapUnknownFieldError(field: string)

  /** The data component a field name selects. */
  datatype Component = V | Vx | Vy | Vz | Vphi | Vtheta | Vr | P

  /** The geometries the viewer draws. */
  predicate IsPlotGeometry(g: string)
  {
    g == "cart2D" || g == "cart3D" || g == "annulus" || g == "yy" || g == "spherical"
  }

  /** The field names that select each component. */
  function ComponentNames(c: Component): set<string>
  {
    match c
    case V => {"v", "scalar"}
    case Vx => {"vx"}
    case Vy => {"vy"}
    case Vz => {"vz"}
    case Vphi => {"vphi"}
    case Vtheta => {"vtheta"}
    case Vr => {"vr"}
    case P => {"p", "P"}
  }

  /** The names the `if/elif` chain recognises. */
  predicate IsFieldName(field: string)
  {
    field in {"v", "scalar", "vx", "vy", "vz", "vphi", "vtheta", "vr", "p", "P"}
  }

  /** The recognised names are exactly the names of the components. */
  lemma FieldNamesAreComponentNames(field: string)
    ensures IsFieldName(field) <==> exists c :: field in ComponentNames(c)
  {
    if IsFieldName(field) {
      var c := if field in {"v", "scalar"} then V else if field == "vx" then Vx else if field == "vy" then Vy
               else if field == "vz" then Vz else if field == "vphi" then Vphi else if field == "vtheta" then Vtheta
               else if field == "vr" then Vr else P;
      assert field in ComponentNames(c);
    }
  }

  /** Only `v` can be drawn from scalar data; the rest need `fieldNature == 'Vectorial'`. */
  predicate Available(c: Component, nature: string) { c == V || nature == "Vectorial" }

  function FieldOf<F>(d: StagFields<F>, c: Component): F
  {
    match c
    case V => d.v
    case Vx => d.vx
    case Vy => d.vy
    case Vz => d.vz
    case Vphi => d.vphi
    case Vtheta => d.vtheta
    case Vr => d.vr
    case P => d.p
  }

  /**
   * The `if field == ... elif ...` chain: a known name on data that has the
   * component selects it; a vector component on non-vectorial data raises
   * StagMapFieldError; any other name raises StagMapUnknownFieldError.
   */
  function SelectComponent(field: string, nature: string, geometry: string): (r: Result<Component, MapError>)
    ensures r.Ok? ==> field in ComponentNames(r.value) && Available(r.value, nature)
    ensures forall c :: field in ComponentNames(c) ==>
      r == if Available(c, nature) then Ok(c) else Err(StagMapFieldError(field, geometry, nature))
    ensures !IsFieldName(field) ==> r == Err(StagMapUnknownFieldError(field))
  {
    var vectorial := nature == "Vectorial";
    if field == "scalar" || field == "v" then Ok(V)
    else if field == "vx" then (if vectorial then Ok(Vx) else Err(StagMapFieldError(field, geometry, nature)))
    else if field == "vy" then (if vectorial then Ok(Vy) else Err(StagMapFieldError(field, geometry, nature)))
    else if field == "vz" then (if vectorial then Ok(Vz) else Err(StagMapFieldError(field, geometry, nature)))
    else if field == "vphi" then (if vectorial then Ok(Vphi) else Err(StagMapFieldError(field, geometry, nature)))
    else if field == "vtheta" then (if vectorial then Ok(Vtheta) else Err(StagMapFieldError(field, geometry, nature)))
    else if field == "vr" then (if vectorial then Ok(Vr) else Err(StagMapFieldError(field, geometry, nature)))
    else if field == "p" || field == "P" then (if vectorial then Ok(P) else Err(StagMapFieldError(field, geometry, nature)))
    else Err(StagMapUnknownFieldError(field))
  }

  /** Each component has its own names: a field name selects at most one component. */
  lemma NamesDisjoint(c: Component, c': Component, field: string)
    requires field in ComponentNames(c) && field in ComponentNames(c')
    ensures c == c'
  {
  }

  // ---------------------------------------------------------------------
  // Python's str() of the title arguments
  // ---------------------------------------------------------------------

  /** The argument kinds that reach the title: None, an int, a str, a list of ints. */
  datatype PyArg = PyNone | PyInt(n: int) | PyStr(s: string) | PyIntList(items: seq<int>)

  function DigitChar(d: nat): char requires d < 10 { "0123456789"[d] }

  function DigitValue(ch: char): int
  {
    if '0' <= ch <= '9' then ch as int - '0' as int else -1
  }

  predicate IsDigits(s: string) { forall i :: 0 <= i < |s| ==> '0' <= s[i] <= '9' }

  /** Decimal digits of n, most significant first. */
  function NatToString(n: nat): (r: string)
    ensures |r| > 0 && IsDigits(r)
  {
    if n < 10 then [DigitChar(n)] else NatToString(n / 10) + [DigitChar(n % 10)]
  }

  /** `str(n)` for an int. */
  function IntToString(n: int): string
  {
    if n < 0 then "-" + NatToString(-n) else NatToString(n)
  }

  /** Value of a string of decimal digits. */
  function ParseDigits(s: string): int
  {
    if s == [] then 0 else ParseDigits(s[..|s| - 1]) * 10 + DigitValue(s[|s| - 1])
  }

  /** Inverse of `str` on ints: an optional minus sign, then digits. */
  function ParseInt(s: string): int
  {
    if |s| > 0 && s[0] == '-' then -ParseDigits(s[1..]) else ParseDigits(s)
  }

  lemma {:induction false} NatToStringParses(n: nat)
    ensures ParseDigits(NatToString(n)) == n
  {
    if n >= 10 {
      NatToStringParses(n / 10);
      var s := NatToString(n);
      assert s[..|s| - 1] == NatToString(n / 10);
    }
  }

  /** `str` on ints loses nothing: the text reads back as the same number. */
  lemma IntToStringParses(n: int)
    ensures ParseInt(IntToString(n)) == n
  {
    NatToStringParses(if n < 0 then -n else n);
    if n < 0 {
      assert IntToString(n)[1..] == NatToString(-n);
    }
  }

  function JoinInts(items: seq<int>): string
  {
    if items == [] then ""
    else if |items| == 1 then IntToString(items[0])
    else IntToString(items[0]) + ", " + JoinInts(items[1..])
  }

  /** `str(a)`. */
  function Str(a: PyArg): string
  {
    match a
    case PyNone => "None"
    case PyInt(n) => IntToString(n)
    case PyStr(s) => s
    case PyIntList(items) => "[" + JoinInts(items) + "]"
  }

  // ---------------------------------------------------------------------
  // Title and colour range
  // ---------------------------------------------------------------------

  /** Slices taken with a normal vector (`axis == 0` or `axis == 'annulus'`) name the normal, others the layer. */
  predicate NamesNormal(axis: PyArg) { axis == PyInt(0) || axis == PyStr("annulus") }

  /** The field part of the automatic title: the data's fieldType, wrapped in log10(...) for log plots. */
  function FieldLabel(fieldType: string, log10: bool): string
  {
    if log10 then "log10(" + fieldType + ")" else fieldType
  }

  function AutoTitle(axis: PyArg, normal: PyArg, layer: PyArg, fieldType: string, log10: bool): string
  {
    var field := FieldLabel(fieldType, log10);
    if NamesNormal(axis) then
      "stagMap: axis=" + Str(axis) + " normal=" + Str(normal) + " field=" + field
    else
      "stagMap: axis=" + Str(axis) + " layer=" + Str(layer) + " field=" + field
  }

  /** The title: the caller's, else the plot parameters' generic one, else the automatic one. */
  function Title(title: Option<string>, generic: string, axis: PyArg, normal: PyArg, layer: PyArg,
                 fieldType: string, log10: bool): (r: string)
    ensures title.Some? ==> r == title.value
    ensures title.None? && generic != "" ==> r == generic
    ensures title.None? && generic == "" ==> r == AutoTitle(axis, normal, layer, fieldType, log10)
  {
    match title
    case Some(t) => t
    case None => if generic == "" then AutoTitle(axis, normal, layer, fieldType, log10) else generic
  }

  predicate IsPrefix(p: string, s: string) { |p| <= |s| && s[..|p|] == p }

  predicate IsSuffix(p: string, s: string) { |p| <= |s| && s[|s| - |p|..] == p }

  /** The automatic title starts with the axis and ends with the field label. */
  lemma AutoTitleShape(axis: PyArg, normal: PyArg, layer: PyArg, fieldType: string, log10: bool)
    ensures var t := AutoTitle(axis, normal, layer, fieldType, log10);
      && IsPrefix("stagMap: axis=" + Str(axis), t)
      && IsSuffix(" field=" + FieldLabel(fieldType, log10), t)
      && (NamesNormal(axis) ==> IsPrefix("stagMap: axis=" + Str(axis) + " normal=" + Str(normal), t))
      && (!NamesNormal(axis) ==> IsPrefix("stagMap: axis=" + Str(axis) + " layer=" + Str(layer), t))
  {
    var head := "stagMap: axis=" + Str(axis);
    var m := if NamesNormal(axis) then " normal=" else " layer=";
    var s := if NamesNormal(axis) then Str(normal) else Str(layer);
    var field := FieldLabel(fieldType, log10);
    var mid := m + s;
    var tail := " field=" + field;
    var t := AutoTitle(axis, normal, layer, fieldType, log10);
    assert t == head + m + s + " field=" + field;
    ConcatAssoc(head, m, s);
    ConcatAssoc(head + mid, " field=", field);
    ConcatAssoc(head, mid, tail);
    PrefixOfConcat(head, mid + tail);
    PrefixOfConcat(head + mid, tail);
    SuffixOfConcat(head + mid, tail);
  }

  lemma PrefixOfConcat(a: string, b: string)
    ensures IsPrefix(a, a + b)
  {
    assert (a + b)[..|a|] == a;
  }

  lemma SuffixOfConcat(a: string, b: string)
    ensures IsSuffix(b, a + b)
  {
    assert (a + b)[|a|..] == b;
  }

  /** The text of an automatic title between "stagMap: axis=" and the next space. */
  function AxisText(t: string): string
  {
    var head := "stagMap: axis=";
    if IsPrefix(head, t) then UpToSpace(t[|head|..]) else ""
  }

  function UpToSpace(s: string): string
  {
    if s == [] || s[0] == ' ' then [] else [s[0]] + UpToSpace(s[1..])
  }

  lemma {:induction false} UpToSpaceOfConcat(a: string, b: string)
    requires NoSpace(a)
    requires |b| > 0 && b[0] == ' '
    ensures UpToSpace(a + b) == a
  {
    if a != [] {
      assert (a + b)[1..] == a[1..] + b;
      UpToSpaceOfConcat(a[1..], b);
    }
  }

  predicate NoSpace(s: string) { forall i :: 0 <= i < |s| ==> s[i] != ' ' }

  lemma IntToStringNoSpace(n: int)
    ensures NoSpace(IntToString(n))
  {
    var digits := NatToString(if n < 0 then -n else n);
    assert IsDigits(digits);
    if n < 0 {
      assert IntToString(n) == "-" + digits;
    }
  }

  lemma AxisTextOf(axis: string, rest: string)
    requires NoSpace(axis) && |rest| > 0 && rest[0] == ' '
    ensures AxisText("stagMap: axis=" + axis + rest) == axis
  {
    var head := "stagMap: axis=";
    var t := head + axis + rest;
    assert t == head + (axis + rest);
    PrefixOfConcat(head, axis + rest);
    assert t[|head|..] == axis + rest;
    UpToSpaceOfConcat(axis, rest);
  }

  lemma ConcatAssoc(a: string, b: string, c: string)
    ensures a + b + c == a + (b + c)
  {
  }

  /** An automatic title names an int axis unambiguously: the axis reads back from the title. */
  lemma AutoTitleNamesAxis(n: int, normal: PyArg, layer: PyArg, fieldType: string, log10: bool)
    ensures ParseInt(AxisText(AutoTitle(PyInt(n), normal, layer, fieldType, log10))) == n
  {
    var axis := IntToString(n);
    var field := FieldLabel(fieldType, log10);
    var head := "stagMap: axis=" + axis;
    var m := if NamesNormal(PyInt(n)) then " normal=" else " layer=";
    var s := if NamesNormal(PyInt(n)) then Str(normal) else Str(layer);
    var rest := m + s + " field=" + field;
    assert AutoTitle(PyInt(n), normal, layer, fieldType, log10) == head + m + s + " field=" + field;
    ConcatAssoc(head, m, s);
    ConcatAssoc(head, m + s, " field=");
    ConcatAssoc(head, m + s + " field=", field);
    IntToStringNoSpace(n);
    AxisTextOf(axis, rest);
    IntToStringParses(n);
  }

  /** `__map_cart3D` passes axis, normal and layer as None: its automatic title names a layer. */
  lemma Cart3DAutoTitle(fieldType: string, log10: bool)
    ensures AutoTitle(PyNone, PyNone, PyNone, fieldType, log10)
      == "stagMap: axis=None layer=None field=" + FieldLabel(fieldType, log10)
  {
  }

  /** A bound set in the plot parameters wins over the data's extremum. */
  function Bound<V>(given: Option<V>, extremum: V): (r: V)
    ensures given.Some? ==> r == given.value
    ensures given.None? ==> r == extremum
  {
    match given
    case Some(b) => b
    case None => extremum
  }

  // ---------------------------------------------------------------------
  // The builder
  // ---------------------------------------------------------------------

  /** The outputs `title, stagfield, vmin, vmax` of `__builder`. */
  datatype Built<F, V> = Built(title: string, stagfield: F, vmin: V, vmax: V)

  function Build<F, V>(d: StagFields<F>, field: string, axis: PyArg, normal: PyArg, layer: PyArg,
                       title: Option<string>, pp: PlotParam<V>,
                       log10: F -> F, amin: F -> V, amax: F -> V): (r: Result<Built<F, V>, MapError>)
    ensures !IsPlotGeometry(d.geometry) ==> r == Err(VisuGridGeometryError(d.geometry))
    ensures IsPlotGeometry(d.geometry) ==>
      match SelectComponent(field, d.fieldNature, d.geometry)
      case Err(e) => r == Err(e)
      case Ok(c) =>
        var f := if pp.log10 then log10(FieldOf(d, c)) else FieldOf(d, c);
        && r.Ok? && r.value.stagfield == f
        && r.value.title == Title(title, pp.title, axis, normal, layer, d.fieldType, pp.log10)
        && r.value.vmin == Bound(pp.vmin, amin(f))
        && r.value.vmax == Bound(pp.vmax, amax(f))
  {
    if !IsPlotGeometry(d.geometry) then Err(VisuGridGeometryError(d.geometry))
    else
      match SelectComponent(field, d.fieldNature, d.geometry)
      case Err(e) => Err(e)
      case Ok(c) =>
        var raw := FieldOf(d, c);
        var stagfield := if pp.log10 then log10(raw) else raw;
        var t := Title(title, pp.title, axis, normal, layer, d.fieldType, pp.log10);
        Ok(Built(t, stagfield, Bound(pp.vmin, amin(stagfield)), Bound(pp.vmax, amax(stagfield))))
  }

  /** The geometry is checked before anything else: a bad geometry fails whatever the field name. */
  lemma GeometryCheckedFirst<F, V>(d: StagFields<F>, field: string, field': string, axis: PyArg, normal: PyArg,
                                   layer: PyArg, title: Option<string>, pp: PlotParam<V>,
                                   log10: F -> F, amin: F -> V, amax: F -> V)
    requires !IsPlotGeometry(d.geometry)
    ensures Build(d, field, axis, normal, layer, title, pp, log10, amin, amax)
         == Build(d, field', axis, normal, layer, title, pp, log10, amin, amax)
  {
  }

  /** `v` and `scalar` draw `stagData.v` (through log10 on log plots) on every drawable geometry and field nature. */
  lemma ScalarAlwaysDrawable<F, V>(d: StagFields<F>, field: string, axis: PyArg, normal: PyArg, layer: PyArg,
                                   title: Option<string>, pp: PlotParam<V>,
                                   log10: F -> F, amin: F -> V, amax: F -> V)
    requires IsPlotGeometry(d.geometry) && (field == "v" || field == "scalar")
    ensures var r := Build(d, field, axis, normal, layer, title, pp, log10, amin, amax);
      r.Ok? && r.value.stagfield == (if pp.log10 then log10(d.v) else d.v)
  {
  }
}
