/**
 * The regrid branch of `run()` up to the hand-over to the resize filter:
 * which grid the output starts from, which single resize request is
 * applied to it, and the interpolation, oversampling, out-of-bounds value
 * and output data type. The resampling itself is done by the filter.
 */
module RegridPlanner {
  import opened Wrappers
  import opened Command

  /** Oversampling: derived from the voxel sizes, or the factors given. */
  datatype Oversample = Auto | Factors(factors: seq<int>)

  /** The one resize request passed to the filter. */
  datatype Resize = ScaleBy(factors: seq<real>) | ToSize(dims: seq<int>) | ToVoxel(spacing: seq<real>)

  /** The filter's grid before the resize request is applied. */
  datatype Grid = Grid(size: seq<int>, spacing: seq<real>, transform: seq<real>)

  datatype RegridPlan = RegridPlan(
    grid: Grid,
    resize: Option<Resize>,
    interp: Interp,
    oversample: Oversample,
    outOfBounds: OutOfBounds,
    outputType: DataType)

  /** A single value stands for all three spatial axes. */
  function Broadcast(v: seq<real>): seq<real> {
    if |v| == 1 then [v[0], v[0], v[0]] else v
  }

  /** The input grid with the template's spatial sizes, spacings and transform. */
  function TemplateGrid(input: Header, t: Header): Grid
    requires ValidInput(input) && t.WellFormed() && |t.size| >= 3
  {
    Grid(seq(|input.size|, a requires 0 <= a < |input.size| => if a < 3 then t.size[a] else input.size[a]),
         seq(|input.spacing|, a requires 0 <= a < |input.spacing| => if a < 3 then t.spacing[a] else input.spacing[a]),
         t.transform)
  }

  /** How many of -scale, -size and -voxel are given. */
  function ResizeOptionCount(opts: Options): nat {
    (if opts.scale.Some? then 1 else 0) + (if opts.size.Some? then 1 else 0) + (if opts.voxel.Some? then 1 else 0)
  }

  function RequestedResize(opts: Options): Option<Resize> {
    if opts.scale.Some? then Some(ScaleBy(Broadcast(opts.scale.value)))
    else if opts.size.Some? then Some(ToSize(opts.size.value))
    else if opts.voxel.Some? then Some(ToVoxel(Broadcast(opts.voxel.value)))
    else None
  }

  /** Nearest-neighbour keeps the input's type; any other interpolation writes floats. */
  function DefaultOutputType(interp: Interp, input: DataType): DataType {
    if interp == Nearest then input else Float32
  }

  /** The regrid plan, or the first error the branch throws. */
  function Regridding(input: Header, opts: Options, oob: OutOfBounds): Result<RegridPlan, Error>
    requires ValidInput(input) && opts.WellFormed()
  {
    if opts.template.Some? && |opts.template.value.size| < 3 then Failure(TemplateTooFewDims)
    else if ResizeOptionCount(opts) == 0 && opts.template.None? then Failure(NoResizeMethod)
    else if ResizeOptionCount(opts) > 1 then Failure(MultipleResizeMethods)
    else
      var interp := opts.interp.GetOr(Cubic);
      Success(RegridPlan(
        if opts.template.Some? then TemplateGrid(input, opts.template.value)
        else Grid(input.size, input.spacing, input.transform),
        RequestedResize(opts),
        interp,
        if opts.oversample.Some? then Factors(opts.oversample.value) else Auto,
        oob,
        opts.dataType.GetOr(DefaultOutputType(interp, input.dataType))))
  }

  /** The branch as written: the filter's settings and the two option counters, updated option by option. */
  method PlanRegrid(input: Header, opts: Options, oob: OutOfBounds) returns (r: Result<RegridPlan, Error>)
    requires ValidInput(input) && opts.WellFormed()
    ensures r == Regridding(input, opts, oob)
  {
    var resizeOptionCount := 0;
    var templateOptionCount := 0;

    var interp := Cubic;
    if opts.interp.Some? {
      interp := opts.interp.value;
    }
    var oversample := Auto;
    if opts.oversample.Some? {
      oversample := Factors(opts.oversample.value);
    }

    var size, spacing, transform := input.size, input.spacing, input.transform;
    if opts.template.Some? {
      var t := opts.template.value;
      if |t.size| < 3 {
        return Failure(TemplateTooFewDims);
      }
      for i := 0 to 3
        invariant |size| == |input.size| && |spacing| == |input.spacing|
        invariant forall a :: 0 <= a < |size| ==> size[a] == (if a < i then t.size[a] else input.size[a])
        invariant forall a :: 0 <= a < |spacing| ==> spacing[a] == (if a < i then t.spacing[a] else input.spacing[a])
      {
        spacing := spacing[i := t.spacing[i]];
        size := size[i := t.size[i]];
      }
      transform := t.transform;
      assert size == TemplateGrid(input, t).size && spacing == TemplateGrid(input, t).spacing;
      templateOptionCount := templateOptionCount + 1;
    }

    var resize: Option<Resize> := None;
    if opts.scale.Some? {
      var scale := opts.scale.value;
      if |scale| == 1 {
        scale := [scale[0], scale[0], scale[0]];
      }
      resize := Some(ScaleBy(scale));
      resizeOptionCount := resizeOptionCount + 1;
    }
    if opts.size.Some? {
      resize := Some(ToSize(opts.size.value));
      resizeOptionCount := resizeOptionCount + 1;
    }
    if opts.voxel.Some? {
      var voxel := opts.voxel.value;
      if |voxel| == 1 {
        voxel := [voxel[0], voxel[0], voxel[0]];
      }
      resize := Some(ToVoxel(voxel));
      resizeOptionCount := resizeOptionCount + 1;
    }

    if resizeOptionCount == 0 && templateOptionCount == 0 {
      return Failure(NoResizeMethod);
    }
    if resizeOptionCount > 1 {
      return Failure(MultipleResizeMethods);
    }

    var outputType := if interp == Nearest then input.dataType else Float32;
    if opts.dataType.Some? {
      outputType := opts.dataType.value;
    }
    r := Success(RegridPlan(Grid(size, spacing, transform), resize, interp, oversample, oob, outputType));
  }

  // ---------------------------------------------------------------- properties

  /**
   * Regridding needs a template of at least three dimensions if one is
   * given, and exactly one of -scale, -size, -voxel, or none of them with a
   * template; the template check comes first.
   */
  lemma RegridOutcome(input: Header, opts: Options, oob: OutOfBounds)
    requires ValidInput(input) && opts.WellFormed()
    ensures Regridding(input, opts, oob).Success? <==>
              (opts.template.Some? ==> |opts.template.value.size| >= 3) &&
              (ResizeOptionCount(opts) == 1 || (ResizeOptionCount(opts) == 0 && opts.template.Some?))
    ensures opts.template.Some? && |opts.template.value.size| < 3 ==> Regridding(input, opts, oob) == Failure(TemplateTooFewDims)
    ensures (opts.template.None? || |opts.template.value.size| >= 3) && ResizeOptionCount(opts) > 1 ==>
              Regridding(input, opts, oob) == Failure(MultipleResizeMethods)
    ensures opts.template.None? && ResizeOptionCount(opts) == 0 ==> Regridding(input, opts, oob) == Failure(NoResizeMethod)
  {
  }

  /** Any two of -scale, -size and -voxel together are rejected. */
  lemma TwoResizeMethodsRejected(input: Header, opts: Options, oob: OutOfBounds)
    requires ValidInput(input) && opts.WellFormed()
    requires (opts.scale.Some? && opts.voxel.Some?) || (opts.scale.Some? && opts.size.Some?) || (opts.size.Some? && opts.voxel.Some?)
    ensures Regridding(input, opts, oob).Failure?
  {
  }

  /** A single scale factor or voxel size is used for all three spatial axes; a list is passed on as given. */
  lemma SingleValueBroadcast(input: Header, opts: Options, oob: OutOfBounds)
    requires ValidInput(input) && opts.WellFormed() && Regridding(input, opts, oob).Success?
    ensures opts.scale.Some? ==>
              Regridding(input, opts, oob).value.resize ==
              Some(ScaleBy(if |opts.scale.value| == 1 then seq(3, _ => opts.scale.value[0]) else opts.scale.value))
    ensures opts.voxel.Some? ==>
              Regridding(input, opts, oob).value.resize ==
              Some(ToVoxel(if |opts.voxel.value| == 1 then seq(3, _ => opts.voxel.value[0]) else opts.voxel.value))
    ensures opts.size.Some? ==> Regridding(input, opts, oob).value.resize == Some(ToSize(opts.size.value))
    ensures ResizeOptionCount(opts) == 0 ==> Regridding(input, opts, oob).value.resize.None?
  {
    if opts.scale.Some? && |opts.scale.value| == 1 {
      assert seq(3, _ => opts.scale.value[0]) == [opts.scale.value[0], opts.scale.value[0], opts.scale.value[0]];
    }
    if opts.voxel.Some? && |opts.voxel.value| == 1 {
      assert seq(3, _ => opts.voxel.value[0]) == [opts.voxel.value[0], opts.voxel.value[0], opts.voxel.value[0]];
    }
  }

  /**
   * Without a -datatype option the output keeps the input's type under
   * nearest-neighbour interpolation and is float otherwise; the default
   * interpolation is cubic.
   */
  lemma RegridOutputType(input: Header, opts: Options, oob: OutOfBounds)
    requires ValidInput(input) && opts.WellFormed() && Regridding(input, opts, oob).Success?
    ensures opts.interp.None? ==> Regridding(input, opts, oob).value.interp == Cubic
    ensures opts.dataType.None? && Regridding(input, opts, oob).value.interp == Nearest ==>
              Regridding(input, opts, oob).value.outputType == input.dataType
    ensures opts.dataType.None? && Regridding(input, opts, oob).value.interp != Nearest ==>
              Regridding(input, opts, oob).value.outputType == Float32
    ensures opts.dataType.Some? ==> Regridding(input, opts, oob).value.outputType == opts.dataType.value
  {
  }

  /**
   * A template replaces the spatial sizes, spacings and the transform of
   * the grid the resize request then applies to; the other axes keep the
   * input's. Without a template the grid is the input's.
   */
  lemma TemplateSetsGrid(input: Header, opts: Options, oob: OutOfBounds)
    requires ValidInput(input) && opts.WellFormed() && Regridding(input, opts, oob).Success?
    ensures var g := Regridding(input, opts, oob).value.grid;
      |g.size| == |input.size| && |g.spacing| == |input.spacing| &&
      (opts.template.Some? ==>
        g.transform == opts.template.value.transform &&
        (forall a :: 0 <= a < 3 ==> g.size[a] == opts.template.value.size[a] && g.spacing[a] == opts.template.value.spacing[a]) &&
        (forall a :: 3 <= a < |g.size| ==> g.size[a] == input.size[a]) &&
        (forall a :: 3 <= a < |g.spacing| ==> g.spacing[a] == input.spacing[a])) &&
      (opts.template.None? ==> g == Grid(input.size, input.spacing, input.transform))
  {
  }
}
