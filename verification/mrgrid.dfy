/**
 * `run()` of the mrgrid command: the out-of-bounds value shared by all
 * three operations, then the regrid branch or the crop/pad branch, up to
 * the description of the output image that is handed to the resampling
 * filter or the regrid adapter.
 */
module Mrgrid {
  import opened Wrappers
  import opened Command
  import opened BoundsSpec
  import BoundsResolver
  import opened RegridPlanner

  /** What the command writes: a resampled image, or a cropped or padded one. */
  datatype Plan =
    | Regridded(regrid: RegridPlan)
    | CropPadded(region: Region, outOfBounds: OutOfBounds, outputType: DataType)

  /** -nan and -fill exclude each other; without either the value is 0.0. */
  function OutOfBoundsValue(nan: bool, fill: Option<real>): Result<OutOfBounds, Error> {
    match fill
    case Some(v) => if nan then Failure(FillAndNan) else Success(Fill(v))
    case None => Success(if nan then Nan else Fill(0.0))
  }

  /** The whole command: the output it describes, or the first error it throws. */
  function RunSpec(input: Header, op: Operation, opts: Options): Result<Plan, Error>
    requires ValidInput(input) && opts.WellFormed()
  {
    var oob :- OutOfBoundsValue(opts.nan, opts.fill);
    if op == Regrid then
      var p :- Regridding(input, opts, oob);
      Success(Regridded(p))
    else
      var region :- CropPad(input, op == Crop, opts);
      Success(CropPadded(region, oob, opts.dataType.GetOr(Float32)))
  }

  /** `run()` as written: the out-of-bounds value is set by -nan, then checked and overwritten by -fill. */
  method Run(input: Header, op: Operation, opts: Options) returns (r: Result<Plan, Error>)
    requires ValidInput(input) && opts.WellFormed()
    ensures r == RunSpec(input, op, opts)
  {
    var outOfBounds := Fill(0.0);
    if opts.nan {
      outOfBounds := Nan;
    }
    if opts.fill.Some? {
      if outOfBounds.Nan? {
        return Failure(FillAndNan);
      }
      outOfBounds := Fill(opts.fill.value);
    }

    if op == Regrid {
      var p := PlanRegrid(input, opts, outOfBounds);
      if p.Failure? {
        return Failure(p.error);
      }
      r := Success(Regridded(p.value));
    } else {
      var region := BoundsResolver.ResolveCropPad(input, op == Crop, opts);
      if region.Failure? {
        return Failure(region.error);
      }
      var outputType := Float32;
      if opts.dataType.Some? {
        outputType := opts.dataType.value;
      }
      r := Success(CropPadded(region.value, outOfBounds, outputType));
    }
  }

  // ---------------------------------------------------------------- properties

  /** Giving both -nan and -fill is an error whatever the operation and the other options. */
  lemma FillAndNanRejected(input: Header, op: Operation, opts: Options)
    requires ValidInput(input) && opts.WellFormed()
    requires opts.nan && opts.fill.Some?
    ensures RunSpec(input, op, opts) == Failure(FillAndNan)
  {
  }

  /** The value written outside the input is the -fill number, NaN with -nan, and 0.0 otherwise. */
  lemma OutOfBoundsUsed(input: Header, op: Operation, opts: Options)
    requires ValidInput(input) && opts.WellFormed() && RunSpec(input, op, opts).Success?
    ensures var plan := RunSpec(input, op, opts).value;
      var used := if plan.Regridded? then plan.regrid.outOfBounds else plan.outOfBounds;
      !(opts.nan && opts.fill.Some?) &&
      (opts.fill.Some? ==> used == Fill(opts.fill.value)) &&
      (opts.fill.None? && opts.nan ==> used == Nan) &&
      (opts.fill.None? && !opts.nan ==> used == Fill(0.0))
  {
  }

  /**
   * The operation chooses the branch: regrid succeeds exactly when the
   * regrid options are valid, crop and pad exactly when their bounds
   * resolve, and the result is then that branch's.
   */
  lemma RunDispatch(input: Header, op: Operation, opts: Options)
    requires ValidInput(input) && opts.WellFormed()
    requires !(opts.nan && opts.fill.Some?)
    ensures var oob := OutOfBoundsValue(opts.nan, opts.fill).value;
      (op == Regrid ==>
        (RunSpec(input, op, opts).Success? <==> Regridding(input, opts, oob).Success?) &&
        (Regridding(input, opts, oob).Success? ==> RunSpec(input, op, opts) == Success(Regridded(Regridding(input, opts, oob).value))) &&
        (Regridding(input, opts, oob).Failure? ==> RunSpec(input, op, opts) == Failure(Regridding(input, opts, oob).error))) &&
      (op != Regrid ==>
        (RunSpec(input, op, opts).Success? <==> CropPad(input, op == Crop, opts).Success?) &&
        (CropPad(input, op == Crop, opts).Success? ==> RunSpec(input, op, opts).value.region == CropPad(input, op == Crop, opts).value) &&
        (CropPad(input, op == Crop, opts).Failure? ==> RunSpec(input, op, opts) == Failure(CropPad(input, op == Crop, opts).error)))
  {
  }

  /**
   * Cropping and padding write floats unless -datatype says otherwise,
   * whatever the type of the input.
   */
  lemma CropPadOutputType(input: Header, op: Operation, opts: Options)
    requires ValidInput(input) && opts.WellFormed()
    requires op != Regrid && RunSpec(input, op, opts).Success?
    ensures RunSpec(input, op, opts).value.CropPadded?
    ensures RunSpec(input, op, opts).value.outputType == (if opts.dataType.Some? then opts.dataType.value else Float32)
  {
  }
}
