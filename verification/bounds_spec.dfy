/**
 * The crop/pad bounds of `mrgrid`, stage by stage, as functions on the
 * sequence of per-axis bounds. Every axis starts at [0, size - 1]; the
 * mask, `-as`, `-uniform` and `-axis` stages then update the bounds in
 * that fixed order, and the result is turned into the `from`/`size`
 * region handed to the regridding adapter, with the count of changed axes.
 */
module BoundsSpec {
  import opened Wrappers
  import opened SpecText
  import opened Command

  /**
   * Inclusive voxel bounds of one output axis, as indices into the input
   * grid: a negative lower bound or an upper bound past the last voxel pads.
   */
  datatype Range = Range(lower: int, upper: int)

  function Min(a: int, b: int): int {
    if a <= b then a else b
  }

  function Max(a: int, b: int): int {
    if a >= b then a else b
  }

  /** Every axis spans the whole input. */
  function InitialBounds(sizes: seq<int>): seq<Range> {
    seq(|sizes|, a requires 0 <= a < |sizes| => Range(0, sizes[a] - 1))
  }

  /** The axes the `-as` and `-uniform` options and the change count consider: all with `-nd`, else the spatial three. */
  function AxesConsidered(input: Header, opts: Options): nat {
    if opts.allAxes then |input.size| else 3
  }

  // ---------------------------------------------------------------- mask

  /** Before the scan the spatial axes hold the empty seeds [size, 0]. */
  function MaskSeeds(b: seq<Range>, sizes: seq<int>): seq<Range>
    requires |b| == |sizes| >= 3
  {
    seq(|b|, a requires 0 <= a < |b| => if a < 3 then Range(sizes[a], 0) else b[a])
  }

  function Widen(r: Range, i: int): Range {
    Range(Min(r.lower, i), Max(r.upper, i))
  }

  /** One step of the scan: a set voxel widens the spatial bounds to include its position. */
  function Visit(b: seq<Range>, v: MaskVoxel): seq<Range>
    requires |b| >= 3
  {
    seq(|b|, a requires 0 <= a < |b| => if v.value && a < 3 then Widen(b[a], v.Index(a)) else b[a])
  }

  /** The scan of a run of voxels, one after the other. */
  function Scan(b: seq<Range>, vs: seq<MaskVoxel>): (r: seq<Range>)
    requires |b| >= 3
    ensures |r| == |b|
    decreases |vs|
  {
    if |vs| == 0 then b else Visit(Scan(b, vs[..|vs| - 1]), vs[|vs| - 1])
  }

  /** What the destructor of a worker's accumulator does to the shared bounds. */
  function Merge(overall: seq<Range>, local: seq<Range>): seq<Range>
    requires |overall| == |local| >= 3
  {
    seq(|overall|, a requires 0 <= a < |overall| =>
      if a < 3 then Range(Min(local[a].lower, overall[a].lower), Max(local[a].upper, overall[a].upper))
      else overall[a])
  }

  /** One voxel of margin on each side, unless that side is already at the edge of the grid. */
  function MarginAxis(r: Range, n: int): Range {
    Range(if r.lower != 0 then r.lower - 1 else r.lower,
          if r.upper < n - 1 then r.upper + 1 else r.upper)
  }

  /** The check for an empty mask and the margin, axis by axis from `axis` on. */
  function Margin(b: seq<Range>, msize: seq<int>, axis: nat): (r: Result<seq<Range>, Error>)
    requires |b| >= 3 && |msize| >= 3 && axis <= 3
    ensures r.Success? ==> |r.value| == |b|
    decreases 3 - axis
  {
    if axis == 3 then Success(b)
    else if b[axis].lower > b[axis].upper then Failure(EmptyMask)
    else Margin(b[axis := MarginAxis(b[axis], msize[axis])], msize, axis + 1)
  }

  /** check_dimensions on axes 0-2. */
  predicate SameSpatialGrid(mask: MaskImage, sizes: seq<int>)
    requires |sizes| >= 3
  {
    |mask.size| >= 3 && mask.size[..3] == sizes[..3]
  }

  /** The whole `-mask` stage of a crop. */
  function MaskStage(b: seq<Range>, sizes: seq<int>, mask: MaskImage): (r: Result<seq<Range>, Error>)
    requires |b| == |sizes| >= 3
    ensures r.Success? ==> |r.value| == |b|
  {
    if !SameSpatialGrid(mask, sizes) then Failure(MaskDimensionMismatch)
    else Margin(Scan(MaskSeeds(b, sizes), mask.voxels), mask.size, 0)
  }

  function MaskStep(b: seq<Range>, sizes: seq<int>, crop: bool, mask: Option<MaskImage>): (r: Result<seq<Range>, Error>)
    requires |b| == |sizes| >= 3
    ensures r.Success? ==> |r.value| == |b|
  {
    match mask
    case None => Success(b)
    case Some(m) => if !crop then Failure(MaskWithPad) else MaskStage(b, sizes, m)
  }

  // ---------------------------------------------------------------- -as

  /** The upper bound follows the reference image's extent; the lower bound is kept. */
  function AsAxis(r: Range, a: nat, crop: bool, ref: seq<int>): Range {
    if a >= |ref| then (if crop then Range(r.lower, 0) else r)
    else if crop then Range(r.lower, Min(r.upper, ref[a] - 1))
    else Range(r.lower, Max(r.upper, ref[a] - 1))
  }

  function AsStage(b: seq<Range>, nd: nat, crop: bool, ref: seq<int>): seq<Range> {
    seq(|b|, a requires 0 <= a < |b| => if a < nd then AsAxis(b[a], a, crop, ref) else b[a])
  }

  function AsStep(b: seq<Range>, nd: nat, crop: bool, hasMask: bool, reference: Option<Header>): (r: Result<seq<Range>, Error>)
    ensures r.Success? ==> |r.value| == |b|
  {
    match reference
    case None => Success(b)
    case Some(t) => if hasMask then Failure(MaskAndAs) else Success(AsStage(b, nd, crop, t.size))
  }

  // ---------------------------------------------------------------- -uniform

  /** Cropping by v moves both ends inwards by v; padding moves them outwards. */
  function UniformAxis(r: Range, crop: bool, v: int): Range {
    Range(r.lower + (if crop then v else -v), r.upper + (if crop then -v else v))
  }

  function UniformStage(b: seq<Range>, nd: nat, crop: bool, v: int): seq<Range> {
    seq(|b|, a requires 0 <= a < |b| => if a < nd then UniformAxis(b[a], crop, v) else b[a])
  }

  function UniformStep(b: seq<Range>, nd: nat, crop: bool, uniform: Option<int>): (r: seq<Range>)
    ensures |r| == |b|
  {
    match uniform
    case None => b
    case Some(v) => UniformStage(b, nd, crop, v)
  }

  // ---------------------------------------------------------------- -axis

  /** The "lower,upper" form: voxels removed (crop) or added (pad) at each end of the whole axis. */
  function DeltaRange(size: int, crop: bool, delta: seq<int>): Range
    requires |delta| == 2
  {
    Range(if crop then delta[0] else -delta[0], size - 1 + (if crop then -delta[1] else delta[1]))
  }

  /**
   * The bounds one `-axis` specifier sets, on an axis of `size` voxels.
   * Without ':' it is the delta form; a parse failure there is caught and
   * not rethrown, so the delta list stays empty and the size check
   * rejects it. With ':' it is the absolute form "start:stop", where stop
   * may be `end`.
   */
  function AxisRange(size: int, crop: bool, axis: nat, spec: string): (r: Result<Range, Error>)
    ensures r.Failure? ==> r.error == (if FindFirst(spec, ':').None? then BadDeltaSpec(axis) else BadRangeSpec(axis))
    ensures FindFirst(spec, ':').None? ==>
              (r.Success? <==> ParseInts(spec).Some? && |ParseInts(spec).value| == 2)
    ensures FindFirst(spec, ':').Some? && r.Success? ==>
              Some(r.value.lower) == StoI(Strip(spec[..FindFirst(spec, ':').value]))
  {
    match FindFirst(spec, ':')
    case None =>
      var delta := ParseInts(spec).GetOr([]);
      if |delta| != 2 then Failure(BadDeltaSpec(axis)) else Success(DeltaRange(size, crop, delta))
    case Some(c) =>
      match StoI(Strip(spec[..c]))
      case None => Failure(BadRangeSpec(axis))
      case Some(lower) =>
        var token := Strip(spec[c + 1..]);
        if IsEnd(token) then Success(Range(lower, size - 1))
        else match StoI(token)
          case None => Failure(BadRangeSpec(axis))
          case Some(upper) => Success(Range(lower, upper))
  }

  /** One `-axis` option: the index check, the specifier, and the emptiness check of that axis. */
  function ApplyAxisOption(b: seq<Range>, sizes: seq<int>, crop: bool, opt: AxisOption): (r: Result<seq<Range>, Error>)
    requires |b| == |sizes|
    ensures r.Success? ==> |r.value| == |b|
  {
    if opt.index >= |sizes| then Failure(AxisOutOfRange(opt.index))
    else
      var range :- AxisRange(sizes[opt.index], crop, opt.index, opt.spec);
      if range.upper < range.lower then Failure(EmptyAxis(opt.index, range.lower, range.upper))
      else Success(b[opt.index := range])
  }

  /** All `-axis` options, in the order given; the first failure stops the command. */
  function AxisOptions(b: seq<Range>, sizes: seq<int>, crop: bool, opts: seq<AxisOption>): (r: Result<seq<Range>, Error>)
    requires |b| == |sizes|
    ensures r.Success? ==> |r.value| == |b|
    decreases |opts|
  {
    if |opts| == 0 then Success(b)
    else
      var b1 :- ApplyAxisOption(b, sizes, crop, opts[0]);
      AxisOptions(b1, sizes, crop, opts[1..])
  }

  // ---------------------------------------------------------------- result

  /** What the adapter receives: the first voxel and the extent of every axis, with the number of changed axes. */
  datatype Region = Region(from: seq<int>, size: seq<int>, changedAxes: nat) {
    /** The "no axes were changed" warning fires. */
    predicate NoAxesChanged() {
      changedAxes == 0
    }
  }

  predicate AxisChanged(r: Range, n: int) {
    r.lower != 0 || n != r.upper - r.lower + 1
  }

  /** How many of the first `nd` axes changed. */
  function ChangedCount(b: seq<Range>, sizes: seq<int>, nd: nat): nat
    requires nd <= |b| && nd <= |sizes|
  {
    if nd == 0 then 0
    else ChangedCount(b, sizes, nd - 1) + (if AxisChanged(b[nd - 1], sizes[nd - 1]) then 1 else 0)
  }

  function FinalRegion(b: seq<Range>, sizes: seq<int>, nd: nat): Region
    requires nd <= |b| == |sizes|
  {
    Region(seq(|b|, a requires 0 <= a < |b| => b[a].lower),
           seq(|b|, a requires 0 <= a < |b| => b[a].upper - b[a].lower + 1),
           ChangedCount(b, sizes, nd))
  }

  /** The options that count as a crop or pad specification: mask, -as, -uniform, each -axis. */
  function CropPadOptionCount(opts: Options): nat {
    (if opts.mask.Some? then 1 else 0) + (if opts.reference.Some? then 1 else 0) +
    (if opts.uniform.Some? then 1 else 0) + |opts.axes|
  }

  /** The bounds the mask, `-as` and `-uniform` stages hand to the `-axis` options. */
  function BeforeAxisOptions(input: Header, crop: bool, opts: Options): (r: Result<seq<Range>, Error>)
    requires ValidInput(input)
    ensures r.Success? ==> |r.value| == |input.size|
  {
    var sizes := input.size;
    var nd := AxesConsidered(input, opts);
    var b1 :- MaskStep(InitialBounds(sizes), sizes, crop, opts.mask);
    var b2 :- AsStep(b1, nd, crop, opts.mask.Some?, opts.reference);
    Success(UniformStep(b2, nd, crop, opts.uniform))
  }

  /** The bounds after every stage, before the check that some option was given. */
  function ResolvedBounds(input: Header, crop: bool, opts: Options): (r: Result<seq<Range>, Error>)
    requires ValidInput(input)
    ensures r.Success? ==> |r.value| == |input.size|
  {
    var b3 :- BeforeAxisOptions(input, crop, opts);
    AxisOptions(b3, input.size, crop, opts.axes)
  }

  /** The crop (crop = true) or pad operation's region, or the first error it throws. */
  function CropPad(input: Header, crop: bool, opts: Options): Result<Region, Error>
    requires ValidInput(input)
  {
    var b :- ResolvedBounds(input, crop, opts);
    if CropPadOptionCount(opts) == 0 then Failure(NoCropPadOption)
    else Success(FinalRegion(b, input.size, AxesConsidered(input, opts)))
  }
}
