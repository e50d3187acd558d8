/**
 * The crop/pad branch of `run()` as it is written: one array of per-axis
 * bounds, updated in place stage by stage. Each stage is proved to
 * leave the array holding what the matching function of BoundsSpec
 * computes from its previous contents.
 */
module BoundsResolver {
  import opened Wrappers
  import opened Command
  import opened BoundsSpec

  /** Every axis starts at [0, size - 1]. */
  method InitBounds(b: array<Range>, sizes: seq<int>)
    requires b.Length == |sizes|
    modifies b
    ensures b[..] == InitialBounds(sizes)
  {
    for axis := 0 to b.Length
      invariant forall k :: 0 <= k < axis ==> b[k] == Range(0, sizes[k] - 1)
    {
      b[axis] := Range(0, sizes[axis] - 1);
    }
  }

  /** The spatial axes get the empty seeds [size, 0] before the mask scan. */
  method SeedMaskBounds(b: array<Range>, sizes: seq<int>)
    requires b.Length == |sizes| >= 3
    modifies b
    ensures b[..] == MaskSeeds(old(b[..]), sizes)
  {
    for axis := 0 to 3
      invariant forall k :: 0 <= k < axis ==> b[k] == Range(sizes[k], 0)
      invariant forall k :: axis <= k < b.Length ==> b[k] == old(b[k])
    {
      b[axis] := Range(sizes[axis], 0);
    }
  }

  /** The BoundsCheck functor's running minimum and maximum over every voxel of the mask. */
  method ScanMask(b: array<Range>, voxels: seq<MaskVoxel>)
    requires b.Length >= 3
    modifies b
    ensures b[..] == Scan(old(b[..]), voxels)
  {
    var i := 0;
    while i < |voxels|
      invariant 0 <= i <= |voxels|
      invariant b[..] == Scan(old(b[..]), voxels[..i])
    {
      var v := voxels[i];
      if v.value {
        ghost var before := b[..];
        for axis := 0 to 3
          invariant forall k :: 0 <= k < axis ==> b[k] == Widen(before[k], v.Index(k))
          invariant forall k :: axis <= k < b.Length ==> b[k] == before[k]
        {
          b[axis] := Range(Min(b[axis].lower, v.Index(axis)), Max(b[axis].upper, v.Index(axis)));
        }
      }
      assert voxels[..i + 1][..i] == voxels[..i];
      i := i + 1;
    }
    assert voxels[..|voxels|] == voxels;
  }

  /** After the scan: fail on an empty mask, otherwise add one voxel of margin. */
  method ApplyMaskMargin(b: array<Range>, msize: seq<int>) returns (ok: bool)
    requires b.Length >= 3 && |msize| >= 3
    modifies b
    ensures ok == Margin(old(b[..]), msize, 0).Success?
    ensures ok ==> b[..] == Margin(old(b[..]), msize, 0).value
  {
    for axis := 0 to 3
      invariant Margin(b[..], msize, axis) == Margin(old(b[..]), msize, 0)
    {
      if b[axis].lower > b[axis].upper {
        return false;
      }
      ghost var before := b[..];
      var lower, upper := b[axis].lower, b[axis].upper;
      if lower != 0 {
        lower := lower - 1;
      }
      if upper < msize[axis] - 1 {
        upper := upper + 1;
      }
      b[axis] := Range(lower, upper);
      assert b[..] == before[axis := MarginAxis(before[axis], msize[axis])];
    }
    ok := true;
  }

  /** `-as`: the upper bounds of the first nd axes follow the reference image. */
  method ApplyAs(b: array<Range>, nd: nat, crop: bool, ref: seq<int>)
    requires nd <= b.Length
    modifies b
    ensures b[..] == AsStage(old(b[..]), nd, crop, ref)
  {
    for axis := 0 to nd
      invariant forall k :: 0 <= k < axis ==> b[k] == AsAxis(old(b[k]), k, crop, ref)
      invariant forall k :: axis <= k < b.Length ==> b[k] == old(b[k])
    {
      if axis >= |ref| {
        if crop {
          b[axis] := b[axis].(upper := 0);
        }
      } else {
        if crop {
          b[axis] := b[axis].(upper := Min(b[axis].upper, ref[axis] - 1));
        } else {
          b[axis] := b[axis].(upper := Max(b[axis].upper, ref[axis] - 1));
        }
      }
    }
  }

  /** `-uniform v` on the first nd axes. */
  method ApplyUniform(b: array<Range>, nd: nat, crop: bool, v: int)
    requires nd <= b.Length
    modifies b
    ensures b[..] == UniformStage(old(b[..]), nd, crop, v)
  {
    for axis := 0 to nd
      invariant forall k :: 0 <= k < axis ==> b[k] == UniformAxis(old(b[k]), crop, v)
      invariant forall k :: axis <= k < b.Length ==> b[k] == old(b[k])
    {
      b[axis] := Range(b[axis].lower + (if crop then v else -v), b[axis].upper + (if crop then -v else v));
    }
  }

  /** Every `-axis` option in turn; the first error stops the loop and is returned. */
  method ApplyAxisOptions(b: array<Range>, sizes: seq<int>, crop: bool, opts: seq<AxisOption>) returns (err: Option<Error>)
    requires b.Length == |sizes|
    modifies b
    ensures err.None? ==> AxisOptions(old(b[..]), sizes, crop, opts) == Success(b[..])
    ensures err.Some? ==> AxisOptions(old(b[..]), sizes, crop, opts) == Failure(err.value)
  {
    for i := 0 to |opts|
      invariant AxisOptions(b[..], sizes, crop, opts[i..]) == AxisOptions(old(b[..]), sizes, crop, opts)
    {
      assert opts[i..][0] == opts[i] && opts[i..][1..] == opts[i + 1..];
      var axis := opts[i].index;
      if axis >= b.Length {
        return Some(AxisOutOfRange(axis));
      }
      var range := AxisRange(sizes[axis], crop, axis, opts[i].spec);
      if range.Failure? {
        return Some(range.error);
      }
      b[axis] := range.value;
      if b[axis].upper < b[axis].lower {
        return Some(EmptyAxis(axis, b[axis].lower, b[axis].upper));
      }
    }
    err := None;
  }

  /** The `from` and `size` vectors and the number of changed axes among the first nd. */
  method DeriveRegion(b: array<Range>, sizes: seq<int>, nd: nat) returns (region: Region)
    requires nd <= b.Length == |sizes|
    ensures region == FinalRegion(b[..], sizes, nd)
  {
    var from := new int[b.Length];
    var size := new int[b.Length];
    for axis := 0 to b.Length
      invariant forall k :: 0 <= k < axis ==> from[k] == b[k].lower
      invariant forall k :: 0 <= k < axis ==> size[k] == b[k].upper - from[k] + 1
    {
      from[axis] := b[axis].lower;
      size[axis] := b[axis].upper - from[axis] + 1;
    }
    var changed := 0;
    for axis := 0 to nd
      invariant changed == ChangedCount(b[..], sizes, axis)
    {
      if b[axis].lower != 0 || sizes[axis] != size[axis] {
        changed := changed + 1;
      }
    }
    region := Region(from[..], size[..], changed);
  }

  /** The crop/pad branch of `run()` up to the hand-over to the adapter. */
  method ResolveCropPad(input: Header, crop: bool, opts: Options) returns (r: Result<Region, Error>)
    requires ValidInput(input)
    ensures r == CropPad(input, crop, opts)
  {
    var sizes := input.size;
    var nd := if opts.allAxes then |sizes| else 3;
    var bounds := new Range[|sizes|];
    InitBounds(bounds, sizes);
    ghost var b0 := bounds[..];
    var count := 0;

    if opts.mask.Some? {
      if !crop {
        return Failure(MaskWithPad);
      }
      count := count + 1;
      var mask := opts.mask.value;
      if |mask.size| < 3 || mask.size[..3] != sizes[..3] {
        return Failure(MaskDimensionMismatch);
      }
      SeedMaskBounds(bounds, sizes);
      ScanMask(bounds, mask.voxels);
      var ok := ApplyMaskMargin(bounds, mask.size);
      if !ok {
        return Failure(EmptyMask);
      }
    }
    ghost var b1 := bounds[..];
    assert MaskStep(b0, sizes, crop, opts.mask) == Success(b1);

    if opts.reference.Some? {
      if count != 0 {
        return Failure(MaskAndAs);
      }
      count := count + 1;
      ApplyAs(bounds, nd, crop, opts.reference.value.size);
    }
    ghost var b2 := bounds[..];
    assert AsStep(b1, nd, crop, opts.mask.Some?, opts.reference) == Success(b2);

    if opts.uniform.Some? {
      count := count + 1;
      ApplyUniform(bounds, nd, crop, opts.uniform.value);
    }
    assert bounds[..] == UniformStep(b2, nd, crop, opts.uniform);
    assert BeforeAxisOptions(input, crop, opts) == Success(bounds[..]);

    count := count + |opts.axes|;
    var err := ApplyAxisOptions(bounds, sizes, crop, opts.axes);
    if err.Some? {
      return Failure(err.value);
    }
    assert ResolvedBounds(input, crop, opts) == Success(bounds[..]);

    if count == 0 {
      return Failure(NoCropPadOption);
    }
    var region := DeriveRegion(bounds, sizes, nd);
    r := Success(region);
  }
}
