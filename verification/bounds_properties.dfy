/** What the crop/pad bounds pipeline guarantees, proved about BoundsSpec. */
module BoundsProperties {
  import opened Wrappers
  import opened SpecText
  import opened Command
  import opened BoundsSpec

  // ---------------------------------------------------------------- mask

  predicate HasSetVoxel(vs: seq<MaskVoxel>) {
    exists i :: 0 <= i < |vs| && vs[i].value
  }

  /** Every voxel position lies inside the grid on the three spatial axes. */
  predicate VoxelsWithin(vs: seq<MaskVoxel>, sizes: seq<int>)
    requires |sizes| >= 3
  {
    forall i, a :: 0 <= i < |vs| && 0 <= a < 3 ==> 0 <= vs[i].Index(a) < sizes[a]
  }

  /** `lo` is the smallest index along axis a of a set voxel. */
  ghost predicate IsMinIndex(vs: seq<MaskVoxel>, a: nat, lo: int)
    requires a < 3
  {
    (exists i :: 0 <= i < |vs| && vs[i].value && vs[i].Index(a) == lo) &&
    (forall i :: 0 <= i < |vs| && vs[i].value ==> lo <= vs[i].Index(a))
  }

  /** `hi` is the largest index along axis a of a set voxel. */
  ghost predicate IsMaxIndex(vs: seq<MaskVoxel>, a: nat, hi: int)
    requires a < 3
  {
    (exists i :: 0 <= i < |vs| && vs[i].value && vs[i].Index(a) == hi) &&
    (forall i :: 0 <= i < |vs| && vs[i].value ==> vs[i].Index(a) <= hi)
  }

  /**
   * The scan only widens the spatial bounds, covers every set voxel,
   * and each bound it moves lands on the index of a set voxel; the
   * other axes are untouched.
   */
  lemma {:induction false} ScanExtent(b: seq<Range>, vs: seq<MaskVoxel>, a: nat)
    requires |b| >= 3 && a < |b|
    ensures a >= 3 ==> Scan(b, vs)[a] == b[a]
    ensures a < 3 ==> Scan(b, vs)[a].lower <= b[a].lower && b[a].upper <= Scan(b, vs)[a].upper
    ensures a < 3 ==> forall i :: 0 <= i < |vs| && vs[i].value ==>
              Scan(b, vs)[a].lower <= vs[i].Index(a) <= Scan(b, vs)[a].upper
    ensures a < 3 ==> (Scan(b, vs)[a].lower == b[a].lower ||
              exists i :: 0 <= i < |vs| && vs[i].value && vs[i].Index(a) == Scan(b, vs)[a].lower)
    ensures a < 3 ==> (Scan(b, vs)[a].upper == b[a].upper ||
              exists i :: 0 <= i < |vs| && vs[i].value && vs[i].Index(a) == Scan(b, vs)[a].upper)
    decreases |vs|
  {
    if |vs| > 0 && a < 3 {
      var init := vs[..|vs| - 1];
      var last := |vs| - 1;
      ScanExtent(b, init, a);
      assert forall i :: 0 <= i < |init| ==> init[i] == vs[i];
      var p, r := Scan(b, init)[a], Scan(b, vs)[a];
      if r.lower != b[a].lower && r.lower != p.lower {
        assert vs[last].Index(a) == r.lower;
      } else if r.lower != b[a].lower {
        var i :| 0 <= i < |init| && init[i].value && init[i].Index(a) == p.lower;
        assert vs[i].value && vs[i].Index(a) == r.lower;
      }
      if r.upper != b[a].upper && r.upper != p.upper {
        assert vs[last].Index(a) == r.upper;
      } else if r.upper != b[a].upper {
        var i :| 0 <= i < |init| && init[i].value && init[i].Index(a) == p.upper;
        assert vs[i].value && vs[i].Index(a) == r.upper;
      }
    } else if |vs| > 0 {
      ScanExtent(b, vs[..|vs| - 1], a);
    }
  }

  /** Without a set voxel the scan changes nothing. */
  lemma ScanOfUnsetMask(b: seq<Range>, vs: seq<MaskVoxel>)
    requires |b| >= 3 && !HasSetVoxel(vs)
    ensures Scan(b, vs) == b
  {
    forall a | 0 <= a < |b|
      ensures Scan(b, vs)[a] == b[a]
    {
      ScanExtent(b, vs, a);
    }
  }

  /** The smallest set index is unique. */
  lemma MinIndexUnique(vs: seq<MaskVoxel>, a: nat, x: int, y: int)
    requires a < 3 && IsMinIndex(vs, a, x) && IsMinIndex(vs, a, y)
    ensures x == y
  {
    var i :| 0 <= i < |vs| && vs[i].value && vs[i].Index(a) == x;
    var j :| 0 <= j < |vs| && vs[j].value && vs[j].Index(a) == y;
  }

  /** The largest set index is unique. */
  lemma MaxIndexUnique(vs: seq<MaskVoxel>, a: nat, x: int, y: int)
    requires a < 3 && IsMaxIndex(vs, a, x) && IsMaxIndex(vs, a, y)
    ensures x == y
  {
    var i :| 0 <= i < |vs| && vs[i].value && vs[i].Index(a) == x;
    var j :| 0 <= j < |vs| && vs[j].value && vs[j].Index(a) == y;
  }

  /** From the seeds [size, 0], the scan of a mask with a set voxel yields its bounding box. */
  lemma SeededScanIsBox(b: seq<Range>, sizes: seq<int>, vs: seq<MaskVoxel>, a: nat)
    requires |b| == |sizes| >= 3 && a < 3
    requires VoxelsWithin(vs, sizes) && HasSetVoxel(vs)
    ensures IsMinIndex(vs, a, Scan(MaskSeeds(b, sizes), vs)[a].lower)
    ensures IsMaxIndex(vs, a, Scan(MaskSeeds(b, sizes), vs)[a].upper)
  {
    var s := MaskSeeds(b, sizes);
    ScanExtent(s, vs, a);
    var r := Scan(s, vs)[a];
    var i :| 0 <= i < |vs| && vs[i].value;
    assert r.lower <= vs[i].Index(a) < sizes[a] == s[a].lower;
    if r.upper == s[a].upper {
      assert vs[i].Index(a) == 0;
    }
  }

  /** The empty-mask check and the margin, for every axis from `axis` to 2. */
  lemma {:induction false} MarginOutcome(b: seq<Range>, msize: seq<int>, axis: nat)
    requires |b| >= 3 && |msize| >= 3 && axis <= 3
    ensures Margin(b, msize, axis).Success? <==> forall k :: axis <= k < 3 ==> b[k].lower <= b[k].upper
    ensures Margin(b, msize, axis).Failure? ==> Margin(b, msize, axis).error == EmptyMask
    ensures Margin(b, msize, axis).Success? ==>
      Margin(b, msize, axis).value ==
        seq(|b|, k requires 0 <= k < |b| => if axis <= k < 3 then MarginAxis(b[k], msize[k]) else b[k])
    decreases 3 - axis
  {
    if axis < 3 && b[axis].lower <= b[axis].upper {
      MarginOutcome(b[axis := MarginAxis(b[axis], msize[axis])], msize, axis + 1);
    }
  }

  /** From the seeds, the scan of a mask with a set voxel gives the bounding box on every spatial axis. */
  lemma ScannedMaskBox(b: seq<Range>, sizes: seq<int>, vs: seq<MaskVoxel>)
    requires |b| == |sizes| >= 3
    requires VoxelsWithin(vs, sizes) && HasSetVoxel(vs)
    ensures forall a :: 0 <= a < 3 ==>
              IsMinIndex(vs, a, Scan(MaskSeeds(b, sizes), vs)[a].lower) &&
              IsMaxIndex(vs, a, Scan(MaskSeeds(b, sizes), vs)[a].upper) &&
              0 <= Scan(MaskSeeds(b, sizes), vs)[a].lower <= Scan(MaskSeeds(b, sizes), vs)[a].upper < sizes[a]
  {
    forall a | 0 <= a < 3
      ensures IsMinIndex(vs, a, Scan(MaskSeeds(b, sizes), vs)[a].lower)
      ensures IsMaxIndex(vs, a, Scan(MaskSeeds(b, sizes), vs)[a].upper)
      ensures 0 <= Scan(MaskSeeds(b, sizes), vs)[a].lower <= Scan(MaskSeeds(b, sizes), vs)[a].upper < sizes[a]
    {
      SeededScanIsBox(b, sizes, vs, a);
      var i :| 0 <= i < |vs| && vs[i].value && vs[i].Index(a) == Scan(MaskSeeds(b, sizes), vs)[a].lower;
      var j :| 0 <= j < |vs| && vs[j].value && vs[j].Index(a) == Scan(MaskSeeds(b, sizes), vs)[a].upper;
      assert 0 <= vs[i].Index(a) && vs[j].Index(a) < sizes[a];
      assert vs[i].Index(a) <= vs[j].Index(a);
    }
  }

  /** The scan leaves the non-spatial axes alone. */
  lemma ScanKeepsOtherAxes(b: seq<Range>, vs: seq<MaskVoxel>)
    requires |b| >= 3
    ensures forall a :: 3 <= a < |b| ==> Scan(b, vs)[a] == b[a]
  {
    forall a | 3 <= a < |b|
      ensures Scan(b, vs)[a] == b[a]
    {
      ScanExtent(b, vs, a);
    }
  }

  /** The margin applied to a box inside the grid. */
  lemma MarginOfBox(lo: int, hi: int, n: int)
    requires 0 <= lo <= hi < n
    ensures MarginAxis(Range(lo, hi), n) == Range(Max(0, lo - 1), Min(n - 1, hi + 1))
  {
  }

  /**
   * A crop by mask: it fails exactly when no voxel is set; otherwise each
   * spatial axis becomes the bounding box of the set voxels widened by one
   * voxel on each side that is not at the edge of the grid, and the other
   * axes keep their bounds.
   */
  lemma MaskBoundingBox(b: seq<Range>, sizes: seq<int>, mask: MaskImage)
    requires |b| == |sizes| >= 3
    requires forall a :: 0 <= a < 3 ==> sizes[a] >= 1
    requires SameSpatialGrid(mask, sizes) && VoxelsWithin(mask.voxels, sizes)
    ensures MaskStage(b, sizes, mask).Success? <==> HasSetVoxel(mask.voxels)
    ensures !HasSetVoxel(mask.voxels) ==> MaskStage(b, sizes, mask) == Failure(EmptyMask)
    ensures MaskStage(b, sizes, mask).Success? ==> forall a, lo, hi ::
              (0 <= a < 3 && IsMinIndex(mask.voxels, a, lo) && IsMaxIndex(mask.voxels, a, hi)) ==>
              MaskStage(b, sizes, mask).value[a] == Range(Max(0, lo - 1), Min(sizes[a] - 1, hi + 1))
    ensures MaskStage(b, sizes, mask).Success? ==> forall a :: 3 <= a < |b| ==> MaskStage(b, sizes, mask).value[a] == b[a]
  {
    var vs := mask.voxels;
    var s := MaskSeeds(b, sizes);
    var scanned := Scan(s, vs);
    MarginOutcome(scanned, mask.size, 0);
    ScanKeepsOtherAxes(s, vs);
    if HasSetVoxel(vs) {
      ScannedMaskBox(b, sizes, vs);
      var r := MaskStage(b, sizes, mask);
      forall a, lo, hi | 0 <= a < 3 && IsMinIndex(vs, a, lo) && IsMaxIndex(vs, a, hi)
        ensures r.value[a] == Range(Max(0, lo - 1), Min(sizes[a] - 1, hi + 1))
      {
        MinIndexUnique(vs, a, lo, scanned[a].lower);
        MaxIndexUnique(vs, a, hi, scanned[a].upper);
        assert mask.size[a] == mask.size[..3][a] == sizes[a];
        MarginOfBox(lo, hi, sizes[a]);
      }
    } else {
      ScanOfUnsetMask(s, vs);
      assert scanned[0] == Range(sizes[0], 0);
    }
  }

  // ------------------------------------------------- the threaded mask scan

  lemma VisitMerge(p: seq<Range>, q: seq<Range>, v: MaskVoxel)
    requires |p| == |q| >= 3
    ensures Visit(Merge(p, q), v) == Merge(p, Visit(q, v))
  {
  }

  /** Merging a worker's result into bounds it started from keeps the worker's result. */
  lemma MergeIntoStart(b: seq<Range>, vs: seq<MaskVoxel>)
    requires |b| >= 3
    ensures Merge(b, Scan(b, vs)) == Scan(b, vs)
  {
    forall a | 0 <= a < |b|
      ensures Merge(b, Scan(b, vs))[a] == Scan(b, vs)[a]
    {
      ScanExtent(b, vs, a);
    }
  }

  /** Scanning xs and then ys equals merging the scans of xs and of ys, each from the same start. */
  lemma {:induction false} ScanAppend(b: seq<Range>, xs: seq<MaskVoxel>, ys: seq<MaskVoxel>)
    requires |b| >= 3
    ensures Scan(b, xs + ys) == Merge(Scan(b, xs), Scan(b, ys))
    decreases |ys|
  {
    if |ys| == 0 {
      assert xs + ys == xs;
      forall a | 0 <= a < |b|
        ensures Merge(Scan(b, xs), b)[a] == Scan(b, xs)[a]
      {
        ScanExtent(b, xs, a);
      }
    } else {
      var init := ys[..|ys| - 1];
      var y := ys[|ys| - 1];
      assert (xs + ys)[..|xs + ys| - 1] == xs + init;
      assert (xs + ys)[|xs + ys| - 1] == y;
      ScanAppend(b, xs, init);
      VisitMerge(Scan(b, xs), Scan(b, init), y);
    }
  }

  /**
   * Two workers that scan the two halves of the mask from the same seeds
   * and merge into the shared bounds, in either order, leave the shared
   * bounds equal to one sequential scan of the whole mask.
   */
  lemma ThreadedScanAgrees(b: seq<Range>, xs: seq<MaskVoxel>, ys: seq<MaskVoxel>)
    requires |b| >= 3
    ensures Merge(Merge(b, Scan(b, xs)), Scan(b, ys)) == Scan(b, xs + ys)
    ensures Merge(Merge(b, Scan(b, ys)), Scan(b, xs)) == Scan(b, xs + ys)
  {
    MergeIntoStart(b, xs);
    MergeIntoStart(b, ys);
    ScanAppend(b, xs, ys);
    ScanAppend(b, ys, xs);
    forall a | 0 <= a < |b|
      ensures Merge(Scan(b, ys), Scan(b, xs))[a] == Merge(Scan(b, xs), Scan(b, ys))[a]
    {
      ScanExtent(b, xs, a);
      ScanExtent(b, ys, a);
    }
  }

  // ---------------------------------------------------------------- -as

  /** Two voxel visits commute: min and max do not care about order. */
  lemma VisitCommutes(b: seq<Range>, u: MaskVoxel, v: MaskVoxel)
    requires |b| >= 3
    ensures Visit(Visit(b, u), v) == Visit(Visit(b, v), u)
  {
  }

  /** Any one voxel of a run can be visited last without changing the scan. */
  lemma {:induction false} ScanMoveToEnd(b: seq<Range>, p: seq<MaskVoxel>, x: MaskVoxel, q: seq<MaskVoxel>)
    requires |b| >= 3
    ensures Scan(b, p + [x] + q) == Visit(Scan(b, p + q), x)
    decreases |q|
  {
    if |q| == 0 {
      assert p + [x] + q == p + [x];
      assert (p + [x])[..|p|] == p;
      assert p + q == p;
    } else {
      var q', y := q[..|q| - 1], q[|q| - 1];
      var s := p + [x] + q;
      assert s[..|s| - 1] == p + [x] + q' && s[|s| - 1] == y;
      assert (p + q)[..|p + q| - 1] == p + q' && (p + q)[|p + q| - 1] == y;
      ScanMoveToEnd(b, p, x, q');
      VisitCommutes(Scan(b, p + q'), x, y);
    }
  }

  /** Taking the same element out of two equal multisets leaves equal multisets. */
  lemma MultisetRemove<T>(xs: seq<T>, x: T, p: seq<T>, q: seq<T>)
    requires multiset(xs + [x]) == multiset(p + [x] + q)
    ensures multiset(xs) == multiset(p + q)
  {
    assert multiset(xs + [x]) == multiset(xs) + multiset{x};
    assert multiset(p + [x] + q) == multiset(p + q) + multiset{x};
    forall e
      ensures multiset(xs)[e] == multiset(p + q)[e]
    {
      assert (multiset(xs) + multiset{x})[e] == (multiset(p + q) + multiset{x})[e];
    }
  }

  /**
   * The scan gives the same bounds for every order of the voxels: two
   * runs holding the same voxels, each as often, scan alike.
   */
  lemma {:induction false} ScanPermutation(b: seq<Range>, xs: seq<MaskVoxel>, ys: seq<MaskVoxel>)
    requires |b| >= 3 && multiset(xs) == multiset(ys)
    ensures Scan(b, xs) == Scan(b, ys)
    decreases |xs|
  {
    if |xs| == 0 {
      assert |multiset(ys)| == 0;
    } else {
      var xs', x := xs[..|xs| - 1], xs[|xs| - 1];
      assert xs == xs' + [x];
      assert x in multiset(ys);
      var k :| 0 <= k < |ys| && ys[k] == x;
      var p, q := ys[..k], ys[k + 1..];
      assert ys == p + [x] + q;
      MultisetRemove(xs', x, p, q);
      ScanPermutation(b, xs', p + q);
      ScanMoveToEnd(b, p, x, q);
    }
  }

  /**
   * `-as` changes only the upper bounds of the first nd axes: a crop keeps
   * the axis within the reference's extent, a pad makes it cover that
   * extent, and an axis the reference lacks ends at index 0 when cropping
   * and is kept when padding.
   */
  lemma AsMatchesReference(b: seq<Range>, nd: nat, crop: bool, ref: seq<int>)
    ensures |AsStage(b, nd, crop, ref)| == |b|
    ensures forall a :: 0 <= a < |b| ==> AsStage(b, nd, crop, ref)[a].lower == b[a].lower
    ensures forall a :: nd <= a < |b| ==> AsStage(b, nd, crop, ref)[a] == b[a]
    ensures crop ==> forall a :: 0 <= a < |b| && a < nd && a < |ref| ==>
              AsStage(b, nd, crop, ref)[a].upper <= ref[a] - 1 && AsStage(b, nd, crop, ref)[a].upper <= b[a].upper
    ensures !crop ==> forall a :: 0 <= a < |b| && a < nd && a < |ref| ==>
              AsStage(b, nd, crop, ref)[a].upper >= ref[a] - 1 && AsStage(b, nd, crop, ref)[a].upper >= b[a].upper
    ensures forall a :: 0 <= a < |b| && a < nd && a < |ref| ==>
              (AsStage(b, nd, crop, ref)[a].upper == b[a].upper || AsStage(b, nd, crop, ref)[a].upper == ref[a] - 1)
    ensures forall a :: |ref| <= a < |b| && a < nd ==>
              AsStage(b, nd, crop, ref)[a].upper == (if crop then 0 else b[a].upper)
  {
  }

  /** Matching the same reference twice is the same as once. */
  lemma AsIdempotent(b: seq<Range>, nd: nat, crop: bool, ref: seq<int>)
    ensures AsStage(AsStage(b, nd, crop, ref), nd, crop, ref) == AsStage(b, nd, crop, ref)
  {
  }

  // ---------------------------------------------------------------- -uniform

  /** A uniform pad by v undoes a uniform crop by v, and cropping by v is padding by -v. */
  lemma UniformInverse(b: seq<Range>, nd: nat, v: int)
    ensures UniformStage(UniformStage(b, nd, true, v), nd, false, v) == b
    ensures UniformStage(b, nd, true, v) == UniformStage(b, nd, false, -v)
  {
  }

  // ---------------------------------------------------------------- -axis

  lemma ColonSplit(sa: string, t: string)
    requires forall i :: 0 <= i < |sa| ==> sa[i] != ':'
    ensures FindFirst(sa + ":" + t, ':') == Some(|sa|)
    ensures (sa + ":" + t)[..|sa|] == sa && (sa + ":" + t)[|sa| + 1..] == t
  {
    assert sa + ":" + t == sa + [':'] + t;
    FindFirstAfter(sa, ':', t);
  }

  lemma NotEnd(n: int)
    ensures !IsEnd(IntToString(n))
  {
    IntToStringChars(n);
    var s := IntToString(n);
    if |s| == 3 {
      assert Lowercase(s)[0] == LowerChar(s[0]) != 'e';
    }
  }

  /** A specifier without ':' that parses as two integers is the delta form. */
  lemma DeltaForm(size: int, crop: bool, axis: nat, spec: string, d: seq<int>)
    requires FindFirst(spec, ':').None? && ParseInts(spec) == Some(d) && |d| == 2
    ensures AxisRange(size, crop, axis, spec) == Success(DeltaRange(size, crop, d))
  {
  }

  /** "dl,du" has no ':'. */
  lemma NoColonInDelta(dl: int, du: int)
    ensures FindFirst(IntToString(dl) + "," + IntToString(du), ':').None?
  {
    NoCharInIntToString(dl, ':');
    NoCharInIntToString(du, ':');
    var delta := IntToString(dl) + "," + IntToString(du);
    assert delta == IntToString(dl) + [','] + IntToString(du);
    assert forall i :: 0 <= i < |delta| ==> delta[i] != ':';
  }

  /** "dl,du" is read as the delta form with the two integers dl and du. */
  lemma DeltaSpec(size: int, crop: bool, axis: nat, dl: int, du: int)
    requires InIntRange(dl) && InIntRange(du)
    ensures AxisRange(size, crop, axis, IntToString(dl) + "," + IntToString(du)) ==
              Success(Range(if crop then dl else -dl, size - 1 + (if crop then -du else du)))
  {
    NoColonInDelta(dl, du);
    ParseIntsOfPair(dl, du);
    DeltaForm(size, crop, axis, IntToString(dl) + "," + IntToString(du), [dl, du]);
  }

  /**
   * On an axis of N voxels, cropping with "dl,du" and with
   * "dl:(N-1-du)" set the same bounds, [dl, N-1-du].
   */
  lemma CropDeltaMatchesRange(size: int, axis: nat, dl: int, du: int)
    requires InIntRange(dl) && InIntRange(du) && InIntRange(size - 1 - du)
    ensures AxisRange(size, true, axis, IntToString(dl) + "," + IntToString(du)) == Success(Range(dl, size - 1 - du))
    ensures AxisRange(size, true, axis, IntToString(dl) + ":" + IntToString(size - 1 - du)) == Success(Range(dl, size - 1 - du))
  {
    DeltaSpec(size, true, axis, dl, du);
    var stop := IntToString(size - 1 - du);
    ColonSplit(IntToString(dl), stop);
    StripOfIntToString(dl);
    StripOfIntToString(size - 1 - du);
    StoIOfIntToString(dl);
    StoIOfIntToString(size - 1 - du);
    NotEnd(size - 1 - du);
  }

  /** Padding with "dl,du" adds dl voxels below and du voxels above the whole axis. */
  lemma PadDelta(size: int, axis: nat, dl: int, du: int)
    requires InIntRange(dl) && InIntRange(du)
    ensures AxisRange(size, false, axis, IntToString(dl) + "," + IntToString(du)) == Success(Range(-dl, size - 1 + du))
  {
    DeltaSpec(size, false, axis, dl, du);
  }

  /** "start:end", with `end` in any letter case, runs from start to the last voxel. */
  lemma RangeToEnd(size: int, crop: bool, axis: nat, start: int, stop: string)
    requires InIntRange(start) && IsEnd(Strip(stop))
    ensures AxisRange(size, crop, axis, IntToString(start) + ":" + stop) == Success(Range(start, size - 1))
  {
    NoCharInIntToString(start, ':');
    ColonSplit(IntToString(start), stop);
    StripOfIntToString(start);
    StoIOfIntToString(start);
  }

  /** The absolute form means the same for crop and pad. */
  lemma RangeFormIgnoresMode(size: int, axis: nat, spec: string)
    requires FindFirst(spec, ':').Some?
    ensures AxisRange(size, true, axis, spec) == AxisRange(size, false, axis, spec)
  {
  }

  /** A delta specifier that does not read as exactly two integers is rejected. */
  lemma BadDeltaRejected(size: int, crop: bool, axis: nat, spec: string)
    requires FindFirst(spec, ':').None?
    requires ParseInts(spec).None? || |ParseInts(spec).value| != 2
    ensures AxisRange(size, crop, axis, spec) == Failure(BadDeltaSpec(axis))
  {
  }

  /** The error one `-axis` option raises whatever the bounds before it, if any. */
  function OptionError(sizes: seq<int>, crop: bool, opt: AxisOption): Option<Error> {
    if opt.index >= |sizes| then Some(AxisOutOfRange(opt.index))
    else match AxisRange(sizes[opt.index], crop, opt.index, opt.spec)
      case Failure(e) => Some(e)
      case Success(r) => if r.upper < r.lower then Some(EmptyAxis(opt.index, r.lower, r.upper)) else None
  }

  /**
   * The `-axis` options succeed exactly when each one is valid on its own;
   * otherwise the command fails with the error of the first invalid one.
   */
  lemma {:induction false} AxisOptionsOutcome(b: seq<Range>, sizes: seq<int>, crop: bool, opts: seq<AxisOption>)
    requires |b| == |sizes|
    ensures AxisOptions(b, sizes, crop, opts).Success? <==> forall i :: 0 <= i < |opts| ==> OptionError(sizes, crop, opts[i]).None?
    ensures forall i :: (0 <= i < |opts| && OptionError(sizes, crop, opts[i]).Some? &&
              (forall j :: 0 <= j < i ==> OptionError(sizes, crop, opts[j]).None?)) ==>
              AxisOptions(b, sizes, crop, opts) == Failure(OptionError(sizes, crop, opts[i]).value)
    decreases |opts|
  {
    if |opts| > 0 {
      var first := ApplyAxisOption(b, sizes, crop, opts[0]);
      assert first.Failure? <==> OptionError(sizes, crop, opts[0]).Some?;
      assert first.Failure? ==> first.error == OptionError(sizes, crop, opts[0]).value;
      if first.Success? {
        AxisOptionsOutcome(first.value, sizes, crop, opts[1..]);
        assert forall i :: 1 <= i < |opts| ==> opts[1..][i - 1] == opts[i];
      }
    }
  }

  /** The specifier of the last `-axis` option naming axis a, if any. */
  function LastSpecFor(opts: seq<AxisOption>, a: nat): Option<string>
    decreases |opts|
  {
    if |opts| == 0 then None
    else match LastSpecFor(opts[1..], a)
      case Some(s) => Some(s)
      case None => if opts[0].index == a then Some(opts[0].spec) else None
  }

  /**
   * `-axis` overrides: an axis named by some `-axis` option ends with the
   * bounds of the last such option, whatever it held before; every other
   * axis keeps its bounds.
   */
  lemma {:induction false} AxisOptionsLastWins(b: seq<Range>, sizes: seq<int>, crop: bool, opts: seq<AxisOption>)
    requires |b| == |sizes|
    requires AxisOptions(b, sizes, crop, opts).Success?
    ensures forall a, s :: 0 <= a < |b| && LastSpecFor(opts, a) == Some(s) ==>
              AxisRange(sizes[a], crop, a, s) == Success(AxisOptions(b, sizes, crop, opts).value[a])
    ensures forall a :: 0 <= a < |b| && LastSpecFor(opts, a).None? ==> AxisOptions(b, sizes, crop, opts).value[a] == b[a]
    decreases |opts|
  {
    if |opts| > 0 {
      var b1 := ApplyAxisOption(b, sizes, crop, opts[0]).value;
      AxisOptionsLastWins(b1, sizes, crop, opts[1..]);
    }
  }

  lemma LastWinsAt(b: seq<Range>, sizes: seq<int>, crop: bool, opts: seq<AxisOption>, a: nat, s: string)
    requires |b| == |sizes| && a < |b|
    requires AxisOptions(b, sizes, crop, opts).Success? && LastSpecFor(opts, a) == Some(s)
    ensures AxisRange(sizes[a], crop, a, s) == Success(AxisOptions(b, sizes, crop, opts).value[a])
  {
    AxisOptionsLastWins(b, sizes, crop, opts);
  }

  // ---------------------------------------------------------------- result

  /** No axis counts as changed exactly when every considered axis still spans [0, size - 1]. */
  lemma {:induction false} ChangedCountZero(b: seq<Range>, sizes: seq<int>, nd: nat)
    requires nd <= |b| && nd <= |sizes|
    ensures ChangedCount(b, sizes, nd) <= nd
    ensures ChangedCount(b, sizes, nd) == 0 <==> forall a :: 0 <= a < nd ==> b[a] == Range(0, sizes[a] - 1)
  {
    if nd > 0 {
      ChangedCountZero(b, sizes, nd - 1);
    }
  }

  /** Bounds left at the whole input give from = 0 and size = the input's on every axis, and the no-change warning. */
  lemma IdentityRegion(sizes: seq<int>, nd: nat)
    requires nd <= |sizes|
    ensures FinalRegion(InitialBounds(sizes), sizes, nd) == Region(seq(|sizes|, a => 0), sizes, 0)
  {
    ChangedCountZero(InitialBounds(sizes), sizes, nd);
  }

  /** With no mask, -as, -uniform or -axis option the command fails. */
  lemma NoOptionFails(input: Header, crop: bool, opts: Options)
    requires ValidInput(input) && CropPadOptionCount(opts) == 0
    ensures CropPad(input, crop, opts) == Failure(NoCropPadOption)
  {
  }

  /** A mask cannot be used to pad. */
  lemma MaskPadFails(input: Header, opts: Options)
    requires ValidInput(input) && opts.mask.Some?
    ensures CropPad(input, false, opts) == Failure(MaskWithPad)
  {
  }

  /** A mask and `-as` cannot be combined. */
  lemma MaskAndAsFail(input: Header, crop: bool, opts: Options)
    requires ValidInput(input) && opts.mask.Some? && opts.reference.Some?
    ensures CropPad(input, crop, opts).Failure?
  {
  }

  /** An `-axis` index beyond the input's dimensions always fails the command. */
  lemma AxisIndexTooLargeFails(input: Header, crop: bool, opts: Options, i: nat)
    requires ValidInput(input) && i < |opts.axes| && opts.axes[i].index >= |input.size|
    ensures CropPad(input, crop, opts).Failure?
  {
    ResolvedAfterAxisOptions(input, crop, opts);
    if BeforeAxisOptions(input, crop, opts).Success? {
      AxisOptionsOutcome(BeforeAxisOptions(input, crop, opts).value, input.size, crop, opts.axes);
    }
  }

  lemma ResolvedAfterAxisOptions(input: Header, crop: bool, opts: Options)
    requires ValidInput(input)
    ensures BeforeAxisOptions(input, crop, opts).Failure? ==> ResolvedBounds(input, crop, opts).Failure?
    ensures BeforeAxisOptions(input, crop, opts).Success? ==>
              |BeforeAxisOptions(input, crop, opts).value| == |input.size| &&
              ResolvedBounds(input, crop, opts) == AxisOptions(BeforeAxisOptions(input, crop, opts).value, input.size, crop, opts.axes)
  {
  }

  lemma RegionAt(b: seq<Range>, sizes: seq<int>, nd: nat, a: nat)
    requires nd <= |b| == |sizes| && a < |b|
    ensures FinalRegion(b, sizes, nd).from[a] == b[a].lower
    ensures FinalRegion(b, sizes, nd).size[a] == b[a].upper - b[a].lower + 1
  {
  }

  lemma CropPadRegion(input: Header, crop: bool, opts: Options)
    requires ValidInput(input) && CropPad(input, crop, opts).Success?
    ensures ResolvedBounds(input, crop, opts).Success?
    ensures CropPad(input, crop, opts).value == FinalRegion(ResolvedBounds(input, crop, opts).value, input.size, AxesConsidered(input, opts))
  {
  }

  /**
   * Whatever the mask, `-as` and `-uniform` did, an axis named by `-axis`
   * ends with the bounds of its last `-axis` specifier.
   */
  lemma AxisOverridesOtherOptions(input: Header, crop: bool, opts: Options, a: nat, s: string)
    requires ValidInput(input) && CropPad(input, crop, opts).Success?
    requires a < |input.size| && LastSpecFor(opts.axes, a) == Some(s)
    ensures AxisRange(input.size[a], crop, a, s).Success?
    ensures CropPad(input, crop, opts).value.from[a] == AxisRange(input.size[a], crop, a, s).value.lower
    ensures CropPad(input, crop, opts).value.size[a] ==
              AxisRange(input.size[a], crop, a, s).value.upper - AxisRange(input.size[a], crop, a, s).value.lower + 1
  {
    CropPadRegion(input, crop, opts);
    ResolvedAfterAxisOptions(input, crop, opts);
    var b3 := BeforeAxisOptions(input, crop, opts).value;
    var b4 := ResolvedBounds(input, crop, opts).value;
    LastWinsAt(b3, input.size, crop, opts.axes, a, s);
    assert AxisRange(input.size[a], crop, a, s) == Success(b4[a]);
    var region := CropPad(input, crop, opts).value;
    RegionAt(b4, input.size, AxesConsidered(input, opts), a);
    assert region.from[a] == b4[a].lower;
    assert region.size[a] == b4[a].upper - b4[a].lower + 1;
  }

  /**
   * `-uniform` alone never fails, even when it crops an axis to no voxel
   * or fewer: the emptiness check belongs to `-axis` only. Each considered
   * axis loses (crop) or gains (pad) 2v voxels and starts v voxels in
   * (crop) or out (pad).
   */
  lemma UniformOnly(input: Header, crop: bool, opts: Options, v: int)
    requires ValidInput(input)
    requires opts.mask.None? && opts.reference.None? && opts.uniform == Some(v) && opts.axes == []
    ensures CropPad(input, crop, opts).Success?
    ensures forall a :: 0 <= a < AxesConsidered(input, opts) ==>
              CropPad(input, crop, opts).value.from[a] == (if crop then v else -v) &&
              CropPad(input, crop, opts).value.size[a] == input.size[a] + (if crop then -2 * v else 2 * v)
    ensures forall a :: AxesConsidered(input, opts) <= a < |input.size| ==>
              CropPad(input, crop, opts).value.from[a] == 0 && CropPad(input, crop, opts).value.size[a] == input.size[a]
  {
  }

  /** `-uniform 0` is a no-op: the whole input, and the "no axes were changed" warning. */
  lemma UniformZeroChangesNothing(input: Header, crop: bool, opts: Options)
    requires ValidInput(input)
    requires opts.mask.None? && opts.reference.None? && opts.uniform == Some(0) && opts.axes == []
    ensures CropPad(input, crop, opts) == Success(Region(seq(|input.size|, a => 0), input.size, 0))
    ensures CropPad(input, crop, opts).value.NoAxesChanged()
  {
    var nd := AxesConsidered(input, opts);
    assert UniformStage(InitialBounds(input.size), nd, crop, 0) == InitialBounds(input.size);
    IdentityRegion(input.size, nd);
  }
}
