# mrgrid: grid-bounds resolution and regrid planning

A Dafny model of `run()` in `cmd/mrgrid.cpp` of MRtrix3. The command
regrids, crops or pads an image. The model covers everything `run()`
decides before it touches a voxel. There are two parts.

- **Crop and pad.** Every axis starts with the inclusive bounds
  `[0, size - 1]`. Four stages then update the bounds, always in the same
  order:
  - `-mask`: the bounding box of the set voxels plus a one-voxel margin;
  - `-as`: the upper bounds are clamped to a reference image;
  - `-uniform`: a margin is applied to every considered axis;
  - `-axis`: per-axis overrides, each either `"dl,du"` or `"start:stop|end"`.

  Finally the bounds become the `from`/`size` pair handed to the regrid
  adapter, and the changed axes are counted.
- **Regrid.** The options are validated: `-nan` against `-fill`, the
  template's dimensions, exactly one resize method, and broadcasting of a
  single scale factor or voxel size. Then the interpolation,
  oversampling, out-of-bounds value and output data type are chosen.

The source changes one bounds vector in place. The model follows that
form. Module `BoundsResolver` works on an `array<Range>` with one method
per stage. Each method is proved to leave the array equal to a pure stage
function in `BoundsSpec` applied to its previous contents. The properties
the command promises are lemmas about those functions, in
`BoundsProperties`. The regrid branch (`RegridPlanner.PlanRegrid`) and the
whole command (`Mrgrid.Run`) are methods too. They update their counters
and settings the way the source does, and each is proved equal to a
function (`RegridPlanner.Regridding`, `Mrgrid.RunSpec`) that the lemmas
describe.

Errors are values: every exception `run()` throws itself is a constructor of
`Command.Error`, returned as `Failure`. The mask is a sequence of voxels,
each with its three spatial indices and its value. Option values
arrive already converted (numbers, lists, headers), except for the
`-axis` specifier. That specifier is parsed by the model itself
(`SpecText`): `std::stoi` for the colon form, and a comma-separated
integer list for the delta form.

Files:

- `wrappers.dfy`: `Option` and `Result`.
- `command.dfy`: headers, masks, options and errors.
- `spec_text.dfy`: the `-axis` specifier text.
- `bounds_spec.dfy`, `bounds_resolver.dfy` and `bounds_properties.dfy`: crop and pad.
- `regrid_planner.dfy`: regrid.
- `mrgrid.dfy`: `run()` as a whole.

### Where the code and the design description disagree (the model follows the code)

- `-as` on an axis that the reference image lacks sets `upper = 0` when
  cropping (`cmd/mrgrid.cpp:291-293`). That leaves one voxel when the
  lower bound is 0; it does not give the axis zero length.
- The check that an axis is empty (`upper < lower`,
  `cmd/mrgrid.cpp:342-343`) runs only for axes named by `-axis`. The mask
  has its own check (`cmd/mrgrid.cpp:273-274`). `-as` always leaves at
  least one voxel. Only `-uniform` can leave an axis empty, whether it runs
  alone or after the mask or `-as`. The source accepts such an axis
  (`BoundsProperties.UniformOnly`).
- A cropped or padded image is written as 32-bit float unless
  `-datatype` says otherwise (`cmd/mrgrid.cpp:372`). It does not keep the
  input's type (`Mrgrid.CropPadOutputType`).
- At `cmd/mrgrid.cpp:325` an exception is built but not thrown. A
  malformed delta specifier therefore leaves the delta list empty, and the
  size check on the next line rejects it.
- An axis changed by `-axis` whose index is at least `nd` is not counted
  as changed: only the first `nd` axes are counted (`cmd/mrgrid.cpp:357`).

## Model

| member | source | states |
|---|---|---|
| BoundsResolver.InitBounds | cmd/mrgrid.cpp:230-234 | every axis of the bounds array holds [0, size - 1] |
| BoundsResolver.SeedMaskBounds | cmd/mrgrid.cpp:245-248 | the three spatial axes hold the seeds [size, 0]; the other axes are unchanged |
| BoundsResolver.ScanMask | cmd/mrgrid.cpp:250-270 | after the loop over the mask voxels, the array equals the sequential min/max fold `Scan` of its old contents over the voxels |
| BoundsResolver.ApplyMaskMargin | cmd/mrgrid.cpp:272-279 | reports failure exactly when the empty-mask check fails on some spatial axis; otherwise the array holds the margined bounds `Margin` defines |
| BoundsResolver.ApplyAs | cmd/mrgrid.cpp:290-300 | the array equals `AsStage` of its old contents: each upper bound of the first nd axes is clamped to the reference |
| BoundsResolver.ApplyUniform | cmd/mrgrid.cpp:306-310 | the array equals `UniformStage` of its old contents |
| BoundsResolver.ApplyAxisOptions | cmd/mrgrid.cpp:313-344 | returns the first error of the `-axis` options, or none with the array holding the result of applying them in order (`AxisOptions`) |
| BoundsResolver.DeriveRegion | cmd/mrgrid.cpp:349-366 | from[a] = lower, size[a] = upper - lower + 1 on every axis, and the changed-axes counter equals the number of axes below nd that changed |
| BoundsResolver.ResolveCropPad | cmd/mrgrid.cpp:223-366 | the whole crop/pad branch, run stage by stage on one array, returns exactly `BoundsSpec.CropPad`: the region or the first error |
| BoundsProperties.ScanExtent | cmd/mrgrid.cpp:260-267 | the fold only widens the spatial bounds; it covers every set voxel; each moved bound equals a set voxel's index; non-spatial axes are untouched |
| BoundsProperties.ScanOfUnsetMask | cmd/mrgrid.cpp:261 | a mask with no set voxel leaves the bounds unchanged |
| BoundsProperties.SeededScanIsBox | cmd/mrgrid.cpp:245-270 | from the seeds [size, 0], the fold gives the minimum and the maximum index of the set voxels on the axis |
| BoundsProperties.ScannedMaskBox | cmd/mrgrid.cpp:245-270 | from the seeds, every spatial axis ends at the bounding box of the set voxels, and that box lies within the grid |
| BoundsProperties.ScanKeepsOtherAxes | cmd/mrgrid.cpp:262-265 | the fold leaves axes 3 and up alone |
| BoundsProperties.MarginOutcome | cmd/mrgrid.cpp:272-279 | the margin step succeeds iff no spatial axis is empty; failure is EmptyMask; success widens each spatial axis by one voxel unless that side is at the grid edge |
| BoundsProperties.MarginOfBox | cmd/mrgrid.cpp:275-278 | on a box inside the grid the margin gives [max(0, lo - 1), min(n - 1, hi + 1)] |
| BoundsProperties.MaskBoundingBox | cmd/mrgrid.cpp:238-279 | the mask stage succeeds iff some voxel is set, and fails with EmptyMask otherwise; on success each spatial axis is [max(0, min - 1), min(size - 1, max + 1)] of the set voxels' indices, and the other axes are unchanged |
| BoundsProperties.VisitMerge | cmd/mrgrid.cpp:254-267 | visiting a voxel commutes with merging a worker's bounds into the shared ones |
| BoundsProperties.MergeIntoStart | cmd/mrgrid.cpp:253-258 | merging a worker's result into the bounds it was copied from yields the worker's result |
| BoundsProperties.ScanAppend | cmd/mrgrid.cpp:250-270 | scanning xs then ys equals merging the scans of xs and of ys, each started from the same bounds |
| BoundsProperties.ThreadedScanAgrees | cmd/mrgrid.cpp:250-270 | two workers that merge into the shared bounds, in either order, give the same bounds as one sequential scan of the whole mask |
| BoundsProperties.VisitCommutes | cmd/mrgrid.cpp:261-266 | two voxel visits give the same bounds in either order |
| BoundsProperties.ScanMoveToEnd | cmd/mrgrid.cpp:250-270 | moving any one voxel to the end of the run leaves the scan unchanged |
| BoundsProperties.ScanPermutation | cmd/mrgrid.cpp:250-270 | two runs holding the same voxels, each as often, scan to the same bounds, so the loop's voxel order does not matter |
| BoundsProperties.AsMatchesReference | cmd/mrgrid.cpp:290-300 | `-as` never changes a lower bound or any axis from nd on; the new upper bound is the old one or ref - 1, the smaller of the two for a crop and the larger for a pad; an axis the reference lacks gets upper 0 when cropping and is kept when padding |
| BoundsProperties.AsIdempotent | cmd/mrgrid.cpp:290-300 | applying `-as` twice with the same reference equals applying it once |
| BoundsProperties.UniformInverse | cmd/mrgrid.cpp:306-310 | a uniform pad by v undoes a uniform crop by v, and a crop by v equals a pad by -v |
| BoundsSpec.AxisRange | cmd/mrgrid.cpp:319-341 | the bounds one `-axis` specifier sets: the delta form (no ':') succeeds iff the text parses as exactly two integers; the colon form's lower bound is `std::stoi` of the stripped text before the ':'; a failure is BadDeltaSpec without ':' and BadRangeSpec with it (the lemmas below give the bounds) |
| BoundsProperties.CropDeltaMatchesRange | cmd/mrgrid.cpp:323-341 | when cropping an axis of N voxels, "dl,du" and "dl:(N-1-du)" both give the bounds [dl, N-1-du] |
| BoundsProperties.PadDelta | cmd/mrgrid.cpp:328-329 | padding with "dl,du" gives [-dl, N-1+du] |
| BoundsProperties.RangeToEnd | cmd/mrgrid.cpp:334-336 | "start:end", in any letter case and with surrounding white space, gives [start, N-1] |
| BoundsProperties.RangeFormIgnoresMode | cmd/mrgrid.cpp:330-341 | the colon form gives the same result for crop and for pad |
| BoundsProperties.BadDeltaRejected | cmd/mrgrid.cpp:323-327 | a delta specifier that does not read as exactly two integers fails with BadDeltaSpec, although the exception at line 325 is never thrown |
| BoundsProperties.AxisOptionsOutcome | cmd/mrgrid.cpp:313-344 | the `-axis` options succeed iff each one is valid on its own (index in range, specifier parses, axis not empty); otherwise they fail with the first invalid option's error |
| BoundsProperties.AxisOptionsLastWins | cmd/mrgrid.cpp:313-344 | an axis named by some `-axis` option ends with the bounds of the last such option; every other axis keeps its bounds |
| BoundsProperties.ChangedCountZero | cmd/mrgrid.cpp:356-366 | the changed-axes count is at most nd, and it is 0 iff every axis below nd still spans [0, size - 1] |
| BoundsProperties.IdentityRegion | cmd/mrgrid.cpp:230-234 | untouched bounds give from = 0 and size = the input's on every axis, with no axis changed |
| BoundsProperties.NoOptionFails | cmd/mrgrid.cpp:346-347 | without a mask, `-as`, `-uniform` or `-axis` the command fails with NoCropPadOption |
| BoundsProperties.MaskPadFails | cmd/mrgrid.cpp:240 | a mask with the pad operation fails with MaskWithPad |
| BoundsProperties.MaskAndAsFail | cmd/mrgrid.cpp:284-285 | a mask together with `-as` always fails |
| BoundsProperties.AxisIndexTooLargeFails | cmd/mrgrid.cpp:317-318 | an `-axis` index of at least the input's dimension count always fails the command |
| BoundsProperties.AxisOverridesOtherOptions | cmd/mrgrid.cpp:313-354 | whatever the mask, `-as` and `-uniform` did, an axis named by `-axis` gets from and size from the bounds of its last specifier |
| BoundsProperties.UniformOnly | cmd/mrgrid.cpp:303-311 | `-uniform v` alone never fails; each considered axis starts at v (crop) or -v (pad) and loses or gains 2v voxels; the other axes are unchanged |
| BoundsProperties.UniformZeroChangesNothing | cmd/mrgrid.cpp:303-366 | `-uniform 0` gives the whole input, with no axis changed |
| SpecText.FindFirst | cmd/mrgrid.cpp:322 | the position of the first ':' in the specifier, or None exactly when there is no ':' |
| SpecText.Lowercase | cmd/mrgrid.cpp:335 | same length; each character lower-cased |
| SpecText.DigitRun | cmd/mrgrid.cpp:332 | the length of the maximal run of digits at the front, as `std::stoi` reads it |
| SpecText.StoIOfIntToString | cmd/mrgrid.cpp:332 | `std::stoi` reads back any int written in decimal |
| SpecText.ParseIntsOfPair | cmd/mrgrid.cpp:324 | the delta parser reads "a,b" as the list [a, b] |
| RegridPlanner.PlanRegrid | cmd/mrgrid.cpp:141-217 | the regrid branch as written returns exactly `Regridding`: the template's grid copied over axes 0-2, the counters, and the settings |
| RegridPlanner.RegridOutcome | cmd/mrgrid.cpp:165-210 | regrid succeeds iff any template has at least 3 dims and there is exactly one resize option, or none with a template; the errors TemplateTooFewDims, MultipleResizeMethods and NoResizeMethod, in that precedence |
| RegridPlanner.TwoResizeMethodsRejected | cmd/mrgrid.cpp:209-210 | any two of `-scale`, `-size`, `-voxel` fail |
| RegridPlanner.SingleValueBroadcast | cmd/mrgrid.cpp:179-205 | one scale factor or voxel size is repeated for 3 axes; a longer list is passed on unchanged; `-size` is passed as given |
| RegridPlanner.RegridOutputType | cmd/mrgrid.cpp:148-217 | interpolation defaults to cubic; without `-datatype`, nearest keeps the input's type and anything else gives Float32 |
| RegridPlanner.TemplateSetsGrid | cmd/mrgrid.cpp:161-174 | a template sets the size and spacing of axes 0-2 and the transform; the other axes keep the input's; without a template the grid is the input's |
| Mrgrid.Run | cmd/mrgrid.cpp:128-372 | `run()` as written (the -nan/-fill value, then the branch for the operation) returns exactly `RunSpec` |
| Mrgrid.FillAndNanRejected | cmd/mrgrid.cpp:130-139 | -nan with -fill fails with FillAndNan, whatever the operation |
| Mrgrid.OutOfBoundsUsed | cmd/mrgrid.cpp:130-139 | the out-of-bounds value is the -fill number, NaN with -nan, and 0.0 otherwise |
| Mrgrid.RunDispatch | cmd/mrgrid.cpp:141-227 | regrid succeeds iff its options are valid, crop and pad iff their bounds resolve, and the result or error is that branch's |
| Mrgrid.CropPadOutputType | cmd/mrgrid.cpp:372 | crop and pad write Float32 unless `-datatype` is given |

## Left out

- The resampling (`Filter::Resize`: interpolation kernels, oversampling, transform arithmetic) and the crop/pad voxel copy (`Adapter::Regrid`, the threaded copy). These are outside `run()`. The model stops at the plan or region handed to them.
- `Filter::Resize`'s own checks of the values given to `set_scale_factor`, `set_size` and `set_voxel_size`: that class is not part of this model.
- Image and header I/O, strides, the `INFO`/`WARN` text, and the comment added to the header. The "no axes were changed" warning is `Region.NoAxesChanged`.
- Threading of the mask scan: modelled as one sequential fold. `ThreadedScanAgrees` shows that two workers merging in either order give the same result.
- The order in which `ThreadedLoop` visits voxels: the mask is a sequence. `ScanPermutation` shows that every order of the same voxels gives the same bounds. Splits into more than two workers are not modelled.
- Conversion of option text to numbers, headers and masks (`parse_floats`, `Header::open`), except for the `-axis` specifier.
- SpecText.ParseInts: `parse_ints` is not part of this model. It is approximated: a non-empty list of comma-separated tokens, each stripped of white space, each [sign]digits within the int range. `MR::strip`'s character set is taken as space, tab, CR, LF and NUL.
- SpecText.StoI: `std::stoi` reports errors with its own exception types, not `MR::Exception`. The model keeps only that the colon form is rejected.
- The 64-bit `ssize_t` and 32-bit `int` bound arithmetic: the model uses unbounded integers, and parsed values are limited to the int range.
- The requirement that the input have at least 3 axes (`ValidInput`): the source indexes axes 0-2 unconditionally, and gives no defined behaviour otherwise.
- A NaN given through `-fill`: the out-of-bounds value is `Nan | Fill(v)` with `v` real.
- Error message texts: each error is a constructor carrying the axis and the bounds it reports.
