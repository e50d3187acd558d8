/**
 * What `mrgrid` is given: the input image header, the operation and the
 * command-line options, and the errors it reports.
 */
module Command {
  import opened Wrappers

  /** Voxel value types an image can store (endianness is not modelled). */
  datatype DataType =
    | Bit | Int8 | UInt8 | Int16 | UInt16 | Int32 | UInt32 | Int64 | UInt64
    | Float32 | Float64 | CFloat32 | CFloat64

  /**
   * An image header: the extent of every axis, the voxel spacing of every
   * axis, the voxel-to-scanner transform (the twelve entries of its upper
   * 3x4 part, row by row) and the stored data type.
   */
  datatype Header = Header(size: seq<int>, spacing: seq<real>, transform: seq<real>, dataType: DataType) {
    /** What every opened header satisfies: one spacing per axis, every extent at least one voxel. */
    predicate WellFormed() {
      |spacing| == |size| && forall a :: 0 <= a < |size| ==> size[a] >= 1
    }

    function NDim(): nat {
      |size|
    }
  }

  /**
   * An input header the command can work on: well formed, with the three
   * spatial axes that run() indexes unconditionally.
   */
  predicate ValidInput(h: Header) {
    h.WellFormed() && |h.size| >= 3
  }

  /**
   * One voxel of a mask image as the threaded scan visits it: its
   * position on the three spatial axes and its value. A mask with more
   * than three axes has one such voxel per volume.
   */
  datatype MaskVoxel = MaskVoxel(x: int, y: int, z: int, value: bool) {
    function Index(axis: nat): int
      requires axis < 3
    {
      if axis == 0 then x else if axis == 1 then y else z
    }
  }

  /** A boolean mask image: its extents and all of its voxels, in any order. */
  datatype MaskImage = MaskImage(size: seq<int>, voxels: seq<MaskVoxel>)

  datatype Operation = Regrid | Crop | Pad

  /** The interpolation choices, in the order of their option indices 0 to 3. */
  datatype Interp = Nearest | Linear | Cubic | Sinc

  /** The value written where the source has no data. */
  datatype OutOfBounds = Nan | Fill(v: real)

  /** One `-axis index spec` option. */
  datatype AxisOption = AxisOption(index: nat, spec: string)

  /** Every option `mrgrid` reads; None or [] where the option is absent. */
  datatype Options = Options(
    // general
    nan: bool,
    fill: Option<real>,
    dataType: Option<DataType>,
    // regrid
    template: Option<Header>,
    size: Option<seq<int>>,
    voxel: Option<seq<real>>,
    scale: Option<seq<real>>,
    interp: Option<Interp>,
    oversample: Option<seq<int>>,
    // crop and pad
    reference: Option<Header>,
    uniform: Option<int>,
    mask: Option<MaskImage>,
    axes: seq<AxisOption>,
    allAxes: bool)
  {
    /** The headers the options name are well formed, as every opened image is. */
    predicate WellFormed() {
      (template.Some? ==> template.value.WellFormed()) &&
      (reference.Some? ==> reference.value.WellFormed())
    }
  }

  /** The exceptions `mrgrid` throws, one per message. */
  datatype Error =
    | FillAndNan                      // "use either -nan or -value"
    | TemplateTooFewDims              // template with fewer than 3 dimensions
    | NoResizeMethod                  // none of -scale, -voxel, -size, -template
    | MultipleResizeMethods           // more than one of -scale, -size, -voxel
    | MaskWithPad                     // "padding and -mask options is not supported"
    | MaskDimensionMismatch           // mask grid differs from the input on axes 0-2
    | EmptyMask                       // "mask image is empty; can't use to crop image"
    | MaskAndAs                       // "... using either a mask or a template image"
    | AxisOutOfRange(axis: nat)       // "-axis N larger than image dimensions"
    | BadDeltaSpec(axis: nat)         // "can't parse delta specifier"
    | BadRangeSpec(axis: nat)         // "can't parse integer sequence specifier"
    | EmptyAxis(axis: nat, lower: int, upper: int)  // "-axis N empty"
    | NoCropPadOption                 // "no crop or pad option supplied"
}
