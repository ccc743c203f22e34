/**
 * The a6xx image-layout engine (src/freedreno/fdl/fd6_layout.c).
 *
 * The layout record is the class FdlLayout, whose Layout method follows
 * fdl6_layout statement by statement.  What the method computes is stated
 * against the functions below: functions of a Request for what fdl6_layout
 * decides before its level loop (cpp, the pitch-alignment class, the level-0
 * pitch, whether UBWC survives), gathered into a LevelParams value, and
 * functions of LevelParams for each level's height, row count, pitch and
 * size0, the running buffer size and the UBWC metadata surface.  The
 * properties of the layout are lemmas about those functions (module
 * Fd6LayoutFacts).
 *
 * A format enters through the fields of its description that the layout
 * reads (Format); the per-level tile mode that fdl_tile_mode reports enters
 * as a sequence (Request.tileModes).
 */
module Fd6Layout {
  import opened Wrappers
  import opened UMath

  const RgbTileWidthAlignment: nat := 64
  const RgbTileHeightAlignment: nat := 16
  const UbwcPlaneSizeAlignment: nat := 4096

  /** Past this per-layer size a 3D level's size0 is no longer shrunk. */
  const VolumeSizeThreshold: nat := 0xf000

  /**
   * The parts of a pipe format's description that the layout reads: bytes
   * per block (util_format_get_blocksize), the block's width and height in
   * pixels, and the number of components (util_format_get_nr_components).
   */
  datatype Format = Format(blockSize: nat, blockWidth: nat, blockHeight: nat, nrComponents: nat)

  /** util_format_get_nblocksx: blocks across x pixels. */
  function NBlocksX(f: Format, x: nat): nat
    requires f.blockWidth > 0
  {
    DivRoundUp(x, f.blockWidth)
  }

  /** util_format_get_nblocksy: block rows down y pixels. */
  function NBlocksY(f: Format, y: nat): nat
    requires f.blockHeight > 0
  {
    DivRoundUp(y, f.blockHeight)
  }

  /** struct fdl_slice: one mip level of a colour or UBWC metadata plane. */
  datatype Slice = Slice(offset: nat, pitch: nat, size0: nat)

  /** Width and height, in pixels, of one UBWC compression block. */
  datatype BlockSize = BlockSize(width: nat, height: nat)

  /** is_r8g8: two bytes per pixel split over two components. */
  predicate IsR8G8(cpp: nat, nrComponents: nat)
  {
    cpp == 2 && nrComponents == 2
  }

  /** The blocksize[] table of fdl6_get_ubwc_blockwidth, indexed by cpp_shift. */
  const UbwcBlockTable: seq<BlockSize> := [
    BlockSize(16, 4),  // cpp = 1
    BlockSize(16, 4),  // cpp = 2
    BlockSize(16, 4),  // cpp = 4
    BlockSize(8, 4),   // cpp = 8
    BlockSize(4, 4),   // cpp = 16
    BlockSize(4, 2),   // cpp = 32
    BlockSize(0, 0)    // cpp = 64, no UBWC support
  ]

  /**
   * fdl6_get_ubwc_blockwidth.  The source asserts cpp_shift < 7 outside the
   * r8g8 case.  A zero block size is the marker for "no UBWC at this cpp".
   */
  function UbwcBlockSize(cpp: nat, cppShift: nat, nrComponents: nat): (b: BlockSize)
    requires IsR8G8(cpp, nrComponents) || cppShift < |UbwcBlockTable|
    ensures IsR8G8(cpp, nrComponents) ==> b == BlockSize(16, 8)
    ensures !IsR8G8(cpp, nrComponents) ==> b == UbwcBlockTable[cppShift]
    ensures b.width == 0 <==> b.height == 0
    ensures b.width == 0 <==> !IsR8G8(cpp, nrComponents) && cppShift == 6
    ensures b.width >= b.height
  {
    if IsR8G8(cpp, nrComponents) then BlockSize(16, 8)
    else UbwcBlockTable[cppShift]
  }

  /** fdl6_tile_alignment's pitchalign class. */
  function TiledPitchAlign(cpp: nat, cppShift: nat, r8g8: bool): nat
  {
    if r8g8 || cpp == 1 then 1
    else if cpp == 2 then 2
    else cppShift
  }

  /** fdl6_tile_alignment's height alignment, in block rows. */
  function TiledHeightAlign(cpp: nat, r8g8: bool): nat
  {
    if r8g8 || cpp == 1 then 32 else 16
  }

  /** fdl6_tile_alignment's base_align, in bytes. */
  function TiledBaseAlign(cpp: nat): nat
  {
    if cpp == 1 then 64 else if cpp == 2 then 128 else 256
  }

  /** The pitchalign class of a linear layout; more alignment when no plane is imposed. */
  function LinearPitchAlign(cpp: nat, cppShift: nat, hasPlane: bool): nat
    requires cpp == Pow2(cppShift)
  {
    if !hasPlane then cppShift
    else if cpp > 4 then Pow2Above4(cppShift); cppShift - 2
    else 0
  }

  lemma Pow2Above4(k: nat)
    requires Pow2(k) > 4
    ensures k >= 3
  {
    if k < 3 {
      assert Pow2(0) == 1 && Pow2(1) == 2 && Pow2(2) == 4;
    }
  }

  /**
   * Everything fdl6_layout reads: its parameters, the two fields the caller
   * sets beforehand (tile_mode, here only whether it is non-zero, and ubwc),
   * and the tile mode fdl_tile_mode reports for each level.
   */
  datatype Request = Request(
    format: Format, nrSamples: nat,
    width0: nat, height0: nat, depth0: nat,
    mipLevels: nat, arraySize: nat, is3d: bool,
    plane: Option<Slice>, tiled: bool, ubwcRequested: bool,
    tileModes: seq<nat>)

  /** Bytes per pixel, scaled by the sample count. */
  function Cpp(r: Request): nat
  {
    Mul(r.format.blockSize, r.nrSamples)
  }

  /**
   * What fdl6_layout demands of its caller: a sample count (asserted), at
   * least one layer and one level, a tile mode per level, a format with a
   * non-empty block, a power-of-two cpp, and a cpp_shift inside the UBWC
   * block table (asserted).
   */
  predicate Supported(r: Request)
  {
    && r.nrSamples > 0
    && r.arraySize >= 1
    && r.mipLevels >= 1
    && |r.tileModes| == r.mipLevels
    && r.format.blockWidth > 0 && r.format.blockHeight > 0
    && IsPow2(Cpp(r))
    && Ffs(Cpp(r)) - 1 < |UbwcBlockTable|
  }

  /** cpp_shift = ffs(cpp) - 1. */
  function CppShift(r: Request): nat
    requires Supported(r)
  {
    Ffs(Cpp(r)) - 1
  }

  predicate R8G8(r: Request)
  {
    IsR8G8(Cpp(r), r.format.nrComponents)
  }

  function Block(r: Request): BlockSize
    requires Supported(r)
  {
    UbwcBlockSize(Cpp(r), CppShift(r), r.format.nrComponents)
  }

  /** UBWC survives only for single-slice images at a cpp with a block size. */
  predicate UbwcEnabled(r: Request)
    requires Supported(r)
  {
    r.ubwcRequested && !(r.depth0 > 1 || Block(r).width == 0)
  }

  /** Levels hold every layer only for 3D images (layer_first = !is_3d). */
  function LayersInLevel(r: Request): nat
  {
    if r.is3d then r.arraySize else 1
  }

  function PitchAlignClass(r: Request): nat
    requires Supported(r)
  {
    FfsOfPow2(Cpp(r));
    if r.tiled then TiledPitchAlign(Cpp(r), CppShift(r), R8G8(r))
    else LinearPitchAlign(Cpp(r), CppShift(r), r.plane.Some?)
  }

  function BaseAlign(r: Request): nat
  {
    if r.tiled then TiledBaseAlign(Cpp(r)) else 64
  }

  /** Row alignment of tiled levels (1, unused, for a linear layout). */
  function HeightAlign(r: Request): nat
  {
    if r.tiled then TiledHeightAlign(Cpp(r), R8G8(r)) else 1
  }

  /** The pitch unit in bytes: 64 << pitchalign. */
  function Unit(r: Request): nat
    requires Supported(r)
  {
    64 * Pow2(PitchAlignClass(r))
  }

  /** The plane's pitch must already be a multiple of the unit. */
  predicate Accepted(r: Request)
    requires Supported(r)
  {
    r.plane.None? || r.plane.value.pitch % Unit(r) == 0
  }

  function PlaneOffset(r: Request): nat
  {
    if r.plane.Some? then r.plane.value.offset else 0
  }

  /** The level-0 pitch: the plane's, or the row size rounded up to the unit. */
  function Pitch0(r: Request): nat
    requires Supported(r)
  {
    if r.plane.Some? then r.plane.value.pitch
    else AlignUp(Mul(NBlocksX(r.format, r.width0), Cpp(r)), Unit(r))
  }

  function UbwcTileHeightAlign(r: Request): nat
  {
    if r.mipLevels > 1 then 64 else RgbTileHeightAlignment
  }

  /** The metadata base width before division: power-of-two sized when mipmapped. */
  function UbwcBaseWidth(r: Request): nat
  {
    if r.mipLevels > 1 then NextPow2(r.width0) else r.width0
  }

  function UbwcBaseHeight(r: Request): nat
  {
    if r.mipLevels > 1 then NextPow2(r.height0) else r.height0
  }

  /**
   * Width of the level-0 metadata surface, in blocks (lines 175-189).  The
   * division is done only when UBWC survived; AsWrittenUbwcWidth0 is the
   * unconditional division of the source.
   */
  function UbwcWidth0(r: Request): nat
    requires Supported(r)
  {
    if UbwcEnabled(r) then AlignUp(DivRoundUp(UbwcBaseWidth(r), Block(r).width), RgbTileWidthAlignment)
    else UbwcBaseWidth(r)
  }

  /** Height of the level-0 metadata surface, in blocks (lines 176-191). */
  function UbwcHeight0(r: Request): nat
    requires Supported(r)
  {
    if UbwcEnabled(r) then AlignUp(DivRoundUp(UbwcBaseHeight(r), Block(r).height), UbwcTileHeightAlign(r))
    else UbwcBaseHeight(r)
  }

  /**
   * Lines 188-189 as written: the division happens whether or not UBWC
   * survived, so it needs a non-zero block width.
   */
  function AsWrittenUbwcWidth0(r: Request): nat
    requires Supported(r) && Block(r).width > 0
  {
    AlignUp(DivRoundUp(UbwcBaseWidth(r), Block(r).width), RgbTileWidthAlignment)
  }

  /**
   * What fdl6_layout has computed when it enters its level loop
   * (lines 112-191), and which the loop reads.
   */
  datatype LevelParams = LevelParams(
    format: Format, height0: nat, depth0: nat,
    mipLevels: nat, is3d: bool, tileModes: seq<nat>,
    heightAlign: nat, unit: nat, pitch0: nat, offset: nat, layersInLevel: nat,
    ubwc: bool, ubwcWidth0: nat, ubwcHeight0: nat, ubwcTileHeightAlign: nat)

  /** One tile mode per level, a format with block rows, positive alignments. */
  predicate ParamsOk(p: LevelParams)
  {
    && |p.tileModes| == p.mipLevels
    && p.format.blockHeight > 0
    && p.heightAlign > 0 && p.unit > 0 && p.ubwcTileHeightAlign > 0
  }

  function ParamsOf(r: Request): (p: LevelParams)
    requires Supported(r)
    ensures ParamsOk(p)
  {
    LevelParams(r.format, r.height0, r.depth0, r.mipLevels, r.is3d, r.tileModes,
                HeightAlign(r), Unit(r), Pitch0(r), PlaneOffset(r), LayersInLevel(r),
                UbwcEnabled(r), UbwcWidth0(r), UbwcHeight0(r), UbwcTileHeightAlign(r))
  }

  /** Tiled levels of 3D images take their height from the power-of-two base height. */
  function LevelHeight(p: LevelParams, level: nat): nat
    requires ParamsOk(p) && level < p.mipLevels
  {
    if p.is3d && p.tileModes[level] != 0 then Minify(NextPow2(p.height0), level)
    else Minify(p.height0, level)
  }

  /** Block rows of a level; tiled levels round them up to the height alignment. */
  function LevelNBlocksY(p: LevelParams, level: nat): nat
    requires ParamsOk(p) && level < p.mipLevels
  {
    var n := NBlocksY(p.format, LevelHeight(p, level));
    if p.tileModes[level] != 0 then AlignUp(n, p.heightAlign) else n
  }

  function LevelPitch(p: LevelParams, level: nat): nat
    requires ParamsOk(p)
  {
    AlignUp(Minify(p.pitch0, level), p.unit)
  }

  function LevelDepth(p: LevelParams, level: nat): nat
  {
    Minify(p.depth0, level)
  }

  /**
   * size0 of a level.  For 3D images it is page-aligned, and once the
   * previous level's size0 is at most VolumeSizeThreshold it is reused.
   */
  function LevelSize0(p: LevelParams, level: nat): nat
    requires ParamsOk(p) && level < p.mipLevels
    decreases level
  {
    var rows := Mul(LevelNBlocksY(p, level), LevelPitch(p, level));
    if !p.is3d then rows
    else if level < 1 || LevelSize0(p, level - 1) > VolumeSizeThreshold then AlignUp(rows, 4096)
    else LevelSize0(p, level - 1)
  }

  /** What one level adds to the running size. */
  function LevelBytes(p: LevelParams, level: nat): nat
    requires ParamsOk(p) && level < p.mipLevels
  {
    Mul(Mul(LevelSize0(p, level), LevelDepth(p, level)), p.layersInLevel)
  }

  /** layout->size just before level `level` is laid out (the level's own offset). */
  function RunningSize(p: LevelParams, level: nat): nat
    requires ParamsOk(p) && level <= p.mipLevels
    decreases level
  {
    if level == 0 then 0
    else
      var s := RunningSize(p, level - 1) + LevelBytes(p, level - 1);
      if p.ubwc then AlignUp(s, 4096) else s
  }

  /** A colour slice as the level loop leaves it, before the UBWC shift. */
  function LevelSliceAt(p: LevelParams, level: nat): Slice
    requires ParamsOk(p) && level < p.mipLevels
  {
    Slice(RunningSize(p, level), LevelPitch(p, level), LevelSize0(p, level))
  }

  function MetaPitch(p: LevelParams, level: nat): nat
  {
    AlignUp(Minify(p.ubwcWidth0, level), RgbTileWidthAlignment)
  }

  function MetaHeight(p: LevelParams, level: nat): nat
    requires ParamsOk(p)
  {
    AlignUp(Minify(p.ubwcHeight0, level), p.ubwcTileHeightAlign)
  }

  function MetaSize0(p: LevelParams, level: nat): nat
    requires ParamsOk(p)
  {
    AlignUp(Mul(MetaPitch(p, level), MetaHeight(p, level)), UbwcPlaneSizeAlignment)
  }

  /** Sum of the metadata sizes of the levels below `level`, for one layer. */
  function MetaSum(p: LevelParams, level: nat): nat
    requires ParamsOk(p)
    decreases level
  {
    if level == 0 then 0 else MetaSum(p, level - 1) + MetaSize0(p, level - 1)
  }

  function UbwcSliceAt(p: LevelParams, level: nat): Slice
    requires ParamsOk(p)
  {
    Slice(p.offset + MetaSum(p, level), MetaPitch(p, level), MetaSize0(p, level))
  }

  /** ubwc_layer_size: all metadata levels of one layer (0 without UBWC). */
  function UbwcLayerSize(r: Request): nat
    requires Supported(r)
  {
    if UbwcEnabled(r) then MetaSum(ParamsOf(r), r.mipLevels) else 0
  }

  /** How far every colour slice is moved to make room for the metadata of all layers. */
  function UbwcShift(r: Request): nat
    requires Supported(r)
  {
    Mul(UbwcLayerSize(r), r.arraySize)
  }

  /** layer_size of a layer-first layout: one mip chain, page-aligned. */
  function LayerSize(r: Request): nat
    requires Supported(r)
  {
    AlignUp(RunningSize(ParamsOf(r), r.mipLevels), 4096)
  }

  /** A colour slice in the finished layout. */
  function ColorSliceAt(r: Request, level: nat): Slice
    requires Supported(r) && level < r.mipLevels
  {
    var s := LevelSliceAt(ParamsOf(r), level);
    s.(offset := s.offset + UbwcShift(r))
  }

  /** The final layout->size. */
  function TotalSize(r: Request): nat
    requires Supported(r)
  {
    (if r.is3d then RunningSize(ParamsOf(r), r.mipLevels) else Mul(LayerSize(r), r.arraySize))
      + UbwcShift(r) + PlaneOffset(r)
  }

  /** struct fdl_layout, as far as fdl6_layout reads and writes it. */
  class FdlLayout {
    var format: Format
    var nrSamples: nat
    var width0: nat
    var height0: nat
    var depth0: nat
    var cpp: nat
    var cppShift: nat
    var layerFirst: bool
    var tileMode: nat
    var ubwc: bool
    var pitchalign: nat
    var baseAlign: nat
    var size: nat
    var layerSize: nat
    var ubwcLayerSize: nat
    const slices: array<Slice>
    const ubwcSlices: array<Slice>

    /** A zeroed record on which the caller has set tile_mode and ubwc. */
    constructor (levels: nat, tileMode: nat, ubwc: bool)
      ensures this.tileMode == tileMode && this.ubwc == ubwc
      ensures size == 0 && ubwcLayerSize == 0 && layerSize == 0
      ensures fresh(slices) && fresh(ubwcSlices) && slices != ubwcSlices
      ensures slices.Length == levels && ubwcSlices.Length == levels
      ensures forall i :: 0 <= i < levels ==> slices[i] == Slice(0, 0, 0)
      ensures forall i :: 0 <= i < levels ==> ubwcSlices[i] == Slice(0, 0, 0)
    {
      format, nrSamples := Format(0, 0, 0, 0), 0;
      width0, height0, depth0 := 0, 0, 0;
      cpp, cppShift := 0, 0;
      layerFirst := false;
      this.tileMode := tileMode;
      this.ubwc := ubwc;
      pitchalign, baseAlign := 0, 0;
      size, layerSize, ubwcLayerSize := 0, 0, 0;
      slices := new Slice[levels](_ => Slice(0, 0, 0));
      ubwcSlices := new Slice[levels](_ => Slice(0, 0, 0));
    }

    /** fdl6_tile_alignment: the alignments of a tiled layout. */
    method TileAlignment() returns (heightalign: nat)
      modifies this`pitchalign, this`baseAlign
      ensures pitchalign == TiledPitchAlign(cpp, cppShift, IsR8G8(cpp, format.nrComponents))
      ensures baseAlign == TiledBaseAlign(cpp)
      ensures heightalign == TiledHeightAlign(cpp, IsR8G8(cpp, format.nrComponents))
    {
      pitchalign := cppShift;
      heightalign := 16;

      if IsR8G8(cpp, format.nrComponents) || cpp == 1 {
        pitchalign := 1;
        heightalign := 32;
      } else if cpp == 2 {
        pitchalign := 2;
      }

      if cpp == 1 {
        baseAlign := 64;
      } else if cpp == 2 {
        baseAlign := 128;
      } else {
        baseAlign := 256;
      }
    }

    /**
     * The colour part of one pass of the level loop (lines 194-240): level
     * `level` is placed at the running size, which grows by the level's bytes.
     * A 3D level reads the size0 of the level before it.
     */
    method LayOutColorLevel(p: LevelParams, level: nat)
      requires ParamsOk(p) && level < p.mipLevels <= slices.Length
      requires level > 0 ==> slices[level - 1].size0 == LevelSize0(p, level - 1)
      modifies this`size, slices
      ensures slices[level] == Slice(old(size), LevelPitch(p, level), LevelSize0(p, level))
      ensures size == old(size) + LevelBytes(p, level)
      ensures forall k :: 0 <= k < slices.Length && k != level ==> slices[k] == old(slices[k])
    {
      var depth := LevelDepth(p, level);
      // tiled levels of 3D images take power-of-two heights (lines 200-209)
      var height := LevelHeight(p, level);
      var nblocksy := LevelNBlocksY(p, level);

      // The last-level over-fetch padding of the source is stored into
      // `height`, which nothing reads afterwards: size0 keeps nblocksy.
      if level == p.mipLevels - 1 {
        height := AlignUp(nblocksy, 4);
      }

      var pitch := LevelPitch(p, level);

      // 3D levels stop shrinking once their layer size is small enough
      var size0: nat;
      if p.is3d {
        if level < 1 || slices[level - 1].size0 > VolumeSizeThreshold {
          size0 := AlignUp(Mul(nblocksy, pitch), 4096);
        } else {
          size0 := slices[level - 1].size0;
        }
      } else {
        size0 := Mul(nblocksy, pitch);
      }
      slices[level] := Slice(size, pitch, size0);

      size := size + Mul(Mul(size0, depth), p.layersInLevel);
    }

    /**
     * The UBWC part of one pass of the level loop (lines 242-255): the running
     * size moves to a page boundary and the level's metadata slice follows
     * the metadata of the levels before it.
     */
    method LayOutMetaLevel(p: LevelParams, level: nat)
      requires ParamsOk(p) && level < ubwcSlices.Length
      modifies this`size, this`ubwcLayerSize, ubwcSlices
      ensures size == AlignUp(old(size), 4096)
      ensures ubwcSlices[level] == Slice(p.offset + old(ubwcLayerSize), MetaPitch(p, level), MetaSize0(p, level))
      ensures ubwcLayerSize == old(ubwcLayerSize) + MetaSize0(p, level)
      ensures forall k :: 0 <= k < ubwcSlices.Length && k != level ==> ubwcSlices[k] == old(ubwcSlices[k])
    {
      // with UBWC every level starts on a 4K page
      size := AlignUp(size, 4096);
      ubwcSlices[level] := Slice(p.offset + ubwcLayerSize, MetaPitch(p, level), MetaSize0(p, level));
      ubwcLayerSize := ubwcLayerSize + ubwcSlices[level].size0;
    }

    /** One pass of the level loop (lines 194-255), stated against the running size and metadata sum. */
    method LayOutLevel(p: LevelParams, level: nat)
      requires ParamsOk(p) && level < p.mipLevels
      requires slices != ubwcSlices && p.mipLevels <= slices.Length && p.mipLevels <= ubwcSlices.Length
      requires size == RunningSize(p, level)
      requires ubwcLayerSize == if p.ubwc then MetaSum(p, level) else 0
      requires level > 0 ==> slices[level - 1] == LevelSliceAt(p, level - 1)
      modifies this`size, this`ubwcLayerSize, slices, ubwcSlices
      ensures size == RunningSize(p, level + 1)
      ensures ubwcLayerSize == if p.ubwc then MetaSum(p, level + 1) else 0
      ensures slices[level] == LevelSliceAt(p, level)
      ensures forall k :: 0 <= k < slices.Length && k != level ==> slices[k] == old(slices[k])
      ensures p.ubwc ==> ubwcSlices[level] == UbwcSliceAt(p, level)
      ensures forall k :: 0 <= k < ubwcSlices.Length && k != level ==> ubwcSlices[k] == old(ubwcSlices[k])
      ensures !p.ubwc ==> unchanged(ubwcSlices)
    {
      LayOutColorLevel(p, level);
      if p.ubwc {
        LayOutMetaLevel(p, level);
      }
    }

    /** The level loop of fdl6_layout (lines 193-256). */
    method LayOutLevels(p: LevelParams)
      requires ParamsOk(p)
      requires size == 0 && ubwcLayerSize == 0
      requires slices != ubwcSlices && p.mipLevels <= slices.Length && p.mipLevels <= ubwcSlices.Length
      modifies this`size, this`ubwcLayerSize, slices, ubwcSlices
      ensures size == RunningSize(p, p.mipLevels)
      ensures ubwcLayerSize == if p.ubwc then MetaSum(p, p.mipLevels) else 0
      ensures forall k :: 0 <= k < p.mipLevels ==> slices[k] == LevelSliceAt(p, k)
      ensures forall k :: p.mipLevels <= k < slices.Length ==> slices[k] == old(slices[k])
      ensures p.ubwc ==> forall k :: 0 <= k < p.mipLevels ==> ubwcSlices[k] == UbwcSliceAt(p, k)
      ensures forall k :: p.mipLevels <= k < ubwcSlices.Length ==> ubwcSlices[k] == old(ubwcSlices[k])
      ensures !p.ubwc ==> unchanged(ubwcSlices)
    {
      var level := 0;
      while level < p.mipLevels
        invariant 0 <= level <= p.mipLevels
        invariant size == RunningSize(p, level)
        invariant ubwcLayerSize == if p.ubwc then MetaSum(p, level) else 0
        invariant forall k :: 0 <= k < level ==> slices[k] == LevelSliceAt(p, k)
        invariant forall k :: level <= k < slices.Length ==> slices[k] == old(slices[k])
        invariant p.ubwc ==> forall k :: 0 <= k < level ==> ubwcSlices[k] == UbwcSliceAt(p, k)
        invariant forall k :: level <= k < ubwcSlices.Length ==> ubwcSlices[k] == old(ubwcSlices[k])
        invariant !p.ubwc ==> unchanged(ubwcSlices)
      {
        LayOutLevel(p, level);
        level := level + 1;
      }
    }

    /** Lines 268-271: every colour slice moves up past the metadata of all layers. */
    method ShiftColorSlices(mipLevels: nat, shift: nat)
      requires mipLevels <= slices.Length
      modifies slices
      ensures forall k :: 0 <= k < mipLevels ==> slices[k] == old(slices[k]).(offset := old(slices[k]).offset + shift)
      ensures forall k :: mipLevels <= k < slices.Length ==> slices[k] == old(slices[k])
    {
      var level := 0;
      while level < mipLevels
        invariant 0 <= level <= mipLevels
        invariant forall k :: 0 <= k < level ==> slices[k] == old(slices[k]).(offset := old(slices[k]).offset + shift)
        invariant forall k :: level <= k < slices.Length ==> slices[k] == old(slices[k])
      {
        slices[level] := slices[level].(offset := slices[level].offset + shift);
        level := level + 1;
      }
    }

    /** Lines 113-123: the record takes the image's size and format. */
    method SetFormat(format: Format, nrSamples: nat, width0: nat, height0: nat, depth0: nat, is3d: bool)
      requires IsPow2(Mul(format.blockSize, nrSamples))
      modifies this`width0, this`height0, this`depth0, this`format, this`nrSamples,
               this`cpp, this`cppShift, this`layerFirst
      ensures this.width0 == width0 && this.height0 == height0 && this.depth0 == depth0
      ensures this.format == format && this.nrSamples == nrSamples
      ensures cpp == Mul(format.blockSize, nrSamples) && cppShift == Ffs(cpp) - 1
      ensures cpp == Pow2(cppShift)
      ensures layerFirst == !is3d
    {
      this.width0 := width0;
      this.height0 := height0;
      this.depth0 := depth0;

      cpp := format.blockSize;
      cpp := Mul(cpp, nrSamples);
      cppShift := Ffs(cpp) - 1;
      FfsOfPow2(cpp);

      this.format := format;
      this.nrSamples := nrSamples;
      layerFirst := !is3d;
    }

    /**
     * Lines 125-128: UBWC is turned off for images with more than one slice
     * and for a cpp without a UBWC block size; it is never turned on.
     */
    method CheckUbwc(ghost r: Request) returns (block: BlockSize)
      requires Supported(r) && cpp == Cpp(r) && cppShift == CppShift(r)
      requires format.nrComponents == r.format.nrComponents && depth0 == r.depth0
      requires ubwc == r.ubwcRequested
      modifies this`ubwc
      ensures block == Block(r)
      ensures ubwc == UbwcEnabled(r)
    {
      block := UbwcBlockSize(cpp, cppShift, format.nrComponents);
      if depth0 > 1 || block.width == 0 {
        ubwc := false;
      }
    }

    /** Lines 141-160: the alignments of a linear layout. */
    method LinearAlignment(hasPlane: bool) returns (heightalign: nat)
      requires cpp == Pow2(cppShift)
      modifies this`pitchalign, this`baseAlign
      ensures pitchalign == LinearPitchAlign(cpp, cppShift, hasPlane)
      ensures baseAlign == 64 && heightalign == 1
    {
      baseAlign := 64;
      pitchalign := 0;
      // at least 16 pixels of pitch alignment
      if cpp > 4 {
        Pow2Above4(cppShift);
        pitchalign := cppShift - 2;
      }
      // with no plane imposed, take more alignment than needed
      if !hasPlane {
        pitchalign := cppShift;
      }
      heightalign := 1;
    }

    /**
     * Lines 139-160: the pitch-alignment class, base alignment and row
     * alignment, from fdl6_tile_alignment when tiled.
     */
    method Alignments(hasPlane: bool, ghost r: Request) returns (heightalign: nat)
      requires Supported(r) && r.tiled == (tileMode != 0) && r.plane.Some? == hasPlane
      requires cpp == Cpp(r) && cppShift == CppShift(r) && format.nrComponents == r.format.nrComponents
      modifies this`pitchalign, this`baseAlign
      ensures pitchalign == PitchAlignClass(r) && baseAlign == BaseAlign(r)
      ensures heightalign == HeightAlign(r)
    {
      FfsOfPow2(cpp);
      if tileMode != 0 {
        heightalign := TileAlignment();
      } else {
        heightalign := LinearAlignment(hasPlane);
      }
    }

    /**
     * Lines 162-173: an imposed plane gives the offset and the level-0 pitch,
     * which must be a multiple of the pitch unit; otherwise the level-0 pitch
     * is the row size rounded up to the unit.
     */
    method PlanePitch(planeLayout: Option<Slice>, ghost r: Request)
        returns (ok: bool, pitchUnit: nat, offset: nat, pitch0: nat)
      requires Supported(r) && r.plane == planeLayout && r.format == format && r.width0 == width0
      requires cpp == Cpp(r) && pitchalign == PitchAlignClass(r)
      ensures ok <==> Accepted(r)
      ensures pitchUnit == Unit(r) && offset == PlaneOffset(r)
      ensures ok ==> pitch0 == Pitch0(r)
    {
      pitchUnit := 64 * Pow2(pitchalign);
      if planeLayout.Some? {
        offset := planeLayout.value.offset;
        pitch0 := planeLayout.value.pitch;
        AlignUpIdentity(pitch0, pitchUnit);
        if AlignUp(pitch0, pitchUnit) != pitch0 {
          return false, pitchUnit, offset, pitch0;
        }
      } else {
        var nblocksx := NBlocksX(format, width0);
        offset := 0;
        pitch0 := AlignUp(Mul(nblocksx, cpp), pitchUnit);
      }
      ok := true;
    }

    /**
     * Lines 175-191: the level-0 size of the UBWC metadata surface, in
     * blocks.  The source divides by the block size whether or not UBWC
     * survived, and the block size is 0 at cpp_shift 6; dividing only when
     * UBWC is on gives the same layout without the division by zero.
     */
    method UbwcDimensions(mipLevels: nat, block: BlockSize, ghost r: Request)
        returns (ubwcWidth0: nat, ubwcHeight0: nat, tileHeightAlign: nat)
      requires Supported(r) && block == Block(r) && ubwc == UbwcEnabled(r)
      requires r.width0 == width0 && r.height0 == height0 && r.mipLevels == mipLevels
      ensures ubwcWidth0 == UbwcWidth0(r) && ubwcHeight0 == UbwcHeight0(r)
      ensures tileHeightAlign == UbwcTileHeightAlign(r)
      ensures !UbwcEnabled(r) ==> ubwcWidth0 == UbwcBaseWidth(r) && ubwcHeight0 == UbwcBaseHeight(r)
    {
      ubwcWidth0 := width0;
      ubwcHeight0 := height0;
      tileHeightAlign := RgbTileHeightAlignment;
      if mipLevels > 1 {
        // mipmapped UBWC surfaces have power-of-two dimensions
        ubwcWidth0 := NextPow2(width0);
        ubwcHeight0 := NextPow2(height0);
        tileHeightAlign := 64;
      }
      if ubwc {
        ubwcWidth0 := AlignUp(DivRoundUp(ubwcWidth0, block.width), RgbTileWidthAlignment);
        ubwcHeight0 := AlignUp(DivRoundUp(ubwcHeight0, block.height), tileHeightAlign);
      }
    }

    /**
     * Lines 258-276: a layer-first layout repeats its page-aligned mip chain
     * per layer; the metadata of all layers goes before the colour data; the
     * imposed plane offset counts into the size.
     */
    method Finish(mipLevels: nat, arraySize: nat, offset: nat)
      requires mipLevels <= slices.Length
      modifies this`size, this`layerSize, slices
      ensures layerSize == if layerFirst then AlignUp(old(size), 4096) else old(layerSize)
      ensures var shift := if ubwc then Mul(ubwcLayerSize, arraySize) else 0;
        && size == (if layerFirst then Mul(AlignUp(old(size), 4096), arraySize) else old(size)) + shift + offset
        && (forall k :: 0 <= k < mipLevels ==> slices[k] == old(slices[k]).(offset := old(slices[k]).offset + shift))
      ensures forall k :: mipLevels <= k < slices.Length ==> slices[k] == old(slices[k])
    {
      if layerFirst {
        layerSize := AlignUp(size, 4096);
        size := Mul(layerSize, arraySize);
      }

      if ubwc {
        ShiftColorSlices(mipLevels, Mul(ubwcLayerSize, arraySize));
        size := size + Mul(ubwcLayerSize, arraySize);
      }

      size := size + offset;
    }

    /**
     * Lines 113-191: everything fdl6_layout sets and computes before its
     * level loop.  Fails only when an imposed plane pitch is not a multiple
     * of the pitch unit.
     */
    method Prepare(format: Format, nrSamples: nat, width0: nat, height0: nat, depth0: nat,
                   mipLevels: nat, arraySize: nat, is3d: bool,
                   planeLayout: Option<Slice>, tileModes: seq<nat>, ghost r: Request)
        returns (params: Option<LevelParams>)
      requires r == Request(format, nrSamples, width0, height0, depth0, mipLevels,
                            arraySize, is3d, planeLayout, tileMode != 0, ubwc, tileModes)
      requires Supported(r)
      modifies this`width0, this`height0, this`depth0, this`format, this`nrSamples,
               this`cpp, this`cppShift, this`layerFirst, this`ubwc, this`pitchalign, this`baseAlign
      ensures params.Some? <==> Accepted(r)
      ensures params.Some? ==> params.value == ParamsOf(r)
      ensures this.width0 == width0 && this.height0 == height0 && this.depth0 == depth0
      ensures this.format == format && this.nrSamples == nrSamples
      ensures cpp == Cpp(r) && cppShift == CppShift(r) && layerFirst == !is3d
      ensures ubwc == UbwcEnabled(r)
      ensures pitchalign == PitchAlignClass(r) && baseAlign == BaseAlign(r)
    {
      SetFormat(format, nrSamples, width0, height0, depth0, is3d);
      var ubwcBlock := CheckUbwc(r);

      // in a layer-first layout a level holds a single layer
      var layersInLevel := if layerFirst then 1 else arraySize;

      var heightalign := Alignments(planeLayout.Some?, r);

      var pitchOk, pitchUnit, offset, pitch0 := PlanePitch(planeLayout, r);
      if !pitchOk {
        return None;
      }

      var ubwcWidth0, ubwcHeight0, ubwcTileHeightAlign := UbwcDimensions(mipLevels, ubwcBlock, r);

      params := Some(LevelParams(format, height0, depth0, mipLevels, is3d, tileModes,
                                 heightalign, pitchUnit, pitch0, offset, layersInLevel,
                                 ubwc, ubwcWidth0, ubwcHeight0, ubwcTileHeightAlign));
    }

    /**
     * fdl6_layout.  Fails only when an imposed plane pitch is not a multiple
     * of the pitch unit; otherwise every colour slice, every UBWC slice (when
     * UBWC stays on) and the sizes are those of the functions above.
     */
    method Layout(format: Format, nrSamples: nat, width0: nat, height0: nat, depth0: nat,
                  mipLevels: nat, arraySize: nat, is3d: bool,
                  planeLayout: Option<Slice>, tileModes: seq<nat>) returns (ok: bool)
      requires size == 0 && ubwcLayerSize == 0
      requires slices != ubwcSlices && mipLevels <= slices.Length && mipLevels <= ubwcSlices.Length
      requires Supported(Request(format, nrSamples, width0, height0, depth0, mipLevels,
                                 arraySize, is3d, planeLayout, tileMode != 0, ubwc, tileModes))
      modifies this, slices, ubwcSlices
      ensures var r := Request(format, nrSamples, width0, height0, depth0, mipLevels,
                               arraySize, is3d, planeLayout, old(tileMode) != 0, old(ubwc), tileModes);
        && (ok <==> Accepted(r))
        && tileMode == old(tileMode)
        && this.width0 == width0 && this.height0 == height0 && this.depth0 == depth0
        && this.format == format && this.nrSamples == nrSamples
        && cpp == Cpp(r) && cppShift == CppShift(r)
        && layerFirst == !is3d
        && ubwc == UbwcEnabled(r)
        && pitchalign == PitchAlignClass(r) && baseAlign == BaseAlign(r)
        && (!ok ==> size == 0 && ubwcLayerSize == 0 && layerSize == old(layerSize)
                    && slices[..] == old(slices[..]) && ubwcSlices[..] == old(ubwcSlices[..]))
        && (ok ==> size == TotalSize(r) && ubwcLayerSize == UbwcLayerSize(r))
        && (ok ==> layerSize == if is3d then old(layerSize) else LayerSize(r))
        && (ok ==> forall level :: 0 <= level < mipLevels ==> slices[level] == ColorSliceAt(r, level))
        && (ok ==> forall level :: mipLevels <= level < slices.Length ==> slices[level] == old(slices[level]))
        && (ok && ubwc ==> forall level :: 0 <= level < mipLevels ==>
                              ubwcSlices[level] == UbwcSliceAt(ParamsOf(r), level))
        && (forall level :: 0 <= level < ubwcSlices.Length && (mipLevels <= level || !ubwc) ==>
                              ubwcSlices[level] == old(ubwcSlices[level]))
    {
      ghost var r := Request(format, nrSamples, width0, height0, depth0, mipLevels,
                             arraySize, is3d, planeLayout, tileMode != 0, ubwc, tileModes);
      var params := Prepare(format, nrSamples, width0, height0, depth0, mipLevels, arraySize, is3d,
                            planeLayout, tileModes, r);
      if params.None? {
        return false;
      }
      var p := params.value;
      LayOutLevels(p);
      Finish(mipLevels, arraySize, p.offset);
      return true;
    }
  }
}
