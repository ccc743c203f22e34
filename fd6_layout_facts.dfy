/**
 * What the a6xx layout guarantees, as lemmas about the functions that
 * FdlLayout.Layout is proved against: the UBWC block table, when UBWC
 * survives, the pitch unit, the plane check, the pitch and offset of every
 * level, the 3D size0 rule, and where the UBWC metadata sits.
 */
module Fd6LayoutFacts {
  import opened Wrappers
  import opened UMath
  import opened Fd6Layout

  // ---------------------------------------------------------------------
  // The UBWC block size and when UBWC survives (lines 43-71, 124-128)
  // ---------------------------------------------------------------------

  /** The block table read by cpp: 16x4 up to 4 bytes, then 8x4, 4x4, 4x2 and none at 64. */
  lemma UbwcBlockByCpp(r: Request)
    requires Supported(r) && !R8G8(r)
    ensures Cpp(r) <= 4 ==> Block(r) == BlockSize(16, 4)
    ensures Cpp(r) == 8 ==> Block(r) == BlockSize(8, 4)
    ensures Cpp(r) == 16 ==> Block(r) == BlockSize(4, 4)
    ensures Cpp(r) == 32 ==> Block(r) == BlockSize(4, 2)
    ensures Cpp(r) == 64 ==> Block(r) == BlockSize(0, 0)
    ensures Cpp(r) <= 64
  {
    FfsOfPow2(Cpp(r));
    CppFromShift(CppShift(r), Cpp(r));
  }

  /** Reads a cpp off its cpp_shift, for the shifts the block table has. */
  lemma CppFromShift(shift: nat, cpp: nat)
    requires shift < 7 && Pow2(shift) == cpp
    ensures shift == 0 <==> cpp == 1
    ensures shift == 1 <==> cpp == 2
    ensures shift == 2 <==> cpp == 4
    ensures shift == 3 <==> cpp == 8
    ensures shift == 4 <==> cpp == 16
    ensures shift == 5 <==> cpp == 32
    ensures shift == 6 <==> cpp == 64
  {
    assert Pow2(0) == 1 && Pow2(1) == 2 && Pow2(2) == 4 && Pow2(3) == 8;
    assert Pow2(4) == 16 && Pow2(5) == 32 && Pow2(6) == 64;
  }

  /** A format has no UBWC block size exactly when it has 64 bytes per pixel. */
  lemma NoUbwcBlockExactlyAt64(r: Request)
    requires Supported(r)
    ensures Block(r).width == 0 <==> Cpp(r) == 64
  {
    FfsOfPow2(Cpp(r));
    CppFromShift(CppShift(r), Cpp(r));
  }

  /**
   * fdl6_layout only ever turns UBWC off: it stays on exactly when it was
   * requested for a single-slice image whose cpp is not 64.
   */
  lemma UbwcSurvival(r: Request)
    requires Supported(r)
    ensures UbwcEnabled(r) <==> r.ubwcRequested && r.depth0 <= 1 && Cpp(r) != 64
    ensures UbwcEnabled(r) ==> Block(r).width > 0 && Block(r).height > 0
  {
    NoUbwcBlockExactlyAt64(r);
  }

  // ---------------------------------------------------------------------
  // The division by zero at lines 188-191
  // ---------------------------------------------------------------------

  /**
   * Requests fdl6_layout accepts at 64 bytes per pixel: a single-sample
   * 64-byte format with UBWC asked for, and a 16-byte format at 4 samples
   * without it.  UBWC is off for both, yet the source still divides by the
   * block width, which is 0, so AsWrittenUbwcWidth0 cannot be evaluated on
   * either.
   */
  lemma AsWrittenDividesByZero()
    ensures var r := Request(Format(64, 1, 1, 4), 1, 16, 16, 1, 1, 1, false, None, true, true, [1]);
      && Supported(r) && Accepted(r)
      && !UbwcEnabled(r)
      && Block(r).width == 0
    ensures var r := Request(Format(16, 1, 1, 4), 4, 16, 16, 1, 1, 1, false, None, false, false, [0]);
      && Supported(r) && Accepted(r)
      && !UbwcEnabled(r)
      && Block(r).width == 0
  {
    assert IsPow2(64) by {
      assert IsPow2(1) && IsPow2(2) && IsPow2(4) && IsPow2(8) && IsPow2(16) && IsPow2(32);
    }
    assert Ffs(64) == 7;
    var r := Request(Format(64, 1, 1, 4), 1, 16, 16, 1, 1, 1, false, None, true, true, [1]);
    assert Cpp(r) == 64;
    NoUbwcBlockExactlyAt64(r);
    var r4 := Request(Format(16, 1, 1, 4), 4, 16, 16, 1, 1, 1, false, None, false, false, [0]);
    assert Cpp(r4) == 64;
    NoUbwcBlockExactlyAt64(r4);
  }

  /**
   * The guarded division of UbwcWidth0 is defined for every request
   * fdl6_layout accepts.  Whenever UBWC survives, which is the only case in
   * which the level loop reads it, it is the division as written, and the
   * metadata surface covers the image in whole blocks.
   */
  lemma GuardedUbwcWidth0(r: Request)
    requires Supported(r) && UbwcEnabled(r)
    ensures Block(r).width > 0
    ensures UbwcWidth0(r) == AsWrittenUbwcWidth0(r)
    ensures UbwcWidth0(r) % RgbTileWidthAlignment == 0
    ensures UbwcWidth0(r) * Block(r).width >= UbwcBaseWidth(r)
  {
    UbwcSurvival(r);
    var b := Block(r).width;
    var n := DivRoundUp(UbwcBaseWidth(r), b);
    DivRoundUpBounds(UbwcBaseWidth(r), b);
    MulMonoInt(n, UbwcWidth0(r), b);
  }

  /**
   * The colour layout never reads the metadata dimensions: the running size
   * and every colour slice are the same whatever they are.  They feed only
   * the metadata slices, which exist only with UBWC.
   */
  lemma {:induction false} ColorLayoutIgnoresMetaDimensions(p: LevelParams, w: nat, h: nat, level: nat)
    requires ParamsOk(p) && level <= p.mipLevels
    ensures RunningSize(p.(ubwcWidth0 := w, ubwcHeight0 := h), level) == RunningSize(p, level)
    ensures level < p.mipLevels ==>
      LevelSliceAt(p.(ubwcWidth0 := w, ubwcHeight0 := h), level) == LevelSliceAt(p, level)
    decreases level
  {
    if level > 0 {
      ColorLayoutIgnoresMetaDimensions(p, w, h, level - 1);
      LevelSize0Ignores(p, w, h, level - 1);
    }
    if level < p.mipLevels {
      LevelSize0Ignores(p, w, h, level);
    }
  }

  lemma {:induction false} LevelSize0Ignores(p: LevelParams, w: nat, h: nat, level: nat)
    requires ParamsOk(p) && level < p.mipLevels
    ensures LevelSize0(p.(ubwcWidth0 := w, ubwcHeight0 := h), level) == LevelSize0(p, level)
    decreases level
  {
    if level > 0 {
      LevelSize0Ignores(p, w, h, level - 1);
    }
  }

  // ---------------------------------------------------------------------
  // The pitch unit and the plane check (lines 73-96, 135-173)
  // ---------------------------------------------------------------------

  /**
   * The pitch unit is a multiple of 64 bytes and always holds at least 16
   * pixels, tiled or linear, with or without an imposed plane.
   */
  lemma PitchUnitHolds16Pixels(r: Request)
    requires Supported(r)
    ensures Unit(r) % 64 == 0
    ensures Unit(r) >= 16 * Cpp(r)
  {
    var cpp, shift := Cpp(r), CppShift(r);
    FfsOfPow2(cpp);
    CppFromShift(shift, cpp);
    var k := PitchAlignClass(r);
    if r.tiled {
      if R8G8(r) || cpp == 1 {
        assert Pow2(1) == 2;
      } else if cpp == 2 {
        assert Pow2(2) == 4;
      }
    } else if r.plane.Some? && cpp > 4 {
      assert Pow2(shift) == 4 * Pow2(shift - 2) by {
        assert Pow2(shift) == 2 * Pow2(shift - 1);
        assert Pow2(shift - 1) == 2 * Pow2(shift - 2);
      }
    }
  }

  /**
   * An imposed plane pitch that passes the check is level 0's pitch,
   * unchanged; a zero pitch passes too, and level 0 then gets one unit.
   */
  lemma PlanePitchKept(r: Request)
    requires Supported(r) && r.plane.Some? && Accepted(r)
    ensures r.plane.value.pitch > 0 ==> ColorSliceAt(r, 0).pitch == r.plane.value.pitch
    ensures r.plane.value.pitch == 0 ==> ColorSliceAt(r, 0).pitch == Unit(r)
  {
    var pitch := r.plane.value.pitch;
    assert Minify(pitch, 0) == (if pitch == 0 then 1 else pitch);
    AlignUpIdentity(pitch, Unit(r));
    if pitch == 0 {
      AlignBelowUnit(1, Unit(r));
    }
  }

  /** Anything from 1 up to a rounds up to a. */
  lemma AlignBelowUnit(v: nat, a: nat)
    requires 0 < v <= a
    ensures AlignUp(v, a) == a
  {
    var r := AlignUp(v, a);
    AlignUpIdentity(a, a);
    AlignUpMono(v, a, a);
    if r < a {
      MultiplesApart(0, r, a);
    }
  }

  // ---------------------------------------------------------------------
  // Pitches (lines 162, 222)
  // ---------------------------------------------------------------------

  /** Every level's pitch is a positive multiple of the pitch unit, and pitches never grow. */
  lemma LevelPitches(p: LevelParams, i: nat, j: nat)
    requires ParamsOk(p) && i <= j
    ensures LevelPitch(p, i) % p.unit == 0 && LevelPitch(p, i) >= p.unit
    ensures LevelPitch(p, j) <= LevelPitch(p, i)
  {
    MinifyNonIncreasing(p.pitch0, i, j);
    AlignUpMono(Minify(p.pitch0, j), Minify(p.pitch0, i), p.unit);
    AlignUpMono(1, Minify(p.pitch0, i), p.unit);
    AlignBelowUnit(1, p.unit);
  }

  // ---------------------------------------------------------------------
  // Offsets and sizes (lines 221, 240, 258-275)
  // ---------------------------------------------------------------------

  /** The running size never shrinks from one level to a later one. */
  lemma {:induction false} RunningSizeMono(p: LevelParams, i: nat, j: nat)
    requires ParamsOk(p) && i <= j <= p.mipLevels
    ensures RunningSize(p, i) <= RunningSize(p, j)
    decreases j - i
  {
    if i < j {
      RunningSizeMono(p, i, j - 1);
    }
  }

  /** Colour slice offsets are non-decreasing with the level. */
  lemma ColorOffsetsNonDecreasing(r: Request, i: nat, j: nat)
    requires Supported(r) && i <= j < r.mipLevels
    ensures ColorSliceAt(r, i).offset <= ColorSliceAt(r, j).offset
  {
    RunningSizeMono(ParamsOf(r), i, j);
  }

  /** Levels do not overlap: each one ends where a later one may start. */
  lemma ColorLevelsDisjoint(p: LevelParams, i: nat, j: nat)
    requires ParamsOk(p) && i < j < p.mipLevels
    ensures LevelSliceAt(p, i).offset + LevelBytes(p, i) <= LevelSliceAt(p, j).offset
  {
    RunningSizeMono(p, i + 1, j);
  }

  /** Every colour level, with all its layers and slices, lies inside the buffer. */
  lemma ColorLevelInsideBuffer(r: Request, level: nat)
    requires Supported(r) && level < r.mipLevels
    ensures ColorSliceAt(r, level).offset + LevelBytes(ParamsOf(r), level) <= TotalSize(r)
  {
    var p := ParamsOf(r);
    RunningSizeMono(p, level + 1, r.mipLevels);
    if !r.is3d {
      MulAtLeast(LayerSize(r), r.arraySize);
    }
  }

  lemma MulAtLeast(x: nat, k: nat)
    requires k >= 1
    ensures Mul(x, k) >= x
  {
    MulMonoInt(1, k, x);
  }

  /**
   * A layer-first layout repeats a page-aligned mip chain: the layer size
   * holds the whole chain and is a multiple of 4096, and the size is that
   * many layers plus the metadata and the plane offset.
   */
  lemma LayerFirstSize(r: Request)
    requires Supported(r) && !r.is3d
    ensures LayerSize(r) % 4096 == 0
    ensures LayerSize(r) >= RunningSize(ParamsOf(r), r.mipLevels)
    ensures TotalSize(r) == Mul(LayerSize(r), r.arraySize) + UbwcShift(r) + PlaneOffset(r)
    ensures TotalSize(r) >= r.arraySize * LayerSize(r)
  {
    MulIsNat(LayerSize(r), r.arraySize);
  }

  /** Without an imposed plane, a layer-first buffer is a whole number of pages. */
  lemma LayerFirstSizePageAligned(r: Request)
    requires Supported(r) && !r.is3d && r.plane.None?
    ensures TotalSize(r) % 4096 == 0
  {
    var p := ParamsOf(r);
    MultipleMul(LayerSize(r), r.arraySize, 4096);
    if UbwcEnabled(r) {
      MetaSumPageAligned(p, r.mipLevels);
      MultipleMul(UbwcLayerSize(r), r.arraySize, 4096);
    }
    MultipleAdd(Mul(LayerSize(r), r.arraySize), UbwcShift(r), 4096);
  }

  // ---------------------------------------------------------------------
  // The UBWC metadata (lines 242-255, 268-272)
  // ---------------------------------------------------------------------

  /** The metadata of the first n levels fills whole pages. */
  lemma {:induction false} MetaSumPageAligned(p: LevelParams, n: nat)
    requires ParamsOk(p)
    ensures MetaSum(p, n) % 4096 == 0
    decreases n
  {
    if n > 0 {
      MetaSumPageAligned(p, n - 1);
      MultipleAdd(MetaSum(p, n - 1), MetaSize0(p, n - 1), 4096);
    }
  }

  lemma {:induction false} MetaSumMono(p: LevelParams, i: nat, j: nat)
    requires ParamsOk(p) && i <= j
    ensures MetaSum(p, i) <= MetaSum(p, j)
    decreases j - i
  {
    if i < j {
      MetaSumMono(p, i, j - 1);
    }
  }

  /**
   * Metadata slices have a pitch that is a multiple of 64 and a page-sized
   * size0, and follow each other without overlapping from the plane offset.
   */
  lemma MetaSlicesPacked(p: LevelParams, i: nat, j: nat)
    requires ParamsOk(p) && i < j
    ensures UbwcSliceAt(p, i).pitch % 64 == 0 && UbwcSliceAt(p, i).size0 % 4096 == 0
    ensures UbwcSliceAt(p, 0).offset == p.offset
    ensures UbwcSliceAt(p, i).offset + UbwcSliceAt(p, i).size0 <= UbwcSliceAt(p, j).offset
  {
    MetaSumMono(p, i + 1, j);
  }

  /**
   * With UBWC and a plane offset of 0 (in particular, no imposed plane), the
   * metadata of every level ends before any colour slice starts.  Metadata
   * offsets include the plane offset and colour offsets do not, so a plane
   * at a non-zero offset can put metadata after colour data.
   */
  lemma UbwcBeforeColor(r: Request, i: nat, level: nat)
    requires Supported(r) && UbwcEnabled(r) && PlaneOffset(r) == 0
    requires i < r.mipLevels && level < r.mipLevels
    ensures var m := UbwcSliceAt(ParamsOf(r), i);
      m.offset + m.size0 <= ColorSliceAt(r, level).offset
  {
    var p := ParamsOf(r);
    MetaSumMono(p, i + 1, r.mipLevels);
    MulAtLeast(UbwcLayerSize(r), r.arraySize);
  }

  /** With UBWC every level's colour data starts on a page. */
  lemma RunningSizePageAligned(p: LevelParams, level: nat)
    requires ParamsOk(p) && p.ubwc && level <= p.mipLevels
    ensures RunningSize(p, level) % 4096 == 0
  {
  }

  /** The metadata of all layers takes whole pages. */
  lemma UbwcShiftPageAligned(r: Request)
    requires Supported(r) && UbwcEnabled(r)
    ensures UbwcShift(r) % 4096 == 0
  {
    MetaSumPageAligned(ParamsOf(r), r.mipLevels);
    MultipleMul(UbwcLayerSize(r), r.arraySize, 4096);
  }

  lemma ColorSliceOffset(r: Request, level: nat)
    requires Supported(r) && level < r.mipLevels
    ensures ColorSliceAt(r, level).offset == RunningSize(ParamsOf(r), level) + UbwcShift(r)
  {
  }

  /**
   * With UBWC every colour slice starts on a page, with or without an
   * imposed plane: colour offsets never include the plane offset.
   */
  lemma UbwcColorPageAligned(r: Request, level: nat)
    requires Supported(r) && UbwcEnabled(r) && level < r.mipLevels
    ensures ColorSliceAt(r, level).offset % 4096 == 0
  {
    var p := ParamsOf(r);
    ColorSliceOffset(r, level);
    RunningSizePageAligned(p, level);
    UbwcShiftPageAligned(r);
    MultipleAdd(RunningSize(p, level), UbwcShift(r), 4096);
  }

  // ---------------------------------------------------------------------
  // 3D images (lines 200-209, 230-238)
  // ---------------------------------------------------------------------

  /** Every size0 of a 3D image is a multiple of 4096. */
  lemma {:induction false} VolumeSize0PageAligned(p: LevelParams, level: nat)
    requires ParamsOk(p) && p.is3d && level < p.mipLevels
    ensures LevelSize0(p, level) % 4096 == 0
    decreases level
  {
    if level > 0 {
      VolumeSize0PageAligned(p, level - 1);
    }
  }

  /**
   * Once a 3D level's size0 is at most VolumeSizeThreshold, every later
   * level keeps that same size0.
   */
  lemma {:induction false} VolumeSize0Stabilizes(p: LevelParams, i: nat, j: nat)
    requires ParamsOk(p) && p.is3d && i <= j < p.mipLevels
    requires LevelSize0(p, i) <= VolumeSizeThreshold
    ensures LevelSize0(p, j) == LevelSize0(p, i)
    decreases j - i
  {
    if i < j {
      VolumeSize0Stabilizes(p, i, j - 1);
    }
  }

  /** Outside 3D images, size0 is exactly the level's block rows times its pitch. */
  lemma FlatSize0IsRowsTimesPitch(p: LevelParams, level: nat)
    requires ParamsOk(p) && !p.is3d && level < p.mipLevels
    ensures LevelSize0(p, level) == LevelNBlocksY(p, level) * LevelPitch(p, level)
  {
  }

  lemma MinifyMonoValue(u: nat, v: nat, level: nat)
    requires u <= v
    ensures Minify(u, level) <= Minify(v, level)
  {
    DivMonoNumerator(u, v, Pow2(level));
  }

  lemma DivMonoNumerator(u: nat, v: nat, d: nat)
    requires u <= v && d > 0
    ensures u / d <= v / d
  {
    var qu, qv := u / d, v / d;
    assert u == qu * d + u % d && v == qv * d + v % d;
    if qu > qv {
      MulMonoInt(qv + 1, qu, d);
    }
  }

  /**
   * A tiled level of a 3D image takes its height from the power-of-two
   * base height, so it is never shorter than the plain minified height.
   */
  lemma TiledVolumeHeightCovers(p: LevelParams, level: nat)
    requires ParamsOk(p) && level < p.mipLevels && p.is3d && p.tileModes[level] != 0
    ensures LevelHeight(p, level) == Minify(NextPow2(p.height0), level)
    ensures LevelHeight(p, level) >= Minify(p.height0, level)
  {
    MinifyMonoValue(p.height0, NextPow2(p.height0), level);
  }

  /**
   * The over-fetch padding of the last level is not applied: the only level
   * of a linear 2D image one block row high has size0 equal to one row of
   * its pitch, not four.
   */
  lemma LastLevelUnpadded()
    ensures var p := LevelParams(Format(4, 1, 1, 4), 1, 1, 1, false, [0], 1, 256, 256, 0, 1,
                                 false, 0, 0, RgbTileHeightAlignment);
      && ParamsOk(p)
      && LevelNBlocksY(p, 0) == 1
      && LevelPitch(p, 0) == 256
      && LevelSize0(p, 0) == LevelPitch(p, 0)
  {
    var p := LevelParams(Format(4, 1, 1, 4), 1, 1, 1, false, [0], 1, 256, 256, 0, 1,
                         false, 0, 0, RgbTileHeightAlignment);
    assert Minify(256, 0) == 256 && Minify(1, 0) == 1;
    AlignUpIdentity(256, 256);
  }
}
