# a6xx image layout and stable-branch nomination bookkeeping

This project models two pieces of Mesa in Dafny and proves properties of them.

**The a6xx (Adreno 6xx) texture layout engine** (`fdl6_layout` and its helpers).
- Given a format, a sample count, base dimensions, a mip-level count, an array size and a 3D flag, it computes:
  - the pitch, offset and size of every colour mip slice;
  - when UBWC (lossless colour compression) stays on, the pitch, offset and size of every UBWC metadata slice;
  - the layer size and the total buffer size.
- The layout record `struct fdl_layout` becomes the class `Fd6Layout.FdlLayout`. Its fields are updated in place. Its two slice tables are arrays.
- Everything `fdl6_layout` computes is first stated as functions of a request value (`Fd6Layout.Request`):
  - `ParamsOf` gives what is fixed before the level loop;
  - `LevelPitch`, `LevelSize0`, `RunningSize`, `MetaSum`, `ColorSliceAt`, `UbwcSliceAt` and `TotalSize` give the level-wise results.
- The methods are proved to produce exactly these values. The module `Fd6LayoutFacts` proves the layout guarantees about them: alignment, ordering, disjointness, containment and 3D size stabilisation.
- The integer helpers come from Mesa's util headers: `align`, `util_align_npot`, `DIV_ROUND_UP`, `u_minify`, `util_next_power_of_two` and `ffs`. They are in module `UMath`.

**The bookkeeping core of the stable-branch picker** (`bin/pick/core.py`).
- The `Commit` record becomes the class `PickCore.Commit`, whose fields the passes update in place.
- Its JSON form (`to_json` / `from_json`) is modelled, and the two are proved to round-trip.
- `split_commit_list` is modelled on the text of `git log --pretty=oneline` output (a full sha, a space and the subject on each line), with its round-trip.
- `resolve_fixes` and the "not needed" post-pass of `gather_commits` are modelled as methods over a sequence of commit objects. Each is proved equal to a pass defined on values (`FixPass`, `RevertPass`, `SettlePass`). Lemmas prove what those passes decide: which fixes get nominated, that reverts only ever denominate, and that the post-pass leaves no commit undecided.

The generic `Option` and `Result` types are in module `Wrappers`.

## Model

| member | source | states |
|---|---|---|
| Fd6Layout.UbwcBlockSize | src/freedreno/fdl/fd6_layout.c:37-71 | the UBWC block is 16x8 for two-component 2-byte formats, otherwise the table entry for log2(cpp). It is 0x0 exactly at 64 bytes per pixel, and is never taller than it is wide |
| Fd6Layout.IsR8G8 | src/freedreno/fdl/fd6_layout.c:37-41 | a format is r8g8 when it has 2 bytes per pixel (after sample scaling) in 2 components |
| Fd6Layout.Cpp | src/freedreno/fdl/fd6_layout.c:117-118 | bytes per pixel: the format's block size times the sample count |
| Fd6Layout.UbwcEnabled | src/freedreno/fdl/fd6_layout.c:125-128 | UBWC stays on when it was requested, the image has at most one slice of depth, and the format has a UBWC block |
| Fd6Layout.PitchAlignClass | src/freedreno/fdl/fd6_layout.c:139-160 | the pitch-alignment class: the tiled table value for a tiled layout, the linear policy otherwise |
| Fd6Layout.Unit | src/freedreno/fdl/fd6_layout.c:162 | the pitch unit in bytes, 64 << pitch-alignment class |
| Fd6Layout.Accepted | src/freedreno/fdl/fd6_layout.c:164-168 | a request is laid out unless it imposes a plane whose pitch is not a multiple of the pitch unit |
| Fd6Layout.Pitch0 | src/freedreno/fdl/fd6_layout.c:164-173 | the level-0 pitch: the imposed plane's pitch, else the row of blocks in bytes rounded up to the pitch unit |
| Fd6Layout.UbwcWidth0 | src/freedreno/fdl/fd6_layout.c:175-191 | the level-0 metadata width in blocks, aligned to 64, from a power-of-two base width when mipmapped; the division is done only while UBWC is on |
| Fd6Layout.UbwcHeight0 | src/freedreno/fdl/fd6_layout.c:176-191 | the level-0 metadata height in blocks, aligned to 64 when mipmapped and 16 otherwise; the division is done only while UBWC is on |
| Fd6Layout.ParamsOf | src/freedreno/fdl/fd6_layout.c:112-191 | everything the level loop reads, as fdl6_layout has computed it before the loop |
| Fd6Layout.LevelHeight | src/freedreno/fdl/fd6_layout.c:200-205 | a level's height in pixels: the minified power-of-two base height for tiled 3D levels, the minified height otherwise |
| Fd6Layout.LevelNBlocksY | src/freedreno/fdl/fd6_layout.c:207-209 | a level's block rows, rounded up to the height alignment on tiled levels |
| Fd6Layout.LevelPitch | src/freedreno/fdl/fd6_layout.c:222 | a level's pitch: the minified level-0 pitch rounded up to the pitch unit |
| Fd6Layout.LevelSize0 | src/freedreno/fdl/fd6_layout.c:230-238 | a level's size0: rows times pitch, page-aligned for 3D images, where a level after one of at most 0xf000 bytes repeats that size |
| Fd6Layout.LevelBytes | src/freedreno/fdl/fd6_layout.c:240 | what a level adds to the buffer: size0 times its minified depth times the layers per level |
| Fd6Layout.RunningSize | src/freedreno/fdl/fd6_layout.c:221-255 | the buffer size when a level is reached, which is that level's offset: the earlier levels' bytes, rounded to 4096 after each level with UBWC |
| Fd6Layout.LevelSliceAt | src/freedreno/fdl/fd6_layout.c:221-238 | a colour slice as the level loop leaves it: the running size, the level pitch and size0 |
| Fd6Layout.MetaSize0 | src/freedreno/fdl/fd6_layout.c:246-251 | a metadata level's size: its aligned minified width times its aligned minified height, rounded up to 4096 |
| Fd6Layout.MetaSum | src/freedreno/fdl/fd6_layout.c:253-254 | ubwc_layer_size when a level is reached: the sizes of the earlier metadata levels of one layer |
| Fd6Layout.UbwcSliceAt | src/freedreno/fdl/fd6_layout.c:246-254 | a metadata slice: the plane offset plus the earlier levels' metadata, with the level's metadata pitch and size |
| Fd6Layout.LayerSize | src/freedreno/fdl/fd6_layout.c:258-259 | the layer size of a layer-first layout: one mip chain rounded up to 4096 |
| Fd6Layout.UbwcShift | src/freedreno/fdl/fd6_layout.c:268-271 | how far colour slices and the size move: one layer's metadata times the array size, 0 without UBWC |
| Fd6Layout.ColorSliceAt | src/freedreno/fdl/fd6_layout.c:221-270 | a finished colour slice: the level loop's slice moved up by the metadata of all layers |
| Fd6Layout.TotalSize | src/freedreno/fdl/fd6_layout.c:258-275 | the final size: one mip chain for 3D, else layer size times array size; plus the metadata of all layers and the plane offset |
| Fd6Layout.Supported | src/freedreno/fdl/fd6_layout.c:102-112 | what fdl6_layout demands of its caller: a sample count (asserted at line 112), at least one level and one layer, a tile mode per level, a format with a non-empty block, a power-of-two cpp, and a cpp_shift inside the UBWC block table (asserted at line 68) |
| Fd6Layout.CppShift | src/freedreno/fdl/fd6_layout.c:119 | cpp_shift = ffs(cpp) - 1, the base-2 logarithm of a power-of-two cpp |
| Fd6Layout.R8G8 | src/freedreno/fdl/fd6_layout.c:61 | the request's format is r8g8 at its scaled cpp |
| Fd6Layout.Block | src/freedreno/fdl/fd6_layout.c:125 | the UBWC block of the request's format at its scaled cpp |
| Fd6Layout.TiledPitchAlign | src/freedreno/fdl/fd6_layout.c:76-84 | the pitch-alignment class of a tiled layout: 1 for 1 byte per pixel and r8g8, 2 for 2 bytes, cpp_shift otherwise |
| Fd6Layout.TiledHeightAlign | src/freedreno/fdl/fd6_layout.c:77-81 | the row alignment of tiled levels: 32 block rows for 1 byte per pixel and r8g8, 16 otherwise |
| Fd6Layout.TiledBaseAlign | src/freedreno/fdl/fd6_layout.c:90-95 | the base alignment of a tiled layout: 64 bytes at 1 byte per pixel, 128 at 2, 256 otherwise |
| Fd6Layout.LinearPitchAlign | src/freedreno/fdl/fd6_layout.c:143-156 | the pitch-alignment class of a linear layout: cpp_shift without an imposed plane, else cpp_shift - 2 above 4 bytes per pixel, else 0 |
| Fd6Layout.BaseAlign | src/freedreno/fdl/fd6_layout.c:139-142 | base_align: the tiled table value, or 64 for a linear layout |
| Fd6Layout.HeightAlign | src/freedreno/fdl/fd6_layout.c:139-159 | the row alignment the level loop uses: the tiled table value, or 1 (unused) for a linear layout |
| Fd6Layout.LayersInLevel | src/freedreno/fdl/fd6_layout.c:133 | layers held by each level: every layer for a 3D image, one for a layer-first layout |
| Fd6Layout.PlaneOffset | src/freedreno/fdl/fd6_layout.c:164-171 | the base offset: the imposed plane's offset, else 0 |
| Fd6Layout.NBlocksX | src/freedreno/fdl/fd6_layout.c:170 | util_format_get_nblocksx: the width in blocks, rounded up |
| Fd6Layout.NBlocksY | src/freedreno/fdl/fd6_layout.c:207 | util_format_get_nblocksy: the height in block rows, rounded up |
| Fd6Layout.UbwcTileHeightAlign | src/freedreno/fdl/fd6_layout.c:177-186 | the row alignment of the metadata surface: 64 when mipmapped, 16 otherwise |
| Fd6Layout.UbwcBaseWidth | src/freedreno/fdl/fd6_layout.c:175-184 | the metadata base width in pixels: width0, or its next power of two when mipmapped |
| Fd6Layout.UbwcBaseHeight | src/freedreno/fdl/fd6_layout.c:176-185 | the metadata base height in pixels: height0, or its next power of two when mipmapped |
| Fd6Layout.AsWrittenUbwcWidth0 | src/freedreno/fdl/fd6_layout.c:188-189 | the metadata width as written: the base width divided by the block width, rounded up and aligned to 64, defined only for a non-zero block width |
| Fd6Layout.LevelDepth | src/freedreno/fdl/fd6_layout.c:194 | a level's depth: the minified depth0 |
| Fd6Layout.MetaPitch | src/freedreno/fdl/fd6_layout.c:246-247 | a metadata level's pitch: the minified metadata width aligned to 64 |
| Fd6Layout.MetaHeight | src/freedreno/fdl/fd6_layout.c:248-249 | a metadata level's height: the minified metadata height aligned to the metadata row alignment |
| Fd6Layout.UbwcLayerSize | src/freedreno/fdl/fd6_layout.c:253-254 | the final ubwc_layer_size: the metadata of every level of one layer with UBWC, 0 without |
| UMath.Ffs | src/freedreno/fdl/fd6_layout.c:119 | ffs: 0 exactly for 0, otherwise the 1-based index of the lowest set bit |
| UMath.Pow2 | src/freedreno/fdl/fd6_layout.c:162 | 2^k, the factor of `64 << pitchalign` |
| UMath.AlignUp | src/freedreno/fdl/fd6_layout.c:167-172 | align / util_align_npot: the least multiple of the alignment that is not below the value |
| UMath.NextPow2 | src/freedreno/fdl/fd6_layout.c:184-185 | util_next_power_of_two: 1 for 0 and 1, otherwise the least power of two not below the value |
| UMath.DivRoundUp | src/freedreno/fdl/fd6_layout.c:188-191 | DIV_ROUND_UP: the least number of divisor-sized steps that covers the value |
| UMath.Minify | src/freedreno/fdl/fd6_layout.c:194 | u_minify: the value shifted right by the level, never below 1 |
| Fd6Layout.FdlLayout.TileAlignment | src/freedreno/fdl/fd6_layout.c:74-96 | for a tiled layout, it sets the pitch-alignment class, the base alignment and the returned height alignment to the table values for cpp, with the r8g8 special case |
| Fd6Layout.FdlLayout.constructor | src/freedreno/fdl/fd6_layout.c:102-106 | a fresh layout record has zero sizes and two distinct zeroed slice tables of the requested length |
| Fd6Layout.FdlLayout.SetFormat | src/freedreno/fdl/fd6_layout.c:113-123 | it records the dimensions, format and sample count. cpp is block size times samples, and cpp_shift is its base-2 logarithm (cpp == 2^cpp_shift). The layout is layer-first exactly when the image is not 3D |
| Fd6Layout.FdlLayout.CheckUbwc | src/freedreno/fdl/fd6_layout.c:125-128 | it returns the UBWC block of the format. UBWC stays on exactly as `UbwcEnabled` says: requested, depth at most 1, and a non-zero block width |
| Fd6Layout.FdlLayout.LinearAlignment | src/freedreno/fdl/fd6_layout.c:141-160 | for a linear layout, the base alignment is 64 and the height alignment 1. The pitch-alignment class is 0, or cpp_shift-2 above 4 bytes, or the full cpp_shift when no plane is imposed |
| Fd6Layout.FdlLayout.Alignments | src/freedreno/fdl/fd6_layout.c:139-160 | the pitch class, base alignment and height alignment are those of the tiled or the linear policy, chosen by the tile mode |
| Fd6Layout.FdlLayout.PlanePitch | src/freedreno/fdl/fd6_layout.c:162-173 | the pitch unit is 64 << class. An imposed plane is accepted iff its pitch is a multiple of the unit, and its offset and pitch are then kept. Otherwise the offset is 0 and pitch0 is the row size rounded up to the unit |
| Fd6Layout.FdlLayout.UbwcDimensions | src/freedreno/fdl/fd6_layout.c:175-191 | the metadata surface dimensions use power-of-two bases (height alignment 64) for mipmapped images, and 16 otherwise. They are in whole UBWC blocks, and no division happens when UBWC is off |
| Fd6Layout.FdlLayout.LayOutColorLevel | src/freedreno/fdl/fd6_layout.c:194-240 | the colour slice of a level starts at the running size, with the aligned minified pitch and the level's size0. The running size grows by size0 * depth * layers, and every other slice is untouched |
| Fd6Layout.FdlLayout.LayOutMetaLevel | src/freedreno/fdl/fd6_layout.c:242-255 | with UBWC, the running size is rounded to 4096. The metadata slice is placed at offset + the layer's metadata so far, which then grows by the slice's page-aligned size |
| Fd6Layout.FdlLayout.LayOutLevel | src/freedreno/fdl/fd6_layout.c:193-256 | one pass of the level loop keeps the invariant: the running size and metadata size are those of the levels laid out so far, and each slice laid out equals its specification |
| Fd6Layout.FdlLayout.LayOutLevels | src/freedreno/fdl/fd6_layout.c:193-256 | after the loop, every colour slice (and, with UBWC, every metadata slice) below mip_levels equals its specification, and slices beyond mip_levels are untouched |
| Fd6Layout.FdlLayout.ShiftColorSlices | src/freedreno/fdl/fd6_layout.c:268-271 | it moves every colour slice below mip_levels forward by the shift and changes nothing else |
| Fd6Layout.FdlLayout.Finish | src/freedreno/fdl/fd6_layout.c:258-276 | a layer-first layout's size becomes the page-aligned layer size times the array size. With UBWC, the colour slices and the size move up by the metadata of all layers. The plane offset is added to the size |
| Fd6Layout.FdlLayout.Prepare | src/freedreno/fdl/fd6_layout.c:113-191 | the fields set before the level loop match the request, and the parameters the loop reads are returned exactly when the request is accepted |
| Fd6Layout.FdlLayout.Layout | src/freedreno/fdl/fd6_layout.c:102-278 | it fails iff an imposed plane pitch is not a multiple of the pitch unit, and then leaves the slices and sizes unchanged. Otherwise every field, every colour slice, every UBWC slice and the total size equal their specification |
| Fd6LayoutFacts.UbwcBlockByCpp | src/freedreno/fdl/fd6_layout.c:44-71 | outside the r8g8 case, the block is 16x4 up to 4 bytes per pixel, 8x4 at 8, 4x4 at 16, 4x2 at 32 and 0x0 at 64, and cpp never exceeds 64 |
| Fd6LayoutFacts.NoUbwcBlockExactlyAt64 | src/freedreno/fdl/fd6_layout.c:57-65 | the UBWC block width is zero iff cpp is 64 |
| Fd6LayoutFacts.UbwcSurvival | src/freedreno/fdl/fd6_layout.c:124-128 | UBWC survives iff it was requested, depth0 <= 1 and cpp != 64, and a surviving UBWC always has a non-empty block |
| Fd6LayoutFacts.AsWrittenDividesByZero | src/freedreno/fdl/fd6_layout.c:188-191 | two accepted requests at 64 bytes per pixel, a 64-byte format with UBWC requested and a 16-byte format at 4 samples without it, have UBWC off, yet reach the division with a zero block width |
| Fd6LayoutFacts.GuardedUbwcWidth0 | src/freedreno/fdl/fd6_layout.c:188-191 | whenever UBWC survives, the guarded metadata width equals the division as written, is a multiple of 64 and covers the base width in whole blocks |
| Fd6LayoutFacts.ColorLayoutIgnoresMetaDimensions | src/freedreno/fdl/fd6_layout.c:193-255 | the running size and every colour slice are the same whatever the metadata dimensions are; those dimensions feed only the metadata slices, so guarding the division changes no colour result |
| Fd6LayoutFacts.PitchUnitHolds16Pixels | src/freedreno/fdl/fd6_layout.c:139-162 | the pitch unit is a multiple of 64 bytes and holds at least 16 pixels, for tiled and linear layouts alike |
| Fd6LayoutFacts.PlanePitchKept | src/freedreno/fdl/fd6_layout.c:164-168 | an accepted imposed pitch is kept verbatim as level 0's pitch, and a zero pitch becomes one pitch unit |
| Fd6LayoutFacts.LevelPitches | src/freedreno/fdl/fd6_layout.c:222 | every level's pitch is a positive multiple of the pitch unit and never grows with the level |
| Fd6LayoutFacts.RunningSizeMono | src/freedreno/fdl/fd6_layout.c:221-255 | the running size never decreases across levels |
| Fd6LayoutFacts.ColorOffsetsNonDecreasing | src/freedreno/fdl/fd6_layout.c:221-272 | colour slice offsets never decrease with the level |
| Fd6LayoutFacts.ColorLevelsDisjoint | src/freedreno/fdl/fd6_layout.c:221-255 | the bytes of one level (size0 * depth * layers) end before any later level starts |
| Fd6LayoutFacts.ColorLevelInsideBuffer | src/freedreno/fdl/fd6_layout.c:221-275 | every level's bytes lie inside the total size |
| Fd6LayoutFacts.LayerFirstSize | src/freedreno/fdl/fd6_layout.c:258-275 | a layer-first layer is page-aligned and holds the whole mip chain, and the total is layers * layer size + metadata + plane offset |
| Fd6LayoutFacts.LayerFirstSizePageAligned | src/freedreno/fdl/fd6_layout.c:258-275 | without an imposed plane, a layer-first total size is a multiple of 4096 |
| Fd6LayoutFacts.MetaSumPageAligned | src/freedreno/fdl/fd6_layout.c:251-254 | the metadata size of a layer is always a multiple of 4096 |
| Fd6LayoutFacts.MetaSlicesPacked | src/freedreno/fdl/fd6_layout.c:246-254 | metadata pitches are multiples of 64 and sizes of 4096. The first metadata slice starts at the plane offset, and each ends before the next level's starts |
| Fd6LayoutFacts.UbwcBeforeColor | src/freedreno/fdl/fd6_layout.c:268-271 | with UBWC and a plane offset of 0, every metadata slice ends before any colour slice starts |
| Fd6LayoutFacts.UbwcColorPageAligned | src/freedreno/fdl/fd6_layout.c:242-271 | with UBWC, every colour slice starts on a 4096-byte page, with or without an imposed plane |
| Fd6LayoutFacts.VolumeSize0PageAligned | src/freedreno/fdl/fd6_layout.c:230-235 | every 3D level's size0 is a multiple of 4096 |
| Fd6LayoutFacts.VolumeSize0Stabilizes | src/freedreno/fdl/fd6_layout.c:230-235 | once a 3D level's size0 is at most 0xf000, every later level repeats it |
| Fd6LayoutFacts.FlatSize0IsRowsTimesPitch | src/freedreno/fdl/fd6_layout.c:236-238 | outside 3D, a level's size0 is its block rows times its pitch |
| Fd6LayoutFacts.TiledVolumeHeightCovers | src/freedreno/fdl/fd6_layout.c:200-205 | tiled 3D levels use the minified power-of-two height, which is never below the minified height |
| Fd6LayoutFacts.LastLevelUnpadded | src/freedreno/fdl/fd6_layout.c:218-219 | the last-level rounding is a dead store: a one-block-row last level is sized with one row, not four |
| PickCore.NominationValue | bin/pick/core.py:63-67 | the `.value` of a nomination type: CC 0, FIXES 1, REVERT 2 |
| PickCore.ResolutionValue | bin/pick/core.py:71-77 | the `.value` of a resolution: UNRESOLVED 0 to NOTNEEDED 4 |
| PickCore.Denominate | bin/pick/core.py:313-316 | a commit no longer nominated and resolved DENOMINATED, its other fields kept |
| PickCore.OptionalString | bin/pick/core.py:120 | an optional string as `attr.asdict` stores it: the string, or null |
| PickCore.GetString | bin/pick/core.py:129 | a string attribute read from the dictionary: missing key and wrong type are errors |
| PickCore.GetBool | bin/pick/core.py:129 | the nominated flag read from the dictionary: missing key and wrong type are errors |
| PickCore.GetOptionalString | bin/pick/core.py:129 | a sha attribute read from the dictionary: null is none, a string is kept, anything else is an error |
| PickCore.GetNominationType | bin/pick/core.py:130-131 | null is no nomination type; an integer is decoded by value, and an unknown value is an error with the key and value |
| PickCore.GetResolution | bin/pick/core.py:132-133 | null keeps the UNRESOLVED default; an integer is decoded by value, and an unknown value is an error with the key and value |
| PickCore.NominationOfValue | bin/pick/core.py:62-67 | it decodes a nomination-type value iff it is 0, 1 or 2, and the decoded member encodes back to it |
| PickCore.ResolutionOfValue | bin/pick/core.py:70-77 | it decodes a resolution value iff it is 0 to 4, and the decoded member encodes back to it |
| PickCore.Commit.constructor | bin/pick/core.py:108-117 | a new commit has the given sha and description, and is not nominated, untyped, unresolved and without master or because sha |
| PickCore.Commit.MarkDenominated | bin/pick/core.py:313-316 | it clears the nomination and sets the resolution to DENOMINATED, and leaves every other field alone |
| PickCore.ToJson | bin/pick/core.py:119-125 | the dictionary has exactly the seven attribute keys; sha, description and the nominated flag are stored as they are, the optional shas as a string or null, and the two enums by value (a missing nomination type as null) |
| PickCore.FromJson | bin/pick/core.py:127-134 | success needs every attribute key. The sha and nominated flag are read back as stored, and a null resolution leaves the commit unresolved |
| PickCore.FromJsonToJson | bin/pick/core.py:119-134 | reading back a written commit gives the same commit |
| PickCore.ToJsonFromJson | bin/pick/core.py:119-134 | writing back a dictionary that was read successfully (exact keys, integer resolution) gives the same dictionary |
| PickCore.NullResolutionIsUnresolved | bin/pick/core.py:132-133 | a stored null resolution reads as UNRESOLVED |
| PickCore.UnknownNominationTypeRejected | bin/pick/core.py:130-131 | a nomination-type value outside 0..2 is rejected with the key and the value |
| PickCore.JoinSplit | bin/pick/core.py:207 | joining the pieces of `str.split(sep)` with sep gives the string back |
| PickCore.SplitJoin | bin/pick/core.py:207 | splitting a join of separator-free pieces gives the pieces back |
| PickCore.SplitCommitListLines | bin/pick/core.py:204-210 | non-empty output yields pairs iff every line contains a space. The pairs are then, line by line, the space-free sha and the rest of the line |
| PickCore.SplitCommitListRoundTrip | bin/pick/core.py:204-210 | the `sha description` lines of printable pairs, joined by newlines, split back into exactly those pairs |
| PickCore.SplitOnce | bin/pick/core.py:208-209 | `line.split(' ', 1)` with two parts: the text before the first space and the rest, or nothing when the line has no space |
| PickCore.Split | bin/pick/core.py:207 | `str.split(sep)`: the pieces between the separators, at least one |
| PickCore.PairLines | bin/pick/core.py:207-210 | one (sha, description) pair per line, in order, or nothing as soon as one line has no space |
| PickCore.SplitCommitList | bin/pick/core.py:204-210 | no pairs for the empty string, else one (sha, description) pair per newline-separated line, or nothing when a line has no space |
| PickCore.NominatedShas | bin/pick/core.py:296 | the shas of the commits of `previous` that are nominated |
| PickCore.FixStep | bin/pick/core.py:300-301 | an un-nominated FIXES commit becomes nominated iff its because sha is in the set so far; any other commit is unchanged |
| PickCore.ShasAfter | bin/pick/core.py:299-304 | the sha set once the first loop has passed the commits from k to the end of the list (it walks them last to first), adding each commit left nominated |
| PickCore.Fixed | bin/pick/core.py:299-302 | a commit as the first loop leaves it: its `FixStep` against the shas collected from the commits after it in the list |
| PickCore.FixPass | bin/pick/core.py:299-304 | the list after the first loop: each commit after its `FixStep` against the shas of the commits after it |
| PickCore.LastWithSha | bin/pick/core.py:309-310 | the index where the reversed search stops: the last commit holding the sha, or nothing |
| PickCore.RevertsLive | bin/pick/core.py:307-308 | a REVERT commit whose because sha is still in the set |
| PickCore.RevertStep | bin/pick/core.py:307-318 | a REVERT commit whose because sha is still in the set, and whose target is in the list, denominates the target and then itself and removes the sha; otherwise nothing changes |
| PickCore.RevertPass | bin/pick/core.py:306-318 | the second loop: `RevertStep` for each commit in list order, threading the commits and the sha set |
| PickCore.ResolvedFixes | bin/pick/core.py:287-318 | resolve_fixes on values: the first loop seeded with the nominated shas of `previous`, then the second loop with the sha set it leaves |
| PickCore.SettleUnneeded | bin/pick/core.py:346-347 | a commit still UNRESOLVED and not nominated becomes NOTNEEDED; others are unchanged |
| PickCore.SettlePass | bin/pick/core.py:345-347 | the post-pass: `SettleUnneeded` applied to every commit |
| PickCore.NominateFixes | bin/pick/core.py:296-304 | the backward pass leaves the commits equal to `FixPass` and returns the shas nominated so far |
| PickCore.FindLastWithSha | bin/pick/core.py:309-310 | it returns the last index holding the sha, or nothing when no commit has it |
| PickCore.DenominatePair | bin/pick/core.py:313-316 | it denominates the reverted commit and then the revert, and leaves every other commit unchanged |
| PickCore.RevertOne | bin/pick/core.py:307-318 | one step of the forward pass leaves the commits and the sha set as `RevertStep` says |
| PickCore.DenominateReverts | bin/pick/core.py:306-318 | the forward pass leaves the commits equal to `RevertPass` |
| PickCore.ResolveFixes | bin/pick/core.py:287-318 | the commits end as `ResolvedFixes`: the fix pass seeded by the nominated shas of `previous`, then the revert pass |
| PickCore.ShasAfterCollects | bin/pick/core.py:296-304 | the sha set after the backward pass is the previous nominations plus every commit the pass leaves nominated |
| PickCore.FixedOnlyNominates | bin/pick/core.py:299-302 | the fix pass changes at most the nominated flag, never clears it, and only touches FIXES commits |
| PickCore.FixNominatedIff | bin/pick/core.py:299-304 | an un-nominated FIXES commit ends nominated iff its target is nominated in `previous` or is a later commit that ends nominated |
| PickCore.FixesPropagate | bin/pick/core.py:290-304 | a fix of a later commit that ends nominated is itself nominated, so chains of fixes resolve in one pass |
| PickCore.ChainOfFixes | bin/pick/core.py:293-294 | commit 3 fixing commit 2, which fixes a staged commit 1, gets both nominated |
| PickCore.RevertPassWithoutReverts | bin/pick/core.py:306-308 | without REVERT commits the forward pass changes nothing |
| PickCore.RevertStepEffect | bin/pick/core.py:306-318 | a live revert whose target is present denominates both, removes the sha and changes nothing else. Any other commit changes nothing |
| PickCore.RevertPassOnlyDenominates | bin/pick/core.py:306-318 | the forward pass leaves every commit unchanged or denominated, and only shrinks the sha set |
| PickCore.SettleCommits | bin/pick/core.py:345-347 | the post-pass leaves the commits equal to `SettlePass` |
| PickCore.SettlePassDecides | bin/pick/core.py:345-347 | after the post-pass no commit is both unresolved and un-nominated. Exactly those commits became NOTNEEDED, and the pass is idempotent |
| PickCore.GatherCommits | bin/pick/core.py:343-349 | the resolved commits are `SettlePass` of `ResolvedFixes` |

## Left out

- Integer width: every quantity is an unbounded natural. The 32-bit wrap-around of `uint32_t` arithmetic is not modelled, and neither is the bit-mask form of `align()`. For the power-of-two alignments used, the mask form equals rounding up to a multiple.
- The `util_format_*` queries (block size, block width and height, component count) are fields of `Fd6Layout.Format` rather than a table of pipe formats.
- `fdl_tile_mode` comes from freedreno_layout.h, which is not part of this model. The per-level tile modes are an input sequence `tileModes`. `layout->tile_mode` is the field `tileMode`, and the `ubwc` request is the field `ubwc`, both set by the caller.
- `assert(nr_samples > 0)` (line 112), `assert(cpp < ARRAY_SIZE(blocksize))` (line 68) and "cpp is a power of two" are preconditions (`Fd6Layout.Supported`), and so is a slice table of at least `mip_levels` entries.
- Fd6Layout.Supported also requires at least one mip level, at least one array layer, a tile mode per level and a format block with non-zero width and height. fdl6_layout does not check these; its callers guarantee them, and the layout of an image with no level, no layer or an empty block is not modelled.
- `base_align` is recorded but no property of it is proved, since the layout never reads it.
- ir3_compiler.h is not part of this model.
- Fd6LayoutFacts.UbwcBeforeColor requires a plane offset of 0. Metadata slices include the plane offset (line 253) but colour slices do not (lines 221 and 270), so with a non-zero offset the metadata can lie after the colour data.
- Points where the code is easy to misread, modelled as written:
  - The tiled pitch-alignment classes are 1 (1 byte per pixel and r8g8) and 2 (2 bytes per pixel), lines 79-84.
  - The last-level guard at lines 218-219 writes `height`, which is not read again. The last level is therefore not padded to four block rows (see `LastLevelUnpadded`).
  - An imposed plane with pitch 0 is accepted, because 0 is a multiple of every unit. Level 0's pitch then becomes one unit, because `u_minify(0, 0)` is 1.
- PickCore.ResolveFixes and the other passes require the commit objects in `commits` to be distinct (`Distinct`). `gather_commits` builds a fresh `Commit` per entry, so aliasing between list entries is not modelled.
- PickCore.FromJson: a value of the wrong JSON type (a non-string sha, say) is an error here, whereas Python's `attrs` stores it untyped. An unknown enum value is an error in both.
- PickCore.Commit: `resolution` is typed as a non-optional `Resolution`, following its annotation. `to_json`'s `None` check on it is therefore never taken.
- PickCore.SplitCommitList: the `assert` on a line without a space becomes a `None` result. The `strip()` applied by the caller in `get_new_commits` is not modelled.
- git, asyncio, file I/O, `commit_state`, `resolve_nomination`, `get_new_commits`, `load` and `save` are not modelled. Neither is the concurrent filling of the list in `gather_commits`: the model starts from the commits it has produced.

## Findings

| source | as written | input that shows it | evidently intended | confidence | as-written member | corrected member |
|---|---|---|---|---|---|---|
| src/freedreno/fdl/fd6_layout.c:188-191 | `DIV_ROUND_UP(ubwc_width0, ubwc_blockwidth)` is evaluated even when the UBWC block width is 0, which also turns UBWC off | any request whose cpp (block size times samples, line 118) is 64 outside r8g8, whether or not UBWC was requested: a single-sample 64-byte format with UBWC requested (dropped at line 128), or a 16-byte format at 4 samples without it; lines 188-191 then divide by the block width 0 of line 57 | compute the metadata dimensions only while UBWC is on; they are read only then | not executed | Fd6Layout.AsWrittenUbwcWidth0 (needs a non-zero block width), Fd6LayoutFacts.AsWrittenDividesByZero | Fd6Layout.UbwcWidth0, Fd6LayoutFacts.GuardedUbwcWidth0 |
