# Sentinel-2 processing core, modelled in Dafny

This project models the processing core of the Sentinel-2 pipeline. The
pipeline unpacks a Sentinel-2 L2A or L1C product and converts its JPEG 2000
bands to GeoTIFF. It resamples the 20 m bands to 10 m and stacks seven bands
(B02, B03, B04, B08, B8A, B11, B12) into one composite. From that composite it
optionally writes:

- a true-colour quicklook;
- eight spectral indices (NDVI, NDRE, OSAVI, LCI, GNDVI, RECI, NDMI, NDWI);
- a reprojected and a clipped copy, each with the same indices.

The project also models three parts of the bundled glymur library: the ICC
profile header parser, the global option store, and the OpenJPEG error-message
accumulator.

Modules, one per file:

- `Common` (`common.dfy`): Option and Result; Python slicing; Windows-style
  `os.path.basename` and `os.path.join`; `str(n)`; `str.split` and `str.join`
  on one character.
- `SpectralIndex` (`spectral_index.dfy`): the eight `cal_*` functions of
  `cal_index.py`. They are specified pixel by pixel and carried out as
  in-place array steps on a float buffer. The composite is uint16, so sums and
  differences of bands wrap modulo 2^16.
- `RasterIo` (`raster_io.dfy`): `write_tiff`, `jp2_to_tif`, `merge_tif` (with
  the module globals it sets) and `get_image_name` of `helper.py`. GDAL is
  abstracted as the dataset value that would be written.
- `Quicklook` (`quicklook.dfy`): `rgb`, `stretch`, `stretch_n`, and the
  quicklook step of the pipeline up to the uint8 image.
- `CloudMask` (`cloud_mask.dfy`): `delete_shp_feature` and the class filter of
  `remove_cloud_shp`, over a shapefile layer modelled as a record table with
  deletion marks and `REPACK`.
- `PipelineParams` (`pipeline_params.dfy`): step 0 of `s2_l2a_process` and
  `s2_l1c_process`, which reads the parameters, checks them and fills in
  defaults.
- `BandFiles` (`band_files.dfy`): the jp2 band lists, the GeoTIFF names, the
  resampling names, and the band selection from the 10 m directory listing.
- `PipelinePlan` (`pipeline_plan.dfy`): the steps one scene runs, which
  outputs it writes under which names, and how the two product levels
  compare.
- `IccProfile` (`icc_profile.dfy`): the 128-byte ICC profile header decoder
  of glymur.
- `GlymurOptions` (`glymur_options.dfy`): glymur's `set_option`,
  `get_option`, `reset_option` and the deprecated parse and print option
  wrappers.
- `OpenJpegErrors` (`openjp2_errors.dfy`): `set_error_message`, `check_error`
  and `ERROR_MSG_LST` of glymur's OpenJPEG 2 bindings.

Rasters are flattened in row-major order. Every index and stretch step works
element by element, so a pixel is a position in a sequence. Floating point is
modelled by exact reals plus a NaN value (`F32`). The source builds its paths
with `\`. As in Windows `ntpath`, both `\` and `/` separate path components
in `basename` and `join`. Drive letters are not modelled.

Notes on the code's behaviour:

- The L1C function defaults only `QUICK_IMG`, `CLIP_TO_SHP`, `CAL_NDVI` and
  `CAL_NDWI`. The other six index flags stay `None`. The model keeps this
  difference, and `PipelinePlan.LevelsTakeSameSteps` proves that it changes
  nothing.
- Clipping uses the user's `SHP_FILE_PATH`. The pipeline never calls
  `remove_cloud_shp` or builds the cloud mask.
- Only NDVI is clamped to [-1, 1]. The clamp of the other seven indices
  exists only as commented-out code.
- An empty R10m directory makes `get_image_name` raise IndexError. The model
  returns `PlanError.EmptyR10m` for it.

## Model

| member | source | states |
|---|---|---|
| SpectralIndex.Roles | cal_index.py:17-18 | every index reads the NIR band (position 3) |
| SpectralIndex.TopBand | cal_index.py:5-198 | the highest band position an index reads: it is one of its bands and bounds all of them |
| SpectralIndex.Diff16 | cal_index.py:21 | a uint16 difference: exact when a >= b, plus 2^16 when it goes below zero |
| SpectralIndex.Sum16 | cal_index.py:20 | a uint16 sum: exact below 2^16, minus 2^16 above; zero exactly when the true sum is 0 or 2^16 |
| SpectralIndex.Numerator | cal_index.py:5-198 | the numerator of each index at a pixel lies in [0, 65536) |
| SpectralIndex.Denominator | cal_index.py:5-198 | the denominator is non-negative, and for OSAVI (which adds 0.16) it is at least 0.16 |
| SpectralIndex.NumeratorPlane | cal_index.py:21 | the numerator plane has one value per pixel, equal to the per-pixel numerator |
| SpectralIndex.DenominatorPlane | cal_index.py:20 | the denominator plane has one value per pixel, equal to the per-pixel denominator |
| SpectralIndex.IndexValue | cal_index.py:20-28 | the value written at a pixel is never the -999 fill, is never negative for the seven indices other than RECI, and lies in [-1, 1] for NDVI |
| SpectralIndex.IndexPlane | cal_index.py:20-28 | the written plane has one value per pixel, equal to divide, shift, mask and clamp applied to that pixel |
| SpectralIndex.DivideWhere | cal_index.py:22-23 | the buffer holds num/den where den is non-zero and the -999 fill elsewhere |
| SpectralIndex.SubtractOne | cal_index.py:145 | RECI subtracts 1 from every buffer entry, fill values included |
| SpectralIndex.ReplaceSentinel | cal_index.py:25 | exactly the entries equal to -999 become no-data (NaN) |
| SpectralIndex.ClampUnit | cal_index.py:26-27 | NDVI entries <= -1 become -1, then entries >= 1 become 1; NaN is untouched |
| SpectralIndex.CalIndex | cal_index.py:5-198 | fails with IndexError exactly when the composite lacks a band the index reads, naming the first missing band in the order the function subscripts; otherwise writes the per-pixel index plane with the input's georeference |
| SpectralIndex.ReadOrder | cal_index.py:17-190 | the band positions each index subscripts, in reading order; they are exactly the bands it reads |
| SpectralIndex.FirstOutOfRange | cal_index.py:17-18 | the first position of a reading order that a composite lacks; none exactly when every position is present |
| SpectralIndex.FirstMissingBandExamples | cal_index.py:17-190 | NDVI on two bands fails at band 2, GNDVI on one band at band 1, LCI and NDMI on three bands at band 3, and NDRE on three bands at band 4 |
| SpectralIndex.QuotientNonNegative | cal_index.py:20-23 | a division guarded by den != 0 never yields a negative value, because both planes are wrapped uint16 |
| SpectralIndex.NoDataIffZeroDenominator | cal_index.py:22-25 | for every index but RECI, a pixel is no-data if and only if its denominator is zero, and -999 never survives |
| SpectralIndex.OsaviHasNoNoData | cal_index.py:70-74 | OSAVI never yields no-data |
| SpectralIndex.ReciZeroRedIsMinus1000 | cal_index.py:139-146 | a RECI pixel with RED = 0 ends at -1000, not no-data; otherwise it is NIR/RED - 1; RECI is never no-data |
| SpectralIndex.NdviWithinUnitRange | cal_index.py:26-27 | every NDVI value that is not no-data lies in [-1, 1] |
| SpectralIndex.ClampKeepsNoDataAndInRange | cal_index.py:25-27 | the clamp keeps no-data as no-data and leaves values strictly inside (-1, 1) unchanged |
| SpectralIndex.OtherIndicesUnclamped | cal_index.py:75-76 | each of the seven other indices exceeds 1 on some input, so they are not clamped |
| SpectralIndex.OnlyRolesMatter | cal_index.py:17-18 | two composites that agree on an index's bands at a pixel give the same value there |
| SpectralIndex.WorkedExamples | cal_index.py:5-28 | NIR = 200 and RED = 100 give NDVI = 1/3; NIR = 100 and RED = 50 give RECI = 1 |
| SpectralIndex.NdviWrapsToOne | cal_index.py:20-21 | as written, NIR = 100 and RED = 200 give NDVI = 1 instead of -1/3 |
| SpectralIndex.NdviWrappedSumIsNoData | cal_index.py:20-23 | as written, NIR = 65535 and RED = 1 wrap the sum to 0 and give no-data |
| SpectralIndex.SignedNdvi | cal_index.py:6-9 | NDVI over the integers: no-data if and only if NIR + RED = 0; otherwise in [-1, 1], and negative if and only if RED > NIR |
| SpectralIndex.NdviAgreesWhenNoWrap | cal_index.py:20-27 | where RED <= NIR and the sum stays below 2^16, the as-written NDVI equals the signed NDVI |
| RasterIo.GdalTypeOf | helper.py:201-206 | Byte if and only if the dtype name contains "int8"; UInt16 if and only if it contains "int16" but not "int8"; otherwise Float32 |
| RasterIo.GdalTypeExamples | helper.py:201-206 | uint8 and int8 map to Byte, uint16 and int16 to UInt16, float32 and int32 to Float32 |
| RasterIo.WriteTiff | helper.py:191-232 | a 3-D array writes its bands in order and sets the georeference only if the projection is non-empty; a 2-D array writes one band and always sets it; any other rank writes nothing |
| RasterIo.TifNameFor | helper.py:107-109 | the name `jp2_to_tif` returns always ends in ".tif" |
| RasterIo.TifNameShape | helper.py:107-109 | the output name ends in ".tif", and its file name is the jp2 file name minus four characters plus ".tif" |
| RasterIo.Jp2ToTif | helper.py:99-134 | always returns the tif name; writes a file only for uint16 or uint8 data, with no-data 0, the source's georeference and the matching pixel type |
| RasterIo.Jp2ToTifNaming | helper.py:107-109 | `<dir>\<name>.jp2` becomes `<save>\<name>.tif` |
| RasterIo.GetImageName | helper.py:79-89 | the first 22 characters (or fewer) of the first R10m entry; none if and only if the directory is empty |
| RasterIo.HelperGlobals.constructor | helper.py:242 | the module globals `geotrans` and `proj` start unset |
| RasterIo.HelperGlobals.MergeTif | helper.py:235-248 | fails to open if and only if some path is missing; with every path open, fails with ragged bands exactly when the planes differ in size and with mixed dtypes exactly when the dtypes differ, and otherwise writes a raster; it stacks the planes in path order; the globals hold the last file's georeference |
| Quicklook.Reverse | helper.py:290 | `[::-1]`: same length, element i is element n-1-i |
| Quicklook.ToChannelsLast | helper.py:291 | `transpose(1, 2, 0)`: pixel p, channel c is band c at pixel p |
| Quicklook.ToChannelsFirst | sentinel2_process.py:211 | `transpose(2, 0, 1)`: band c at pixel p is pixel p, channel c |
| Quicklook.ChannelsRoundTrip | sentinel2_process.py:205-211 | the two transposes undo each other |
| Quicklook.Rgb | helper.py:281-292 | keeps the first (at most) three bands, reversed when swapping, as channels-last pixels |
| Quicklook.RgbTrueColour | helper.py:288-291 | with three or more bands and the swap, each pixel is [B04, B03, B02] |
| Quicklook.RgbBackToBands | sentinel2_process.py:205-211 | transposing the rgb image back gives the first three bands reversed |
| Quicklook.Clip | helper.py:262-263 | the clipped value lies in [c, d] and is unchanged when already inside |
| Quicklook.StretchValue | helper.py:262-264 | a stretched value is NaN if and only if the two percentiles are equal |
| Quicklook.StretchInUnitRange | helper.py:259-265 | for c < d every stretched value lies in [0, 1], is 0 at or below c and 1 at or above d |
| Quicklook.StretchMonotone | helper.py:259-265 | stretching preserves order |
| Quicklook.Stretch | helper.py:251-265 | same length as the band, each pixel stretched by the given percentiles |
| Quicklook.StretchedUpTo | helper.py:276-277 | channels not yet reached by the loop keep their input value |
| Quicklook.StretchN | helper.py:268-278 | fails if and only if there are fewer channels than stretch bounds; otherwise stretches channel k with bounds k and keeps the others |
| Quicklook.ToByte | sentinel2_process.py:207 | `np.uint8(x * 255)` truncates: b <= 255x < b + 1; NaN gives 0 |
| Quicklook.QuickPixel | sentinel2_process.py:203-212 | equal percentiles or a value at or below the low percentile give 0; a value at or above the high percentile gives 255 |
| Quicklook.QuicklookImage | sentinel2_process.py:203-212 | fails if and only if the composite has fewer than three bands; otherwise three Byte bands, each pixel the stretched band 2 - c, with the merged file's georeference |
| Quicklook.AsReal | helper.py:259 | the float copy has the same shape and values as the uint16 bands |
| CloudMask.Live | helper.py:455-457 | the live features are exactly the non-deleted records, in id order |
| CloudMask.Packed | helper.py:458-459 | a repacked table holds every feature live, with ids 0..n-1 |
| CloudMask.LivePacked | helper.py:458-459 | repacking loses and reorders nothing |
| CloudMask.Drop | helper.py:446-457 | the surviving features come from the input and none has the deleted class |
| CloudMask.DropKeepsOthers | helper.py:446-457 | a feature survives if and only if it was present and of another class |
| CloudMask.DropAbsentClass | helper.py:446-457 | deleting a class no feature has changes nothing |
| CloudMask.MarkClass | helper.py:455-457 | marking keeps the table's length |
| CloudMask.LiveMarkClass | helper.py:455-459 | marking the filtered features then repacking equals dropping the class from the live features |
| CloudMask.DropAllKeepsOthers | helper.py:491-493 | after deleting several classes, exactly the features of other classes remain |
| CloudMask.CloudFree | helper.py:491-493 | exactly the features of classes other than 0, 8 and 9 remain |
| CloudMask.DropAllNoMasked | helper.py:491-493 | deleting classes no feature has changes nothing |
| CloudMask.CloudFreeIdempotent | helper.py:491-493 | running the cloud filter twice removes nothing more |
| CloudMask.DropAllStep | helper.py:492-493 | deleting one more class is one more `delete_shp_feature` call |
| CloudMask.ShapeLayer.constructor | helper.py:442-443 | an opened layer holds its features as a packed table |
| CloudMask.ShapeLayer.DeleteFeature | helper.py:457 | succeeds if and only if the id names a live record, which becomes deleted |
| CloudMask.ShapeLayer.Repack | helper.py:458-459 | the table becomes the live features, renumbered in order |
| CloudMask.ShapeLayer.DeleteShpFeature | helper.py:431-461 | the layer becomes the packed live features without the given class |
| CloudMask.ShapeLayer.RemoveCloudShp | helper.py:490-493 | the layer becomes the packed cloud-free live features |
| PipelineParams.Defaulted | sentinel2_process.py:41-60 | a non-None value is kept; the result is None if and only if the value was None and the level does not default that key |
| PipelineParams.ReadParams | sentinel2_process.py:17-31 | succeeds if and only if all fifteen keys are present; otherwise KeyError on the first missing key in reading order |
| PipelineParams.CalFlags | sentinel2_process.py:45-60 | eight defaulted index flags |
| PipelineParams.CheckedAs | sentinel2_process.py:17-60 | the outcome step 0 promises succeeds exactly when every key is present, the input path is not None and the output path is a string; then QUICK_IMG and CLIP_TO_SHP are never None and there are eight index flags |
| PipelineParams.ExpectedIsChecked | sentinel2_process.py:17-60 | the settings built from the values read are exactly those step 0 promises |
| PipelineParams.ApplyL2aDefaults | sentinel2_process.py:41-60 | L2A fills every None flag: QUICK_IMG with True, the others with False |
| PipelineParams.CheckL2aParams | sentinel2_process.py:17-60 | missing key, then None input path, then None output path, then a non-string output path fail in that order; otherwise the defaulted settings |
| PipelineParams.ApplyL1cDefaults | sentinel2_process.py:326-333 | L1C fills only QUICK_IMG, CLIP_TO_SHP, CAL_NDVI and CAL_NDWI |
| PipelineParams.CheckL1cParams | sentinel2_process.py:302-333 | the same checks as L2A with the L1C defaults |
| PipelineParams.LevelsAgreeOnFlags | sentinel2_process.py:326-333 | every setting has the same truthiness at both levels |
| PipelineParams.L1cKeepsNoneFlags | sentinel2_process.py:47-48 | a None CAL_NDRE stays None for L1C but becomes False for L2A |
| PipelineParams.ReprojectNeverDefaulted | sentinel2_process.py:20 | REPROJECT is never replaced by a default |
| BandFiles.Jp2Path | sentinel2_process.py:103-113 | every band path ends in ".jp2" |
| BandFiles.Jp2List | sentinel2_process.py:103-113 | one path per band code, in code order |
| BandFiles.MapNames | sentinel2_process.py:123-126 | the converted list has one name per input, in order |
| BandFiles.ConvertAll | sentinel2_process.py:123-137 | the tif list holds `jp2_to_tif`'s name for each jp2, in order |
| BandFiles.NoSepStem | sentinel2_process.py:103 | a band stem built from separator-free parts has no separator |
| BandFiles.TifOfBand | sentinel2_process.py:123-126 | the band `<id>_<code>_<res>.jp2` converts to `<save>\<id>_<code>_<res>.tif` |
| BandFiles.ResampleJobs | sentinel2_process.py:146-149 | one resampling job per 20 m tif, in order, writing to the 10 m name |
| BandFiles.CutResolution | sentinel2_process.py:147 | `[:-7]` of `<id>_<code>_20m.tif` is `<id>_<code>_` |
| BandFiles.ConvertedStem | sentinel2_process.py:147 | the same holds for the full converted path |
| BandFiles.ResampledBandName | sentinel2_process.py:146-148 | a resampled 20 m band is saved as `<save10>\<id>_<code>_10m.tif` |
| BandFiles.SwapResolution | sentinel2_process.py:148 | appending "10m.tif" to the cut name gives the 10 m band name |
| BandFiles.TenMetreNameMatches | sentinel2_process.py:164 | `[-11:-8]` of a 10 m band name is its three-character code |
| BandFiles.Matches | sentinel2_process.py:164 | a name matches only a code of at most three characters; for a name of at least 11 characters, exactly the code formed by its characters 11 to 9 from the end |
| BandFiles.Matching | sentinel2_process.py:163-165 | the matches for one code are at most as many as the listing, and each is an entry of the 10 m directory |
| BandFiles.MatchingMembers | sentinel2_process.py:163-165 | a path is picked for a code if and only if the listing has a name matching that code |
| BandFiles.AppendMatching | sentinel2_process.py:163-165 | the inner loop appends exactly the matches for one code |
| BandFiles.SelectBands | sentinel2_process.py:157-165 | the stacked list is the matches of each code, grouped in band-name order |
| BandFiles.Selection | sentinel2_process.py:160-165 | every selected path is an entry of the 10 m directory |
| BandFiles.SelectionMembers | sentinel2_process.py:157-165 | a path is selected if and only if it matches one of the codes |
| BandFiles.AbsentCodeSelectsNothing | sentinel2_process.py:164 | a code with no matching file contributes nothing |
| BandFiles.MatchingAtMostOne | sentinel2_process.py:163-165 | a code with at most one matching name gives at most one path |
| BandFiles.SelectionIgnoresListingOrder | sentinel2_process.py:157-165 | with at most one match per code, the stack order does not depend on `os.listdir` order |
| PipelinePlan.Ordinal | sentinel2_process.py:172-196 | the position of an index in the flag order |
| PipelinePlan.OrdinalOfOrder | sentinel2_process.py:172-196 | the position of the k-th index is k |
| PipelinePlan.SuffixHasNoSep | sentinel2_process.py:168 | no output suffix contains a separator |
| PipelinePlan.OutputPath | sentinel2_process.py:168 | every output path ends with the scene id followed by the output's suffix |
| PipelinePlan.OutputPathBasename | sentinel2_process.py:168 | every output's file name is the scene id followed by its suffix |
| PipelinePlan.BranchSteps | sentinel2_process.py:172-196 | a branch has at most one index step per flag |
| PipelinePlan.StepIfSet | sentinel2_process.py:174 | a step is appended if and only if its flag is truthy |
| PipelinePlan.PlanIndexSteps | sentinel2_process.py:172-196 | the index steps of a branch, in flag order |
| PipelinePlan.BranchStepsIndexOnly | sentinel2_process.py:172-196 | a branch only computes indices, each written to the branch's own index file |
| PipelinePlan.BranchStepsMembers | sentinel2_process.py:172-196 | a branch computes an index if and only if its flag is truthy |
| PipelinePlan.BranchStepsOrdered | sentinel2_process.py:172-196 | a branch's index steps follow the fixed order ndvi, ndre, osavi, lci, gndvi, reci, ndmi, ndwi, without repeats |
| PipelinePlan.SceneSteps | sentinel2_process.py:168-285 | at most 27 steps follow the merge; none of them overwrites the merge, and every step that is not an index computation reads the merge |
| PipelinePlan.PlanSteps | sentinel2_process.py:168-285 | the steps of one scene after the merge, in the script's order: base indices, quicklook, reprojection and its indices, clip and its indices |
| PipelinePlan.SceneStepsMembers | sentinel2_process.py:168-285 | a step after the merge is planned if and only if it is a flagged base index, a flagged quicklook, or an enabled reprojection or clip or one of their flagged indices |
| PipelinePlan.SceneIndexOutputsFlagged | sentinel2_process.py:172-285 | every planned index output belongs to an enabled branch and a truthy flag |
| PipelinePlan.SceneIndexOutputsProduced | sentinel2_process.py:172-285 | every truthy flag on an enabled branch produces its index file |
| PipelinePlan.QuicklookIffFlag | sentinel2_process.py:203-212 | the quicklook is written if and only if QUICK_IMG is truthy |
| PipelinePlan.BranchStepsSameEffect | sentinel2_process.py:172-196 | flags of equal truthiness give the same branch steps |
| PipelinePlan.SceneStepsSameEffect | sentinel2_process.py:168-285 | settings of equal truthiness give the same scene steps |
| PipelinePlan.LevelsTakeSameSteps | sentinel2_process.py:326-333 | for the same parameters, the L2A and L1C defaults lead to identical steps |
| PipelinePlan.PlanBands | sentinel2_process.py:103-165 | the jp2 lists, their tif names, B02 as reference, the resampling jobs and the stacked selection |
| PipelinePlan.PlanScene | sentinel2_process.py:100-169 | fails if and only if R10m is empty; otherwise the scene id, the band plan (jp2 lists, tif names, B02 reference, resampling jobs, stacked selection) and the steps after the merge |
| PipelinePlan.CodesAreBandNames | sentinel2_process.py:103-113 | every band code has three characters and no separator |
| PipelinePlan.PlannedBandNames | sentinel2_process.py:118-165 | each 20 m band is converted, resampled under its 10 m name, and picked by the selection under its code |
| PipelinePlan.ReferenceIsB02 | sentinel2_process.py:143 | the resampling reference is the converted B02 band |
| PipelinePlan.ImageIdHasNoSep | helper.py:87-88 | the scene id has no separator when the listed name has none |
| IccProfile.BigEndianBound | Sen2Cor-02.11.00-win64/Lib/site-packages/glymur/_iccprofile.py:63 | an n-byte big-endian value is below 256^n |
| IccProfile.EncodeBigEndian | Sen2Cor-02.11.00-win64/Lib/site-packages/glymur/_iccprofile.py:63 | encoding gives exactly n bytes |
| IccProfile.DecodeEncode | Sen2Cor-02.11.00-win64/Lib/site-packages/glymur/_iccprofile.py:63 | decoding an encoded value gives it back |
| IccProfile.EncodeDecode | Sen2Cor-02.11.00-win64/Lib/site-packages/glymur/_iccprofile.py:63 | encoding a decoded byte string gives it back |
| IccProfile.Field | Sen2Cor-02.11.00-win64/Lib/site-packages/glymur/_iccprofile.py:63 | a slice unpacks if and only if the buffer is long enough; otherwise struct.error |
| IccProfile.Signed32RoundTrip | Sen2Cor-02.11.00-win64/Lib/site-packages/glymur/_iccprofile.py:113 | the 32-bit two's complement reading recovers every signed value |
| IccProfile.S15Fixed16 | Sen2Cor-02.11.00-win64/Lib/site-packages/glymur/_iccprofile.py:113-114 | a signed word / 65536 lies in [-32768, 32768) and times 65536 gives the word back |
| IccProfile.VersionOf | Sen2Cor-02.11.00-win64/Lib/site-packages/glymur/_iccprofile.py:66-68 | major is byte 8; minor and bugfix are its two nibbles of byte 9 |
| IccProfile.VersionOfInjective | Sen2Cor-02.11.00-win64/Lib/site-packages/glymur/_iccprofile.py:66-68 | different version bytes give different versions |
| IccProfile.DecimalTextStartsWithLeadingDigit | Sen2Cor-02.11.00-win64/Lib/site-packages/glymur/_iccprofile.py:69 | the decimal text of a number starts with its leading digit |
| IccProfile.VersionTextStartsWithFour | Sen2Cor-02.11.00-win64/Lib/site-packages/glymur/_iccprofile.py:122 | the version text starts with '4' if and only if the major version's leading digit is 4 |
| IccProfile.MajorFourHasLeadingFour | Sen2Cor-02.11.00-win64/Lib/site-packages/glymur/_iccprofile.py:122 | that holds for major 4 and 40 to 49 |
| IccProfile.Latin1Injective | Sen2Cor-02.11.00-win64/Lib/site-packages/glymur/_iccprofile.py:71-73 | signature keys read as text are distinct for distinct bytes |
| IccProfile.Lookup | Sen2Cor-02.11.00-win64/Lib/site-packages/glymur/_iccprofile.py:71-73 | a signature is found if and only if it is a key of the table; otherwise KeyError |
| IccProfile.TableKeysAreFourBytes | Sen2Cor-02.11.00-win64/Lib/site-packages/glymur/_iccprofile.py:14-50 | a signature that is not four bytes is never found |
| IccProfile.DaysInMonth | Sen2Cor-02.11.00-win64/Lib/site-packages/glymur/_iccprofile.py:77-80 | a month has 28 to 31 days |
| IccProfile.MakeDateTime | Sen2Cor-02.11.00-win64/Lib/site-packages/glymur/_iccprofile.py:77-80 | a date is made if and only if the six fields are valid; otherwise None |
| IccProfile.DateFields | Sen2Cor-02.11.00-win64/Lib/site-packages/glymur/_iccprofile.py:76 | six 16-bit big-endian fields |
| IccProfile.ZeroDateIsNone | Sen2Cor-02.11.00-win64/Lib/site-packages/glymur/_iccprofile.py:76-80 | an all-zero date field gives None |
| IccProfile.LeapDay | Sen2Cor-02.11.00-win64/Lib/site-packages/glymur/_iccprofile.py:77-80 | 29 February is valid if and only if the year is a leap year |
| IccProfile.Utf8Decode | Sen2Cor-02.11.00-win64/Lib/site-packages/glymur/_iccprofile.py:81 | strict UTF-8: the text is no longer than the bytes and non-empty for non-empty input; failure is UnicodeDecodeError |
| IccProfile.DecodeEncodeChar | Sen2Cor-02.11.00-win64/Lib/site-packages/glymur/_iccprofile.py:81 | decoding one encoded character followed by more bytes gives the character first |
| IccProfile.Utf8RoundTrip | Sen2Cor-02.11.00-win64/Lib/site-packages/glymur/_iccprofile.py:81 | decoding the UTF-8 encoding of a text gives the text |
| IccProfile.AsciiDecodes | Sen2Cor-02.11.00-win64/Lib/site-packages/glymur/_iccprofile.py:81 | ASCII bytes decode to the same characters |
| IccProfile.ZeroOr | Sen2Cor-02.11.00-win64/Lib/site-packages/glymur/_iccprofile.py:82-85 | four zero bytes give the fallback text; anything else is decoded |
| IccProfile.FlagsText | Sen2Cor-02.11.00-win64/Lib/site-packages/glymur/_iccprofile.py:87-90 | the text starts with "embedded" if and only if bit 0 is set, and ends with "cannot be used independently" if and only if bit 1 is set |
| IccProfile.FlagsTwoBits | Sen2Cor-02.11.00-win64/Lib/site-packages/glymur/_iccprofile.py:87-90 | two flag words give the same text if and only if their two low bits agree |
| IccProfile.AttributesText | Sen2Cor-02.11.00-win64/Lib/site-packages/glymur/_iccprofile.py:99-105 | the text starts with "transparency" if and only if bit 0 is set, and ends with "black and white media" if and only if bit 3 is set |
| IccProfile.AttributesFourBits | Sen2Cor-02.11.00-win64/Lib/site-packages/glymur/_iccprofile.py:99-105 | the attribute text depends only on the four low bits |
| IccProfile.AttributesFirstWord | Sen2Cor-02.11.00-win64/Lib/site-packages/glymur/_iccprofile.py:101 | the text starts with "transparency" if and only if bit 0 is set |
| IccProfile.IntentName | Sen2Cor-02.11.00-win64/Lib/site-packages/glymur/_iccprofile.py:107-111 | the intent is "unknown" if and only if the value is above 3 |
| IccProfile.Illuminant | Sen2Cor-02.11.00-win64/Lib/site-packages/glymur/_iccprofile.py:113-114 | each illuminant coordinate is its signed word divided by 65536 |
| IccProfile.DecodeHeader | Sen2Cor-02.11.00-win64/Lib/site-packages/glymur/_iccprofile.py:59-127 | a decoded header comes from at least 80 bytes and names a known device class, colour space and connection space |
| IccProfile.HeaderSignatures | Sen2Cor-02.11.00-win64/Lib/site-packages/glymur/_iccprofile.py:71-74 | device class, colour space and connection space are the table entries for the signatures at bytes 12-15, 16-19 and 20-23 |
| IccProfile.DecodeHeaderOkIff | Sen2Cor-02.11.00-win64/Lib/site-packages/glymur/_iccprofile.py:59-127 | the header decodes if and only if the buffer is long enough, the three signatures are known and the text fields decode |
| IccProfile.ShortBufferIsStructError | Sen2Cor-02.11.00-win64/Lib/site-packages/glymur/_iccprofile.py:63 | a buffer shorter than 10 bytes fails with struct.error |
| IccProfile.UnknownDeviceClass | Sen2Cor-02.11.00-win64/Lib/site-packages/glymur/_iccprofile.py:71 | an unknown device class fails with KeyError |
| IccProfile.HeaderIntegers | Sen2Cor-02.11.00-win64/Lib/site-packages/glymur/_iccprofile.py:63-111 | size, CMM type, version, intent, flags and attributes are read from their byte ranges |
| IccProfile.HeaderZeroFields | Sen2Cor-02.11.00-win64/Lib/site-packages/glymur/_iccprofile.py:82-120 | platform and creator are "unrecognized", and the model is "", if and only if their four bytes are zero |
| IccProfile.HeaderDate | Sen2Cor-02.11.00-win64/Lib/site-packages/glymur/_iccprofile.py:76-80 | the date is set if and only if bytes 24-36 form a valid date |
| IccProfile.HeaderProfileId | Sen2Cor-02.11.00-win64/Lib/site-packages/glymur/_iccprofile.py:122-123 | the profile id is present if and only if the version starts with '4', and it is bytes 84-100 |
| IccProfile.HeaderIlluminant | Sen2Cor-02.11.00-win64/Lib/site-packages/glymur/_iccprofile.py:113-114 | the illuminant is the three signed fixed-point words of bytes 68-80 |
| GlymurOptions.StrLess | Sen2Cor-02.11.00-win64/Lib/site-packages/glymur/options.py:70 | Python's string order: no string is below itself, and a proper prefix is below the longer string |
| GlymurOptions.TooOldAsWritten | Sen2Cor-02.11.00-win64/Lib/site-packages/glymur/options.py:70 | the guard as written: "2.2.0" passes, a version whose first character is below '2' is refused, and one whose first character is above '2' passes |
| GlymurOptions.TooOld | Sen2Cor-02.11.00-win64/Lib/site-packages/glymur/options.py:44-45 | the guard the docstring states: a version that is not dotted numbers is refused, a first field below 2 is refused and a first field above 2 passes |
| GlymurOptions.TenIsNotOlderThanTwo | Sen2Cor-02.11.00-win64/Lib/site-packages/glymur/options.py:70 | as written, "2.10.0" is refused as older than "2.2.0"; the numeric check accepts it |
| GlymurOptions.ParseVersion | Sen2Cor-02.11.00-win64/Lib/site-packages/glymur/options.py:70 | a parsed version has one number per dot-separated field |
| GlymurOptions.ParseOneDigitVersion | Sen2Cor-02.11.00-win64/Lib/site-packages/glymur/options.py:70 | "a.b.c" with single digits parses to [a, b, c] |
| GlymurOptions.CompareOneDigitVersion | Sen2Cor-02.11.00-win64/Lib/site-packages/glymur/options.py:70 | for single-digit fields, the string order agrees with the numeric order |
| GlymurOptions.OneDigitVersionsAgree | Sen2Cor-02.11.00-win64/Lib/site-packages/glymur/options.py:69-73 | for single-digit fields, the corrected and the as-written checks agree |
| GlymurOptions.PrintKeyIsOption | Sen2Cor-02.11.00-win64/Lib/site-packages/glymur/options.py:214-217 | "print." plus each accepted keyword is an option, and not the thread option |
| GlymurOptions.SetOutcome | Sen2Cor-02.11.00-win64/Lib/site-packages/glymur/options.py:66-78 | a failure is KeyError exactly when the key is unknown, and any other failure is on the thread option; a success keeps the key set and stores the value |
| GlymurOptions.SetThenGet | Sen2Cor-02.11.00-win64/Lib/site-packages/glymur/options.py:66-78 | after a successful set, the key holds the value and every other key is unchanged |
| GlymurOptions.SetOutcomeFails | Sen2Cor-02.11.00-win64/Lib/site-packages/glymur/options.py:66-76 | a set fails if and only if the key is unknown, or it is the thread option with a too-old library or no thread support; KeyError if and only if the key is unknown |
| GlymurOptions.ResetOutcome | Sen2Cor-02.11.00-win64/Lib/site-packages/glymur/options.py:125-131 | fails exactly on a key that is neither 'all' nor known; a success keeps the key set, and resetting one key restores its default and leaves the others |
| GlymurOptions.ResetUndoesSet | Sen2Cor-02.11.00-win64/Lib/site-packages/glymur/options.py:125-131 | resetting a key after a set restores its default; "all" restores every default |
| GlymurOptions.ResetIdempotent | Sen2Cor-02.11.00-win64/Lib/site-packages/glymur/options.py:125-131 | resetting twice is the same as resetting once |
| GlymurOptions.PrintOutcome | Sen2Cor-02.11.00-win64/Lib/site-packages/glymur/options.py:214-217 | the option keys never change |
| GlymurOptions.PrintAllValid | Sen2Cor-02.11.00-win64/Lib/site-packages/glymur/options.py:214-217 | valid keywords never fail and change only print options |
| GlymurOptions.PrintNotAtomic | Sen2Cor-02.11.00-win64/Lib/site-packages/glymur/options.py:214-217 | a bad keyword after a good one leaves the good one applied and raises KeyError |
| GlymurOptions.PrintBadFirstChangesNothing | Sen2Cor-02.11.00-win64/Lib/site-packages/glymur/options.py:215-216 | a bad first keyword changes nothing and raises KeyError |
| GlymurOptions.OptionStore.constructor | Sen2Cor-02.11.00-win64/Lib/site-packages/glymur/options.py:13-20 | the store starts as a copy of the defaults |
| GlymurOptions.OptionStore.SetOption | Sen2Cor-02.11.00-win64/Lib/site-packages/glymur/options.py:23-78 | the new store is the set outcome, or unchanged on an error; the key set is preserved; the old-library RuntimeError text ends with the version and a full stop |
| GlymurOptions.OptionStore.GetOption | Sen2Cor-02.11.00-win64/Lib/site-packages/glymur/options.py:104 | the stored value, or KeyError for an unknown key |
| GlymurOptions.OptionStore.ResetOption | Sen2Cor-02.11.00-win64/Lib/site-packages/glymur/options.py:107-131 | the new store is the reset outcome, or unchanged on an error |
| GlymurOptions.OptionStore.SetParseOptions | Sen2Cor-02.11.00-win64/Lib/site-packages/glymur/options.py:134-159 | always succeeds and sets only parse.full_codestream; the call without an argument is the call with true |
| GlymurOptions.OptionStore.GetParseOptions | Sen2Cor-02.11.00-win64/Lib/site-packages/glymur/options.py:180 | a one-entry dictionary with the full_codestream option |
| GlymurOptions.OptionStore.SetPrintOptions | Sen2Cor-02.11.00-win64/Lib/site-packages/glymur/options.py:183-217 | the new store and error are those of the keyword-by-keyword outcome |
| GlymurOptions.OptionStore.GetPrintOptions | Sen2Cor-02.11.00-win64/Lib/site-packages/glymur/options.py:240-243 | the dictionary of the three print options under their short names |
| OpenJpegErrors.ErrorText | Sen2Cor-02.11.00-win64/Lib/site-packages/glymur/lib/openjp2.py:586-594 | no messages give the generic failure text; one message gives itself |
| OpenJpegErrors.ErrorTextKeepsMessages | Sen2Cor-02.11.00-win64/Lib/site-packages/glymur/lib/openjp2.py:587 | one-line messages can be split back out of the raised text, in order |
| OpenJpegErrors.ErrorTextContainsMessages | Sen2Cor-02.11.00-win64/Lib/site-packages/glymur/lib/openjp2.py:587 | every gathered message appears in the raised text |
| OpenJpegErrors.ErrorLog.constructor | Sen2Cor-02.11.00-win64/Lib/site-packages/glymur/lib/openjp2.py:37 | the message list starts empty |
| OpenJpegErrors.ErrorLog.SetErrorMessage | Sen2Cor-02.11.00-win64/Lib/site-packages/glymur/lib/openjp2.py:1383-1385 | the callback appends the message |
| OpenJpegErrors.ErrorLog.CheckError | Sen2Cor-02.11.00-win64/Lib/site-packages/glymur/lib/openjp2.py:579-594 | status 1 changes nothing; any other status raises the gathered text and empties the list |

## Left out

- GDAL and OGR I/O are left out: `read_img`, `reproject_images`, `gdal.Warp` (reprojection and the cutline clip), `raster2shp`, `get_s2_cloud_tiff`, `compress` and `print_s2_info`. Their outputs appear only as named steps or as parameters.
- The file system and processes are left out: unzipping, `os.walk` over the product, `os.makedirs`, `del_dir` and the Sen2Cor subprocess. Directory listings are parameters.
- `np.percentile` is left out. The two percentiles of `stretch` are parameters.
- float32 rounding is left out. Values are exact reals plus NaN, and `None` written into a float32 array is NaN.
- Rasters are flattened. Rows and columns, and numpy broadcasting of mismatched shapes, are not modelled.
- Paths follow `ntpath` for `basename` and `join`, with `\` and `/` as separators. Drive letters are not modelled.
- `sentinel2_download.py` and `sentinel2_test.py` are not part of this model.
- The ctypes bindings of `openjp2.py`, other than the error list, are not part of this model.
- `warnings.warn` with DeprecationWarning in the glymur wrappers is not modelled.
- Option values are only integers and booleans. The thread-support query and the installed OpenJPEG version are parameters.
- IccProfile.Utf8Decode: models strict UTF-8. Surrogates, overlong forms and Python's exact error positions are not distinguished.
- PipelinePlan.PlanSteps: names outputs symbolically (`Output`), not as paths. Only the file names are proved, by `OutputPathBasename`.
- BandFiles.SelectBands: takes the band codes as a parameter. The pipeline always passes the seven stacked codes.
- RasterIo.Jp2ToTif: takes the raster's dtype, plane and georeference as parameters. A missing or unreadable jp2, where `gdal.Open` returns None and the next line raises AttributeError, is not modelled. `MergeTif` models the same failure as `CannotOpen`.
- RasterIo.HelperGlobals.MergeTif: does not model numpy's type promotion when the stacked files have different dtypes. It reports `MixedDtypes` instead.
- SpectralIndex.CalIndex: keeps the uint16 wrap-around of the code as written. The signed NDVI (`SignedNdvi`) is stated beside it, not used by it, because all eight indices share the wrapping arithmetic.
- GlymurOptions.OptionStore.SetOption: uses the numeric version comparison rather than the string comparison of the code (see Findings).

## Findings

| source | as written | input that shows it | evidently intended | confidence | as-written member | corrected member |
|---|---|---|---|---|---|---|
| cal_index.py:20-21 | band sums and differences are formed in uint16 and wrap before conversion to float32 | NIR = 100, RED = 200: NIR - RED wraps to 65436, so NDVI is clamped to 1 instead of -1/3 | differences over signed integers, so NDVI is negative where RED > NIR (the docstring says 0 and negative values mean rock, soil or water) | not executed | SpectralIndex.NdviWrapsToOne | SpectralIndex.SignedNdvi |
| Sen2Cor-02.11.00-win64/Lib/site-packages/glymur/options.py:70 | the OpenJPEG version is compared with '2.2.0' as a string | "2.10.0" sorts before "2.2.0", so thread support is refused on a newer library | a numeric comparison of the dotted fields | not executed | GlymurOptions.TenIsNotOlderThanTwo | GlymurOptions.TooOld |
