/** The raster input/output helpers of `helper.py`: the dtype-to-GDAL-type
    dispatch and the band layout of `write_tiff`, the naming and dtype branch
    of `jp2_to_tif`, the band stacking of `merge_tif` (with the module-level
    `geotrans`/`proj` it sets), and the scene-id slicing of `get_image_name`.
    GDAL itself is abstracted: a written file is the `Dataset` value that
    would be created, and the files that can be read are a map from path to
    single-band raster. */
module RasterIo {
  import opened Common

  datatype GdalType = GdtByte | GdtUInt16 | GdtFloat32

  /** A numpy array: its dtype name and its data as a 2-D plane, a 3-D stack
      of planes, or some other rank. */
  datatype Planes<T> = Plane2(plane: seq<T>) | Stack3(bands: seq<seq<T>>) | OtherRank
  datatype NdArray<T> = NdArray(dtypeName: string, data: Planes<T>)

  /** A GeoTIFF as GDAL creates it: pixel type, bands in order, the
      georeference if one was set, and the no-data value if one was set. */
  datatype Dataset<T> = Dataset(dataType: GdalType, bands: seq<seq<T>>, geo: Option<GeoRef>, noData: Option<int>)

  /** `write_tiff`'s choice of pixel type: a dtype name containing "int8" is
      written as Byte, one containing "int16" as UInt16, anything else as Float32. */
  function GdalTypeOf(dtypeName: string): (t: GdalType)
    ensures t == GdtByte <==> Contains(dtypeName, "int8")
    ensures t == GdtUInt16 <==> !Contains(dtypeName, "int8") && Contains(dtypeName, "int16")
  {
    if Contains(dtypeName, "int8") then GdtByte
    else if Contains(dtypeName, "int16") then GdtUInt16
    else GdtFloat32
  }

  /** How the dispatch treats the dtypes the pipeline meets, and two it
      treats surprisingly: signed int16 becomes UInt16 and int32 becomes Float32. */
  lemma GdalTypeExamples()
    ensures GdalTypeOf("uint8") == GdtByte && GdalTypeOf("int8") == GdtByte
    ensures GdalTypeOf("uint16") == GdtUInt16 && GdalTypeOf("int16") == GdtUInt16
    ensures GdalTypeOf("float32") == GdtFloat32
    ensures GdalTypeOf("int32") == GdtFloat32
  {
    ContainsAt("uint8", "int8", 1);
    ContainsAt("int8", "int8", 0);
    ContainsAt("uint16", "int16", 1);
    ContainsAt("int16", "int16", 0);
    assert !Contains("uint16", "int8") by {
      assert "uint16"[..4][0] != "int8"[0];
      assert "int16"[..4][3] != "int8"[3];
      assert "nt16"[..4][0] != "int8"[0];
    }
    assert !Contains("int16", "int8") by {
      assert "int16"[..4][3] != "int8"[3];
      assert "nt16"[..4][0] != "int8"[0];
    }
    assert !Contains("float32", "int8") by {
      assert "float32"[..4][0] != "int8"[0];
      assert "loat32"[..4][0] != "int8"[0];
      assert "oat32"[..4][0] != "int8"[0];
      assert "at32"[..4][0] != "int8"[0];
    }
    assert !Contains("float32", "int16") by {
      assert "float32"[..5][0] != "int16"[0];
      assert "loat32"[..5][0] != "int16"[0];
      assert "oat32"[..5][0] != "int16"[0];
    }
    assert !Contains("int32", "int8") by {
      assert "int32"[..4][3] != "int8"[3];
      assert "nt32"[..4][0] != "int8"[0];
    }
    assert !Contains("int32", "int16") by {
      assert "int32"[..5][3] != "int16"[3];
    }
  }

  /** `write_tiff(img_arr, geomatrix, projection, path)`: a 3-D array writes one
      band per leading index and sets the georeference only when the
      projection text is non-empty; a 2-D array writes one band and always
      sets it; any other rank writes nothing. */
  function WriteTiff<T>(arr: NdArray<T>, geo: GeoRef): (r: Option<Dataset<T>>)
    ensures r.None? <==> arr.data.OtherRank?
    ensures r.Some? ==> r.value.dataType == GdalTypeOf(arr.dtypeName) && r.value.noData.None?
    ensures arr.data.Stack3? ==> r.Some? && r.value.bands == arr.data.bands &&
                                 r.value.geo == (if geo.projection != "" then Some(geo) else None)
    ensures arr.data.Plane2? ==> r.Some? && r.value.bands == [arr.data.plane] && r.value.geo == Some(geo)
  {
    var t := GdalTypeOf(arr.dtypeName);
    match arr.data
    case Stack3(bands) => Some(Dataset(t, bands, if geo.projection != "" then Some(geo) else None, None))
    case Plane2(plane) => Some(Dataset(t, [plane], Some(geo), None))
    case OtherRank => None
  }

  /** The output name of `jp2_to_tif`: the input's basename without its last
      four characters, joined to the save directory, plus ".tif". */
  function TifNameFor(jp2Path: string, savePath: string): (r: string)
    ensures |r| >= 4 && r[|r| - 4..] == ".tif"
  {
    Join(savePath, Slice(Basename(jp2Path), 0, -4)) + ".tif"
  }

  /** The name always ends in ".tif", and its file name is the jp2 file name
      with its last four characters replaced by ".tif". */
  lemma TifNameShape(jp2Path: string, savePath: string)
    ensures var r := TifNameFor(jp2Path, savePath);
            Basename(r) == Slice(Basename(jp2Path), 0, -4) + ".tif" &&
            |r| >= 4 && r[|r| - 4..] == ".tif"
  {
    assert NoSep(".tif");
    var base := Basename(jp2Path);
    var stem := Slice(base, 0, -4);
    NoSepPrefix(base, |stem|);
    var joined := Join(savePath, stem);
    BasenameAppend(joined, ".tif");
  }

  /** `jp2_to_tif`: the path is always returned; a file is written only for
      uint16 and uint8 data, in both cases with no-data value 0 and the
      source's georeference. */
  function Jp2ToTif(jp2Path: string, savePath: string, dtypeName: string, plane: seq<int>, geo: GeoRef)
    : (r: (string, Option<Dataset<int>>))
    ensures r.0 == TifNameFor(jp2Path, savePath)
    ensures r.1.Some? <==> dtypeName == "uint16" || dtypeName == "uint8"
    ensures r.1.Some? ==> r.1.value.bands == [plane] && r.1.value.geo == Some(geo) && r.1.value.noData == Some(0)
    ensures r.1.Some? ==> r.1.value.dataType == (if dtypeName == "uint16" then GdtUInt16 else GdtByte)
  {
    var out := TifNameFor(jp2Path, savePath);
    if dtypeName == "uint16" then (out, Some(Dataset(GdtUInt16, [plane], Some(geo), Some(0))))
    else if dtypeName == "uint8" then (out, Some(Dataset(GdtByte, [plane], Some(geo), Some(0))))
    else (out, None)
  }

  /** A band file `<dir>\\<name>.jp2` becomes `<save>\\<name>.tif`: the band
      code and resolution in the name are kept. */
  lemma Jp2ToTifNaming(dir: string, name: string, savePath: string)
    requires dir == "" || IsSep(dir[|dir| - 1])
    requires NoSep(name)
    ensures TifNameFor(dir + name + ".jp2", savePath) == Join(savePath, name) + ".tif"
  {
    assert NoSep(".jp2");
    NoSepConcat(name, ".jp2");
    var file := name + ".jp2";
    var p := dir + name + ".jp2";
    assert p == dir + file;
    BasenameAfterSep(dir, file);
    assert Basename(p) == file;
    assert file[..|file| - 4] == name;
    assert Slice(file, 0, -4) == name;
  }

  /** `get_image_name`: the first 22 characters of the first entry that
      `os.listdir` gives for the R10m directory; an empty directory raises
      IndexError. */
  function GetImageName(r10mListing: seq<string>): (r: Option<string>)
    ensures r.None? <==> r10mListing == []
    ensures r.Some? ==> |r.value| == (if |r10mListing[0]| < 22 then |r10mListing[0]| else 22)
    ensures r.Some? ==> r.value == r10mListing[0][..|r.value|]
  {
    if r10mListing == [] then None else Some(Slice(r10mListing[0], 0, 22))
  }

  /** A single-band GeoTIFF that `read_img` can open. */
  datatype BandFile = BandFile(dtypeName: string, plane: seq<int>, geo: GeoRef)

  datatype MergeError =
    | CannotOpen(path: string)     // gdal.Open returns None: AttributeError
    | RaggedBands                  // np.array of planes of different sizes
    | MixedDtypes                  // numpy's type promotion is not modelled
    | GeoUndefined                 // NameError: no call ever set geotrans/proj

  function DtypeOfAll(files: seq<BandFile>): Option<string> {
    if files == [] then None
    else if forall i :: 0 <= i < |files| ==> files[i].dtypeName == files[0].dtypeName then Some(files[0].dtypeName)
    else None
  }

  /** Every path names a raster `gdal.Open` can open. */
  predicate AllOpen(paths: seq<string>, files: map<string, BandFile>) {
    forall i :: 0 <= i < |paths| ==> paths[i] in files
  }

  /** The planes all have the size of the first, so `np.array` stacks them. */
  predicate SameSize(paths: seq<string>, files: map<string, BandFile>)
    requires AllOpen(paths, files) && |paths| > 0
  {
    forall i :: 0 <= i < |paths| ==> |files[paths[i]].plane| == |files[paths[0]].plane|
  }

  /** The rasters all share the dtype of the first. */
  predicate SameDtype(paths: seq<string>, files: map<string, BandFile>)
    requires AllOpen(paths, files) && |paths| > 0
  {
    forall i :: 0 <= i < |paths| ==> files[paths[i]].dtypeName == files[paths[0]].dtypeName
  }

  /** The module-level state of `helper.py` that `merge_tif` writes:
      `geotrans` and `proj` of the last raster it read. */
  class HelperGlobals {
    var lastGeo: Option<GeoRef>

    constructor ()
      ensures lastGeo.None?
    {
      lastGeo := None;
    }

    /** `merge_tif(tif_path_list, output_tif)`: reads the paths in order,
        stacks their planes in that order and writes them with the
        georeference of the last path read. An empty list writes nothing
        (a 1-D empty array), or fails if no call ever set the globals. */
    method MergeTif(paths: seq<string>, files: map<string, BandFile>)
      returns (r: Result<Option<Dataset<int>>, MergeError>)
      modifies this
      ensures (exists i :: 0 <= i < |paths| && paths[i] !in files) <==>
              r.Err? && r.error.CannotOpen?
      ensures r.Ok? && r.value.Some? ==>
                |paths| > 0 &&
                |r.value.value.bands| == |paths| &&
                (forall i :: 0 <= i < |paths| ==> r.value.value.bands[i] == files[paths[i]].plane) &&
                r.value.value.dataType == GdalTypeOf(files[paths[0]].dtypeName)
      ensures |paths| > 0 && (forall i :: 0 <= i < |paths| ==> paths[i] in files) ==>
                lastGeo == Some(files[paths[|paths| - 1]].geo)
      ensures r.Ok? && r.value.Some? ==>
                r.value.value.geo == (if lastGeo.value.projection != "" then lastGeo else None)
      ensures paths == [] ==> lastGeo == old(lastGeo) && r == (if lastGeo.None? then Err(GeoUndefined) else Ok(None))
      ensures AllOpen(paths, files) && |paths| > 0 ==>
                (!SameSize(paths, files) <==> r == Err(RaggedBands))
      ensures AllOpen(paths, files) && |paths| > 0 && SameSize(paths, files) ==>
                (!SameDtype(paths, files) <==> r == Err(MixedDtypes))
      ensures AllOpen(paths, files) && |paths| > 0 && SameSize(paths, files) && SameDtype(paths, files) ==>
                r.Ok? && r.value.Some?
    {
      var read: seq<BandFile> := [];
      var i := 0;
      while i < |paths|
        invariant 0 <= i <= |paths|
        invariant forall k :: 0 <= k < i ==> paths[k] in files
        invariant read == seq(i, k requires 0 <= k < i => files[paths[k]])
        invariant i > 0 ==> lastGeo == Some(files[paths[i - 1]].geo)
        invariant i == 0 ==> lastGeo == old(lastGeo)
      {
        if paths[i] !in files {
          return Err(CannotOpen(paths[i]));
        }
        var f := files[paths[i]];
        read := read + [f];
        lastGeo := Some(f.geo);
        i := i + 1;
      }
      if read == [] {
        if lastGeo.None? {
          return Err(GeoUndefined);
        }
        return Ok(None);
      }
      if !(forall k :: 0 <= k < |read| ==> |read[k].plane| == |read[0].plane|) {
        return Err(RaggedBands);
      }
      assert SameSize(paths, files) by {
        forall k | 0 <= k < |paths| ensures |files[paths[k]].plane| == |files[paths[0]].plane| {
          assert read[k] == files[paths[k]] && read[0] == files[paths[0]];
        }
      }
      var dtype := DtypeOfAll(read);
      if dtype.None? {
        return Err(MixedDtypes);
      }
      var planes := seq(|read|, k requires 0 <= k < |read| => read[k].plane);
      var ds := WriteTiff(NdArray(dtype.value, Stack3(planes)), lastGeo.value);
      return Ok(ds);
    }
  }
}
