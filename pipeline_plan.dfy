/** What one scene of `s2_l2a_process` (or `s2_l1c_process`, whose scene
    body is the same) produces once its parameters are checked: the band
    files it converts, resamples and stacks, and the flag-guarded steps that
    follow the merge — the index rasters of the base, reprojected and
    clipped branches, the quicklook, the reprojection and the clip.

    A step records the raster it reads and the path it writes; GDAL's work
    behind each step is not modelled. */
module PipelinePlan {
  import opened Common
  import opened RasterIo
  import opened PipelineParams
  import opened SpectralIndex
  import opened BandFiles

  /** The order in which every branch tests the eight `CAL_*` flags; it is
      also the order of the flags in `Settings.cal`. */
  const IndexOrder: seq<Index> := [NDVI, NDRE, OSAVI, LCI, GNDVI, RECI, NDMI, NDWI]

  function Ordinal(idx: Index): (k: nat)
    ensures k < 8 && IndexOrder[k] == idx
  {
    match idx
    case NDVI => 0
    case NDRE => 1
    case OSAVI => 2
    case LCI => 3
    case GNDVI => 4
    case RECI => 5
    case NDMI => 6
    case NDWI => 7
  }

  lemma OrdinalOfOrder(k: nat)
    requires k < 8
    ensures Ordinal(IndexOrder[k]) == k
  {
  }

  /** The suffix of each index's output file. */
  function IndexName(idx: Index): string {
    match idx
    case NDVI => "ndvi"
    case NDRE => "ndre"
    case OSAVI => "osavi"
    case LCI => "lci"
    case GNDVI => "gndvi"
    case RECI => "reci"
    case NDMI => "ndmi"
    case NDWI => "ndwi"
  }

  /** The three places indices are computed from: the merged composite, the
      reprojected composite and the clipped composite. */
  datatype Branch = Base | Reprojected | Clipped

  /** What a branch inserts between the scene id and the index name. */
  function BranchTag(b: Branch): string {
    match b
    case Base => ""
    case Reprojected => "proj_"
    case Clipped => "clip_"
  }

  /** The files a scene writes into the output directory after the merge. */
  datatype Output =
    | Merged              // <id>_merge.tif
    | ProjectedRaster     // <id>_projected.tif
    | ClippedRaster       // <id>_clip.tif
    | QuicklookImage      // <id>_quickimg.tif
    | IndexFile(branch: Branch, index: Index)   // <id>_<tag><index>.tif

  /** What follows the scene id in each output's file name. */
  function Suffix(o: Output): string {
    match o
    case Merged => "_merge.tif"
    case ProjectedRaster => "_projected.tif"
    case ClippedRaster => "_clip.tif"
    case QuicklookImage => "_quickimg.tif"
    case IndexFile(b, idx) => "_" + BranchTag(b) + IndexName(idx) + ".tif"
  }

  /** `os.path.join(OUTPUT_PATH, img_identifier + <suffix>)`. */
  function OutputPath(out: string, id: string, o: Output): (r: string)
    ensures |r| >= |id + Suffix(o)| && r[|r| - |id + Suffix(o)|..] == id + Suffix(o)
  {
    Join(out, id + Suffix(o))
  }

  lemma SuffixHasNoSep(o: Output)
    ensures NoSep(Suffix(o))
  {
    match o
    case IndexFile(b, idx) =>
      assert NoSep("_") && NoSep(".tif");
      assert NoSep(BranchTag(b)) by {
        match b
        case Base =>
        case Reprojected => assert NoSep("proj_");
        case Clipped => assert NoSep("clip_");
      }
      assert NoSep(IndexName(idx)) by {
        match idx
        case NDVI => assert NoSep("ndvi");
        case NDRE => assert NoSep("ndre");
        case OSAVI => assert NoSep("osavi");
        case LCI => assert NoSep("lci");
        case GNDVI => assert NoSep("gndvi");
        case RECI => assert NoSep("reci");
        case NDMI => assert NoSep("ndmi");
        case NDWI => assert NoSep("ndwi");
      }
      NoSepConcat("_", BranchTag(b));
      NoSepConcat("_" + BranchTag(b), IndexName(idx));
      NoSepConcat("_" + BranchTag(b) + IndexName(idx), ".tif");
    case Merged => assert NoSep("_merge.tif");
    case ProjectedRaster => assert NoSep("_projected.tif");
    case ClippedRaster => assert NoSep("_clip.tif");
    case QuicklookImage => assert NoSep("_quickimg.tif");
  }

  /** A scene id without separators keeps every output directly in the
      output directory, under the file name `<id><suffix>`. */
  lemma OutputPathBasename(out: string, id: string, o: Output)
    requires NoSep(id)
    ensures Basename(OutputPath(out, id, o)) == id + Suffix(o)
  {
    SuffixHasNoSep(o);
    NoSepConcat(id, Suffix(o));
  }

  /** The raster a branch reads. */
  function BranchSource(b: Branch): Output {
    match b
    case Base => Merged
    case Reprojected => ProjectedRaster
    case Clipped => ClippedRaster
  }

  /** One file-producing call after the merge: what it reads and what it writes. */
  datatype Step =
    | ComputeIndex(index: Index, source: Output, target: Output)   // ci.cal_<index>
    | WriteQuicklook(source: Output, target: Output)               // helper.write_tiff of the stretched RGB
    | Reproject(source: Output, target: Output, crs: PyValue)      // gdal.Warp(..., dstSRS=CRS)
    | ClipToShape(source: Output, target: Output, cutline: PyValue) // gdal.Warp(..., cutlineDSName=SHP_FILE_PATH)

  function IndexStep(b: Branch, idx: Index): Step {
    ComputeIndex(idx, BranchSource(b), IndexFile(b, idx))
  }

  /** The index steps a branch takes for its first `n` flags. */
  function BranchSteps(b: Branch, cal: seq<PyValue>, n: nat): (r: seq<Step>)
    requires |cal| == 8 && n <= 8
    ensures |r| <= n
  {
    if n == 0 then []
    else BranchSteps(b, cal, n - 1) + (if Truthy(cal[n - 1]) then [IndexStep(b, IndexOrder[n - 1])] else [])
  }

  /** A branch only computes indices, each written to the branch's own file. */
  lemma {:induction false} BranchStepsIndexOnly(b: Branch, cal: seq<PyValue>, n: nat)
    requires |cal| == 8 && n <= 8
    ensures forall i :: 0 <= i < |BranchSteps(b, cal, n)| ==>
              BranchSteps(b, cal, n)[i].ComputeIndex? &&
              BranchSteps(b, cal, n)[i].target == IndexFile(b, BranchSteps(b, cal, n)[i].index)
  {
    if n > 0 {
      BranchStepsIndexOnly(b, cal, n - 1);
    }
  }

  /** One `if CAL_X:` block: the step is taken when its flag is truthy. */
  method StepIfSet(steps: seq<Step>, flag: PyValue, st: Step) returns (r: seq<Step>)
    ensures Truthy(flag) ==> r == steps + [st]
    ensures !Truthy(flag) ==> r == steps
  {
    r := steps;
    if Truthy(flag) {
      r := r + [st];
    }
  }

  /** The eight `if CAL_X:` blocks of one branch. */
  method PlanIndexSteps(b: Branch, cal: seq<PyValue>) returns (steps: seq<Step>)
    requires |cal| == 8
    ensures steps == BranchSteps(b, cal, 8)
  {
    steps := [];
    steps := StepIfSet(steps, cal[0], IndexStep(b, NDVI));
    assert steps == BranchSteps(b, cal, 1);
    steps := StepIfSet(steps, cal[1], IndexStep(b, NDRE));
    assert steps == BranchSteps(b, cal, 2);
    steps := StepIfSet(steps, cal[2], IndexStep(b, OSAVI));
    assert steps == BranchSteps(b, cal, 3);
    steps := StepIfSet(steps, cal[3], IndexStep(b, LCI));
    assert steps == BranchSteps(b, cal, 4);
    steps := StepIfSet(steps, cal[4], IndexStep(b, GNDVI));
    assert steps == BranchSteps(b, cal, 5);
    steps := StepIfSet(steps, cal[5], IndexStep(b, RECI));
    assert steps == BranchSteps(b, cal, 6);
    steps := StepIfSet(steps, cal[6], IndexStep(b, NDMI));
    assert steps == BranchSteps(b, cal, 7);
    steps := StepIfSet(steps, cal[7], IndexStep(b, NDWI));
  }

  /** A branch computes index `idx` exactly when its flag is truthy, and then
      from the branch's own raster into the branch's own output. */
  lemma {:induction false} BranchStepsMembers(b: Branch, cal: seq<PyValue>, n: nat)
    requires |cal| == 8 && n <= 8
    ensures forall st :: st in BranchSteps(b, cal, n) <==>
              exists j :: 0 <= j < n && Truthy(cal[j]) && st == IndexStep(b, IndexOrder[j])
  {
    if n > 0 {
      BranchStepsMembers(b, cal, n - 1);
    }
  }

  /** The steps of a branch follow the fixed order ndvi, ndre, osavi, lci,
      gndvi, reci, ndmi, ndwi, so no index is computed twice. */
  lemma {:induction false} BranchStepsOrdered(b: Branch, cal: seq<PyValue>, n: nat)
    requires |cal| == 8 && n <= 8
    ensures forall i :: 0 <= i < |BranchSteps(b, cal, n)| ==>
              BranchSteps(b, cal, n)[i].ComputeIndex? && Ordinal(BranchSteps(b, cal, n)[i].index) < n
    ensures forall i, j :: 0 <= i < j < |BranchSteps(b, cal, n)| ==>
              Ordinal(BranchSteps(b, cal, n)[i].index) < Ordinal(BranchSteps(b, cal, n)[j].index)
  {
    if n > 0 {
      BranchStepsOrdered(b, cal, n - 1);
      OrdinalOfOrder(n - 1);
    }
  }

  /** Whether a branch runs: the base branch always, the others under their flag. */
  predicate BranchOn(s: Settings, b: Branch) {
    match b
    case Base => true
    case Reprojected => Truthy(s.reproject)
    case Clipped => Truthy(s.clip)
  }

  /** Everything a scene does after the merge, in the script's order. */
  function SceneSteps(s: Settings): (r: seq<Step>)
    requires |s.cal| == 8
    ensures |r| <= 27
    ensures forall i :: 0 <= i < |r| ==> r[i].target != Merged
    ensures forall i :: 0 <= i < |r| && !r[i].ComputeIndex? ==> r[i].source == Merged
  {
    BranchStepsIndexOnly(Base, s.cal, 8);
    BranchStepsIndexOnly(Reprojected, s.cal, 8);
    BranchStepsIndexOnly(Clipped, s.cal, 8);
    var base := BranchSteps(Base, s.cal, 8);
    var quick := if Truthy(s.quick) then [WriteQuicklook(Merged, QuicklookImage)] else [];
    var proj := if Truthy(s.reproject)
                then [Reproject(Merged, ProjectedRaster, s.crs)] + BranchSteps(Reprojected, s.cal, 8)
                else [];
    var clip := if Truthy(s.clip)
                then [ClipToShape(Merged, ClippedRaster, s.shpPath)] + BranchSteps(Clipped, s.cal, 8)
                else [];
    assert forall i :: 0 <= i < |proj| ==> proj[i].target != Merged && (!proj[i].ComputeIndex? ==> proj[i].source == Merged);
    assert forall i :: 0 <= i < |clip| ==> clip[i].target != Merged && (!clip[i].ComputeIndex? ==> clip[i].source == Merged);
    base + quick + proj + clip
  }

  /** Steps 4 to 7 after the merge: the base indices, the quicklook, then the
      reprojected and the clipped branch, each under its flag. */
  method PlanSteps(s: Settings) returns (steps: seq<Step>)
    requires |s.cal| == 8
    ensures steps == SceneSteps(s)
  {
    steps := PlanIndexSteps(Base, s.cal);
    if Truthy(s.quick) {
      steps := steps + [WriteQuicklook(Merged, QuicklookImage)];
    }
    if Truthy(s.reproject) {
      var more := PlanIndexSteps(Reprojected, s.cal);
      var branch := [Reproject(Merged, ProjectedRaster, s.crs)] + more;
      steps := steps + branch;
    }
    if Truthy(s.clip) {
      var more := PlanIndexSteps(Clipped, s.cal);
      var branch := [ClipToShape(Merged, ClippedRaster, s.shpPath)] + more;
      steps := steps + branch;
    }
  }

  /** A scene step is a base index step, the quicklook, or a step of a
      branch whose flag is set. */
  lemma SceneStepsMembers(s: Settings, st: Step)
    requires |s.cal| == 8
    ensures st in SceneSteps(s) <==>
      st in BranchSteps(Base, s.cal, 8)
      || (Truthy(s.quick) && st == WriteQuicklook(Merged, QuicklookImage))
      || (Truthy(s.reproject) && (st == Reproject(Merged, ProjectedRaster, s.crs) || st in BranchSteps(Reprojected, s.cal, 8)))
      || (Truthy(s.clip) && (st == ClipToShape(Merged, ClippedRaster, s.shpPath) || st in BranchSteps(Clipped, s.cal, 8)))
  {
  }

  /** Every index output of a scene belongs to a running branch whose flag is
      set, is read from that branch's raster and is named after that branch. */
  lemma SceneIndexOutputsFlagged(s: Settings, st: Step)
    requires |s.cal| == 8
    requires st in SceneSteps(s) && st.ComputeIndex?
    ensures st.target.IndexFile?
    ensures BranchOn(s, st.target.branch) && Truthy(s.cal[Ordinal(st.index)])
    ensures st == IndexStep(st.target.branch, st.index)
  {
    SceneStepsMembers(s, st);
    BranchStepsMembers(Base, s.cal, 8);
    BranchStepsMembers(Reprojected, s.cal, 8);
    BranchStepsMembers(Clipped, s.cal, 8);
    var b :| BranchOn(s, b) && st in BranchSteps(b, s.cal, 8);
    var j :| 0 <= j < 8 && Truthy(s.cal[j]) && st == IndexStep(b, IndexOrder[j]);
    OrdinalOfOrder(j);
  }

  /** Every index whose flag is set is computed on every running branch. */
  lemma SceneIndexOutputsProduced(s: Settings, b: Branch, idx: Index)
    requires |s.cal| == 8
    requires BranchOn(s, b) && Truthy(s.cal[Ordinal(idx)])
    ensures IndexStep(b, idx) in SceneSteps(s)
  {
    BranchStepsMembers(b, s.cal, 8);
    assert IndexStep(b, IndexOrder[Ordinal(idx)]) in BranchSteps(b, s.cal, 8);
    SceneStepsMembers(s, IndexStep(b, idx));
  }

  /** The quicklook is written iff `QUICK_IMG` is truthy, and from the merged file. */
  lemma QuicklookIffFlag(s: Settings, st: Step)
    requires |s.cal| == 8
    requires st.WriteQuicklook?
    ensures st in SceneSteps(s) <==> Truthy(s.quick) && st == WriteQuicklook(Merged, QuicklookImage)
  {
    SceneStepsMembers(s, st);
    BranchStepsMembers(Base, s.cal, 8);
    BranchStepsMembers(Reprojected, s.cal, 8);
    BranchStepsMembers(Clipped, s.cal, 8);
  }

  /** The steps depend on the flags only through their truthiness. */
  predicate SameEffect(s1: Settings, s2: Settings) {
    |s1.cal| == 8 && |s2.cal| == 8 &&
    s1.crs == s2.crs && s1.shpPath == s2.shpPath &&
    Truthy(s1.quick) == Truthy(s2.quick) && Truthy(s1.reproject) == Truthy(s2.reproject) &&
    Truthy(s1.clip) == Truthy(s2.clip) &&
    forall j :: 0 <= j < 8 ==> Truthy(s1.cal[j]) == Truthy(s2.cal[j])
  }

  lemma {:induction false} BranchStepsSameEffect(b: Branch, c1: seq<PyValue>, c2: seq<PyValue>, n: nat)
    requires |c1| == 8 && |c2| == 8 && n <= 8
    requires forall j :: 0 <= j < 8 ==> Truthy(c1[j]) == Truthy(c2[j])
    ensures BranchSteps(b, c1, n) == BranchSteps(b, c2, n)
  {
    if n > 0 {
      BranchStepsSameEffect(b, c1, c2, n - 1);
    }
  }

  lemma SceneStepsSameEffect(s1: Settings, s2: Settings)
    requires SameEffect(s1, s2)
    ensures SceneSteps(s1) == SceneSteps(s2)
  {
    BranchStepsSameEffect(Base, s1.cal, s2.cal, 8);
    BranchStepsSameEffect(Reprojected, s1.cal, s2.cal, 8);
    BranchStepsSameEffect(Clipped, s1.cal, s2.cal, 8);
  }

  /** For the same parameter dictionary, an L1C run takes the same steps as an
      L2A run, although it leaves six index flags `None` where L2A puts False. */
  lemma LevelsTakeSameSteps(params: map<Key, PyValue>, s1: Settings, s2: Settings)
    requires CheckedAs(L2A, params, Ok(s1)) && CheckedAs(L1C, params, Ok(s2))
    ensures |s1.cal| == 8 && |s2.cal| == 8
    ensures SceneSteps(s1) == SceneSteps(s2)
  {
    forall j | 0 <= j < 8 ensures Truthy(s1.cal[j]) == Truthy(s2.cal[j]) {
      LevelsAgreeOnFlags(params, FirstCal + j);
    }
    LevelsAgreeOnFlags(params, 2);
    LevelsAgreeOnFlags(params, 5);
    SceneStepsSameEffect(s1, s2);
  }

  /** The band files of one scene, in the order the script produces them. */
  datatype BandPlan = BandPlan(
    jp2s20: seq<string>, jp2s10: seq<string>,
    tifs20: seq<string>, tifs10: seq<string>,
    reference: string,
    resampled: seq<(string, string)>,
    stack: seq<string>)

  function UnzipDir(out: string): string {
    out + [Sep] + "unzip"
  }

  /** What steps 2 to 4 build for a scene id: the jp2 lists, their
      conversion, the resampling jobs against the first 10 m band, and the
      selection from the 10 m directory listing. */
  predicate PlannedFor(p: BandPlan, out: string, imgData: string, id: string, listing10: seq<string>) {
    p.jp2s20 == Jp2List(imgData, id, "20m", Codes20) &&
    p.jp2s10 == Jp2List(imgData, id, "10m", Codes10) &&
    |p.tifs20| == |Codes20| &&
    (forall k :: 0 <= k < |Codes20| ==>
       p.tifs20[k] == TifNameFor(p.jp2s20[k], SaveDir(UnzipDir(out), id, "20m"))) &&
    |p.tifs10| == |Codes10| &&
    (forall k :: 0 <= k < |Codes10| ==>
       p.tifs10[k] == TifNameFor(p.jp2s10[k], SaveDir(UnzipDir(out), id, "10m"))) &&
    p.reference == p.tifs10[0] &&
    |p.resampled| == |Codes20| &&
    (forall k :: 0 <= k < |Codes20| ==>
       p.resampled[k] == (p.tifs20[k], ResampledName(SaveDir(UnzipDir(out), id, "10m"), p.tifs20[k]))) &&
    p.stack == Selection(SaveDir(UnzipDir(out), id, "10m"), StackCodes, listing10)
  }

  /** Steps 2 to 4 for a scene id. */
  method PlanBands(out: string, imgData: string, id: string, listing10: seq<string>) returns (p: BandPlan)
    ensures PlannedFor(p, out, imgData, id, listing10)
  {
    var unzip := out + [Sep] + "unzip";
    var jp2s20 := Jp2List(imgData, id, "20m", Codes20);
    var jp2s10 := Jp2List(imgData, id, "10m", Codes10);
    var save20 := SaveDir(unzip, id, "20m");
    var tifs20 := ConvertAll(jp2s20, save20);
    var save10 := SaveDir(unzip, id, "10m");
    var tifs10 := ConvertAll(jp2s10, save10);
    var reference := tifs10[0];
    var jobs := ResampleJobs(tifs20, save10);
    var stack := SelectBands(save10, StackCodes, listing10);
    p := BandPlan(jp2s20, jp2s10, tifs20, tifs10, reference, jobs, stack);
  }

  /** `get_image_name` on an empty R10m directory raises IndexError. */
  datatype PlanError = EmptyR10m

  /** One scene of either function: the R10m listing gives the scene id, the
      10 m directory listing (after conversion and resampling) is what the
      selection scans, and the merged composite is `<id>_merge.tif`. */
  method PlanScene(s: Settings, imgData: string, r10mListing: seq<string>, listing10: seq<string>)
    returns (r: Result<(string, BandPlan, seq<Step>), PlanError>)
    requires |s.cal| == 8
    ensures r.Err? <==> r10mListing == []
    ensures r.Ok? ==> GetImageName(r10mListing) == Some(r.value.0)
    ensures r.Ok? ==> PlannedFor(r.value.1, s.outputPath, imgData, r.value.0, listing10)
    ensures r.Ok? ==> r.value.2 == SceneSteps(s)
  {
    var name := GetImageName(r10mListing);
    if name.None? {
      return Err(EmptyR10m);
    }
    var id := name.value;
    var bands := PlanBands(s.outputPath, imgData, id, listing10);
    var steps := PlanSteps(s);
    return Ok((id, bands, steps));
  }

  /** The stacked codes and both band lists are three-character, separator-free names. */
  lemma CodesAreBandNames()
    ensures forall c :: c in Codes20 ==> |c| == 3 && NoSep(c)
    ensures forall c :: c in Codes10 ==> |c| == 3 && NoSep(c)
  {
    assert NoSep("B8A") && NoSep("B11") && NoSep("B12") && NoSep("B05") && NoSep("B06") && NoSep("B07");
    assert NoSep("B02") && NoSep("B03") && NoSep("B04") && NoSep("B08");
  }

  /** With a scene id free of separators, every converted 20 m band keeps its
      stem and is resampled to the 10 m name that the selection picks up
      under the same code. */
  lemma PlannedBandNames(out: string, imgData: string, id: string, k: nat)
    requires NoSep(id) && k < |Codes20|
    ensures var save20 := SaveDir(UnzipDir(out), id, "20m");
            var save10 := SaveDir(UnzipDir(out), id, "10m");
            var tif := TifNameFor(Jp2List(imgData, id, "20m", Codes20)[k], save20);
            tif == Join(save20, BandStem(id, Codes20[k], "20m")) + ".tif" &&
            ResampledName(save10, tif) == save10 + [Sep] + BandStem(id, Codes20[k], "10m") + ".tif" &&
            Matches(BandStem(id, Codes20[k], "10m") + ".tif", Codes20[k])
  {
    var code := Codes20[k];
    CodesAreBandNames();
    assert code in Codes20;
    assert NoSep("20m");
    var save20 := SaveDir(UnzipDir(out), id, "20m");
    var save10 := SaveDir(UnzipDir(out), id, "10m");
    TifOfBand(imgData, id, "20m", code, save20);
    ResampledBandName(save20, save10, id, code);
    TenMetreNameMatches(id, code);
  }

  /** The resampling reference is the converted B02 band. */
  lemma ReferenceIsB02(out: string, imgData: string, id: string)
    requires NoSep(id)
    ensures var save10 := SaveDir(UnzipDir(out), id, "10m");
            TifNameFor(Jp2List(imgData, id, "10m", Codes10)[0], save10) == Join(save10, BandStem(id, "B02", "10m")) + ".tif"
  {
    assert NoSep("10m") && NoSep("B02");
    TifOfBand(imgData, id, "10m", "B02", SaveDir(UnzipDir(out), id, "10m"));
  }

  /** The scene id is separator-free when the listed file name is. */
  lemma ImageIdHasNoSep(r10mListing: seq<string>)
    requires r10mListing != [] && NoSep(r10mListing[0])
    ensures NoSep(GetImageName(r10mListing).value)
  {
    NoSepPrefix(r10mListing[0], |GetImageName(r10mListing).value|);
  }
}
