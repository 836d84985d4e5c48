/** Steps 2 to 4 of `s2_l2a_process` (and steps 3 to 5 of `s2_l1c_process`,
    which repeat them verbatim): the jp2 band paths of a scene, their
    conversion to GeoTIFF, the resampling of the 20 m bands onto the 10 m
    grid, and the choice of the seven bands to stack.

    Only names are decided here. What GDAL reads, writes and resamples is
    not modelled; the listing of the 10 m directory that the selection scans
    is an input. */
module BandFiles {
  import opened Common
  import opened RasterIo

  /** The 20 m bands converted, in the order the script lists them. */
  const Codes20: seq<string> := ["B8A", "B11", "B12", "B05", "B06", "B07"]

  /** The 10 m bands converted; the first one is the resampling reference. */
  const Codes10: seq<string> := ["B02", "B03", "B04", "B08"]

  /** The bands stacked into the composite, in stacking order. */
  const StackCodes: seq<string> := ["B02", "B03", "B04", "B08", "B8A", "B11", "B12"]

  /** `<id>_<code>_<res>`, the stem Sentinel-2 gives a band file. */
  function BandStem(id: string, code: string, res: string): string {
    id + "_" + code + "_" + res
  }

  /** `IMG_DATA_path + os.sep + 'R<res>\\<id>_<code>_<res>.jp2'`. */
  function Jp2Path(imgData: string, id: string, res: string, code: string): (p: string)
    ensures |p| >= 4 && p[|p| - 4..] == ".jp2"
  {
    imgData + [Sep] + "R" + res + "\\" + BandStem(id, code, res) + ".jp2"
  }

  /** The jp2 list of one resolution. */
  function Jp2List(imgData: string, id: string, res: string, codes: seq<string>): (r: seq<string>)
    ensures |r| == |codes|
    ensures forall k :: 0 <= k < |codes| ==> r[k] == Jp2Path(imgData, id, res, codes[k])
  {
    seq(|codes|, k requires 0 <= k < |codes| => Jp2Path(imgData, id, res, codes[k]))
  }

  /** `unzip_path + os.sep + img_identifier + os.sep + "<res>"`. */
  function SaveDir(unzip: string, id: string, res: string): string {
    unzip + [Sep] + id + [Sep] + res
  }

  /** A list loop that appends one derived name per element, in order. */
  method MapNames(xs: seq<string>, f: string -> string) returns (ys: seq<string>)
    ensures |ys| == |xs|
    ensures forall k :: 0 <= k < |xs| ==> ys[k] == f(xs[k])
  {
    ys := [];
    for i := 0 to |xs|
      invariant |ys| == i
      invariant forall k :: 0 <= k < i ==> ys[k] == f(xs[k])
    {
      ys := ys + [f(xs[i])];
    }
  }

  /** The loop `for jp2_path in jp2_list: tif_list.append(jp2_to_tif(jp2_path, save))`:
      one tif name per jp2 path, in the same order. */
  method ConvertAll(jp2s: seq<string>, save: string) returns (tifs: seq<string>)
    ensures |tifs| == |jp2s|
    ensures forall k :: 0 <= k < |jp2s| ==> tifs[k] == TifNameFor(jp2s[k], save)
  {
    tifs := MapNames(jp2s, p => TifNameFor(p, save));
  }

  lemma NoSepStem(id: string, code: string, res: string)
    requires NoSep(id) && NoSep(code) && NoSep(res)
    ensures NoSep(BandStem(id, code, res))
  {
    assert NoSep("_");
    NoSepConcat(id, "_");
    NoSepConcat(id + "_", code);
    NoSepConcat(id + "_" + code, "_");
    NoSepConcat(id + "_" + code + "_", res);
  }

  /** A converted band keeps its stem: `<save>\\<id>_<code>_<res>.tif`. */
  lemma TifOfBand(imgData: string, id: string, res: string, code: string, save: string)
    requires NoSep(id) && NoSep(code) && NoSep(res)
    ensures TifNameFor(Jp2Path(imgData, id, res, code), save) == Join(save, BandStem(id, code, res)) + ".tif"
  {
    var dir := imgData + [Sep] + "R" + res + "\\";
    assert dir[|dir| - 1] == '\\';
    NoSepStem(id, code, res);
    assert Jp2Path(imgData, id, res, code) == dir + BandStem(id, code, res) + ".jp2";
    Jp2ToTifNaming(dir, BandStem(id, code, res), save);
  }

  /** `tif_10m_save_path + os.sep + os.path.basename(tif_path)[:-7] + "10m.tif"`. */
  function ResampledName(save10: string, tif: string): string {
    save10 + [Sep] + Slice(Basename(tif), 0, -7) + "10m.tif"
  }

  /** The loop over `tif_20m_list`: each 20 m tif is resampled onto the grid
      of the reference, in list order. A job is (source, destination). */
  method ResampleJobs(tifs20: seq<string>, save10: string) returns (jobs: seq<(string, string)>)
    ensures |jobs| == |tifs20|
    ensures forall k :: 0 <= k < |tifs20| ==> jobs[k] == (tifs20[k], ResampledName(save10, tifs20[k]))
  {
    jobs := [];
    for i := 0 to |tifs20|
      invariant |jobs| == i
      invariant forall k :: 0 <= k < i ==> jobs[k] == (tifs20[k], ResampledName(save10, tifs20[k]))
    {
      var fileName := Slice(Basename(tifs20[i]), 0, -7);
      jobs := jobs + [(tifs20[i], save10 + [Sep] + fileName + "10m.tif")];
    }
  }

  lemma CutResolution(id: string, code: string)
    ensures Slice(BandStem(id, code, "20m") + ".tif", 0, -7) == id + "_" + code + "_"
  {
    var head := id + "_" + code + "_";
    var name := BandStem(id, code, "20m") + ".tif";
    assert name == head + "20m.tif";
    assert name[..|name| - 7] == head;
  }

  /** The file name of a converted 20 m band, less its last seven characters. */
  lemma ConvertedStem(save20: string, id: string, code: string)
    requires NoSep(id) && NoSep(code)
    ensures Slice(Basename(Join(save20, BandStem(id, code, "20m")) + ".tif"), 0, -7) == id + "_" + code + "_"
  {
    assert NoSep("20m") && NoSep(".tif");
    NoSepStem(id, code, "20m");
    BasenameAppend(Join(save20, BandStem(id, code, "20m")), ".tif");
    CutResolution(id, code);
  }

  /** A converted 20 m band is resampled to `<save10>\\<id>_<code>_10m.tif`:
      cutting "20m.tif" and appending "10m.tif" swaps only the resolution. */
  lemma ResampledBandName(save20: string, save10: string, id: string, code: string)
    requires NoSep(id) && NoSep(code)
    ensures ResampledName(save10, Join(save20, BandStem(id, code, "20m")) + ".tif")
            == save10 + [Sep] + BandStem(id, code, "10m") + ".tif"
  {
    ConvertedStem(save20, id, code);
    SwapResolution(save10 + [Sep], id, code);
  }

  lemma SwapResolution(dir: string, id: string, code: string)
    ensures dir + (id + "_" + code + "_") + "10m.tif" == dir + BandStem(id, code, "10m") + ".tif"
  {
    var head := id + "_" + code + "_";
    assert head + "10m.tif" == BandStem(id, code, "10m") + ".tif";
  }

  /** Whether a listed file belongs to a band: `band_name == tif_name[-11:-8]`. */
  predicate Matches(name: string, code: string): (m: bool)
    ensures m ==> |code| <= 3
    ensures |name| >= 11 ==> (m <==> code == name[|name| - 11..|name| - 8])
  {
    Slice(name, -11, -8) == code
  }

  /** A resampled or converted 10 m band file is picked up under its own code. */
  lemma TenMetreNameMatches(id: string, code: string)
    requires |code| == 3
    ensures Matches(BandStem(id, code, "10m") + ".tif", code)
  {
    var name := BandStem(id, code, "10m") + ".tif";
    assert name == id + "_" + code + "_10m.tif";
    assert |name| >= 11;
    assert name[|name| - 11..|name| - 8] == code;
  }

  /** `p` names an entry of the directory `dir`. */
  predicate InDir(p: string, dir: string) {
    |p| > |dir| && p[..|dir| + 1] == dir + [Sep]
  }

  /** The paths the inner loop appends for one code, in listing order. */
  function Matching(dir: string, code: string, listing: seq<string>): (r: seq<string>)
    ensures |r| <= |listing|
    ensures forall i :: 0 <= i < |r| ==> InDir(r[i], dir)
  {
    if listing == [] then []
    else
      var rest := Matching(dir, code, listing[1..]);
      if Matches(listing[0], code) then [dir + [Sep] + listing[0]] + rest else rest
  }

  /** The paths selected for a code are those of the listed files that match it. */
  lemma {:induction false} MatchingMembers(dir: string, code: string, listing: seq<string>)
    ensures forall p :: p in Matching(dir, code, listing) <==>
              exists name :: name in listing && Matches(name, code) && p == dir + [Sep] + name
    decreases |listing|
  {
    if listing != [] {
      MatchingMembers(dir, code, listing[1..]);
      assert forall name :: name in listing <==> name == listing[0] || name in listing[1..];
    }
  }

  /** The paths the nested loops append: code by code, in `codes` order. */
  function Selection(dir: string, codes: seq<string>, listing: seq<string>): (r: seq<string>)
    ensures forall i :: 0 <= i < |r| ==> InDir(r[i], dir)
    decreases |codes|
  {
    if codes == [] then []
    else
      var first, rest := Matching(dir, codes[0], listing), Selection(dir, codes[1..], listing);
      first + rest
  }

  /** The inner loop of step 4: the listed files matching one code are
      appended, in listing order. */
  method AppendMatching(dir: string, code: string, listing: seq<string>, paths: seq<string>)
    returns (out: seq<string>)
    ensures out == paths + Matching(dir, code, listing)
  {
    out := paths;
    for t := 0 to |listing|
      invariant out + Matching(dir, code, listing[t..]) == paths + Matching(dir, code, listing)
    {
      assert listing[t..][1..] == listing[t + 1..];
      if Matches(listing[t], code) {
        out := out + [dir + [Sep] + listing[t]];
      }
    }
    assert listing[|listing|..] == [];
  }

  /** The band selection loop of step 4: for each code in turn (the script
      passes `StackCodes`), the matching files of the 10 m directory. */
  method SelectBands(dir: string, codes: seq<string>, listing: seq<string>) returns (paths: seq<string>)
    ensures paths == Selection(dir, codes, listing)
  {
    paths := [];
    for c := 0 to |codes|
      invariant paths + Selection(dir, codes[c..], listing) == Selection(dir, codes, listing)
    {
      assert codes[c..][1..] == codes[c + 1..];
      assert Selection(dir, codes[c..], listing) ==
               Matching(dir, codes[c], listing) + Selection(dir, codes[c + 1..], listing);
      paths := AppendMatching(dir, codes[c], listing, paths);
    }
    assert codes[|codes|..] == [];
  }

  /** Exactly the listed files whose slice names a stacked band are selected. */
  lemma {:induction false} SelectionMembers(dir: string, codes: seq<string>, listing: seq<string>, p: string)
    ensures p in Selection(dir, codes, listing) <==>
            exists name :: name in listing && Slice(name, -11, -8) in codes && p == dir + [Sep] + name
    decreases |codes|
  {
    if codes != [] {
      MatchingMembers(dir, codes[0], listing);
      SelectionMembers(dir, codes[1..], listing, p);
      assert forall c :: c in codes <==> c == codes[0] || c in codes[1..];
    }
  }

  /** A band with no file in the listing contributes nothing, and raises nothing. */
  lemma {:induction false} AbsentCodeSelectsNothing(dir: string, code: string, listing: seq<string>)
    requires forall k :: 0 <= k < |listing| ==> !Matches(listing[k], code)
    ensures Matching(dir, code, listing) == []
    decreases |listing|
  {
    if listing != [] {
      AbsentCodeSelectsNothing(dir, code, listing[1..]);
    }
  }

  /** No two listed files belong to the same band. */
  predicate AtMostOneMatch(code: string, listing: seq<string>) {
    forall i, j :: 0 <= i < j < |listing| && Matches(listing[i], code) ==> !Matches(listing[j], code)
  }

  lemma {:induction false} MatchingAtMostOne(dir: string, code: string, listing: seq<string>)
    requires AtMostOneMatch(code, listing)
    ensures |Matching(dir, code, listing)| <= 1
    decreases |listing|
  {
    if listing != [] {
      MatchingAtMostOne(dir, code, listing[1..]);
      if Matches(listing[0], code) {
        AbsentCodeSelectsNothing(dir, code, listing[1..]);
      }
    }
  }

  /** When every band has at most one file, the order of the directory
      listing does not matter: two listings with the same files select the
      same paths in the same order. */
  lemma {:induction false} SelectionIgnoresListingOrder(dir: string, codes: seq<string>, l1: seq<string>, l2: seq<string>)
    requires forall name :: name in l1 <==> name in l2
    requires forall c :: c in codes ==> AtMostOneMatch(c, l1) && AtMostOneMatch(c, l2)
    ensures Selection(dir, codes, l1) == Selection(dir, codes, l2)
    decreases |codes|
  {
    if codes != [] {
      var m1, m2 := Matching(dir, codes[0], l1), Matching(dir, codes[0], l2);
      MatchingAtMostOne(dir, codes[0], l1);
      MatchingAtMostOne(dir, codes[0], l2);
      MatchingMembers(dir, codes[0], l1);
      MatchingMembers(dir, codes[0], l2);
      if m1 != [] {
        assert m1[0] in m1;
        assert m1[0] in m2;
      }
      if m2 != [] {
        assert m2[0] in m2;
        assert m2[0] in m1;
      }
      assert m1 == m2;
      SelectionIgnoresListingOrder(dir, codes[1..], l1, l2);
    }
  }
}
