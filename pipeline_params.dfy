/** Step 0 of `s2_l2a_process` and `s2_l1c_process`: reading the fifteen
    entries of the parameter dictionary, rejecting missing input and output
    paths, and replacing `None` flags by their defaults. The two product
    levels read the same keys but default different flags. */
module PipelineParams {
  import opened Common

  /** The Python values a parameter can hold, as far as the pipeline looks at them. */
  datatype PyValue = PyNone | PyBool(b: bool) | PyInt(i: int) | PyStr(s: string)

  /** Python truthiness, which is what `if QUICK_IMG:` and `if CAL_NDVI:` test. */
  predicate Truthy(v: PyValue) {
    match v
    case PyNone => false
    case PyBool(b) => b
    case PyInt(i) => i != 0
    case PyStr(s) => s != ""
  }

  datatype Level = L2A | L1C

  /** The fifteen parameter names the pipeline reads (other entries of the
      dictionary are never looked at). */
  datatype Key =
    | INPUT_PATH | OUTPUT_PATH | QUICK_IMG | REPROJECT | CRS | CLIP_TO_SHP | SHP_FILE_PATH
    | CAL_NDVI | CAL_NDRE | CAL_OSAVI | CAL_LCI | CAL_GNDVI | CAL_RECI | CAL_NDMI | CAL_NDWI

  /** The keys in the order both functions read them. */
  const ParamKeys: seq<Key> := [
    INPUT_PATH, OUTPUT_PATH, QUICK_IMG, REPROJECT, CRS, CLIP_TO_SHP, SHP_FILE_PATH,
    CAL_NDVI, CAL_NDRE, CAL_OSAVI, CAL_LCI, CAL_GNDVI, CAL_RECI, CAL_NDMI, CAL_NDWI]

  /** Position of the first index flag in `ParamKeys`; the eight flags follow
      in the order ndvi, ndre, osavi, lci, gndvi, reci, ndmi, ndwi. */
  const FirstCal: nat := 7

  const InputPathMessage: string := "ERROR!!! Parameter INPUT_PATH not correctly defined"
  const OutputPathMessage: string := "ERROR!!! Parameter OUTPUT_PATH not correctly defined"

  datatype ParamError =
    | KeyError(key: Key)        // params[key] on a missing key
    | ValueError(message: string)  // the explicit checks of the two paths
    | TypeError                    // OUTPUT_PATH + os.sep on a non-string

  /** The parameters once checked and defaulted; `cal` holds the eight index
      flags in `ParamKeys` order. */
  datatype Settings = Settings(
    inputPath: PyValue, outputPath: string, quick: PyValue, reproject: PyValue, crs: PyValue,
    clip: PyValue, shpPath: PyValue, cal: seq<PyValue>)

  /** The flags each level replaces when they are `None`: L2A all of
      `QUICK_IMG`, `CLIP_TO_SHP` and the eight index flags, L1C only
      `QUICK_IMG`, `CLIP_TO_SHP`, `CAL_NDVI` and `CAL_NDWI`. */
  predicate DefaultedFor(level: Level, key: Key) {
    match key
    case QUICK_IMG | CLIP_TO_SHP | CAL_NDVI | CAL_NDWI => true
    case CAL_NDRE | CAL_OSAVI | CAL_LCI | CAL_GNDVI | CAL_RECI | CAL_NDMI => level == L2A
    case INPUT_PATH | OUTPUT_PATH | REPROJECT | CRS | SHP_FILE_PATH => false
  }

  /** The value a flag has after defaulting: `QUICK_IMG` defaults to True, the
      other defaulted flags to False. */
  function Defaulted(level: Level, key: Key, v: PyValue): (r: PyValue)
    ensures v != PyNone ==> r == v
    ensures r == PyNone <==> v == PyNone && !DefaultedFor(level, key)
  {
    if v == PyNone && DefaultedFor(level, key) then PyBool(key == QUICK_IMG) else v
  }

  /** The position of the first key of `ParamKeys[i..]` missing from the
      dictionary, or `|ParamKeys|` when none is. */
  function FirstMissing(params: map<Key, PyValue>, i: nat): (m: nat)
    requires i <= |ParamKeys|
    ensures i <= m <= |ParamKeys|
    ensures forall k :: i <= k < m ==> ParamKeys[k] in params
    ensures m < |ParamKeys| ==> ParamKeys[m] !in params
    decreases |ParamKeys| - i
  {
    if i == |ParamKeys| || ParamKeys[i] !in params then i else FirstMissing(params, i + 1)
  }

  predicate AllKeysPresent(params: map<Key, PyValue>) {
    forall k :: 0 <= k < |ParamKeys| ==> ParamKeys[k] in params
  }

  /** The fifteen `params[...]` reads, in order: the first missing key raises. */
  method ReadParams(params: map<Key, PyValue>) returns (r: Result<seq<PyValue>, ParamError>)
    ensures r.Ok? <==> AllKeysPresent(params)
    ensures r.Err? ==> r.error == KeyError(ParamKeys[FirstMissing(params, 0)])
    ensures r.Ok? ==> |r.value| == |ParamKeys| &&
                      forall k :: 0 <= k < |ParamKeys| ==> r.value[k] == params[ParamKeys[k]]
  {
    var values: seq<PyValue> := [];
    for i := 0 to |ParamKeys|
      invariant |values| == i
      invariant forall k :: 0 <= k < i ==> ParamKeys[k] in params && values[k] == params[ParamKeys[k]]
      invariant FirstMissing(params, 0) == FirstMissing(params, i)
    {
      if ParamKeys[i] !in params {
        return Err(KeyError(ParamKeys[i]));
      }
      values := values + [params[ParamKeys[i]]];
    }
    return Ok(values);
  }

  function Param(params: map<Key, PyValue>, k: nat): PyValue
    requires AllKeysPresent(params) && k < |ParamKeys|
  {
    params[ParamKeys[k]]
  }

  /** What either function leaves in a parameter's local once step 0 is done. */
  function SettingFor(level: Level, params: map<Key, PyValue>, k: nat): PyValue
    requires AllKeysPresent(params) && k < |ParamKeys|
  {
    Defaulted(level, ParamKeys[k], params[ParamKeys[k]])
  }

  /** The outcome step 0 promises: the first missing key, then a `None`
      input path, then a `None` output path, then a non-string output path. */
  predicate CheckedAs(level: Level, params: map<Key, PyValue>, r: Result<Settings, ParamError>): (b: bool)
    ensures b ==> (r.Ok? <==> AllKeysPresent(params) && Param(params, 0) != PyNone && Param(params, 1).PyStr?)
    ensures b && r.Ok? ==> r.value.quick != PyNone && r.value.clip != PyNone && |r.value.cal| == 8
  {
    if !AllKeysPresent(params) then r == Err(KeyError(ParamKeys[FirstMissing(params, 0)]))
    else if Param(params, 0) == PyNone then r == Err(ValueError(InputPathMessage))
    else if Param(params, 1) == PyNone then r == Err(ValueError(OutputPathMessage))
    else if !Param(params, 1).PyStr? then r == Err(TypeError)
    else
      r.Ok? &&
      r.value.inputPath == Param(params, 0) &&
      r.value.outputPath == Param(params, 1).s &&
      r.value.quick == SettingFor(level, params, 2) &&
      r.value.reproject == Param(params, 3) &&
      r.value.crs == Param(params, 4) &&
      r.value.clip == SettingFor(level, params, 5) &&
      r.value.shpPath == Param(params, 6) &&
      |r.value.cal| == 8 &&
      forall j :: 0 <= j < 8 ==> r.value.cal[j] == SettingFor(level, params, FirstCal + j)
  }

  /** The eight index flags after defaulting, in `ParamKeys` order. */
  function CalFlags(level: Level, v: seq<PyValue>): (cal: seq<PyValue>)
    requires |v| == |ParamKeys|
    ensures |cal| == 8
  {
    [Defaulted(level, CAL_NDVI, v[7]), Defaulted(level, CAL_NDRE, v[8]),
     Defaulted(level, CAL_OSAVI, v[9]), Defaulted(level, CAL_LCI, v[10]),
     Defaulted(level, CAL_GNDVI, v[11]), Defaulted(level, CAL_RECI, v[12]),
     Defaulted(level, CAL_NDMI, v[13]), Defaulted(level, CAL_NDWI, v[14])]
  }

  /** The settings step 0 builds from the fifteen values read. */
  function Expected(level: Level, v: seq<PyValue>): Settings
    requires |v| == |ParamKeys|
  {
    Settings(v[0], if v[1].PyStr? then v[1].s else "", Defaulted(level, QUICK_IMG, v[2]), v[3], v[4], Defaulted(level, CLIP_TO_SHP, v[5]), v[6],
             CalFlags(level, v))
  }

  lemma ExpectedIsChecked(level: Level, params: map<Key, PyValue>, v: seq<PyValue>)
    requires AllKeysPresent(params) && |v| == |ParamKeys|
    requires forall k :: 0 <= k < |ParamKeys| ==> v[k] == params[ParamKeys[k]]
    requires v[0] != PyNone && v[1].PyStr?
    ensures forall s :: s == Expected(level, v) ==> CheckedAs(level, params, Ok(s))
  {
    var s := Expected(level, v);
    forall j | 0 <= j < 8 ensures s.cal[j] == SettingFor(level, params, FirstCal + j) {
      assert v[FirstCal + j] == params[ParamKeys[FirstCal + j]];
    }
  }

  /** The defaulting statements of `s2_l2a_process`. */
  method ApplyL2aDefaults(v: seq<PyValue>) returns (quick: PyValue, clip: PyValue, cal: seq<PyValue>)
    requires |v| == |ParamKeys|
    ensures quick == Defaulted(L2A, QUICK_IMG, v[2]) && clip == Defaulted(L2A, CLIP_TO_SHP, v[5])
    ensures cal == [Defaulted(L2A, CAL_NDVI, v[7]), Defaulted(L2A, CAL_NDRE, v[8]),
                    Defaulted(L2A, CAL_OSAVI, v[9]), Defaulted(L2A, CAL_LCI, v[10]),
                    Defaulted(L2A, CAL_GNDVI, v[11]), Defaulted(L2A, CAL_RECI, v[12]),
                    Defaulted(L2A, CAL_NDMI, v[13]), Defaulted(L2A, CAL_NDWI, v[14])]
  {
    quick, clip := v[2], v[5];
    var ndvi, ndre, osavi, lci, gndvi, reci, ndmi, ndwi := v[7], v[8], v[9], v[10], v[11], v[12], v[13], v[14];
    if quick == PyNone { quick := PyBool(true); }
    assert quick == Defaulted(L2A, QUICK_IMG, v[2]);
    if clip == PyNone { clip := PyBool(false); }
    assert clip == Defaulted(L2A, CLIP_TO_SHP, v[5]);
    if ndvi == PyNone { ndvi := PyBool(false); }
    assert ndvi == Defaulted(L2A, CAL_NDVI, v[7]);
    if ndre == PyNone { ndre := PyBool(false); }
    assert ndre == Defaulted(L2A, CAL_NDRE, v[8]);
    if osavi == PyNone { osavi := PyBool(false); }
    assert osavi == Defaulted(L2A, CAL_OSAVI, v[9]);
    if lci == PyNone { lci := PyBool(false); }
    assert lci == Defaulted(L2A, CAL_LCI, v[10]);
    if gndvi == PyNone { gndvi := PyBool(false); }
    assert gndvi == Defaulted(L2A, CAL_GNDVI, v[11]);
    if reci == PyNone { reci := PyBool(false); }
    assert reci == Defaulted(L2A, CAL_RECI, v[12]);
    if ndmi == PyNone { ndmi := PyBool(false); }
    assert ndmi == Defaulted(L2A, CAL_NDMI, v[13]);
    if ndwi == PyNone { ndwi := PyBool(false); }
    assert ndwi == Defaulted(L2A, CAL_NDWI, v[14]);
    cal := [ndvi, ndre, osavi, lci, gndvi, reci, ndmi, ndwi];
  }

  /** Step 0 of `s2_l2a_process`: a missing key raises KeyError, a `None`
      input or output path raises ValueError, and `QUICK_IMG`, `CLIP_TO_SHP`
      and all eight index flags are defaulted. */
  method CheckL2aParams(params: map<Key, PyValue>) returns (r: Result<Settings, ParamError>)
    ensures CheckedAs(L2A, params, r)
  {
    var read := ReadParams(params);
    if read.Err? {
      return Err(read.error);
    }
    var v := read.value;
    if v[0] == PyNone {
      return Err(ValueError(InputPathMessage));
    }
    if v[1] == PyNone {
      return Err(ValueError(OutputPathMessage));
    }
    var quick, clip, cal := ApplyL2aDefaults(v);
    if !v[1].PyStr? {
      return Err(TypeError);
    }
    r := Ok(Settings(v[0], v[1].s, quick, v[3], v[4], clip, v[6], cal));
    ExpectedIsChecked(L2A, params, v);
  }

  /** The defaulting statements of `s2_l1c_process`. */
  method ApplyL1cDefaults(v: seq<PyValue>) returns (quick: PyValue, clip: PyValue, cal: seq<PyValue>)
    requires |v| == |ParamKeys|
    ensures quick == Defaulted(L1C, QUICK_IMG, v[2]) && clip == Defaulted(L1C, CLIP_TO_SHP, v[5])
    ensures cal == [Defaulted(L1C, CAL_NDVI, v[7]), Defaulted(L1C, CAL_NDRE, v[8]),
                    Defaulted(L1C, CAL_OSAVI, v[9]), Defaulted(L1C, CAL_LCI, v[10]),
                    Defaulted(L1C, CAL_GNDVI, v[11]), Defaulted(L1C, CAL_RECI, v[12]),
                    Defaulted(L1C, CAL_NDMI, v[13]), Defaulted(L1C, CAL_NDWI, v[14])]
  {
    quick, clip := v[2], v[5];
    var ndvi, ndre, osavi, lci, gndvi, reci, ndmi, ndwi := v[7], v[8], v[9], v[10], v[11], v[12], v[13], v[14];
    if quick == PyNone { quick := PyBool(true); }
    assert quick == Defaulted(L1C, QUICK_IMG, v[2]);
    if clip == PyNone { clip := PyBool(false); }
    assert clip == Defaulted(L1C, CLIP_TO_SHP, v[5]);
    if ndvi == PyNone { ndvi := PyBool(false); }
    assert ndvi == Defaulted(L1C, CAL_NDVI, v[7]);
    if ndwi == PyNone { ndwi := PyBool(false); }
    assert ndwi == Defaulted(L1C, CAL_NDWI, v[14]);
    cal := [ndvi, ndre, osavi, lci, gndvi, reci, ndmi, ndwi];
  }

  /** Step 0 of `s2_l1c_process`: the same checks, but only `QUICK_IMG`,
      `CLIP_TO_SHP`, `CAL_NDVI` and `CAL_NDWI` are defaulted; the other six
      index flags may stay `None`. */
  method CheckL1cParams(params: map<Key, PyValue>) returns (r: Result<Settings, ParamError>)
    ensures CheckedAs(L1C, params, r)
  {
    var read := ReadParams(params);
    if read.Err? {
      return Err(read.error);
    }
    var v := read.value;
    if v[0] == PyNone {
      return Err(ValueError(InputPathMessage));
    }
    if v[1] == PyNone {
      return Err(ValueError(OutputPathMessage));
    }
    var quick, clip, cal := ApplyL1cDefaults(v);
    if !v[1].PyStr? {
      return Err(TypeError);
    }
    r := Ok(Settings(v[0], v[1].s, quick, v[3], v[4], clip, v[6], cal));
    ExpectedIsChecked(L1C, params, v);
  }

  /** The narrower L1C defaulting never changes what the pipeline does: a flag
      left `None` is falsy exactly like the False that L2A puts there. */
  lemma LevelsAgreeOnFlags(params: map<Key, PyValue>, k: nat)
    requires AllKeysPresent(params) && k < |ParamKeys|
    ensures Truthy(SettingFor(L1C, params, k)) == Truthy(SettingFor(L2A, params, k))
  {
    var key, v := ParamKeys[k], params[ParamKeys[k]];
    if v == PyNone && key != QUICK_IMG {
      assert !Truthy(Defaulted(L1C, key, v)) && !Truthy(Defaulted(L2A, key, v));
    }
  }

  /** But the values differ: under L1C a `None` NDRE flag stays `None`. */
  lemma L1cKeepsNoneFlags(params: map<Key, PyValue>)
    requires AllKeysPresent(params) && Param(params, FirstCal + 1) == PyNone
    ensures SettingFor(L1C, params, FirstCal + 1) == PyNone
    ensures SettingFor(L2A, params, FirstCal + 1) == PyBool(false)
  {
  }

  /** `REPROJECT` is never defaulted, so a `None` there simply disables the branch. */
  lemma ReprojectNeverDefaulted(level: Level, v: PyValue)
    ensures Defaulted(level, REPROJECT, v) == v
  {
  }
}
