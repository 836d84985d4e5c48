/** glymur's configuration store (`glymur/options.py`): a module-level
    dictionary of five options, read and written by key, reset to its
    defaults one key at a time or all at once, and the deprecated print and
    parse wrappers around it. The OpenJPEG version string and whether the
    library reports thread support are parameters, since they come from the
    loaded library. */
module GlymurOptions {
  import opened Common

  /** The values the options take: a thread count or a switch. */
  datatype OptValue = IntOpt(n: int) | BoolOpt(b: bool)

  datatype OptError = KeyError(key: string) | RuntimeError(message: string)

  const NumThreads := "lib.num_threads"
  const FullCodestream := "parse.full_codestream"
  const PrintXml := "print.xml"
  const PrintCodestream := "print.codestream"
  const PrintShort := "print.short"

  /** `_original_options`. */
  const Defaults: map<string, OptValue> := map[
    NumThreads := IntOpt(1),
    FullCodestream := BoolOpt(false),
    PrintXml := BoolOpt(true),
    PrintCodestream := BoolOpt(true),
    PrintShort := BoolOpt(false)]

  /** The keyword arguments `set_printoptions` accepts, in `get_printoptions` order. */
  const PrintKeys: seq<string> := ["short", "xml", "codestream"]

  const OldLibraryMessage := "Thread support is not available on versions of OpenJPEG prior to 2.2.0.  Your version is "
  const NoThreadsMessage := "The OpenJPEG library is not configured with thread support."

  // ---------------------------------------------------------------------
  // The version check on `lib.num_threads`

  /** Python's `a < b` on strings: code point by code point, a proper prefix
      being the smaller. */
  predicate StrLess(a: string, b: string): (r: bool)
    ensures a == b ==> !r
    ensures |a| < |b| && a == b[..|a|] ==> r
  {
    if a == [] then b != []
    else if b == [] then false
    else if a[0] != b[0] then a[0] < b[0]
    else StrLess(a[1..], b[1..])
  }

  /** The guard as the code writes it: `openjpeg_version < '2.2.0'`, a
      comparison of strings. */
  predicate TooOldAsWritten(version: string): (r: bool)
    ensures version == "2.2.0" ==> !r
    ensures version != [] && version[0] < '2' ==> r
    ensures version != [] && version[0] > '2' ==> !r
  {
    StrLess(version, "2.2.0")
  }

  predicate IsNumber(p: string) {
    p != [] && forall i :: 0 <= i < |p| ==> '0' <= p[i] <= '9'
  }

  /** The numeric fields of a dotted version string, when every field is a number. */
  function ParseVersion(s: string): (r: Option<seq<nat>>)
    ensures r.Some? ==> |r.value| == |SplitOn(s, '.')|
  {
    var parts := SplitOn(s, '.');
    if forall i :: 0 <= i < |parts| ==> IsNumber(parts[i])
    then Some(seq(|parts|, i requires 0 <= i < |parts| && IsNumber(parts[i]) => DecimalValue(parts[i])))
    else None
  }

  /** Python's `<` on tuples of numbers. */
  predicate FieldsLess(a: seq<nat>, b: seq<nat>) {
    if a == [] then b != []
    else if b == [] then false
    else if a[0] != b[0] then a[0] < b[0]
    else FieldsLess(a[1..], b[1..])
  }

  /** The guard as the documentation states it ("only available with
      OpenJPEG 2.2.0 or higher"): the version, compared field by field as
      numbers, is below 2.2.0; a version that is not dotted numbers is refused. */
  predicate TooOld(version: string): (r: bool)
    ensures ParseVersion(version).None? ==> r
    ensures ParseVersion(version).Some? && ParseVersion(version).value != [] ==>
              (ParseVersion(version).value[0] < 2 ==> r) && (ParseVersion(version).value[0] > 2 ==> !r)
  {
    match ParseVersion(version)
    case None => true
    case Some(fields) => FieldsLess(fields, [2, 2, 0])
  }

  /** The string comparison refuses OpenJPEG 2.10.0, which is newer than
      2.2.0; the numeric comparison accepts it. */
  lemma TenIsNotOlderThanTwo()
    ensures TooOldAsWritten("2.10.0")
    ensures !TooOld("2.10.0")
  {
    SplitNoSep("0", '.');
    SplitAtSep("10", '.', "0");
    SplitAtSep("2", '.', "10.0");
    assert "2" + "." + ("10" + "." + "0") == "2.10.0";
    assert SplitOn("2.10.0", '.') == ["2", "10", "0"];
    assert DecimalValue("10") == 10 by {
      assert "10"[..1] == "1";
    }
  }

  function DigitValue(c: char): nat
    requires '0' <= c <= '9'
  {
    c as int - '0' as int
  }

  lemma ParseOneDigitVersion(a: char, b: char, c: char)
    requires '0' <= a <= '9' && '0' <= b <= '9' && '0' <= c <= '9'
    ensures ParseVersion([a, '.', b, '.', c]) == Some([DigitValue(a), DigitValue(b), DigitValue(c)])
  {
    var v := [a, '.', b, '.', c];
    SplitNoSep([c], '.');
    SplitAtSep([b], '.', [c]);
    SplitAtSep([a], '.', [b] + "." + [c]);
    assert [a] + "." + ([b] + "." + [c]) == v;
    var parts := SplitOn(v, '.');
    assert parts == [[a], [b], [c]];
    assert IsNumber(parts[0]) && IsNumber(parts[1]) && IsNumber(parts[2]);
    var fields := ParseVersion(v).value;
    assert |fields| == 3;
    assert fields[0] == DecimalValue([a]) == DigitValue(a);
    assert fields[1] == DecimalValue([b]) == DigitValue(b);
    assert fields[2] == DecimalValue([c]) == DigitValue(c);
    assert fields == [DigitValue(a), DigitValue(b), DigitValue(c)];
  }

  lemma CompareOneDigitVersion(a: char, b: char, c: char)
    requires '0' <= a <= '9' && '0' <= b <= '9' && '0' <= c <= '9'
    ensures StrLess([a, '.', b, '.', c], "2.2.0") == FieldsLess([DigitValue(a), DigitValue(b), DigitValue(c)], [2, 2, 0])
  {
    var v := [a, '.', b, '.', c];
    var lib := "2.2.0";
    var fields := [DigitValue(a), DigitValue(b), DigitValue(c)];
    assert StrLess(v, lib) == if a != '2' then a < '2' else StrLess(v[1..], lib[1..]);
    assert v[1..][1..] == [b, '.', c] && lib[1..][1..] == "2.0";
    assert StrLess(v[1..], lib[1..]) == StrLess([b, '.', c], "2.0");
    assert StrLess([b, '.', c], "2.0") == if b != '2' then b < '2' else StrLess(['.', c], ".0");
    assert ['.', c][1..] == [c] && ".0"[1..] == "0";
    assert StrLess(['.', c], ".0") == StrLess([c], "0");
    assert [c][1..] == [] && "0"[1..] == [];
    assert StrLess([c], "0") == (c < '0');
    assert FieldsLess(fields, [2, 2, 0]) == if fields[0] != 2 then fields[0] < 2 else FieldsLess(fields[1..], [2, 0]);
    assert fields[1..][1..] == [fields[2]] && [2, 2, 0][1..] == [2, 0] && [2, 0][1..] == [0];
    assert FieldsLess(fields[1..], [2, 0]) == if fields[1] != 2 then fields[1] < 2 else FieldsLess([fields[2]], [0]);
    assert FieldsLess([fields[2]], [0]) == (fields[2] < 0);
  }

  /** On versions of three one-digit fields the two comparisons agree. */
  lemma OneDigitVersionsAgree(a: char, b: char, c: char)
    requires '0' <= a <= '9' && '0' <= b <= '9' && '0' <= c <= '9'
    ensures TooOld([a, '.', b, '.', c]) == TooOldAsWritten([a, '.', b, '.', c])
  {
    ParseOneDigitVersion(a, b, c);
    CompareOneDigitVersion(a, b, c);
  }

  // ---------------------------------------------------------------------
  // The store as values

  /** The three print keywords name the three `print.*` options. */
  lemma PrintKeyIsOption(k: string)
    requires k in PrintKeys
    ensures "print." + k in Defaults && "print." + k != NumThreads
  {
    if k == "short" {
      assert "print." + k == PrintShort;
    } else if k == "xml" {
      assert "print." + k == PrintXml;
    } else {
      assert "print." + k == PrintCodestream;
    }
  }

  /** `set_option(key, value)` on the dictionary `o`: unknown keys and the
      thread count on an unsuitable library are refused. */
  function SetOutcome(o: map<string, OptValue>, key: string, value: OptValue,
                      version: string, threads: bool): (r: Result<map<string, OptValue>, OptError>)
    ensures r.Err? ==> (r.error.KeyError? <==> key !in o)
    ensures r.Err? && key in o ==> key == NumThreads
    ensures r.Ok? ==> key in o && r.value.Keys == o.Keys && r.value[key] == value
  {
    if key !in o then Err(KeyError(key))
    else if key == NumThreads && TooOld(version) then Err(RuntimeError(OldLibraryMessage + version + "."))
    else if key == NumThreads && !threads then Err(RuntimeError(NoThreadsMessage))
    else Ok(o[key := value])
  }

  /** A successful `set_option` changes exactly its key, which then reads back. */
  lemma SetThenGet(o: map<string, OptValue>, key: string, value: OptValue, version: string, threads: bool)
    requires SetOutcome(o, key, value, version, threads).Ok?
    ensures var o' := SetOutcome(o, key, value, version, threads).value;
      o'.Keys == o.Keys && o'[key] == value &&
      forall k :: k in o && k != key ==> o'[k] == o[k]
  {
  }

  /** `set_option` fails exactly on an unknown key, or on the thread count
      with an old library or one without thread support. */
  lemma SetOutcomeFails(o: map<string, OptValue>, key: string, value: OptValue, version: string, threads: bool)
    ensures SetOutcome(o, key, value, version, threads).Err? <==>
      key !in o || (key == NumThreads && (TooOld(version) || !threads))
    ensures SetOutcome(o, key, value, version, threads) == Err(KeyError(key)) <==> key !in o
  {
  }

  /** `reset_option(key)` on the dictionary `o`. */
  function ResetOutcome(o: map<string, OptValue>, key: string): (r: Result<map<string, OptValue>, OptError>)
    requires o.Keys == Defaults.Keys
    ensures r.Err? <==> key != "all" && key !in Defaults
    ensures r.Ok? ==> r.value.Keys == Defaults.Keys
    ensures r.Ok? && key != "all" ==>
              r.value[key] == Defaults[key] && forall k :: k in o && k != key ==> r.value[k] == o[k]
  {
    if key == "all" then Ok(Defaults)
    else if key !in o then Err(KeyError(key))
    else Ok(o[key := Defaults[key]])
  }

  /** Resetting a key after setting it gives back the dictionary with only
      that key at its default, and `reset_option('all')` forgets every set. */
  lemma ResetUndoesSet(o: map<string, OptValue>, key: string, value: OptValue, version: string, threads: bool)
    requires o.Keys == Defaults.Keys
    requires SetOutcome(o, key, value, version, threads).Ok?
    ensures SetOutcome(o, key, value, version, threads).value.Keys == Defaults.Keys
    ensures ResetOutcome(SetOutcome(o, key, value, version, threads).value, key) == Ok(o[key := Defaults[key]])
    ensures ResetOutcome(SetOutcome(o, key, value, version, threads).value, "all") == Ok(Defaults)
  {
    assert "all" !in Defaults;
    assert key != "all";
    assert o[key := value][key := Defaults[key]] == o[key := Defaults[key]];
  }

  /** Resetting a key twice is resetting it once. */
  lemma ResetIdempotent(o: map<string, OptValue>, key: string)
    requires o.Keys == Defaults.Keys && ResetOutcome(o, key).Ok?
    ensures ResetOutcome(o, key).value.Keys == Defaults.Keys
    ensures ResetOutcome(ResetOutcome(o, key).value, key) == ResetOutcome(o, key)
  {
    if key != "all" {
      assert o[key := Defaults[key]][key := Defaults[key]] == o[key := Defaults[key]];
    }
  }

  /** `set_printoptions(**kwargs)` on `o`: the keyword arguments are applied
      in order and the first unknown one raises, after the ones before it
      have been applied. */
  function PrintOutcome(o: map<string, OptValue>, kwargs: seq<(string, OptValue)>):
    (r: (map<string, OptValue>, Option<OptError>))
    requires o.Keys == Defaults.Keys
    ensures r.0.Keys == Defaults.Keys
  {
    if kwargs == [] then (o, None)
    else if kwargs[0].0 !in PrintKeys then (o, Some(KeyError(kwargs[0].0)))
    else
      PrintKeyIsOption(kwargs[0].0);
      PrintOutcome(o["print." + kwargs[0].0 := kwargs[0].1], kwargs[1..])
  }

  /** Every argument names a print option: all of them are applied. */
  lemma {:induction false} PrintAllValid(o: map<string, OptValue>, kwargs: seq<(string, OptValue)>)
    requires o.Keys == Defaults.Keys
    requires forall i :: 0 <= i < |kwargs| ==> kwargs[i].0 in PrintKeys
    ensures PrintOutcome(o, kwargs).1 == None
    ensures forall k :: k in o && k[..6] != "print." ==> PrintOutcome(o, kwargs).0[k] == o[k]
  {
    if kwargs != [] {
      PrintKeyIsOption(kwargs[0].0);
      PrintAllValid(o["print." + kwargs[0].0 := kwargs[0].1], kwargs[1..]);
    }
  }

  /** The update is not atomic: a valid argument before an invalid one
      stays applied although the call raises. */
  lemma PrintNotAtomic(o: map<string, OptValue>, v: OptValue, bad: string, w: OptValue)
    requires o.Keys == Defaults.Keys && bad !in PrintKeys
    ensures PrintOutcome(o, [("xml", v), (bad, w)]) == (o[PrintXml := v], Some(KeyError(bad)))
  {
    assert [("xml", v), (bad, w)][1..] == [(bad, w)];
    assert "print." + "xml" == PrintXml;
  }

  /** An invalid first argument changes nothing. */
  lemma PrintBadFirstChangesNothing(o: map<string, OptValue>, kwargs: seq<(string, OptValue)>)
    requires o.Keys == Defaults.Keys && kwargs != [] && kwargs[0].0 !in PrintKeys
    ensures PrintOutcome(o, kwargs) == (o, Some(KeyError(kwargs[0].0)))
  {
  }

  // ---------------------------------------------------------------------
  // The module state

  /** The module-level `_options` dictionary and the functions that use it. */
  class OptionStore {
    var options: map<string, OptValue>

    predicate Valid()
      reads this
    {
      options.Keys == Defaults.Keys
    }

    /** `_options = copy.deepcopy(_original_options)` at import. */
    constructor ()
      ensures options == Defaults && Valid()
    {
      options := Defaults;
    }

    method SetOption(key: string, value: OptValue, version: string, threads: bool) returns (r: Result<(), OptError>)
      requires Valid()
      modifies this
      ensures Valid()
      ensures SetOutcome(old(options), key, value, version, threads) ==
                (if r.Ok? then Ok(options) else Err(r.error))
      ensures r.Err? ==> options == old(options)
    {
      if key !in options {
        return Err(KeyError(key));
      }
      if key == NumThreads {
        if TooOld(version) {
          return Err(RuntimeError(OldLibraryMessage + version + "."));
        }
        if !threads {
          return Err(RuntimeError(NoThreadsMessage));
        }
      }
      options := options[key := value];
      return Ok(());
    }

    /** `get_option(key)`: an unknown key raises `KeyError`. */
    method GetOption(key: string) returns (r: Result<OptValue, OptError>)
      ensures key in options ==> r == Ok(options[key])
      ensures key !in options ==> r == Err(KeyError(key))
    {
      if key in options {
        return Ok(options[key]);
      }
      return Err(KeyError(key));
    }

    method ResetOption(key: string) returns (r: Result<(), OptError>)
      requires Valid()
      modifies this
      ensures Valid()
      ensures ResetOutcome(old(options), key) == (if r.Ok? then Ok(options) else Err(r.error))
      ensures r.Err? ==> options == old(options)
    {
      if key == "all" {
        options := Defaults;
        return Ok(());
      }
      if key !in options {
        return Err(KeyError(key));
      }
      options := options[key := Defaults[key]];
      return Ok(());
    }

    /** `set_parseoptions(full_codestream=True)`. Python's default argument
        is `true`, so `set_parseoptions()` is `SetParseOptions(true, …)`. */
    method SetParseOptions(fullCodestream: bool, version: string, threads: bool) returns (r: Result<(), OptError>)
      requires Valid()
      modifies this
      ensures Valid() && r.Ok?
      ensures options == old(options)[FullCodestream := BoolOpt(fullCodestream)]
    {
      r := SetOption(FullCodestream, BoolOpt(fullCodestream), version, threads);
    }

    /** `get_parseoptions()`. */
    method GetParseOptions() returns (d: map<string, OptValue>)
      requires Valid()
      ensures d == map["full_codestream" := options[FullCodestream]]
    {
      d := map["full_codestream" := options[FullCodestream]];
    }

    /** `set_printoptions(**kwargs)`: one `set_option('print.' + key, …)` per
        keyword argument, in order, until one is not a print option. */
    method SetPrintOptions(kwargs: seq<(string, OptValue)>, version: string, threads: bool) returns (r: Result<(), OptError>)
      requires Valid()
      modifies this
      ensures Valid()
      ensures PrintOutcome(old(options), kwargs) ==
                (options, if r.Ok? then None else Some(r.error))
    {
      for i := 0 to |kwargs|
        invariant Valid()
        invariant PrintOutcome(old(options), kwargs) == PrintOutcome(options, kwargs[i..])
      {
        var (key, value) := kwargs[i];
        if key !in PrintKeys {
          return Err(KeyError(key));
        }
        PrintKeyIsOption(key);
        var res := SetOption("print." + key, value, version, threads);
        assert kwargs[i..][1..] == kwargs[i + 1..];
      }
      return Ok(());
    }

    /** `get_printoptions()`: the three print options under their short names. */
    method GetPrintOptions() returns (d: map<string, OptValue>)
      requires Valid()
      ensures d == map["short" := options[PrintShort], "xml" := options[PrintXml],
                       "codestream" := options[PrintCodestream]]
    {
      d := map[];
      for i := 0 to |PrintKeys|
        invariant forall k :: k in d ==> exists j :: 0 <= j < i && k == PrintKeys[j]
        invariant forall j :: 0 <= j < i ==>
          PrintKeys[j] in d && "print." + PrintKeys[j] in options && d[PrintKeys[j]] == options["print." + PrintKeys[j]]
      {
        var key := PrintKeys[i];
        PrintKeyIsOption(key);
        d := d[key := options["print." + key]];
      }
      assert "print." + "short" == PrintShort && "print." + "xml" == PrintXml;
      assert "print." + "codestream" == PrintCodestream;
      assert PrintKeys[0] in d && PrintKeys[1] in d && PrintKeys[2] in d;
    }
  }
}
