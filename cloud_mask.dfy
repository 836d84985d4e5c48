/** The cloud-mask filter of `helper.py`: `delete_shp_feature` removes every
    polygon of the Sen2Cor classification shapefile whose `value` field
    equals a class, and `remove_cloud_shp` applies it to the classes 0 (no
    data), 8 (cloud, medium probability) and 9 (cloud, high probability).

    A shapefile layer is its record table: the record at position i has
    feature id i; deleting a feature only marks its record, and `REPACK`
    drops the marked records, which renumbers the survivors. Polygons are
    abstract handles. */
module CloudMask {
  import opened Common

  /** One polygon of the classification layer and its class value. */
  datatype Feature = Feature(value: int, polygon: nat)

  /** The features a record table still holds, in id order. */
  function Live(records: seq<Option<Feature>>): (fs: seq<Feature>)
    ensures |fs| <= |records|
    ensures forall f :: f in fs <==> Some(f) in records
  {
    if records == [] then []
    else
      var rest := Live(records[1..]);
      assert forall f :: Some(f) in records <==> records[0] == Some(f) || Some(f) in records[1..];
      if records[0].Some? then [records[0].value] + rest else rest
  }

  /** The record table of a freshly repacked layer: every record live, ids 0..n-1. */
  function Packed(fs: seq<Feature>): (records: seq<Option<Feature>>)
    ensures |records| == |fs|
    ensures forall i :: 0 <= i < |fs| ==> records[i] == Some(fs[i])
  {
    seq(|fs|, i requires 0 <= i < |fs| => Some(fs[i]))
  }

  lemma {:induction false} LivePacked(fs: seq<Feature>)
    ensures Live(Packed(fs)) == fs
    decreases |fs|
  {
    if fs != [] {
      assert Packed(fs)[1..] == Packed(fs[1..]);
      LivePacked(fs[1..]);
    }
  }

  /** The features that survive deleting class v, in their original order. */
  function Drop(fs: seq<Feature>, v: int): (r: seq<Feature>)
    ensures |r| <= |fs|
    ensures forall f :: f in r ==> f in fs && f.value != v
  {
    if fs == [] then []
    else if fs[0].value == v then Drop(fs[1..], v)
    else [fs[0]] + Drop(fs[1..], v)
  }

  /** Exactly the features of another class survive, whatever their order. */
  lemma {:induction false} DropKeepsOthers(fs: seq<Feature>, v: int)
    ensures forall f :: f in Drop(fs, v) <==> f in fs && f.value != v
    decreases |fs|
  {
    if fs != [] {
      DropKeepsOthers(fs[1..], v);
      assert forall f :: f in fs <==> f == fs[0] || f in fs[1..];
    }
  }

  /** A class no feature has deletes nothing. */
  lemma {:induction false} DropAbsentClass(fs: seq<Feature>, v: int)
    requires forall i :: 0 <= i < |fs| ==> fs[i].value != v
    ensures Drop(fs, v) == fs
    decreases |fs|
  {
    if fs != [] {
      DropAbsentClass(fs[1..], v);
    }
  }

  /** The record table after marking every live record of class v deleted. */
  function MarkClass(records: seq<Option<Feature>>, v: int): (r: seq<Option<Feature>>)
    ensures |r| == |records|
  {
    seq(|records|, i requires 0 <= i < |records| =>
      if records[i].Some? && records[i].value.value == v then None else records[i])
  }

  /** Marking then repacking is the same as dropping the class from the live features. */
  lemma {:induction false} LiveMarkClass(records: seq<Option<Feature>>, v: int)
    ensures Live(MarkClass(records, v)) == Drop(Live(records), v)
    decreases |records|
  {
    if records != [] {
      assert MarkClass(records, v)[1..] == MarkClass(records[1..], v);
      LiveMarkClass(records[1..], v);
    }
  }

  /** The Sen2Cor classes `remove_cloud_shp` removes. */
  const MaskClasses: seq<int> := [0, 8, 9]

  function DropAll(fs: seq<Feature>, classes: seq<int>): (r: seq<Feature>)
    decreases |classes|
  {
    if classes == [] then fs else DropAll(Drop(fs, classes[0]), classes[1..])
  }

  lemma {:induction false} DropAllKeepsOthers(fs: seq<Feature>, classes: seq<int>)
    ensures forall f :: f in DropAll(fs, classes) <==> f in fs && f.value !in classes
    decreases |classes|
  {
    if classes != [] {
      DropKeepsOthers(fs, classes[0]);
      DropAllKeepsOthers(Drop(fs, classes[0]), classes[1..]);
    }
  }

  /** The cloud-free polygons: exactly those of a class other than 0, 8 and 9. */
  function CloudFree(fs: seq<Feature>): (r: seq<Feature>)
    ensures forall f :: f in r <==> f in fs && f.value != 0 && f.value != 8 && f.value != 9
  {
    DropAllKeepsOthers(fs, MaskClasses);
    DropAll(fs, MaskClasses)
  }

  lemma {:induction false} DropAllNoMasked(fs: seq<Feature>, classes: seq<int>)
    requires forall i :: 0 <= i < |fs| ==> fs[i].value !in classes
    ensures DropAll(fs, classes) == fs
    decreases |classes|
  {
    if classes != [] {
      DropAbsentClass(fs, classes[0]);
      DropAllNoMasked(fs, classes[1..]);
    }
  }

  /** Filtering the cloud mask a second time deletes nothing more. */
  lemma CloudFreeIdempotent(fs: seq<Feature>)
    ensures CloudFree(CloudFree(fs)) == CloudFree(fs)
  {
    var once := CloudFree(fs);
    forall i | 0 <= i < |once| ensures once[i].value !in MaskClasses {
      assert once[i] in once;
    }
    DropAllNoMasked(once, MaskClasses);
  }

  /** An opened classification shapefile. */
  class ShapeLayer {
    var records: seq<Option<Feature>>

    constructor (features: seq<Feature>)
      ensures records == Packed(features)
    {
      records := Packed(features);
    }

    /** `layer.DeleteFeature(fid)`: marks the record deleted; an id without a
        live record is refused. */
    method DeleteFeature(fid: nat) returns (ok: bool)
      modifies this
      ensures ok <==> fid < |old(records)| && old(records)[fid].Some?
      ensures records == if ok then old(records)[fid := None] else old(records)
    {
      if fid < |records| && records[fid].Some? {
        records := records[fid := None];
        return true;
      }
      return false;
    }

    /** `REPACK`: the marked records go, the live ones are renumbered in order. */
    method Repack()
      modifies this
      ensures records == Packed(Live(old(records)))
    {
      records := Packed(Live(records));
    }

    /** `delete_shp_feature(path, v)`: walks the layer filtered on `value = v`
        in id order, deletes each feature it meets, then repacks. */
    method DeleteShpFeature(v: int)
      modifies this
      ensures records == Packed(Drop(Live(old(records)), v))
    {
      var n := |records|;
      for i := 0 to n
        invariant |records| == n
        invariant records[..i] == MarkClass(old(records), v)[..i]
        invariant records[i..] == old(records)[i..]
      {
        ghost var before := records;
        if records[i].Some? && records[i].value.value == v {
          var ok := DeleteFeature(i);
        }
        assert records[i + 1..] == before[i + 1..];
        assert before[i + 1..] == old(records)[i + 1..] by {
          assert before[i + 1..] == before[i..][1..];
          assert old(records)[i + 1..] == old(records)[i..][1..];
        }
        assert records[i] == MarkClass(old(records), v)[i];
        assert records[..i + 1] == records[..i] + [records[i]];
        assert MarkClass(old(records), v)[..i + 1] == MarkClass(old(records), v)[..i] + [MarkClass(old(records), v)[i]];
      }
      assert records == MarkClass(old(records), v);
      LiveMarkClass(old(records), v);
      Repack();
    }

    /** `remove_cloud_shp`: deletes classes 0, 8 and 9 in turn. The cutline
        clip that follows is GDAL's and is not modelled. */
    method RemoveCloudShp()
      modifies this
      ensures records == Packed(CloudFree(Live(old(records))))
    {
      ghost var start := Live(records);
      for k := 0 to |MaskClasses|
        invariant k > 0 ==> records == Packed(DropAll(start, MaskClasses[..k]))
        invariant k == 0 ==> records == old(records)
      {
        if k > 0 {
          LivePacked(DropAll(start, MaskClasses[..k]));
        }
        assert Live(records) == DropAll(start, MaskClasses[..k]);
        DeleteShpFeature(MaskClasses[k]);
        DropAllStep(start, MaskClasses[..k], MaskClasses[k]);
        assert MaskClasses[..k + 1] == MaskClasses[..k] + [MaskClasses[k]];
      }
      assert MaskClasses[..|MaskClasses|] == MaskClasses;
    }
  }

  lemma {:induction false} DropAllStep(fs: seq<Feature>, classes: seq<int>, v: int)
    ensures DropAll(fs, classes + [v]) == Drop(DropAll(fs, classes), v)
    decreases |classes|
  {
    if classes != [] {
      assert (classes + [v])[1..] == classes[1..] + [v];
      DropAllStep(Drop(fs, classes[0]), classes[1..], v);
    }
  }
}
