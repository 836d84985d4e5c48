/** The true-colour quicklook of the pipeline: `rgb` (keep the first three
    bands, optionally reverse them, move channels last), `stretch` (clip a
    band to its 2nd..98th percentile and rescale to [0, 1]), `stretch_n`
    (stretch the first channels of an image) and the 8-bit quicklook raster
    built from them. Rasters are flattened: a band is a sequence of pixels,
    an image "channels first" is a sequence of bands ([C][P]) and "channels
    last" a sequence of pixels, each a sequence of channel values ([P][C]).
    The percentiles are inputs: computing them is numpy's business. */
module Quicklook {
  import opened Common
  import opened RasterIo

  function Min(a: nat, b: nat): nat {
    if a < b then a else b
  }

  /** `seq[::-1]`. */
  function Reverse<T>(s: seq<T>): (r: seq<T>)
    ensures |r| == |s|
    ensures forall i :: 0 <= i < |s| ==> r[i] == s[|s| - 1 - i]
  {
    if s == [] then [] else Reverse(s[1..]) + [s[0]]
  }

  predicate Rectangular<T>(bands: seq<seq<T>>, pixels: nat) {
    forall c :: 0 <= c < |bands| ==> |bands[c]| == pixels
  }

  /** `transpose(1, 2, 0)`: channels first to channels last. */
  function ToChannelsLast<T>(bands: seq<seq<T>>, pixels: nat): (img: seq<seq<T>>)
    requires Rectangular(bands, pixels)
    ensures |img| == pixels
    ensures forall p :: 0 <= p < pixels ==> |img[p]| == |bands|
    ensures forall p, c :: 0 <= p < pixels && 0 <= c < |bands| ==> img[p][c] == bands[c][p]
  {
    seq(pixels, p requires 0 <= p < pixels => seq(|bands|, c requires 0 <= c < |bands| => bands[c][p]))
  }

  /** `transpose(2, 0, 1)`: channels last back to channels first. */
  function ToChannelsFirst<T>(img: seq<seq<T>>, channels: nat): (bands: seq<seq<T>>)
    requires forall p :: 0 <= p < |img| ==> |img[p]| == channels
    ensures Rectangular(bands, |img|) && |bands| == channels
    ensures forall p, c :: 0 <= p < |img| && 0 <= c < channels ==> bands[c][p] == img[p][c]
  {
    seq(channels, c requires 0 <= c < channels => seq(|img|, p requires 0 <= p < |img| => img[p][c]))
  }

  /** The two transposes undo each other. */
  lemma ChannelsRoundTrip<T>(bands: seq<seq<T>>, pixels: nat)
    requires Rectangular(bands, pixels)
    ensures ToChannelsFirst(ToChannelsLast(bands, pixels), |bands|) == bands
  {
    var back := ToChannelsFirst(ToChannelsLast(bands, pixels), |bands|);
    forall c | 0 <= c < |bands| ensures back[c] == bands[c] {
    }
  }

  /** `rgb(img_data, iftran)`: the first (at most) three bands, reversed when
      `swap` holds (B02,B03,B04 become B04,B03,B02), channels last. The
      pixel count is a parameter because an image with no band still has
      its height and width. */
  function Rgb<T>(img: seq<seq<T>>, swap: bool, pixels: nat): (out: seq<seq<T>>)
    requires Rectangular(img, pixels)
    ensures |out| == pixels
    ensures forall p :: 0 <= p < pixels ==> |out[p]| == Min(3, |img|)
    ensures forall p, c :: 0 <= p < pixels && 0 <= c < Min(3, |img|) ==>
              out[p][c] == img[if swap then Min(3, |img|) - 1 - c else c][p]
  {
    var first := img[..Min(3, |img|)];
    ToChannelsLast(if swap then Reverse(first) else first, pixels)
  }

  /** With three or more bands and the swap, pixel channel c is band 2 - c. */
  lemma RgbTrueColour<T>(img: seq<seq<T>>, pixels: nat, p: nat)
    requires Rectangular(img, pixels) && |img| >= 3 && p < pixels
    ensures Rgb(img, true, pixels)[p] == [img[2][p], img[1][p], img[0][p]]
  {
    var px := Rgb(img, true, pixels)[p];
    assert |px| == 3;
    assert px[0] == img[2][p] && px[1] == img[1][p] && px[2] == img[0][p];
  }

  /** Turning the quicklook image back to channels first gives the first three
      bands in reverse order. */
  lemma RgbBackToBands<T>(img: seq<seq<T>>, pixels: nat)
    requires Rectangular(img, pixels)
    ensures ToChannelsFirst(Rgb(img, true, pixels), Min(3, |img|)) == Reverse(img[..Min(3, |img|)])
  {
    var n := Min(3, |img|);
    var back := ToChannelsFirst(Rgb(img, true, pixels), n);
    var rev := Reverse(img[..n]);
    forall c | 0 <= c < n ensures back[c] == rev[c] {
      assert |back[c]| == pixels == |rev[c]|;
    }
  }

  /** The two masked assignments of `stretch`: values below c become c, then
      values above d become d. */
  function Clip(v: real, c: real, d: real): (w: real)
    requires c <= d
    ensures c <= w <= d
    ensures c <= v <= d ==> w == v
  {
    var lowered := if v < c then c else v;
    if lowered > d then d else lowered
  }

  /** One pixel of `stretch`: `(clip(v) - c) / (d - c)`. When d == c every
      clipped value equals c, so the division is 0/0 and gives NaN. */
  function StretchValue(v: real, c: real, d: real): (r: F32)
    requires c <= d
    ensures r.NaN? <==> c == d
  {
    if d == c then NaN else Num((Clip(v, c, d) - c) / (d - c))
  }

  lemma DivNonNegative(x: real, y: real)
    requires 0.0 <= x && 0.0 < y
    ensures 0.0 <= x / y
  {
    var q := x / y;
    assert q * y == x;
  }

  lemma DivAtMostOne(x: real, y: real)
    requires x <= y && 0.0 < y
    ensures x / y <= 1.0
  {
    var q := x / y;
    assert q * y == x;
  }

  lemma StretchInUnitRange(v: real, c: real, d: real)
    requires c < d
    ensures StretchValue(v, c, d).Num?
    ensures 0.0 <= StretchValue(v, c, d).v <= 1.0
    ensures v <= c ==> StretchValue(v, c, d).v == 0.0
    ensures v >= d ==> StretchValue(v, c, d).v == 1.0
  {
    var w := Clip(v, c, d);
    DivNonNegative(w - c, d - c);
    DivAtMostOne(w - c, d - c);
    if v >= d {
      assert w == d;
      assert (d - c) / (d - c) == 1.0;
    }
  }

  lemma StretchMonotone(v1: real, v2: real, c: real, d: real)
    requires c < d && v1 <= v2
    ensures StretchValue(v1, c, d).v <= StretchValue(v2, c, d).v
  {
    var w1, w2 := Clip(v1, c, d), Clip(v2, c, d);
    assert w1 <= w2;
    DivNonNegative(w2 - w1, d - c);
    assert (w2 - c) / (d - c) - (w1 - c) / (d - c) == (w2 - w1) / (d - c);
  }

  /** `stretch(band)` with its two percentiles c and d: a fresh float array,
      the two in-place clipping passes, then the rescale. */
  method Stretch(band: seq<real>, c: real, d: real) returns (out: seq<F32>)
    requires c <= d
    ensures |out| == |band|
    ensures forall p :: 0 <= p < |band| ==> out[p] == StretchValue(band[p], c, d)
  {
    var buf := new real[|band|](p requires 0 <= p < |band| => band[p]);
    var i := 0;
    while i < buf.Length
      invariant 0 <= i <= buf.Length
      invariant forall p :: 0 <= p < i ==> buf[p] == (if band[p] < c then c else band[p])
      invariant forall p :: i <= p < buf.Length ==> buf[p] == band[p]
    {
      if buf[i] < c {
        buf[i] := c;
      }
      i := i + 1;
    }
    i := 0;
    while i < buf.Length
      invariant 0 <= i <= buf.Length
      invariant forall p :: 0 <= p < i ==> buf[p] == Clip(band[p], c, d)
      invariant forall p :: i <= p < buf.Length ==> buf[p] == (if band[p] < c then c else band[p])
    {
      if buf[i] > d {
        buf[i] := d;
      }
      i := i + 1;
    }
    var res := new F32[buf.Length];
    i := 0;
    while i < buf.Length
      invariant 0 <= i <= buf.Length
      invariant forall p :: 0 <= p < buf.Length ==> buf[p] == Clip(band[p], c, d)
      invariant forall p :: 0 <= p < i ==> res[p] == StretchValue(band[p], c, d)
    {
      var num, den := buf[i] - c, d - c;
      if den != 0.0 {
        res[i] := Num(num / den);
      } else {
        assert num == 0.0;   // 0/0: numpy stores NaN
        res[i] := NaN;
      }
      i := i + 1;
    }
    out := res[..];
  }

  datatype StretchError = ChannelOutOfRange(k: nat)   // IndexError on data[:, :, k]

  /** What `stretch_n` leaves in channel j of pixel p once the first `done`
      channels are stretched. */
  function StretchedUpTo(data: seq<seq<real>>, bounds: seq<(real, real)>, done: nat, p: nat, j: nat): (r: F32)
    requires p < |data| && j < |data[p]| && done <= |bounds|
    requires forall i :: 0 <= i < |bounds| ==> bounds[i].0 <= bounds[i].1
    ensures j >= done ==> r == Num(data[p][j])
  {
    if j < done then StretchValue(data[p][j], bounds[j].0, bounds[j].1) else Num(data[p][j])
  }

  /** `stretch_n(data, n_band)` on a channels-last image, `bounds[k]` being the
      percentiles of channel k: each of the first `|bounds|` channels is
      stretched on its own and the others keep their values. The loop runs on
      a copy, so the caller's image is unchanged; a channel index beyond the
      image raises IndexError. */
  method StretchN(data: seq<seq<real>>, channels: nat, bounds: seq<(real, real)>)
    returns (r: Result<seq<seq<F32>>, StretchError>)
    requires forall p :: 0 <= p < |data| ==> |data[p]| == channels
    requires forall j :: 0 <= j < |bounds| ==> bounds[j].0 <= bounds[j].1
    ensures r.Err? <==> |bounds| > channels
    ensures r.Err? ==> r.error == ChannelOutOfRange(channels)
    ensures r.Ok? ==> |r.value| == |data|
    ensures r.Ok? ==> forall p :: 0 <= p < |data| ==> |r.value[p]| == channels
    ensures r.Ok? ==> forall p, j :: 0 <= p < |data| && 0 <= j < channels ==>
              r.value[p][j] == StretchedUpTo(data, bounds, |bounds|, p, j)
  {
    var img := seq(|data|, p requires 0 <= p < |data| => seq(channels, j requires 0 <= j < channels => Num(data[p][j])));
    for k := 0 to |bounds|
      invariant |img| == |data|
      invariant k <= channels
      invariant forall p :: 0 <= p < |data| ==> |img[p]| == channels
      invariant forall p, j :: 0 <= p < |data| && 0 <= j < channels ==> img[p][j] == StretchedUpTo(data, bounds, k, p, j)
    {
      if k >= channels {
        return Err(ChannelOutOfRange(k));
      }
      var band := seq(|data|, p requires 0 <= p < |data| => data[p][k]);
      var stretched := Stretch(band, bounds[k].0, bounds[k].1);
      var next := seq(|img|, p requires 0 <= p < |img| => img[p][k := stretched[p]]);
      forall p, j | 0 <= p < |data| && 0 <= j < channels
        ensures next[p][j] == StretchedUpTo(data, bounds, k + 1, p, j)
      {
        if j == k {
          assert band[p] == data[p][k];
        } else {
          assert next[p][j] == img[p][j];
        }
      }
      img := next;
    }
    return Ok(img);
  }

  /** `np.uint8(x * 255)` for a stretched value: truncation toward zero, which
      is the floor on [0, 255]; NaN is cast to 0. */
  function ToByte(x: F32): (b: U8)
    requires x.Num? ==> 0.0 <= x.v <= 1.0
    ensures x.NaN? ==> b == 0
    ensures x.Num? ==> b as real <= x.v * 255.0 < b as real + 1.0
  {
    match x
    case NaN => 0
    case Num(v) => (v * 255.0).Floor
  }

  /** What the quicklook holds in band c, pixel p: band 2 - c of the merged
      raster, stretched with its percentiles and scaled to a byte. */
  function QuickPixel(bands: seq<seq<U16>>, bounds: seq<(real, real)>, c: nat, p: nat): (b: U8)
    requires |bands| >= 3 && c < 3 && |bounds| == 3 && p < |bands[2 - c]|
    requires forall j :: 0 <= j < 3 ==> bounds[j].0 <= bounds[j].1
    ensures bounds[c].0 == bounds[c].1 ==> b == 0
    ensures bands[2 - c][p] as real <= bounds[c].0 < bounds[c].1 ==> b == 0
    ensures bounds[c].0 < bounds[c].1 <= bands[2 - c][p] as real ==> b == 255
  {
    var s := StretchValue(bands[2 - c][p] as real, bounds[c].0, bounds[c].1);
    if s.Num? then StretchInUnitRange(bands[2 - c][p] as real, bounds[c].0, bounds[c].1); ToByte(s) else ToByte(s)
  }

  /** The quicklook step: read the merged raster, `rgb`, stretch the three
      channels, scale to uint8 and write it back channels first with the
      merged raster's georeference. A merged raster with fewer than three
      bands makes `stretch_n` raise IndexError. */
  method QuicklookImage(bands: seq<seq<U16>>, pixels: nat, bounds: seq<(real, real)>, geo: GeoRef)
    returns (r: Result<Dataset<int>, StretchError>)
    requires Rectangular(bands, pixels)
    requires |bounds| == 3 && forall j :: 0 <= j < 3 ==> bounds[j].0 <= bounds[j].1
    ensures r.Err? <==> |bands| < 3
    ensures r.Ok? ==> r.value.dataType == GdtByte && r.value.noData.None?
    ensures r.Ok? ==> r.value.geo == (if geo.projection != "" then Some(geo) else None)
    ensures r.Ok? ==> |r.value.bands| == 3 && Rectangular(r.value.bands, pixels)
    ensures r.Ok? ==> forall c, p :: 0 <= c < 3 && 0 <= p < pixels ==>
              r.value.bands[c][p] == QuickPixel(bands, bounds, c, p) as int
  {
    var asReal := AsReal(bands, pixels);
    var img := Rgb(asReal, true, pixels);
    var stretched := StretchN(img, Min(3, |bands|), bounds);
    if stretched.Err? {
      return Err(stretched.error);
    }
    var s: seq<seq<F32>> := stretched.value;
    forall p, k | 0 <= p < pixels && 0 <= k < 3
      ensures s[p][k] == StretchValue(bands[2 - k][p] as real, bounds[k].0, bounds[k].1)
      ensures s[p][k].Num? ==> 0.0 <= s[p][k].v <= 1.0
    {
      assert img[p][k] == asReal[2 - k][p];
      assert s[p][k] == StretchedUpTo(img, bounds, 3, p, k);
      if s[p][k].Num? {
        StretchInUnitRange(bands[2 - k][p] as real, bounds[k].0, bounds[k].1);
      }
    }
    var bytes := seq(pixels, p requires 0 <= p < pixels =>
                     seq(3, k requires 0 <= k < 3 => ToByte(s[p][k]) as int));
    var first := ToChannelsFirst(bytes, 3);
    GdalTypeExamples();
    var ds := WriteTiff(NdArray("uint8", Stack3(first)), geo);
    return Ok(ds.value);
  }

  function AsReal(bands: seq<seq<U16>>, pixels: nat): (r: seq<seq<real>>)
    requires Rectangular(bands, pixels)
    ensures |r| == |bands| && Rectangular(r, pixels)
    ensures forall c, p :: 0 <= c < |bands| && 0 <= p < pixels ==> r[c][p] == bands[c][p] as real
  {
    seq(|bands|, c requires 0 <= c < |bands| => seq(pixels, p requires 0 <= p < pixels => bands[c][p] as real))
  }
}
