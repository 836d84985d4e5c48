/** The spectral index engine of `cal_index.py`: eight ratio indices computed
    pixel by pixel from fixed band positions of the 7-band composite
    (B02, B03, B04, B08, B8A, B11, B12).

    Every `cal_*` function follows the same recipe, modelled step by step:
    the numerator and denominator planes are formed in the composite's own
    integer type (uint16, so sums and differences wrap modulo 2^16) and then
    read as floating point; `np.true_divide(..., out=nodata, where=den != 0)`
    writes quotients into a buffer pre-filled with the sentinel -999; RECI
    then subtracts 1 from the whole buffer; every -999 becomes NaN (no-data);
    NDVI alone is then clamped to [-1, 1]. Rasters are flattened row-major:
    every step is element-wise, so the pixel's row and column play no role. */
module SpectralIndex {
  import opened Common

  datatype Index = NDVI | NDRE | OSAVI | LCI | GNDVI | RECI | NDMI | NDWI

  /** Positions of the bands in the composite. The source calls band 4
      (B8A) "redEdge". */
  const Green: nat := 1
  const Red: nat := 2
  const Nir: nat := 3
  const RedEdge: nat := 4
  const Swir1: nat := 5

  /** The value `np.full(..., -999)` pre-fills the quotient buffer with. */
  const Sentinel: real := -999.0

  /** The composite as `read_img` returns it: one uint16 plane per band. */
  datatype Composite = Composite(bands: seq<seq<U16>>, geo: GeoRef)

  /** What `cal_*` hands to `write_tiff`: one float plane and the input's
      georeference. */
  datatype IndexRaster = IndexRaster(pixels: seq<F32>, geo: GeoRef)

  /** `img_data[k, :, :]` on a composite with too few bands raises IndexError. */
  datatype IndexError = BandOutOfRange(band: nat)

  function PixelCount(img: Composite): nat {
    if |img.bands| == 0 then 0 else |img.bands[0]|
  }

  /** numpy arrays are rectangular: every band has the same number of pixels. */
  predicate WellShaped(img: Composite) {
    forall b :: 0 <= b < |img.bands| ==> |img.bands[b]| == PixelCount(img)
  }

  /** The bands an index reads. */
  function Roles(idx: Index): (r: set<nat>)
    ensures Nir in r
  {
    match idx
    case NDVI => {Red, Nir}
    case NDRE => {Nir, RedEdge}
    case OSAVI => {Red, Nir}
    case LCI => {Red, Nir, RedEdge}
    case GNDVI => {Green, Nir}
    case RECI => {Red, Nir}
    case NDMI => {Nir, Swir1}
    case NDWI => {Green, Nir}
  }

  /** The highest band position an index reads. */
  function TopBand(idx: Index): (t: nat)
    ensures t in Roles(idx)
    ensures forall b :: b in Roles(idx) ==> b <= t
  {
    match idx
    case NDRE => RedEdge
    case LCI => RedEdge
    case NDMI => Swir1
    case _ => Nir
  }

  /** The band positions each `cal_*` function subscripts, in the order it
      reads them; numpy raises IndexError at the first that is out of range. */
  function ReadOrder(idx: Index): (order: seq<nat>)
    ensures forall b :: b in order <==> b in Roles(idx)
  {
    match idx
    case NDVI => [Red, Nir]
    case NDRE => [RedEdge, Nir]
    case OSAVI => [Red, Nir]
    case LCI => [Red, Nir, RedEdge]
    case GNDVI => [Green, Nir]
    case RECI => [Red, Nir]
    case NDMI => [Nir, Swir1]
    case NDWI => [Green, Nir]
  }

  /** The first position in `order` that a composite of `n` bands lacks. */
  function FirstOutOfRange(order: seq<nat>, n: nat): (r: Option<nat>)
    ensures r.None? <==> forall i :: 0 <= i < |order| ==> order[i] < n
    ensures r.Some? ==> exists i :: 0 <= i < |order| && order[i] == r.value &&
                          r.value >= n && forall j :: 0 <= j < i ==> order[j] < n
  {
    if order == [] then None
    else if order[0] >= n then Some(order[0])
    else
      var rest := FirstOutOfRange(order[1..], n);
      if rest.Some? then
        ghost var i :| 0 <= i < |order[1..]| && order[1..][i] == rest.value &&
                        rest.value >= n && forall j :: 0 <= j < i ==> order[1..][j] < n;
        assert order[i + 1] == rest.value && forall j :: 0 <= j < i + 1 ==> order[j] < n;
        rest
      else rest
  }

  /** The composite has every band the index reads. */
  predicate Readable(idx: Index, img: Composite) {
    WellShaped(img) && TopBand(idx) < |img.bands|
  }

  /** `a - b` on uint16 arrays. */
  function Diff16(a: U16, b: U16): (r: U16)
    ensures a >= b ==> r == a - b
    ensures a < b ==> r == a - b + 0x1_0000
  {
    Wrap16(a as int - b as int)
  }

  /** `a + b` on uint16 arrays. */
  function Sum16(a: U16, b: U16): (r: U16)
    ensures a + b < 0x1_0000 ==> r == a + b
    ensures a + b >= 0x1_0000 ==> r == a + b - 0x1_0000
    ensures r == 0 <==> a + b == 0 || a + b == 0x1_0000
  {
    Wrap16(a as int + b as int)
  }

  /** The numerator plane's value at pixel `p`, formed in uint16. */
  function Numerator(idx: Index, img: Composite, p: nat): (r: real)
    requires Readable(idx, img) && p < PixelCount(img)
    ensures 0.0 <= r < 65536.0
  {
    var b := img.bands;
    match idx
    case NDVI => Diff16(b[Nir][p], b[Red][p]) as real
    case NDRE => Diff16(b[Nir][p], b[RedEdge][p]) as real
    case OSAVI => Diff16(b[Nir][p], b[Red][p]) as real
    case LCI => Diff16(b[Nir][p], b[RedEdge][p]) as real
    case GNDVI => Diff16(b[Nir][p], b[Green][p]) as real
    case RECI => b[Nir][p] as real
    case NDMI => Diff16(b[Nir][p], b[Swir1][p]) as real
    case NDWI => Diff16(b[Green][p], b[Nir][p]) as real
  }

  /** The denominator plane's value at pixel `p`: a uint16 sum (OSAVI adds
      0.16 after the sum), or the red band itself for RECI. */
  function Denominator(idx: Index, img: Composite, p: nat): (r: real)
    requires Readable(idx, img) && p < PixelCount(img)
    ensures 0.0 <= r
    ensures idx == OSAVI ==> r >= 0.16
  {
    var b := img.bands;
    match idx
    case NDVI => Sum16(b[Nir][p], b[Red][p]) as real
    case NDRE => Sum16(b[Nir][p], b[RedEdge][p]) as real
    case OSAVI => Sum16(b[Nir][p], b[Red][p]) as real + 0.16
    case LCI => Sum16(b[Nir][p], b[Red][p]) as real
    case GNDVI => Sum16(b[Nir][p], b[Green][p]) as real
    case RECI => b[Red][p] as real
    case NDMI => Sum16(b[Nir][p], b[Swir1][p]) as real
    case NDWI => Sum16(b[Green][p], b[Nir][p]) as real
  }

  function NumeratorPlane(idx: Index, img: Composite): (r: seq<real>)
    requires Readable(idx, img)
    ensures |r| == PixelCount(img)
    ensures forall p :: 0 <= p < |r| ==> r[p] == Numerator(idx, img, p)
  {
    seq(PixelCount(img), p requires 0 <= p < PixelCount(img) => Numerator(idx, img, p))
  }

  function DenominatorPlane(idx: Index, img: Composite): (r: seq<real>)
    requires Readable(idx, img)
    ensures |r| == PixelCount(img)
    ensures forall p :: 0 <= p < |r| ==> r[p] == Denominator(idx, img, p)
  {
    seq(PixelCount(img), p requires 0 <= p < PixelCount(img) => Denominator(idx, img, p))
  }

  // ---------------------------------------------------------------------
  // The per-pixel specification, one function per step of the recipe.
  // ---------------------------------------------------------------------

  /** The guarded division: the quotient where the denominator is not zero,
      the sentinel left in the buffer elsewhere. */
  function Quotient(num: real, den: real): real {
    if den != 0.0 then num / den else Sentinel
  }

  /** RECI's `- 1.0`, applied to the whole buffer after the division. */
  function Shift(idx: Index, q: real): real {
    if idx == RECI then q - 1.0 else q
  }

  /** `x[x == -999.0] = None`. */
  function MaskSentinel(v: real): F32 {
    if v == Sentinel then NaN else Num(v)
  }

  /** `x[x <= -1.0] = -1.0`; NaN compares false and is left alone. */
  function ClampBelow(x: F32): F32 {
    if x.Num? && x.v <= -1.0 then Num(-1.0) else x
  }

  /** `x[x >= 1.0] = 1.0`. */
  function ClampAbove(x: F32): F32 {
    if x.Num? && x.v >= 1.0 then Num(1.0) else x
  }

  /** Only NDVI keeps its clamp; the other indices carry it as commented-out code. */
  function Clamp(idx: Index, x: F32): F32 {
    if idx == NDVI then ClampAbove(ClampBelow(x)) else x
  }

  /** The value `cal_*` writes at pixel `p`. */
  function IndexValue(idx: Index, img: Composite, p: nat): (r: F32)
    requires Readable(idx, img) && p < PixelCount(img)
    ensures r.Num? ==> r.v != Sentinel
    ensures idx != RECI && r.Num? ==> 0.0 <= r.v
    ensures idx == NDVI && r.Num? ==> -1.0 <= r.v <= 1.0
  {
    var v := Clamp(idx, MaskSentinel(Shift(idx, Quotient(Numerator(idx, img, p), Denominator(idx, img, p)))));
    if Denominator(idx, img, p) != 0.0 then QuotientNonNegative(idx, img, p); v else v
  }

  function IndexPlane(idx: Index, img: Composite): (r: seq<F32>)
    requires Readable(idx, img)
    ensures |r| == PixelCount(img)
    ensures forall p :: 0 <= p < |r| ==> r[p] == IndexValue(idx, img, p)
  {
    seq(PixelCount(img), p requires 0 <= p < PixelCount(img) => IndexValue(idx, img, p))
  }

  // ---------------------------------------------------------------------
  // The in-place array steps.
  // ---------------------------------------------------------------------

  /** `np.true_divide(num, den, out=buf, where=den != 0)`: writes a quotient
      where the denominator is non-zero and leaves every other cell as it was. */
  method DivideWhere(num: seq<real>, den: seq<real>, buf: array<F32>)
    requires |num| == |den| == buf.Length
    modifies buf
    ensures forall p :: 0 <= p < buf.Length ==>
              buf[p] == (if den[p] != 0.0 then Num(num[p] / den[p]) else old(buf[p]))
  {
    var p := 0;
    while p < buf.Length
      invariant 0 <= p <= buf.Length
      invariant forall k :: 0 <= k < p ==>
                  buf[k] == (if den[k] != 0.0 then Num(num[k] / den[k]) else old(buf[k]))
      invariant forall k :: p <= k < buf.Length ==> buf[k] == old(buf[k])
    {
      if den[p] != 0.0 {
        buf[p] := Num(num[p] / den[p]);
      }
      p := p + 1;
    }
  }

  /** `buf - 1.0` over the whole buffer (RECI). */
  method SubtractOne(buf: array<F32>)
    requires forall p :: 0 <= p < buf.Length ==> buf[p].Num?
    modifies buf
    ensures forall p :: 0 <= p < buf.Length ==> buf[p] == Num(old(buf[p]).v - 1.0)
  {
    var p := 0;
    while p < buf.Length
      invariant 0 <= p <= buf.Length
      invariant forall k :: 0 <= k < p ==> buf[k] == Num(old(buf[k]).v - 1.0)
      invariant forall k :: p <= k < buf.Length ==> buf[k] == old(buf[k])
    {
      buf[p] := Num(buf[p].v - 1.0);
      p := p + 1;
    }
  }

  /** `buf[buf == -999.0] = None`. */
  method ReplaceSentinel(buf: array<F32>)
    requires forall p :: 0 <= p < buf.Length ==> buf[p].Num?
    modifies buf
    ensures forall p :: 0 <= p < buf.Length ==> buf[p] == MaskSentinel(old(buf[p]).v)
  {
    var p := 0;
    while p < buf.Length
      invariant 0 <= p <= buf.Length
      invariant forall k :: 0 <= k < p ==> buf[k] == MaskSentinel(old(buf[k]).v)
      invariant forall k :: p <= k < buf.Length ==> buf[k] == old(buf[k])
    {
      if buf[p] == Num(Sentinel) {
        buf[p] := NaN;
      }
      p := p + 1;
    }
  }

  /** NDVI's clamp: `buf[buf <= -1.0] = -1.0`, then `buf[buf >= 1.0] = 1.0`. */
  method ClampUnit(buf: array<F32>)
    modifies buf
    ensures forall p :: 0 <= p < buf.Length ==> buf[p] == ClampAbove(ClampBelow(old(buf[p])))
  {
    var p := 0;
    while p < buf.Length
      invariant 0 <= p <= buf.Length
      invariant forall k :: 0 <= k < p ==> buf[k] == ClampBelow(old(buf[k]))
      invariant forall k :: p <= k < buf.Length ==> buf[k] == old(buf[k])
    {
      if buf[p].Num? && buf[p].v <= -1.0 {
        buf[p] := Num(-1.0);
      }
      p := p + 1;
    }
    p := 0;
    while p < buf.Length
      invariant 0 <= p <= buf.Length
      invariant forall k :: 0 <= k < p ==> buf[k] == ClampAbove(ClampBelow(old(buf[k])))
      invariant forall k :: p <= k < buf.Length ==> buf[k] == ClampBelow(old(buf[k]))
    {
      if buf[p].Num? && buf[p].v >= 1.0 {
        buf[p] := Num(1.0);
      }
      p := p + 1;
    }
  }

  /** One `cal_*` function: the index raster of the composite, or IndexError
      when the composite lacks a band the index reads. */
  method CalIndex(idx: Index, img: Composite) returns (r: Result<IndexRaster, IndexError>)
    requires WellShaped(img)
    ensures r.Err? <==> TopBand(idx) >= |img.bands|
    ensures r.Err? ==> Some(r.error.band) == FirstOutOfRange(ReadOrder(idx), |img.bands|)
    ensures r.Ok? ==> Readable(idx, img) && r.value.geo == img.geo
    ensures r.Ok? ==> r.value.pixels == IndexPlane(idx, img)
  {
    var missing := FirstOutOfRange(ReadOrder(idx), |img.bands|);
    if missing.Some? {
      return Err(BandOutOfRange(missing.value));
    }
    assert TopBand(idx) in ReadOrder(idx);
    var den := DenominatorPlane(idx, img);
    var num := NumeratorPlane(idx, img);
    var buf := new F32[PixelCount(img)](_ => Num(Sentinel));
    DivideWhere(num, den, buf);
    if idx == RECI {
      SubtractOne(buf);
    }
    ReplaceSentinel(buf);
    if idx == NDVI {
      ClampUnit(buf);
    }
    assert forall p :: 0 <= p < buf.Length ==> buf[p] == IndexValue(idx, img, p);
    r := Ok(IndexRaster(buf[..], img.geo));
  }

  /** The band the IndexError names: NDVI on two bands fails at band 2,
      GNDVI on one band at band 1, LCI and NDMI on three bands at band 3, and
      NDRE on three bands at band 4, which it reads before band 3. */
  lemma FirstMissingBandExamples()
    ensures FirstOutOfRange(ReadOrder(NDVI), 2) == Some(2)
    ensures FirstOutOfRange(ReadOrder(GNDVI), 1) == Some(1)
    ensures FirstOutOfRange(ReadOrder(LCI), 3) == Some(3)
    ensures FirstOutOfRange(ReadOrder(NDMI), 3) == Some(3)
    ensures FirstOutOfRange(ReadOrder(NDRE), 3) == Some(4)
  {
  }

  // ---------------------------------------------------------------------
  // What the recipe guarantees.
  // ---------------------------------------------------------------------

  /** A division guarded by `den != 0` never produces a value below zero:
      both planes are non-negative because they come from uint16 arithmetic. */
  lemma QuotientNonNegative(idx: Index, img: Composite, p: nat)
    requires Readable(idx, img) && p < PixelCount(img)
    requires Denominator(idx, img, p) != 0.0
    ensures Numerator(idx, img, p) / Denominator(idx, img, p) >= 0.0
  {
    var n, d := Numerator(idx, img, p), Denominator(idx, img, p);
    assert d > 0.0;
    assert n / d * d == n;
  }

  /** Every index but RECI gives no-data exactly at the pixels whose
      denominator is zero; it never stores the raw sentinel. */
  lemma NoDataIffZeroDenominator(idx: Index, img: Composite, p: nat)
    requires Readable(idx, img) && p < PixelCount(img)
    requires idx != RECI
    ensures IndexValue(idx, img, p) == NaN <==> Denominator(idx, img, p) == 0.0
    ensures IndexValue(idx, img, p) != Num(Sentinel)
  {
    if Denominator(idx, img, p) != 0.0 {
      QuotientNonNegative(idx, img, p);
    }
  }

  /** OSAVI's denominator is at least 0.16, so OSAVI never yields no-data. */
  lemma OsaviHasNoNoData(img: Composite, p: nat)
    requires Readable(OSAVI, img) && p < PixelCount(img)
    ensures IndexValue(OSAVI, img, p).Num?
  {
    NoDataIffZeroDenominator(OSAVI, img, p);
  }

  /** RECI subtracts 1 after the sentinel fill: a pixel with RED = 0 ends as
      -1000 and RECI never yields no-data. */
  lemma ReciZeroRedIsMinus1000(img: Composite, p: nat)
    requires Readable(RECI, img) && p < PixelCount(img)
    ensures img.bands[Red][p] == 0 ==> IndexValue(RECI, img, p) == Num(-1000.0)
    ensures img.bands[Red][p] != 0 ==>
              IndexValue(RECI, img, p) == Num(img.bands[Nir][p] as real / img.bands[Red][p] as real - 1.0)
    ensures IndexValue(RECI, img, p).Num?
  {
    if img.bands[Red][p] != 0 {
      QuotientNonNegative(RECI, img, p);
    }
  }

  /** NDVI values that are not no-data lie in [-1, 1]. */
  lemma NdviWithinUnitRange(img: Composite, p: nat)
    requires Readable(NDVI, img) && p < PixelCount(img)
    ensures IndexValue(NDVI, img, p).Num? ==> -1.0 <= IndexValue(NDVI, img, p).v <= 1.0
  {
  }

  /** The clamp leaves no-data untouched and every in-range value as it is. */
  lemma ClampKeepsNoDataAndInRange(x: F32)
    ensures ClampAbove(ClampBelow(x)) == NaN <==> x == NaN
    ensures x.Num? && -1.0 < x.v < 1.0 ==> ClampAbove(ClampBelow(x)) == x
  {
  }

  /** The seven other indices are not clamped: each of them exceeds 1 on some
      single-pixel composite. */
  lemma OtherIndicesUnclamped(idx: Index)
    requires idx != NDVI
    ensures exists img: Composite, p: nat :: Readable(idx, img) && p < PixelCount(img) &&
              IndexValue(idx, img, p).Num? && IndexValue(idx, img, p).v > 1.0
  {
    var geo := GeoRef([], "");
    // Bands B02, B03, B04, B08, B8A, B11, B12. NIR below the other band:
    // the uint16 difference wraps to 65436 over a sum of 300.
    var img := Composite([[200], [200], [200], [100], [200], [200], [200]], geo);
    if idx == RECI {
      img := Composite([[0], [0], [100], [300], [0], [0], [0]], geo);
    } else if idx == NDWI {
      img := Composite([[0], [100], [0], [200], [0], [0], [0]], geo);
    }
    assert Readable(idx, img);
    var n, d := Numerator(idx, img, 0), Denominator(idx, img, 0);
    if idx == RECI {
      assert n == 300.0 && d == 100.0;
    } else {
      assert n == 65436.0 && 0.0 < d <= 300.16;
    }
    assert n > d && d > 0.0;
    if idx == RECI {
      assert n / d == 3.0;
    } else {
      assert n / d > 1.0 by { assert n / d * d == n; }
    }
    var p: nat := 0;
    assert Readable(idx, img) && p < PixelCount(img) &&
           IndexValue(idx, img, p).Num? && IndexValue(idx, img, p).v > 1.0;
  }

  /** Band roles are fixed by position: an index only looks at its own bands,
      so two composites that agree on those bands at a pixel agree on the index. */
  lemma OnlyRolesMatter(idx: Index, a: Composite, b: Composite, p: nat)
    requires Readable(idx, a) && p < PixelCount(a)
    requires Readable(idx, b) && p < PixelCount(b)
    requires forall k :: k in Roles(idx) ==> a.bands[k][p] == b.bands[k][p]
    ensures IndexValue(idx, a, p) == IndexValue(idx, b, p)
  {
    assert Numerator(idx, a, p) == Numerator(idx, b, p);
    assert Denominator(idx, a, p) == Denominator(idx, b, p);
  }

  /** The worked examples: NIR = 200, RED = 100 gives NDVI = 1/3, and
      NIR = 100, RED = 50 gives RECI = 1. */
  lemma WorkedExamples()
    ensures IndexValue(NDVI, Composite([[0], [0], [100], [200]], GeoRef([], "")), 0) == Num(1.0 / 3.0)
    ensures IndexValue(RECI, Composite([[0], [0], [50], [100]], GeoRef([], "")), 0) == Num(1.0)
  {
    var a := Composite([[0], [0], [100], [200]], GeoRef([], ""));
    assert Numerator(NDVI, a, 0) == 100.0 && Denominator(NDVI, a, 0) == 300.0;
    var b := Composite([[0], [0], [50], [100]], GeoRef([], ""));
    assert Numerator(RECI, b, 0) == 100.0 && Denominator(RECI, b, 0) == 50.0;
  }

  /** uint16 wrap-around as written: RED > NIR makes NIR - RED wrap to a large
      positive numerator, and the pixel clamps to NDVI = 1 (NIR = 100,
      RED = 200 would be -1/3 in signed arithmetic). */
  lemma NdviWrapsToOne()
    ensures IndexValue(NDVI, Composite([[0], [0], [200], [100]], GeoRef([], "")), 0) == Num(1.0)
  {
    var a := Composite([[0], [0], [200], [100]], GeoRef([], ""));
    assert Numerator(NDVI, a, 0) == 65436.0 && Denominator(NDVI, a, 0) == 300.0;
  }

  /** The uint16 sum can wrap to zero too: NIR + RED = 65536 is no-data. */
  lemma NdviWrappedSumIsNoData()
    ensures IndexValue(NDVI, Composite([[0], [0], [1], [65535]], GeoRef([], "")), 0) == NaN
  {
    var a := Composite([[0], [0], [1], [65535]], GeoRef([], ""));
    assert Denominator(NDVI, a, 0) == 0.0;
  }

  // ---------------------------------------------------------------------
  // The evidently intended NDVI: the difference taken in signed arithmetic.
  // ---------------------------------------------------------------------

  /** NDVI with the band difference and sum formed over the integers, as the
      formula (NIR - RED) / (NIR + RED) intends. No-data where both are zero. */
  function SignedNdvi(nir: U16, red: U16): (r: F32)
    ensures r == NaN <==> nir + red == 0
    ensures r.Num? ==> -1.0 <= r.v <= 1.0
    ensures r.Num? ==> (r.v < 0.0 <==> red > nir)
  {
    if nir + red == 0 then NaN
    else
      var n, d := (nir - red) as real, (nir + red) as real;
      assert -d <= n <= d;
      SignedRatioBounds(n, d);
      Num(n / d)
  }

  lemma SignedRatioBounds(n: real, d: real)
    requires d > 0.0 && -d <= n <= d
    ensures -1.0 <= n / d <= 1.0
    ensures n / d < 0.0 <==> n < 0.0
  {
    assert n / d * d == n;
  }

  /** Where the uint16 arithmetic does not wrap (RED <= NIR, sum below 2^16),
      the source's NDVI agrees with the intended one. */
  lemma NdviAgreesWhenNoWrap(img: Composite, p: nat)
    requires Readable(NDVI, img) && p < PixelCount(img)
    requires img.bands[Red][p] <= img.bands[Nir][p]
    requires img.bands[Red][p] as int + img.bands[Nir][p] as int < 0x1_0000
    ensures IndexValue(NDVI, img, p) == SignedNdvi(img.bands[Nir][p], img.bands[Red][p])
  {
    var nir, red := img.bands[Nir][p], img.bands[Red][p];
    if nir + red != 0 {
      SignedRatioBounds((nir - red) as real, (nir + red) as real);
    }
  }
}
