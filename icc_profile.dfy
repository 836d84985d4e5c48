/** The ICC profile header decoder of glymur (`_ICCProfile.__init__`): the
    first 100 bytes of a profile, laid out as in section 7.2 of ICC.1:2010
    (ISO 15076-1), become a header record. Integers are big-endian; device
    class and colour spaces are four-byte signatures looked up in fixed
    tables; text fields are decoded as strict UTF-8. The decoder fails the
    way the Python code raises: `struct.error` when a fixed-size field is cut
    off by the end of the buffer, `KeyError` for an unknown signature and
    `UnicodeDecodeError` for a text field that is not UTF-8. */
module IccProfile {
  import opened Common

  type Bytes = seq<U8>

  datatype IccError = StructError | KeyError | UnicodeDecodeError

  /** 256 to the power n: one past the largest n-byte unsigned integer. */
  function Pow256(n: nat): (p: nat)
    ensures p >= 1
  {
    if n == 0 then 1 else 256 * Pow256(n - 1)
  }

  /** The unsigned integer that `struct.unpack('>…')` reads from `bs`. */
  function BigEndian(bs: Bytes): nat {
    if bs == [] then 0 else BigEndian(bs[..|bs| - 1]) * 256 + bs[|bs| - 1]
  }

  lemma {:induction false} BigEndianBound(bs: Bytes)
    ensures BigEndian(bs) < Pow256(|bs|)
  {
    if bs != [] {
      BigEndianBound(bs[..|bs| - 1]);
      var h := BigEndian(bs[..|bs| - 1]);
      assert h <= Pow256(|bs| - 1) - 1;
      assert h * 256 <= Pow256(|bs| - 1) * 256 - 256;
    }
  }

  /** The n-byte big-endian encoding of v (the inverse of `BigEndian`). */
  function EncodeBigEndian(v: nat, n: nat): (bs: Bytes)
    ensures |bs| == n
  {
    if n == 0 then [] else EncodeBigEndian(v / 256, n - 1) + [v % 256]
  }

  lemma {:induction false} DecodeEncode(v: nat, n: nat)
    requires v < Pow256(n)
    ensures BigEndian(EncodeBigEndian(v, n)) == v
  {
    if n > 0 {
      var bs := EncodeBigEndian(v, n);
      assert bs[..n - 1] == EncodeBigEndian(v / 256, n - 1);
      DecodeEncode(v / 256, n - 1);
    }
  }

  lemma {:induction false} EncodeDecode(bs: Bytes)
    ensures EncodeBigEndian(BigEndian(bs), |bs|) == bs
  {
    if bs != [] {
      var init := bs[..|bs| - 1];
      var v := BigEndian(bs);
      assert v / 256 == BigEndian(init) && v % 256 == bs[|bs| - 1];
      EncodeDecode(init);
      assert bs == init + [bs[|bs| - 1]];
    }
  }

  /** `struct.unpack` of a field of `hi - lo` bytes read from `buf[lo:hi]`:
      a buffer that ends before `hi` leaves too few bytes and raises. */
  function Field(buf: Bytes, lo: nat, hi: nat): (r: Result<Bytes, IccError>)
    requires lo < hi
    ensures r.Ok? <==> hi <= |buf|
    ensures r.Ok? ==> r.value == buf[lo..hi]
    ensures r.Err? ==> r.error == StructError
  {
    var c := Slice(buf, lo, hi);
    if |c| == hi - lo then Ok(c) else Err(StructError)
  }

  /** A big-endian two's-complement integer (`'>i'`) from its unsigned reading. */
  function Signed32(u: nat): int {
    if u >= 0x8000_0000 then u - 0x1_0000_0000 else u
  }

  /** Every 32-bit signed value is read back from its two's-complement encoding. */
  lemma Signed32RoundTrip(x: int)
    requires -0x8000_0000 <= x < 0x8000_0000
    ensures (x + 0x1_0000_0000) % 0x1_0000_0000 < Pow256(4)
    ensures Signed32((x + 0x1_0000_0000) % 0x1_0000_0000) == x
  {
    assert Pow256(4) == 0x1_0000_0000;
  }

  /** An s15Fixed16Number (section 4.6 of ICC.1:2010): the signed reading
      divided by 65536. */
  function S15Fixed16(u: nat): (r: real)
    requires u < 0x1_0000_0000
    ensures -32768.0 <= r < 32768.0
    ensures r * 65536.0 == Signed32(u) as real
  {
    Signed32(u) as real / 65536.0
  }

  // ---------------------------------------------------------------------
  // Version (section 7.2.4)

  datatype Version = Version(major: U8, minor: nat, bugfix: nat)

  /** Byte 8 is the major version; byte 9 holds the minor version in its
      high nibble and the bug-fix version in its low nibble. */
  function VersionOf(b8: U8, b9: U8): (v: Version)
    ensures v.major == b8
    ensures v.minor < 16 && v.bugfix < 16
    ensures v.minor * 16 + v.bugfix == b9
  {
    Version(b8, b9 / 16, b9 % 16)
  }

  /** Distinct version bytes give distinct versions. */
  lemma VersionOfInjective(a8: U8, a9: U8, b8: U8, b9: U8)
    requires VersionOf(a8, a9) == VersionOf(b8, b9)
    ensures a8 == b8 && a9 == b9
  {
  }

  /** The first decimal digit of n. */
  function LeadingDigit(n: nat): (d: nat)
    ensures d < 10
    ensures n > 0 ==> d > 0
  {
    if n < 10 then n else LeadingDigit(n / 10)
  }

  lemma {:induction false} DecimalTextStartsWithLeadingDigit(n: nat)
    ensures DecimalText(n)[0] == Digit(LeadingDigit(n))
  {
    if n >= 10 {
      DecimalTextStartsWithLeadingDigit(n / 10);
    }
  }

  /** `'{0}.{1}.{2}'.format(major, minor, bugfix)`. */
  function VersionText(v: Version): (s: string) {
    DecimalText(v.major) + "." + DecimalText(v.minor) + "." + DecimalText(v.bugfix)
  }

  /** The version string starts with '4' exactly when the major version's
      leading decimal digit is 4: version 4 profiles, but also majors 40 to
      49 and 400 and above with a leading 4. */
  lemma VersionTextStartsWithFour(v: Version)
    ensures VersionText(v)[0] == '4' <==> LeadingDigit(v.major) == 4
  {
    DecimalTextStartsWithLeadingDigit(v.major);
  }

  lemma MajorFourHasLeadingFour(major: U8)
    ensures LeadingDigit(major) == 4 <==> major == 4 || 40 <= major < 50
  {
  }

  // ---------------------------------------------------------------------
  // Signature tables (sections 7.2.5 to 7.2.7)

  /** The bytes of a signature read as Latin-1 characters, so that it can be
      compared with the tables' keys. */
  function Latin1(bs: Bytes): (s: string)
    ensures |s| == |bs|
    ensures forall i :: 0 <= i < |bs| ==> s[i] as int == bs[i]
  {
    seq(|bs|, i requires 0 <= i < |bs| => bs[i] as char)
  }

  /** Different byte strings are different keys. */
  lemma Latin1Injective(a: Bytes, b: Bytes)
    requires Latin1(a) == Latin1(b)
    ensures a == b
  {
    assert |a| == |b|;
    forall i | 0 <= i < |a| ensures a[i] == b[i] {
      assert Latin1(a)[i] == Latin1(b)[i];
    }
  }

  /** `profile_class`: the device classes of section 7.2.5. */
  const ProfileClasses: map<string, string> := map[
    "scnr" := "input device profile",
    "mntr" := "display device profile",
    "prtr" := "output device profile",
    "link" := "devicelink profile",
    "spac" := "colorspace conversion profile",
    "abst" := "abstract profile",
    "nmcl" := "name colour profile"]

  /** `colour_space_dict`: the colour spaces of section 7.2.6, used for both
      the data colour space and the profile connection space. */
  const ColourSpaces: map<string, string> := map[
    "XYZ " := "XYZ",
    "Lab " := "Lab",
    "Luv " := "Luv",
    "YCbr" := "YCbCr",
    "Yxy " := "Yxy",
    "RGB " := "RGB",
    "GRAY" := "gray",
    "HSV " := "hsv",
    "HLS " := "hls",
    "CMYK" := "CMYK",
    "CMY " := "cmy",
    "2CLR" := "2colour",
    "3CLR" := "3colour",
    "4CLR" := "4colour",
    "5CLR" := "5colour",
    "6CLR" := "6colour",
    "7CLR" := "7colour",
    "8CLR" := "8colour",
    "9CLR" := "9colour",
    "ACLR" := "10colour",
    "BCLR" := "11colour",
    "CCLR" := "12colour",
    "DCLR" := "13colour",
    "ECLR" := "14colour",
    "FCLR" := "15colour"]

  /** `table[sig]`: an unknown signature raises `KeyError`. */
  function Lookup(table: map<string, string>, sig: Bytes): (r: Result<string, IccError>)
    ensures r.Ok? <==> Latin1(sig) in table
    ensures r.Ok? ==> r.value == table[Latin1(sig)]
    ensures r.Err? ==> r.error == KeyError
  {
    var key := Latin1(sig);
    if key in table then Ok(table[key]) else Err(KeyError)
  }

  /** Every key of both tables is four characters long, so a signature cut
      short by the end of the buffer is always an unknown one. */
  lemma TableKeysAreFourBytes(sig: Bytes)
    requires |sig| != 4
    ensures Lookup(ProfileClasses, sig) == Err(KeyError)
    ensures Lookup(ColourSpaces, sig) == Err(KeyError)
  {
    ProfileClassKeys();
    ColourSpaceKeys();
  }

  lemma ProfileClassKeys()
    ensures forall k :: k in ProfileClasses ==> |k| == 4
  {
  }

  lemma ColourSpaceKeys()
    ensures forall k :: k in ColourSpaces ==> |k| == 4
  {
  }

  // ---------------------------------------------------------------------
  // Date and time (section 7.2.8)

  datatype DateTime = DateTime(year: nat, month: nat, day: nat, hour: nat, minute: nat, second: nat)

  predicate IsLeap(y: nat) {
    y % 4 == 0 && (y % 100 != 0 || y % 400 == 0)
  }

  function DaysInMonth(y: nat, m: nat): (d: nat)
    requires 1 <= m <= 12
    ensures 28 <= d <= 31
  {
    if m == 2 then (if IsLeap(y) then 29 else 28)
    else if m == 4 || m == 6 || m == 9 || m == 11 then 30
    else 31
  }

  /** The validation `datetime.datetime(y, mo, d, h, mi, s)` makes before it
      builds a value: years 1 to 9999, a real day of the month in the
      proleptic Gregorian calendar, and a time of day. */
  predicate ValidDateTime(f: seq<nat>)
    requires |f| == 6
  {
    1 <= f[0] <= 9999 && 1 <= f[1] <= 12 && 1 <= f[2] <= DaysInMonth(f[0], f[1]) &&
    f[3] < 24 && f[4] < 60 && f[5] < 60
  }

  /** The `try … except ValueError` around the constructor: an invalid date
      gives `None` instead of an error. */
  function MakeDateTime(f: seq<nat>): (r: Option<DateTime>)
    requires |f| == 6
    ensures r.Some? <==> ValidDateTime(f)
    ensures r.Some? ==> r.value == DateTime(f[0], f[1], f[2], f[3], f[4], f[5])
  {
    if ValidDateTime(f) then Some(DateTime(f[0], f[1], f[2], f[3], f[4], f[5])) else None
  }

  /** The six big-endian u16 fields of the 12-byte date block. */
  function DateFields(bs: Bytes): (f: seq<nat>)
    requires |bs| == 12
    ensures |f| == 6
    ensures forall i :: 0 <= i < 6 ==> f[i] == BigEndian(bs[2 * i..2 * i + 2])
  {
    seq(6, i requires 0 <= i < 6 => BigEndian(bs[2 * i..2 * i + 2]))
  }

  /** A header whose date block was left zero has no date. */
  lemma ZeroDateIsNone(bs: Bytes)
    requires bs == seq(12, i => 0)
    ensures MakeDateTime(DateFields(bs)) == None
  {
    assert bs[0..2] == [0, 0];
    assert BigEndian([0, 0]) == 0 by {
      assert [0, 0][..1] == [0];
      assert [0][..0] == [];
    }
  }

  /** February 29 is a date exactly in leap years. */
  lemma LeapDay(y: nat)
    requires 1 <= y <= 9999
    ensures MakeDateTime([y, 2, 29, 0, 0, 0]).Some? <==> IsLeap(y)
  {
  }

  // ---------------------------------------------------------------------
  // Text fields

  predicate Continuation(b: U8) {
    0x80 <= b < 0xC0
  }

  /** `bytes.decode('utf-8')` in strict mode: well-formed UTF-8 (no overlong
      forms, no surrogates, nothing above U+10FFFF) or `UnicodeDecodeError`. */
  function Utf8Decode(bs: Bytes): (r: Result<string, IccError>)
    ensures r.Ok? ==> |r.value| <= |bs|
    ensures r.Ok? && bs != [] ==> r.value != []
    ensures r.Err? ==> r.error == UnicodeDecodeError
    decreases |bs|
  {
    if bs == [] then Ok("")
    else
      var b: int := bs[0];
      if b < 0x80 then
        var rest :- Utf8Decode(bs[1..]);
        Ok([b as char] + rest)
      else if 0xC2 <= b < 0xE0 && |bs| >= 2 && Continuation(bs[1]) then
        var rest :- Utf8Decode(bs[2..]);
        Ok([Scalar2(b, bs[1])] + rest)
      else if 0xE0 <= b < 0xF0 && |bs| >= 3 && Continuation(bs[1]) && Continuation(bs[2])
              && (b != 0xE0 || bs[1] >= 0xA0) && (b != 0xED || bs[1] < 0xA0) then
        var rest :- Utf8Decode(bs[3..]);
        Ok([Scalar3(b, bs[1], bs[2])] + rest)
      else if 0xF0 <= b < 0xF5 && |bs| >= 4 && Continuation(bs[1]) && Continuation(bs[2])
              && Continuation(bs[3]) && (b != 0xF0 || bs[1] >= 0x90) && (b != 0xF4 || bs[1] < 0x90) then
        var rest :- Utf8Decode(bs[4..]);
        Ok([Scalar4(b, bs[1], bs[2], bs[3])] + rest)
      else Err(UnicodeDecodeError)
  }

  /** The character of a two-byte sequence: 11 payload bits, U+0080 to U+07FF. */
  function Scalar2(b0: int, b1: int): (c: char)
    requires 0xC2 <= b0 < 0xE0 && 0x80 <= b1 < 0xC0
    ensures 0x80 <= c as int < 0x800
  {
    ((b0 - 0xC0) * 64 + (b1 - 0x80)) as char
  }

  /** The character of a three-byte sequence: 16 payload bits, U+0800 to
      U+FFFF without the surrogates. */
  function Scalar3(b0: int, b1: int, b2: int): (c: char)
    requires 0xE0 <= b0 < 0xF0 && 0x80 <= b1 < 0xC0 && 0x80 <= b2 < 0xC0
    requires (b0 != 0xE0 || b1 >= 0xA0) && (b0 != 0xED || b1 < 0xA0)
    ensures 0x800 <= c as int < 0x1_0000
  {
    ((b0 - 0xE0) * 0x1000 + (b1 - 0x80) * 64 + (b2 - 0x80)) as char
  }

  /** The character of a four-byte sequence: 21 payload bits, U+10000 to U+10FFFF. */
  function Scalar4(b0: int, b1: int, b2: int, b3: int): (c: char)
    requires 0xF0 <= b0 < 0xF5 && 0x80 <= b1 < 0xC0 && 0x80 <= b2 < 0xC0 && 0x80 <= b3 < 0xC0
    requires (b0 != 0xF0 || b1 >= 0x90) && (b0 != 0xF4 || b1 < 0x90)
    ensures 0x1_0000 <= c as int < 0x11_0000
  {
    ((b0 - 0xF0) * 0x4_0000 + (b1 - 0x80) * 0x1000 + (b2 - 0x80) * 64 + (b3 - 0x80)) as char
  }

  /** The UTF-8 encoding of a string (what `str.encode('utf-8')` gives). */
  function Utf8Encode(s: string): (bs: Bytes) {
    if s == [] then [] else Utf8EncodeChar(s[0]) + Utf8Encode(s[1..])
  }

  function Utf8EncodeChar(c: char): (bs: Bytes)
    ensures 1 <= |bs| <= 4
  {
    var cp := c as int;
    if cp < 0x80 then [cp]
    else if cp < 0x800 then [0xC0 + cp / 64, 0x80 + cp % 64]
    else if cp < 0x1_0000 then [0xE0 + cp / 0x1000, 0x80 + (cp / 64) % 64, 0x80 + cp % 64]
    else [0xF0 + cp / 0x4_0000, 0x80 + (cp / 0x1000) % 64, 0x80 + (cp / 64) % 64, 0x80 + cp % 64]
  }

  lemma DecodeEncode1(c: char, rest: Bytes, tail: string)
    requires c as int < 0x80 && Utf8Decode(rest) == Ok(tail)
    ensures Utf8Decode(Utf8EncodeChar(c) + rest) == Ok([c] + tail)
  {
    var bs := Utf8EncodeChar(c) + rest;
    assert bs[1..] == rest;
  }

  lemma DecodeEncode2(c: char, rest: Bytes, tail: string)
    requires 0x80 <= c as int < 0x800 && Utf8Decode(rest) == Ok(tail)
    ensures Utf8Decode(Utf8EncodeChar(c) + rest) == Ok([c] + tail)
  {
    var cp := c as int;
    var b0, b1 := 0xC0 + cp / 64, 0x80 + cp % 64;
    assert Utf8EncodeChar(c) == [b0, b1];
    var bs := [b0, b1] + rest;
    assert bs[2..] == rest;
    assert (b0 - 0xC0) * 64 + (b1 - 0x80) == cp;
    assert Scalar2(b0, b1) == c;
  }

  lemma DecodeEncode3(c: char, rest: Bytes, tail: string)
    requires 0x800 <= c as int < 0x1_0000 && Utf8Decode(rest) == Ok(tail)
    ensures Utf8Decode(Utf8EncodeChar(c) + rest) == Ok([c] + tail)
  {
    var cp := c as int;
    var b0, b1, b2 := 0xE0 + cp / 0x1000, 0x80 + (cp / 64) % 64, 0x80 + cp % 64;
    assert Utf8EncodeChar(c) == [b0, b1, b2];
    var bs := [b0, b1, b2] + rest;
    assert bs[3..] == rest;
    assert (cp / 0x1000) * 64 + (cp / 64) % 64 == cp / 64;
    assert (b0 - 0xE0) * 0x1000 + (b1 - 0x80) * 64 + (b2 - 0x80) == cp;
    assert Scalar3(b0, b1, b2) == c;
  }

  lemma DecodeEncode4(c: char, rest: Bytes, tail: string)
    requires 0x1_0000 <= c as int && Utf8Decode(rest) == Ok(tail)
    ensures Utf8Decode(Utf8EncodeChar(c) + rest) == Ok([c] + tail)
  {
    var cp := c as int;
    var b0, b1, b2, b3 := 0xF0 + cp / 0x4_0000, 0x80 + (cp / 0x1000) % 64, 0x80 + (cp / 64) % 64, 0x80 + cp % 64;
    assert Utf8EncodeChar(c) == [b0, b1, b2, b3];
    var bs := [b0, b1, b2, b3] + rest;
    assert bs[4..] == rest;
    assert (cp / 0x4_0000) * 64 + (cp / 0x1000) % 64 == cp / 0x1000;
    assert (cp / 0x1000) * 64 + (cp / 64) % 64 == cp / 64;
    assert (b0 - 0xF0) * 0x4_0000 + (b1 - 0x80) * 0x1000 + (b2 - 0x80) * 64 + (b3 - 0x80) == cp;
    assert Scalar4(b0, b1, b2, b3) == c;
  }

  /** Decoding one encoded character gives it back and consumes exactly its bytes. */
  lemma DecodeEncodeChar(c: char, rest: Bytes, tail: string)
    requires Utf8Decode(rest) == Ok(tail)
    ensures Utf8Decode(Utf8EncodeChar(c) + rest) == Ok([c] + tail)
  {
    if c as int < 0x80 {
      DecodeEncode1(c, rest, tail);
    } else if c as int < 0x800 {
      DecodeEncode2(c, rest, tail);
    } else if c as int < 0x1_0000 {
      DecodeEncode3(c, rest, tail);
    } else {
      DecodeEncode4(c, rest, tail);
    }
  }

  /** Every string survives encoding to UTF-8 and decoding back. */
  lemma {:induction false} Utf8RoundTrip(s: string)
    ensures Utf8Decode(Utf8Encode(s)) == Ok(s)
  {
    if s != [] {
      Utf8RoundTrip(s[1..]);
      DecodeEncodeChar(s[0], Utf8Encode(s[1..]), s[1..]);
      assert [s[0]] + s[1..] == s;
    }
  }

  /** ASCII bytes decode to the characters with the same codes. */
  lemma {:induction false} AsciiDecodes(bs: Bytes)
    requires forall i :: 0 <= i < |bs| ==> bs[i] < 0x80
    ensures Utf8Decode(bs) == Ok(Latin1(bs))
  {
    if bs != [] {
      AsciiDecodes(bs[1..]);
      assert Latin1(bs) == [bs[0] as char] + Latin1(bs[1..]);
    }
  }

  /** Platform, device model and creator: a field of four zero bytes gives a
      fixed text, anything else is decoded. */
  function ZeroOr(bs: Bytes, fallback: string): (r: Result<string, IccError>)
    ensures bs == [0, 0, 0, 0] ==> r == Ok(fallback)
    ensures bs != [0, 0, 0, 0] ==> r == Utf8Decode(bs)
  {
    if bs == [0, 0, 0, 0] then Ok(fallback) else Utf8Decode(bs)
  }

  // ---------------------------------------------------------------------
  // Bit fields (sections 7.2.11 and 7.2.14) and the rendering intent

  /** The u32 that `struct.unpack('>I', …)` reads, as a machine word so
      that the masks of the Python code apply to it. */
  function Word32(bs: Bytes): bv32
    requires |bs| == 4
  {
    BigEndianBound(bs);
    assert Pow256(4) == 0x1_0000_0000;
    BigEndian(bs) as bv32
  }

  /** The u64 that `struct.unpack('>Q', …)` reads. */
  function Word64(bs: Bytes): bv64
    requires |bs| == 8
  {
    BigEndianBound(bs);
    assert Pow256(8) == 0x1_0000_0000_0000_0000;
    BigEndian(bs) as bv64
  }

  /** The first half of `"{0}embedded, {1} be used independently"`. */
  function FlagsHead(embedded: bool): (r: string)
    ensures |r| >= 10
    ensures r[..8] == "embedded" <==> embedded
  {
    if embedded then
      assert "embedded, "[..8] == "embedded";
      "embedded, "
    else
      assert "not embedded, "[0] != "embedded"[0];
      "not embedded, "
  }

  /** The second half, which reads "cannot" or "can". */
  function FlagsTail(cannot: bool): (r: string)
    ensures |r| >= 25
    ensures cannot ==> r == "cannot be used independently"
    ensures !cannot ==> r[..4] == "can "
  {
    (if cannot then "cannot" else "can") + " be used independently"
  }

  /** The flags text filled from `fval & 0x01` and `fval & 0x02`: bit 0 says
      whether the profile is embedded, bit 1 whether it cannot be used
      independently of the embedded colour data. */
  function FlagsText(v: bv32): (r: string)
    ensures |r| >= 35
    ensures r[..8] == "embedded" <==> v & 0x01 != 0
    ensures r[|r| - 28..] == "cannot be used independently" <==> v & 0x02 != 0
  {
    var head := FlagsHead(v & 0x01 != 0);
    var tail := FlagsTail(v & 0x02 != 0);
    assert (head + tail)[..8] == head[..8];
    assert v & 0x02 == 0 ==> (head + tail)[|head| + |tail| - 28..][3] == tail[0] != "cannot be used independently"[3];
    assert v & 0x02 != 0 ==> (head + tail)[|head| + |tail| - 28..] == tail;
    head + tail
  }

  /** Only bits 0 and 1 matter, and each of their four settings reads differently. */
  lemma FlagsTwoBits(v: bv32, w: bv32)
    ensures FlagsText(v) == FlagsText(w) <==> v & 0x3 == w & 0x3
  {
    assert v & 0x3 == w & 0x3 <==> (v & 0x1 == w & 0x1 && v & 0x2 == w & 0x2);
    assert (v & 0x1 != 0) == (v & 0x1 == 0x1) && (w & 0x1 != 0) == (w & 0x1 == 0x1);
    assert (v & 0x2 != 0) == (v & 0x2 == 0x2) && (w & 0x2 != 0) == (w & 0x2 == 0x2);
    if (v & 0x01 != 0) == (w & 0x01 != 0) && (v & 0x02 != 0) == (w & 0x02 != 0) {
      assert FlagsText(v) == FlagsHead(w & 0x01 != 0) + FlagsTail(w & 0x02 != 0);
    }
  }

  /** The device attributes text filled from bits 0 to 3 of the u64. */
  function AttributesText(v: bv64): (r: string)
    ensures |r| >= 49
    ensures r[..12] == "transparency" <==> v & 0x01 != 0
    ensures r[|r| - 21..] == "black and white media" <==> v & 0x08 != 0
  {
    var head := (if v & 0x01 != 0 then "transparency" else "reflective") + ", ";
    var middle := (if v & 0x02 != 0 then "matte" else "glossy") + ", " +
      (if v & 0x04 != 0 then "negative" else "positive") + " media polarity, ";
    var tail := (if v & 0x08 != 0 then "black and white" else "color") + " media";
    assert (head + middle + tail)[..12] == head[..12];
    assert |head| == 12 ==> head[..12] == "reflective, ";
    assert (head + middle + tail)[|head + middle + tail| - 21..] == (head + middle + tail)[|head| + |middle| + |tail| - 21..];
    assert |tail| == 11 ==> (head + middle + tail)[|head| + |middle| + |tail| - 21..][10] == tail[0];
    assert |tail| == 21 ==> (head + middle + tail)[|head| + |middle| + |tail| - 21..] == tail;
    head + middle + tail
  }

  /** Only bits 0 to 3 of the 64-bit attributes matter. */
  lemma AttributesFourBits(v: bv64)
    ensures AttributesText(v) == AttributesText(v & 0xF)
  {
    assert (v & 0xF) & 0x1 == v & 0x1 && (v & 0xF) & 0x2 == v & 0x2;
    assert (v & 0xF) & 0x4 == v & 0x4 && (v & 0xF) & 0x8 == v & 0x8;
  }

  /** The first word tells the transparent from the reflective media. */
  lemma AttributesFirstWord(v: bv64)
    ensures AttributesText(v)[0] == 't' <==> v & 0x01 != 0
  {
  }

  /** `rendering_intent_dict` with the `KeyError` turned into 'unknown'. */
  function IntentName(r: nat): (s: string)
    ensures s == "unknown" <==> r > 3
  {
    if r == 0 then "perceptual"
    else if r == 1 then "media-relative colorimetric"
    else if r == 2 then "saturation"
    else if r == 3 then "ICC-absolute colorimetric"
    else "unknown"
  }

  // ---------------------------------------------------------------------
  // The header

  datatype Header = Header(
    size: nat, cmmType: nat,
    version: Version, versionText: string,
    deviceClass: string, colorSpace: string, connectionSpace: string,
    datetime: Option<DateTime>,
    fileSignature: string, platform: string, flags: string,
    manufacturer: string, deviceModel: string, attributes: string,
    intent: string, illuminant: seq<real>, creator: string,
    profileId: Option<Bytes>)

  /** `_ICCProfile.__init__`, field by field in the order the Python code
      reads them, so that the first failing field decides the error. */
  function DecodeHeader(buf: Bytes): (r: Result<Header, IccError>)
    ensures r.Ok? ==> |buf| >= 80
    ensures r.Ok? ==> r.value.deviceClass in ProfileClasses.Values
    ensures r.Ok? ==> r.value.colorSpace in ColourSpaces.Values
    ensures r.Ok? ==> r.value.connectionSpace in ColourSpaces.Values
  {
    var head :- Field(buf, 0, 10);
    var deviceClass :- Lookup(ProfileClasses, Slice(buf, 12, 16));
    var colorSpace :- Lookup(ColourSpaces, Slice(buf, 16, 20));
    var connectionSpace :- Lookup(ColourSpaces, Slice(buf, 20, 24));
    var date :- Field(buf, 24, 36);
    var fileSignature :- Utf8Decode(Slice(buf, 36, 40));
    var platform :- ZeroOr(Slice(buf, 40, 44), "unrecognized");
    var flags :- Field(buf, 44, 48);
    var manufacturer :- Utf8Decode(Slice(buf, 48, 52));
    var deviceModel :- ZeroOr(Slice(buf, 52, 56), "");
    var attributes :- Field(buf, 56, 64);
    var intent :- Field(buf, 64, 68);
    var illuminant :- Field(buf, 68, 80);
    var creator :- ZeroOr(Slice(buf, 80, 84), "unrecognized");
    var version := VersionOf(head[8], head[9]);
    var text := VersionText(version);
    Ok(Header(
      BigEndian(head[0..4]), BigEndian(head[4..8]),
      version, text,
      deviceClass, colorSpace, connectionSpace,
      MakeDateTime(DateFields(date)),
      fileSignature, platform, FlagsText(Word32(flags)),
      manufacturer, deviceModel, AttributesText(Word64(attributes)),
      IntentName(BigEndian(intent)),
      [Illuminant(illuminant, 0), Illuminant(illuminant, 1), Illuminant(illuminant, 2)],
      creator,
      if text[0] == '4' then Some(Slice(buf, 84, 100)) else None))
  }

  /** The k-th s15Fixed16 value of the 12-byte illuminant block. */
  function Illuminant(bs: Bytes, k: nat): (x: real)
    requires |bs| == 12 && k < 3
    ensures -32768.0 <= x < 32768.0
    ensures x * 65536.0 == Signed32(BigEndian(bs[4 * k..4 * k + 4])) as real
  {
    BigEndianBound(bs[4 * k..4 * k + 4]);
    S15Fixed16(BigEndian(bs[4 * k..4 * k + 4]))
  }

  const Zeros: Bytes := [0, 0, 0, 0]

  /** What a buffer needs for the decoder to return a header: 80 bytes (the
      illuminant is the last fixed-size field read), known signatures and
      text fields that are UTF-8 unless they are all zero. */
  predicate Decodable(buf: Bytes) {
    |buf| >= 80 &&
    Latin1(buf[12..16]) in ProfileClasses &&
    Latin1(buf[16..20]) in ColourSpaces &&
    Latin1(buf[20..24]) in ColourSpaces &&
    Utf8Decode(buf[36..40]).Ok? &&
    (buf[40..44] == Zeros || Utf8Decode(buf[40..44]).Ok?) &&
    Utf8Decode(buf[48..52]).Ok? &&
    (buf[52..56] == Zeros || Utf8Decode(buf[52..56]).Ok?) &&
    (Slice(buf, 80, 84) == Zeros || Utf8Decode(Slice(buf, 80, 84)).Ok?)
  }

  lemma DecodeHeaderOkIff(buf: Bytes)
    ensures DecodeHeader(buf).Ok? <==> Decodable(buf)
  {
    if Decodable(buf) {
      DecodableDecodes(buf);
    } else {
      UndecodableFails(buf);
    }
  }

  lemma DecodableDecodes(buf: Bytes)
    requires Decodable(buf)
    ensures DecodeHeader(buf).Ok?
  {
    assert Lookup(ProfileClasses, Slice(buf, 12, 16)).Ok?;
    assert Lookup(ColourSpaces, Slice(buf, 16, 20)).Ok?;
    assert Lookup(ColourSpaces, Slice(buf, 20, 24)).Ok?;
    assert Utf8Decode(Slice(buf, 36, 40)).Ok?;
    assert ZeroOr(Slice(buf, 40, 44), "unrecognized").Ok?;
    assert Utf8Decode(Slice(buf, 48, 52)).Ok?;
    assert ZeroOr(Slice(buf, 52, 56), "").Ok?;
    assert ZeroOr(Slice(buf, 80, 84), "unrecognized").Ok?;
  }

  lemma UndecodableFails(buf: Bytes)
    requires !Decodable(buf)
    ensures DecodeHeader(buf).Err?
  {
  }

  /** A buffer too short for the first `struct.unpack` raises `struct.error`. */
  lemma ShortBufferIsStructError(buf: Bytes)
    requires |buf| < 10
    ensures DecodeHeader(buf) == Err(StructError)
  {
  }

  /** An unknown device class raises `KeyError` before anything else is read. */
  lemma UnknownDeviceClass(buf: Bytes)
    requires |buf| >= 10 && Latin1(Slice(buf, 12, 16)) !in ProfileClasses
    ensures DecodeHeader(buf) == Err(KeyError)
  {
  }

  /** Size, CMM type, version and rendering intent are the big-endian
      integers at their offsets. */
  lemma HeaderIntegers(buf: Bytes)
    requires DecodeHeader(buf).Ok?
    ensures |buf| >= 80
    ensures DecodeHeader(buf).value.size == BigEndian(buf[0..4])
    ensures DecodeHeader(buf).value.cmmType == BigEndian(buf[4..8])
    ensures DecodeHeader(buf).value.version == VersionOf(buf[8], buf[9])
    ensures DecodeHeader(buf).value.intent == IntentName(BigEndian(buf[64..68]))
    ensures DecodeHeader(buf).value.flags == FlagsText(Word32(buf[44..48]))
    ensures DecodeHeader(buf).value.attributes == AttributesText(Word64(buf[56..64]))
  {
    assert buf[0..10][0..4] == buf[0..4];
    assert buf[0..10][4..8] == buf[4..8];
  }

  /** Device class, colour space and connection space are the table entries
      of the signatures at bytes 12, 16 and 20. */
  lemma HeaderSignatures(buf: Bytes)
    requires DecodeHeader(buf).Ok?
    ensures |buf| >= 24
    ensures DecodeHeader(buf).value.deviceClass == ProfileClasses[Latin1(buf[12..16])]
    ensures DecodeHeader(buf).value.colorSpace == ColourSpaces[Latin1(buf[16..20])]
    ensures DecodeHeader(buf).value.connectionSpace == ColourSpaces[Latin1(buf[20..24])]
  {
  }

  /** Platform and creator read 'unrecognized', and the device model is
      empty, exactly when their four bytes are zero. */
  lemma HeaderZeroFields(buf: Bytes)
    requires DecodeHeader(buf).Ok?
    ensures |buf| >= 84 ==> (DecodeHeader(buf).value.creator == "unrecognized" <==> buf[80..84] == Zeros)
    ensures DecodeHeader(buf).value.platform == "unrecognized" <==> buf[40..44] == Zeros
    ensures DecodeHeader(buf).value.deviceModel == "" <==> buf[52..56] == Zeros
  {
  }

  /** The date is present exactly when its six fields make a valid date. */
  lemma HeaderDate(buf: Bytes)
    requires DecodeHeader(buf).Ok?
    ensures |buf| >= 36
    ensures DecodeHeader(buf).value.datetime.Some? <==> ValidDateTime(DateFields(buf[24..36]))
  {
  }

  /** A profile id is read exactly when the version string starts with '4';
      it is bytes 84 to 99, or fewer when the buffer ends earlier. */
  lemma HeaderProfileId(buf: Bytes)
    requires DecodeHeader(buf).Ok?
    ensures |buf| >= 10
    ensures DecodeHeader(buf).value.profileId.Some? <==> LeadingDigit(buf[8]) == 4
    ensures DecodeHeader(buf).value.profileId.Some? && |buf| >= 100 ==>
              DecodeHeader(buf).value.profileId.value == buf[84..100]
  {
    VersionTextStartsWithFour(VersionOf(buf[8], buf[9]));
  }

  /** The illuminant is the three s15Fixed16 numbers at bytes 68 to 79. */
  lemma HeaderIlluminant(buf: Bytes)
    requires DecodeHeader(buf).Ok?
    ensures |buf| >= 80
    ensures DecodeHeader(buf).value.illuminant ==
              [Illuminant(buf[68..80], 0), Illuminant(buf[68..80], 1), Illuminant(buf[68..80], 2)]
  {
  }
}
