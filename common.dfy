/** Values shared by every part of the model: failure wrappers, the pixel
    types of the rasters, georeferencing, and the few pieces of Python string
    and Windows path semantics the pipeline relies on. */
module Common {

  datatype Option<T> = None | Some(value: T)

  datatype Result<T, E> = Ok(value: T) | Err(error: E) {
    predicate IsFailure() {
      Err?
    }

    function PropagateFailure<U>(): Result<U, E>
      requires Err?
    {
      Err(error)
    }

    function Extract(): T
      requires Ok?
    {
      value
    }
  }

  /** A pixel of an unsigned 16-bit raster (the type of every Sentinel-2 band). */
  type U16 = x: int | 0 <= x < 0x1_0000

  /** A pixel of an unsigned 8-bit raster. */
  type U8 = x: int | 0 <= x < 0x100

  /** A floating-point pixel. Rounding is not modelled: a finite value is a real;
      NaN is the value numpy stores when `None` is assigned into a float array. */
  datatype F32 = Num(v: real) | NaN

  /** The affine transform (six coefficients) and the projection text that GDAL
      attaches to a raster. */
  datatype GeoRef = GeoRef(transform: seq<real>, projection: string)

  /** numpy's arithmetic on uint16 arrays: the result is reduced modulo 2^16. */
  function Wrap16(x: int): (r: U16)
    ensures (r - x) % 0x1_0000 == 0
    ensures 0 <= x < 0x1_0000 ==> r == x
  {
    x % 0x1_0000
  }

  /** Python's normalisation of a slice bound `i` against a length `n`:
      negative bounds count from the end, and both ends are clamped. */
  function SliceBound(i: int, n: nat): (k: nat)
    ensures k <= n
    ensures 0 <= i <= n ==> k == i
    ensures -(n as int) <= i < 0 ==> k as int == n as int + i
  {
    if i < 0 then (if n + i < 0 then 0 else n + i)
    else if i > n then n
    else i
  }

  /** Python's `s[i:j]` on a string or list. */
  function Slice<T>(s: seq<T>, i: int, j: int): (r: seq<T>)
    ensures SliceBound(i, |s|) <= SliceBound(j, |s|) ==>
              r == s[SliceBound(i, |s|)..SliceBound(j, |s|)]
    ensures SliceBound(i, |s|) > SliceBound(j, |s|) ==> r == []
  {
    var a, b := SliceBound(i, |s|), SliceBound(j, |s|);
    if a <= b then s[a..b] else []
  }

  /** Python's `t in s` for strings: `t` occurs as a contiguous piece of `s`. */
  predicate Contains(s: string, t: string)
    decreases |s|
  {
    if |t| > |s| then false
    else if s[..|t|] == t then true
    else |s| > 0 && Contains(s[1..], t)
  }

  lemma {:induction false} ContainsAt(s: string, t: string, i: nat)
    requires i + |t| <= |s| && s[i..i + |t|] == t
    ensures Contains(s, t)
    decreases i
  {
    if i > 0 && s[..|t|] != t {
      assert s[1..][i - 1..i - 1 + |t|] == s[i..i + |t|];
      ContainsAt(s[1..], t, i - 1);
    }
  }

  /** The path separator of the Windows host the pipeline runs on. */
  const Sep: char := '\\'

  /** ntpath accepts both slashes as separators. */
  predicate IsSep(c: char) {
    c == '\\' || c == '/'
  }

  predicate NoSep(s: string) {
    forall k :: 0 <= k < |s| ==> !IsSep(s[k])
  }

  /** The position of the last separator among the first `n` characters,
      or -1 when there is none. */
  function LastSepBefore(p: string, n: nat): (i: int)
    requires n <= |p|
    ensures -1 <= i < n
    ensures i >= 0 ==> IsSep(p[i])
    ensures forall k :: i < k < n ==> !IsSep(p[k])
    decreases n
  {
    if n == 0 then -1 else if IsSep(p[n - 1]) then n - 1 else LastSepBefore(p, n - 1)
  }

  /** `os.path.basename`: the longest separator-free tail of the path. */
  function Basename(p: string): (r: string)
    ensures |r| <= |p| && r == p[|p| - |r|..]
    ensures NoSep(r)
    ensures |r| < |p| ==> IsSep(p[|p| - |r| - 1])
  {
    p[LastSepBefore(p, |p|) + 1..]
  }

  /** `os.path.join(a, b)` for a relative `b` without a drive: a separator is
      inserted unless `a` is empty or already ends with one. An absolute `b`
      replaces `a`. */
  function Join(a: string, b: string): (r: string)
    ensures |b| > 0 && IsSep(b[0]) ==> r == b
    ensures NoSep(b) ==> Basename(r) == b && r == r[..|r| - |b|] + b
  {
    if |b| > 0 && IsSep(b[0]) then b
    else if a == "" || IsSep(a[|a| - 1]) then
      assert NoSep(b) ==> Basename(a + b) == b by {
        if NoSep(b) { BasenameAfterSep(a, b); }
      }
      a + b
    else
      assert NoSep(b) ==> Basename(a + [Sep] + b) == b by {
        if NoSep(b) { BasenameAfterSep(a + [Sep], b); }
      }
      a + [Sep] + b
  }

  /** A separator-free name placed after a separator (or alone) is the basename. */
  lemma BasenameAfterSep(a: string, b: string)
    requires a == "" || IsSep(a[|a| - 1])
    requires NoSep(b)
    ensures Basename(a + b) == b
  {
    var s := a + b;
    var i := LastSepBefore(s, |s|);
    assert forall k :: |a| <= k < |s| ==> s[k] == b[k - |a|];
    assert i < |a|;
    if a != "" {
      assert s[|a| - 1] == a[|a| - 1];
    }
    assert i == |a| - 1;
    assert s[|a|..] == b;
  }

  /** A path is its directory part followed by its basename, and the
      directory part is empty or ends with a separator. */
  lemma BasenameSplit(p: string)
    ensures var a := p[..|p| - |Basename(p)|];
            p == a + Basename(p) && (a == "" || IsSep(a[|a| - 1]))
  {
    var b := Basename(p);
    var a := p[..|p| - |b|];
    assert p == a + b;
    if |b| < |p| {
      assert a[|a| - 1] == p[|p| - |b| - 1];
    }
  }

  lemma NoSepConcat(s: string, t: string)
    requires NoSep(s) && NoSep(t)
    ensures NoSep(s + t)
  {
    forall k | 0 <= k < |s + t| ensures !IsSep((s + t)[k]) {
      if k < |s| { assert (s + t)[k] == s[k]; } else { assert (s + t)[k] == t[k - |s|]; }
    }
  }

  /** Appending a separator-free suffix extends the basename by that suffix. */
  lemma {:induction false} BasenameAppend(p: string, ext: string)
    requires NoSep(ext)
    ensures Basename(p + ext) == Basename(p) + ext
  {
    var b := Basename(p);
    var a := p[..|p| - |b|];
    BasenameSplit(p);
    NoSepConcat(b, ext);
    BasenameAfterSep(a, b + ext);
    assert p + ext == a + (b + ext) by { assert p == a + b; }
  }

  /** A prefix of a separator-free string is separator-free. */
  lemma NoSepPrefix(s: string, n: nat)
    requires NoSep(s) && n <= |s|
    ensures NoSep(s[..n])
  {
    forall k | 0 <= k < n ensures !IsSep(s[..n][k]) {
      assert s[..n][k] == s[k];
    }
  }

  function Digit(d: nat): (c: char)
    requires d < 10
    ensures '0' <= c <= '9'
  {
    "0123456789"[d]
  }

  /** Python's `str(n)`: the decimal digits of n, most significant first. */
  function DecimalText(n: nat): (s: string)
    ensures |s| >= 1
    ensures forall i :: 0 <= i < |s| ==> '0' <= s[i] <= '9'
  {
    if n < 10 then [Digit(n)] else DecimalText(n / 10) + [Digit(n % 10)]
  }

  /** The value of a string of decimal digits (the inverse of `DecimalText`). */
  function DecimalValue(s: string): nat
    requires forall i :: 0 <= i < |s| ==> '0' <= s[i] <= '9'
  {
    if s == [] then 0 else DecimalValue(s[..|s| - 1]) * 10 + (s[|s| - 1] as int - '0' as int)
  }

  lemma {:induction false} DecimalRoundTrip(n: nat)
    ensures DecimalValue(DecimalText(n)) == n
  {
    if n >= 10 {
      var s := DecimalText(n);
      assert s[..|s| - 1] == DecimalText(n / 10);
      DecimalRoundTrip(n / 10);
    }
  }


  /** Python's `s.split(c)` for a one-character separator. */
  function SplitOn(s: string, c: char): (parts: seq<string>)
    ensures |parts| >= 1
    ensures forall i :: 0 <= i < |parts| ==> c !in parts[i]
  {
    if s == [] then [""]
    else
      var rest := SplitOn(s[1..], c);
      if s[0] == c then [""] + rest
      else [[s[0]] + rest[0]] + rest[1..]
  }

  /** Python's `c.join(parts)`. */
  function JoinOn(parts: seq<string>, c: char): string
    requires |parts| >= 1
  {
    if |parts| == 1 then parts[0] else parts[0] + [c] + JoinOn(parts[1..], c)
  }

  /** A string without the separator is one field. */
  lemma {:induction false} SplitNoSep(p: string, c: char)
    requires c !in p
    ensures SplitOn(p, c) == [p]
  {
    if p != [] {
      assert c !in p[1..] by {
        assert forall i :: 0 <= i < |p| - 1 ==> p[1..][i] == p[i + 1];
      }
      SplitNoSep(p[1..], c);
      assert [p[0]] + p[1..] == p;
    }
  }

  /** The first separator ends the first field. */
  lemma {:induction false} SplitAtSep(p: string, c: char, q: string)
    requires c !in p
    ensures SplitOn(p + [c] + q, c) == [p] + SplitOn(q, c)
  {
    if p == [] {
      assert p + [c] + q == [c] + q;
      assert ([c] + q)[1..] == q;
    } else {
      var s := p + [c] + q;
      assert s[1..] == p[1..] + [c] + q;
      assert c !in p[1..] by {
        assert forall i :: 0 <= i < |p| - 1 ==> p[1..][i] == p[i + 1];
      }
      SplitAtSep(p[1..], c, q);
      assert [p[0]] + p[1..] == p;
    }
  }

  /** Joining the fields of a split gives the string back. */
  lemma {:induction false} JoinSplit(s: string, c: char)
    ensures JoinOn(SplitOn(s, c), c) == s
  {
    if s != [] {
      JoinSplit(s[1..], c);
      var rest := SplitOn(s[1..], c);
      if s[0] == c {
        assert ([""] + rest)[1..] == rest;
      } else {
        var parts := [[s[0]] + rest[0]] + rest[1..];
        if |rest| == 1 {
          assert parts == [[s[0]] + rest[0]];
        } else {
          assert parts[1..] == rest[1..];
          assert JoinOn(rest, c) == rest[0] + [c] + JoinOn(rest[1..], c);
        }
      }
    }
  }

  /** Splitting a join gives the fields back when none holds the separator. */
  lemma {:induction false} SplitJoin(parts: seq<string>, c: char)
    requires |parts| >= 1
    requires forall i :: 0 <= i < |parts| ==> c !in parts[i]
    ensures SplitOn(JoinOn(parts, c), c) == parts
  {
    if |parts| == 1 {
      SplitNoSep(parts[0], c);
    } else {
      SplitJoin(parts[1..], c);
      SplitAtSep(parts[0], c, JoinOn(parts[1..], c));
      assert [parts[0]] + parts[1..] == parts;
    }
  }
}
