/**
 * The colour parser `hex_to_rgb` of the web server: it strips every leading
 * '#', cuts the rest into chunks of `len // 3` characters and reads each chunk
 * in base 16.  The chunk length is computed from the input, so a 6-digit
 * string gives three values below 256, a 3-digit string three values below 16
 * (no digit doubling as in CSS) and other lengths give other shapes.
 */
module HexColor {
  import opened Wrappers

  /** Why `hex_to_rgb` raises. */
  datatype HexError =
    | ZeroStep                      // fewer than 3 characters: `range` is given step 0
    | InvalidLiteral(chunk: string) // a chunk that `int(chunk, 16)` rejects

  /** `value.lstrip('#')`: every leading '#' goes. */
  function StripHashes(s: string): (r: string)
    ensures |r| <= |s|
    ensures forall i :: 0 <= i < |s| - |r| ==> s[i] == '#'
    ensures r == [] || r[0] != '#'
  {
    if |s| > 0 && s[0] == '#' then StripHashes(s[1..]) else s
  }

  /** ... and nothing else: what is left is the rest of the string, untouched. */
  lemma {:induction false} StripKeepsSuffix(s: string)
    ensures StripHashes(s) == s[|s| - |StripHashes(s)|..]
  {
    if |s| > 0 && s[0] == '#' {
      StripKeepsSuffix(s[1..]);
      assert s[1..][|s| - 1 - |StripHashes(s)|..] == s[|s| - |StripHashes(s)|..];
    }
  }

  predicate IsHexDigit(c: char) {
    '0' <= c <= '9' || 'a' <= c <= 'f' || 'A' <= c <= 'F'
  }

  predicate AllHex(s: string) {
    forall i :: 0 <= i < |s| ==> IsHexDigit(s[i])
  }

  /** The value of one hexadecimal digit, either case. */
  function DigitValue(c: char): (d: nat)
    requires IsHexDigit(c)
    ensures d < 16
  {
    if '0' <= c <= '9' then c as int - '0' as int
    else if 'a' <= c <= 'f' then c as int - 'a' as int + 10
    else c as int - 'A' as int + 10
  }

  function Pow16(n: nat): (p: nat)
    ensures p >= 1
  {
    if n == 0 then 1 else 16 * Pow16(n - 1)
  }

  /** The base-16 value of a string of digits, most significant first. */
  function HexValue(s: string): (v: nat)
    requires AllHex(s)
    ensures v < Pow16(|s|)
  {
    if s == [] then 0 else HexValue(s[..|s| - 1]) * 16 + DigitValue(s[|s| - 1])
  }

  /** The chunks `s[i:i + k]` for `i` in `range(0, len(s), k)`: the last one may be short. */
  function Chunks(s: string, k: nat): (cs: seq<string>)
    requires k > 0
    ensures forall j :: 0 <= j < |cs| ==> 0 < |cs[j]| <= k
    decreases |s|
  {
    if s == [] then []
    else if |s| <= k then [s]
    else [s[..k]] + Chunks(s[k..], k)
  }

  /** Joined back together, the chunks give the string they were cut from. */
  lemma {:induction false} ChunksFlatten(s: string, k: nat)
    requires k > 0
    ensures Flatten(Chunks(s, k)) == s
    decreases |s|
  {
    if |s| > k {
      ChunksFlatten(s[k..], k);
      var cs := Chunks(s, k);
      assert cs[1..] == Chunks(s[k..], k);
      assert Flatten(cs) == s[..k] + s[k..];
    } else if s != [] {
      assert Flatten([s]) == s + Flatten([]);
    }
  }

  function Flatten(cs: seq<string>): string {
    if cs == [] then [] else cs[0] + Flatten(cs[1..])
  }

  predicate ChunkOk(c: string) {
    c != [] && AllHex(c)
  }

  /**
   * `int(c, 16)` over the chunks, left to right; the first chunk that is not
   * made of hex digits raises.
   */
  function ParseChunks(cs: seq<string>): (r: Result<seq<nat>, HexError>)
    ensures r.Ok? <==> forall j :: 0 <= j < |cs| ==> ChunkOk(cs[j])
    ensures r.Ok? ==> |r.value| == |cs|
    ensures r.Ok? ==> forall j :: 0 <= j < |cs| ==> r.value[j] == HexValue(cs[j])
    ensures r.Err? ==> r.error.InvalidLiteral? && r.error.chunk in cs && !ChunkOk(r.error.chunk)
    ensures forall j :: 0 <= j < |cs| && !ChunkOk(cs[j]) && (forall i :: 0 <= i < j ==> ChunkOk(cs[i])) ==>
              r == Err(InvalidLiteral(cs[j]))
  {
    if cs == [] then Ok([])
    else if !ChunkOk(cs[0]) then Err(InvalidLiteral(cs[0]))
    else
      match ParseChunks(cs[1..])
      case Ok(rest) => Ok([HexValue(cs[0])] + rest)
      case Err(e) => Err(e)
  }

  /** `hex_to_rgb(value)`. */
  function HexToRgb(value: string): (r: Result<seq<nat>, HexError>)
    ensures r == Err(ZeroStep) <==> |StripHashes(value)| < 3
    ensures r.Ok? <==> |StripHashes(value)| >= 3 && AllHex(StripHashes(value))
  {
    var v := StripHashes(value);
    var step := |v| / 3;
    if step == 0 then Err(ZeroStep)
    else
      ChunksFlatten(v, step);
      ChunksHexIff(Chunks(v, step));
      ParseChunks(Chunks(v, step))
  }

  /** The string is all hex digits exactly when each of its non-empty chunks is. */
  lemma {:induction false} ChunksHexIff(cs: seq<string>)
    requires forall j :: 0 <= j < |cs| ==> cs[j] != []
    ensures AllHex(Flatten(cs)) <==> forall j :: 0 <= j < |cs| ==> ChunkOk(cs[j])
  {
    if cs != [] {
      ChunksHexIff(cs[1..]);
      var f := Flatten(cs[1..]);
      assert Flatten(cs) == cs[0] + f;
      if AllHex(Flatten(cs)) {
        assert forall i :: 0 <= i < |cs[0]| ==> (cs[0] + f)[i] == cs[0][i];
        assert forall i :: 0 <= i < |f| ==> (cs[0] + f)[|cs[0]| + i] == f[i];
        assert AllHex(f);
        forall j | 0 <= j < |cs| ensures ChunkOk(cs[j]) {
          if j > 0 { assert cs[j] == cs[1..][j - 1]; }
        }
      }
      if forall j :: 0 <= j < |cs| ==> ChunkOk(cs[j]) {
        forall j | 0 <= j < |cs[1..]| ensures ChunkOk(cs[1..][j]) {
          assert cs[1..][j] == cs[j + 1];
        }
        assert ChunkOk(cs[0]);
        forall i | 0 <= i < |cs[0] + f| ensures IsHexDigit((cs[0] + f)[i]) {
          if i >= |cs[0]| { assert (cs[0] + f)[i] == f[i - |cs[0]|]; }
        }
      }
    }
  }

  function Min(a: int, b: int): int { if a <= b then a else b }

  /** How many chunks there are: the smallest `n` with `n * k >= |s|`, i.e. `ceil(|s| / k)`. */
  lemma {:induction false} ChunkCount(s: string, k: nat)
    requires k > 0
    ensures |s| <= |Chunks(s, k)| * k
    ensures s != [] ==> (|Chunks(s, k)| - 1) * k < |s|
    decreases |s|
  {
    if |s| > k {
      ChunkCount(s[k..], k);
      var n := |Chunks(s[k..], k)|;
      assert |Chunks(s, k)| == n + 1;
      assert (n + 1) * k == n * k + k;
    }
  }

  /** Where chunk `j` starts: `j * k`, counted up one step at a time. */
  function Start(j: nat, k: nat): nat {
    if j == 0 then 0 else k + Start(j - 1, k)
  }

  lemma {:induction false} StartIsProduct(j: nat, k: nat)
    ensures Start(j, k) == j * k
  {
    if j > 0 {
      StartIsProduct(j - 1, k);
      assert k + (j - 1) * k == j * k;
    }
  }

  lemma {:induction false} ChunkAtStart(s: string, k: nat, j: nat)
    requires k > 0 && j < |Chunks(s, k)|
    ensures Start(j, k) < |s|
    ensures Chunks(s, k)[j] == s[Start(j, k) .. Min(Start(j, k) + k, |s|)]
    decreases |s|
  {
    assert s != [];
    if |s| <= k {
      assert Chunks(s, k) == [s];
      assert j == 0 && s[0 .. Min(k, |s|)] == s;
    } else {
      var t := s[k..];
      assert Chunks(s, k) == [s[..k]] + Chunks(t, k);
      if j > 0 {
        ChunkAtStart(t, k, j - 1);
        var lo := Start(j - 1, k);
        assert Start(j, k) == k + lo;
        assert Chunks(s, k)[j] == Chunks(t, k)[j - 1];
        var hi := Min(lo + k, |t|);
        assert lo <= hi <= |t|;
        assert k + hi == Min(Start(j, k) + k, |s|);
        SliceOfSuffix(s, k, lo, hi);
        assert Chunks(s, k)[j] == s[Start(j, k) .. k + hi];
      } else {
        assert Start(0, k) == 0 && Min(k, |s|) == k;
        assert Chunks(s, k)[0] == s[..k];
      }
    }
  }

  lemma SliceOfSuffix(s: string, k: nat, lo: nat, hi: nat)
    requires k <= |s| && lo <= hi <= |s| - k
    ensures s[k..][lo..hi] == s[k + lo .. k + hi]
  {
  }

  /** Chunk `j` is the slice `s[j*k : (j+1)*k]`, exactly as Python slices it. */
  lemma ChunkAt(s: string, k: nat, j: nat)
    requires k > 0 && j < |Chunks(s, k)|
    ensures j * k < |s|
    ensures Chunks(s, k)[j] == s[j * k .. Min((j + 1) * k, |s|)]
  {
    ChunkAtStart(s, k, j);
    StartIsProduct(j, k);
    StartIsProduct(j + 1, k);
  }

  lemma MulStrictMono(a: int, b: int, k: nat)
    requires k > 0 && a * k < b * k
    ensures a < b
  {
  }

  /**
   * How many components a successful parse has: with `lv` digits after
   * stripping and step `k = lv // 3` there are `ceil(lv / k)` of them, exactly
   * three when `lv` is a multiple of 3 and more than three otherwise.
   */
  lemma ComponentCount(value: string)
    requires HexToRgb(value).Ok?
    ensures var lv := |StripHashes(value)|; var n := |HexToRgb(value).value|;
      && (n - 1) * (lv / 3) < lv <= n * (lv / 3)
      && (n == 3 <==> lv % 3 == 0)
      && (lv % 3 != 0 ==> n > 3)
  {
    var v := StripHashes(value);
    var k := |v| / 3;
    var n := |HexToRgb(value).value|;
    assert n == |Chunks(v, k)|;
    ChunkCount(v, k);
    CountFromBounds(|v|, k, n);
  }

  lemma CountFromBounds(lv: nat, k: nat, n: int)
    requires k == lv / 3 && k > 0
    requires (n - 1) * k < lv <= n * k
    ensures n == 3 <==> lv % 3 == 0
    ensures lv % 3 != 0 ==> n > 3
  {
    if lv % 3 == 0 {
      assert lv == 3 * k;
      MulStrictMono(n - 1, 3, k);
      assert 2 * k < lv;
      MulStrictMono(2, n, k);
    } else {
      assert 3 * k < lv;
      MulStrictMono(3, n, k);
    }
  }

  /**
   * What each component of a successful parse is: component `j` is the base-16
   * value of the slice `v[j*k : (j+1)*k]` of the stripped string, so it is
   * below `16 ** k`; components come in left-to-right order.
   */
  lemma ComponentValues(value: string, j: nat)
    requires HexToRgb(value).Ok? && j < |HexToRgb(value).value|
    ensures var v := StripHashes(value); var k := |v| / 3;
      && j * k < |v|
      && AllHex(v[j * k .. Min((j + 1) * k, |v|)])
      && HexToRgb(value).value[j] == HexValue(v[j * k .. Min((j + 1) * k, |v|)])
      && HexToRgb(value).value[j] < Pow16(k)
  {
    var v := StripHashes(value);
    var k := |v| / 3;
    var cs := Chunks(v, k);
    assert HexToRgb(value) == ParseChunks(cs);
    ChunkAt(v, k, j);
    assert ChunkOk(cs[j]);
    PowMono(|cs[j]|, k);
  }

  lemma {:induction false} PowMono(m: nat, n: nat)
    requires m <= n
    ensures Pow16(m) <= Pow16(n)
    decreases n
  {
    if m < n { PowMono(m, n - 1); }
  }

  /** The usual `#rrggbb` form: three components, each the value of a 2-digit pair, all below 256. */
  lemma SixDigits(value: string)
    requires |StripHashes(value)| == 6 && AllHex(StripHashes(value))
    ensures var v := StripHashes(value);
      HexToRgb(value) == Ok([HexValue(v[0..2]), HexValue(v[2..4]), HexValue(v[4..6])])
    ensures forall j :: 0 <= j < 3 ==> HexToRgb(value).value[j] < 256
  {
    var v := StripHashes(value);
    Unfold(value);
    SixChunks(v);
    SliceHex(v, 0, 2);
    SliceHex(v, 2, 4);
    SliceHex(v, 4, 6);
    ParseThree(v[0..2], v[2..4], v[4..6]);
    assert Pow16(2) == 256;
  }

  /** `hex_to_rgb` once the step is known to be positive. */
  lemma Unfold(value: string)
    requires |StripHashes(value)| >= 3
    ensures var v := StripHashes(value); HexToRgb(value) == ParseChunks(Chunks(v, |v| / 3))
  {
  }

  lemma SixChunks(v: string)
    requires |v| == 6
    ensures Chunks(v, 2) == [v[0..2], v[2..4], v[4..6]]
  {
    var w, u := v[2..], v[4..];
    assert w[..2] == v[2..4] && w[2..] == u && u == v[4..6];
    assert Chunks(u, 2) == [u];
    assert Chunks(w, 2) == [w[..2]] + Chunks(u, 2);
  }

  lemma ParseThree(a: string, b: string, c: string)
    requires ChunkOk(a) && ChunkOk(b) && ChunkOk(c)
    ensures ParseChunks([a, b, c]) == Ok([HexValue(a), HexValue(b), HexValue(c)])
  {
    var cs := [a, b, c];
    assert forall j :: 0 <= j < 3 ==> ChunkOk(cs[j]);
    var r := ParseChunks(cs).value;
    assert r[0] == HexValue(cs[0]) && r[1] == HexValue(cs[1]) && r[2] == HexValue(cs[2]);
    assert r == [r[0], r[1], r[2]];
  }

  lemma SliceHex(s: string, lo: nat, hi: nat)
    requires AllHex(s) && lo <= hi <= |s|
    ensures AllHex(s[lo..hi])
  {
    assert forall i :: 0 <= i < hi - lo ==> s[lo..hi][i] == s[lo + i];
  }

  /** With step 1 every chunk is a single character. */
  lemma {:induction false} UnitChunks(s: string)
    ensures |Chunks(s, 1)| == |s|
    ensures forall j :: 0 <= j < |s| ==> Chunks(s, 1)[j] == [s[j]]
    decreases |s|
  {
    if |s| > 1 {
      UnitChunks(s[1..]);
      assert Chunks(s, 1) == [s[..1]] + Chunks(s[1..], 1);
      assert s[..1] == [s[0]];
    } else if |s| == 1 {
      assert Chunks(s, 1) == [s];
    }
  }

  /**
   * With 3 to 5 digits the step is 1: every single digit is a component of its
   * own, so every component is below 16.
   */
  lemma OneDigitComponents(value: string)
    requires 3 <= |StripHashes(value)| <= 5 && AllHex(StripHashes(value))
    ensures var v := StripHashes(value);
      && HexToRgb(value).Ok?
      && |HexToRgb(value).value| == |v|
      && forall j :: 0 <= j < |v| ==> HexToRgb(value).value[j] == DigitValue(v[j]) < 16
  {
    var v := StripHashes(value);
    assert |v| / 3 == 1;
    assert HexToRgb(value) == ParseChunks(Chunks(v, 1));
    UnitChunks(v);
    forall j | 0 <= j < |v| ensures HexToRgb(value).value[j] == DigitValue(v[j]) {
      SingleDigit(v[j]);
    }
  }

  lemma SingleDigit(c: char)
    requires IsHexDigit(c)
    ensures HexValue([c]) == DigitValue(c)
  {
    assert [c][..0] == [];
  }

  /**
   * The short `#rgb` form is NOT expanded as CSS does: each single digit is a
   * component of its own.
   */
  lemma ThreeDigits(value: string)
    requires |StripHashes(value)| == 3 && AllHex(StripHashes(value))
    ensures var v := StripHashes(value);
      HexToRgb(value) == Ok([DigitValue(v[0]), DigitValue(v[1]), DigitValue(v[2])])
  {
    OneDigitComponents(value);
    var rgb := HexToRgb(value).value;
    assert rgb == [rgb[0], rgb[1], rgb[2]];
  }

  /** Any number of leading '#' makes no difference: `lstrip`, not a one-character strip. */
  lemma {:induction false} HashesIgnored(h: string, s: string)
    requires forall i :: 0 <= i < |h| ==> h[i] == '#'
    ensures StripHashes(h + s) == StripHashes(s)
    ensures HexToRgb(h + s) == HexToRgb(s)
  {
    if h == [] {
      assert h + s == s;
    } else {
      assert (h + s)[0] == '#' && (h + s)[1..] == h[1..] + s;
      HashesIgnored(h[1..], s);
      assert StripHashes(h + s) == StripHashes(h[1..] + s);
    }
  }

  /** Lower-case digit for a value below 16. */
  function HexChar(d: nat): (c: char)
    requires d < 16
    ensures IsHexDigit(c) && DigitValue(c) == d && c != '#'
  {
    if d < 10 then ('0' as int + d) as char else ('a' as int + d - 10) as char
  }

  /** `n` written with exactly `w` hex digits, most significant first. */
  function ToHex(n: nat, w: nat): (r: string)
    ensures |r| == w && AllHex(r)
    ensures n < Pow16(w) ==> HexValue(r) == n
  {
    if w == 0 then []
    else
      var r := ToHex(n / 16, w - 1) + [HexChar(n % 16)];
      assert r[..|r| - 1] == ToHex(n / 16, w - 1);
      r
  }

  /** `"#" + rr + gg + bb` with three 2-digit pairs gives the three pair values. */
  lemma Pairs(x: string, y: string, z: string)
    requires |x| == 2 && |y| == 2 && |z| == 2
    requires AllHex(x) && AllHex(y) && AllHex(z)
    ensures HexToRgb("#" + x + y + z) == Ok([HexValue(x), HexValue(y), HexValue(z)])
  {
    var t := x + y + z;
    Concat3(x, y, z);
    Regroup("#", x, y, z);
    HashesIgnored("#", t);
    PlainSix(t);
  }

  lemma Regroup(h: string, x: string, y: string, z: string)
    ensures h + x + y + z == h + (x + y + z)
  {
  }

  lemma PlainSix(t: string)
    requires |t| == 6 && AllHex(t) && t[0] != '#'
    ensures HexToRgb(t) == Ok([HexValue(t[0..2]), HexValue(t[2..4]), HexValue(t[4..6])])
  {
    NoHashes(t);
    SixDigits(t);
  }

  lemma Concat3(x: string, y: string, z: string)
    requires |x| == 2 && |y| == 2 && |z| == 2
    requires AllHex(x) && AllHex(y) && AllHex(z)
    ensures var t := x + y + z;
      |t| == 6 && AllHex(t) && t[0] != '#' && t[0..2] == x && t[2..4] == y && t[4..6] == z
  {
    var t := x + y + z;
    forall i | 0 <= i < 6 ensures IsHexDigit(t[i]) {
      if i < 2 { assert t[i] == x[i]; }
      else if i < 4 { assert t[i] == y[i - 2]; }
      else { assert t[i] == z[i - 4]; }
    }
    assert t[0] == x[0] && IsHexDigit(x[0]);
  }

  lemma NoHashes(s: string)
    requires s == [] || s[0] != '#'
    ensures StripHashes(s) == s
  {
  }

  /**
   * Round trip with the colour form a colour picker sends: parsing
   * `"#" + rr + gg + bb` gives back the three channels.
   */
  lemma RoundTrip(r: nat, g: nat, b: nat)
    requires r < 256 && g < 256 && b < 256
    ensures HexToRgb("#" + ToHex(r, 2) + ToHex(g, 2) + ToHex(b, 2)) == Ok([r, g, b])
  {
    assert Pow16(2) == 256;
    Pairs(ToHex(r, 2), ToHex(g, 2), ToHex(b, 2));
  }

  /** `"abc"` gives (10, 11, 12): the short form is not doubled. */
  lemma ExampleShortForm()
    ensures HexToRgb("abc") == Ok([10, 11, 12])
  {
    assert StripHashes("abc") == "abc";
    ThreeDigits("abc");
  }

  /** Extra leading '#' are all stripped: `"##abc"` parses as `"abc"`. */
  lemma ExampleManyHashes()
    ensures HexToRgb("##abc") == Ok([10, 11, 12])
  {
    HashesIgnored("##", "abc");
    assert "##" + "abc" == "##abc";
    ExampleShortForm();
  }

  lemma ExampleLongForm()
    ensures HexToRgb("#ff8000") == Ok([255, 128, 0])
  {
    assert HexValue("ff") == 255 by { assert "ff"[..1] == "f"; assert "f"[..0] == ""; }
    assert HexValue("80") == 128 by { assert "80"[..1] == "8"; assert "8"[..0] == ""; }
    assert HexValue("00") == 0 by { assert "00"[..1] == "0"; assert "0"[..0] == ""; }
    Pairs("ff", "80", "00");
    assert "#" + "ff" + "80" + "00" == "#ff8000";
  }

  /** Two digits or fewer make the step 0, which `range` refuses. */
  lemma ExampleTooShort()
    ensures HexToRgb("#ab") == Err(ZeroStep)
    ensures HexToRgb("#") == Err(ZeroStep)
  {
    assert StripHashes("#ab") == "ab" by { assert "#ab"[1..] == "ab"; }
    assert StripHashes("#") == "" by { assert "#"[1..] == ""; }
  }

  /** Four digits give four one-digit components, not a colour. */
  lemma ExampleFourDigits()
    ensures HexToRgb("abcd") == Ok([10, 11, 12, 13])
  {
    assert StripHashes("abcd") == "abcd";
    OneDigitComponents("abcd");
    var rgb := HexToRgb("abcd").value;
    assert rgb == [rgb[0], rgb[1], rgb[2], rgb[3]];
  }

  /** A chunk that is not a hex digit raises. */
  lemma ExampleBadDigit()
    ensures HexToRgb("#abg") == Err(InvalidLiteral("g"))
  {
    assert StripHashes("#abg") == "abg" by { assert "#abg"[1..] == "abg"; }
    var cs := Chunks("abg", 1);
    assert cs == ["a", "b", "g"] by {
      assert "abg"[..1] == "a" && "abg"[1..] == "bg";
      assert "bg"[..1] == "b" && "bg"[1..] == "g";
    }
    assert ChunkOk("a") && ChunkOk("b");
    assert !ChunkOk("g") by { assert "g"[0] == 'g' && !IsHexDigit('g'); }
    assert ParseChunks(cs) == Err(InvalidLiteral("g")) by {
      assert cs[1..] == ["b", "g"] && cs[1..][1..] == ["g"];
    }
  }
}
