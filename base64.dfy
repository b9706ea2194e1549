/**
 * Base64 as the PKCE code uses it. Both the server (api/api.js:548) and the
 * browser (app/src/lib/Auth.js:28) compute a challenge string by running
 * `btoa` over the digest bytes, which is the standard alphabet of section 4 of
 * RFC 4648 with `=` padding, then replacing every `+` by `-`, every `/` by `_`,
 * and finally removing the trailing run of `=`. This module defines that
 * pipeline as written, the URL-safe alphabet of section 5 of RFC 4648 without
 * padding (section 3.2) as an independent reference, proves the two equal, and
 * gives a decoder that inverts the reference encoding.
 */
module Base64 {
  import opened Common
  import opened Js

  /** The standard alphabet (Table 1 of RFC 4648). */
  function StdChar(i: nat): char
    requires i < 64
  {
    if i < 26 then (65 + i) as char
    else if i < 52 then (71 + i) as char
    else if i < 62 then (i - 4) as char
    else if i == 62 then '+'
    else '/'
  }

  /** The URL and filename safe alphabet (Table 2 of RFC 4648). */
  function UrlChar(i: nat): char
    requires i < 64
  {
    if i == 62 then '-' else if i == 63 then '_' else StdChar(i)
  }

  /** The characters of the URL and filename safe alphabet: `A-Z a-z 0-9 - _`. */
  predicate IsUrlSafe(c: char) {
    'A' <= c <= 'Z' || 'a' <= c <= 'z' || '0' <= c <= '9' || c == '-' || c == '_'
  }

  /** The position of a character in the URL-safe alphabet, if it belongs to it. */
  function UrlIndex(c: char): (r: Option<nat>)
    ensures r.Some? ==> r.value < 64
  {
    if 'A' <= c <= 'Z' then Some(c as int - 65)
    else if 'a' <= c <= 'z' then Some(c as int - 71)
    else if '0' <= c <= '9' then Some(c as int + 4)
    else if c == '-' then Some(62)
    else if c == '_' then Some(63)
    else None
  }

  lemma UrlCharInverse(i: nat)
    requires i < 64
    ensures IsUrlSafe(UrlChar(i)) && UrlIndex(UrlChar(i)) == Some(i)
  {
  }

  /**
   * The six-bit groups of section 4 of RFC 4648, most significant bits first;
   * a final partial group of one or two bytes is filled with zero bits.
   */
  function Sextets(b: seq<byte>): (q: seq<nat>)
    ensures |q| == (4 * |b| + 2) / 3
    ensures forall i :: 0 <= i < |q| ==> q[i] < 64
    decreases |b|
  {
    if |b| == 0 then []
    else if |b| == 1 then [b[0] / 4, (b[0] % 4) * 16]
    else if |b| == 2 then [b[0] / 4, (b[0] % 4) * 16 + b[1] / 16, (b[1] % 16) * 4]
    else [b[0] / 4, (b[0] % 4) * 16 + b[1] / 16, (b[1] % 16) * 4 + b[2] / 64, b[2] % 64] + Sextets(b[3..])
  }

  /** The `=` characters that complete the last quantum of a `btoa` output. */
  function Padding(n: nat): string {
    if n % 3 == 1 then "==" else if n % 3 == 2 then "=" else ""
  }

  /** The characters of the standard alphabet: `A-Z a-z 0-9 + /`. */
  predicate IsStdChar(c: char) {
    'A' <= c <= 'Z' || 'a' <= c <= 'z' || '0' <= c <= '9' || c == '+' || c == '/'
  }

  /** The sextets of `n` bytes and their padding fill whole four-character groups. */
  lemma PaddedLength(n: nat)
    ensures (4 * n + 2) / 3 + |Padding(n)| == 4 * ((n + 2) / 3)
  {
    var k, m := n / 3, n % 3;
    assert n == 3 * k + m;
    assert 4 * n + 2 == 3 * (4 * k + m) + (m + 2);
    assert (4 * n + 2) / 3 == 4 * k + m + (m + 2) / 3;
    assert (n + 2) / 3 == k + (m + 2) / 3;
  }

  /** The standard-alphabet characters of a sequence of sextets. */
  function StdChars(q: seq<nat>): (r: string)
    requires forall i :: 0 <= i < |q| ==> q[i] < 64
    ensures |r| == |q| && forall i :: 0 <= i < |r| ==> IsStdChar(r[i])
  {
    seq(|q|, i requires 0 <= i < |q| => StdChar(q[i]))
  }

  /** Padding is `=` only, at most two of them. */
  lemma PaddingShape(n: nat)
    ensures |Padding(n)| <= 2 && forall i :: 0 <= i < |Padding(n)| ==> Padding(n)[i] == '='
  {
  }

  /**
   * `btoa(String.fromCharCode.apply(null, b))`: `ceil(n/3)` groups of four
   * standard-alphabet characters, of which only the last two may be `=`.
   */
  function Btoa(b: seq<byte>): (r: string)
    ensures |r| == 4 * ((|b| + 2) / 3)
    ensures forall i :: 0 <= i < |r| ==> IsStdChar(r[i]) || (r[i] == '=' && i >= |r| - 2)
  {
    var c, p := StdChars(Sextets(b)), Padding(|b|);
    PaddedLength(|b|);
    PaddingShape(|b|);
    assert forall i :: 0 <= i < |c + p| ==> (c + p)[i] == if i < |c| then c[i] else p[i - |c|];
    c + p
  }

  /** The replacements of `+` and `/` in the `btoa` output give the URL-safe encoding followed by the padding. */
  lemma ReplacedBtoa(b: seq<byte>)
    ensures ReplaceAll(ReplaceAll(Btoa(b), '+', '-'), '/', '_') == Base64UrlNoPad(b) + Padding(|b|)
  {
    var q := Sextets(b);
    var u := Base64UrlNoPad(b);
    var p := Padding(|b|);
    var replaced := ReplaceAll(ReplaceAll(Btoa(b), '+', '-'), '/', '_');
    forall i | 0 <= i < |replaced| ensures replaced[i] == (u + p)[i] {
      if i < |q| {
        assert Btoa(b)[i] == StdChar(q[i]);
      } else {
        assert Btoa(b)[i] == p[i - |q|];
      }
    }
  }

  /**
   * The challenge encoding exactly as both source files write it: `btoa`,
   * the two replaces and the removal of trailing `=`. It is unpadded
   * base64url for every input.
   */
  function EncodeAsWritten(b: seq<byte>): (r: string)
    ensures r == Base64UrlNoPad(b)
  {
    var u := Base64UrlNoPad(b);
    ReplacedBtoa(b);
    assert u == [] || IsUrlSafe(u[|u| - 1]);
    StripPadding(u, Padding(|b|), '=');
    StripTrailing(ReplaceAll(ReplaceAll(Btoa(b), '+', '-'), '/', '_'), '=')
  }

  /** Reference: the URL-safe alphabet of section 5 of RFC 4648, padding omitted. */
  function Base64UrlNoPad(b: seq<byte>): (s: string)
    ensures |s| == (4 * |b| + 2) / 3
    ensures forall i :: 0 <= i < |s| ==> IsUrlSafe(s[i])
  {
    var q := Sextets(b);
    seq(|q|, i requires 0 <= i < |q| => UrlChar(q[i]))
  }

  /** Removing a trailing run of `c` from `u + p` gives `u` when `p` is all `c` and `u` does not end in `c`. */
  lemma StripPadding(u: string, p: string, c: char)
    requires u == [] || u[|u| - 1] != c
    requires forall i :: 0 <= i < |p| ==> p[i] == c
    ensures StripTrailing(u + p, c) == u
  {
    var s := u + p;
    var r := StripTrailing(s, c);
    if u != [] {
      assert s[|u| - 1] == u[|u| - 1];
    }
    assert |r| > 0 ==> r[|r| - 1] == s[|r| - 1];
    assert r == s[..|u|] == u;
  }

  /** The unpadded base64url output is drawn from `A-Z a-z 0-9 - _` and never contains `=`. */
  lemma AsWrittenAlphabet(b: seq<byte>)
    ensures |EncodeAsWritten(b)| == (4 * |b| + 2) / 3
    ensures forall i :: 0 <= i < |EncodeAsWritten(b)| ==> IsUrlSafe(EncodeAsWritten(b)[i])
    ensures '=' !in EncodeAsWritten(b)
  {
  }

  // ---------------------------------------------------------------------------
  // Decoding

  /** The alphabet positions of every character, or None if one is outside the alphabet. */
  function Indices(s: string): (r: Option<seq<nat>>)
    ensures r.Some? ==> |r.value| == |s| && forall i :: 0 <= i < |s| ==> r.value[i] < 64
    decreases |s|
  {
    if s == [] then Some([])
    else
      match (UrlIndex(s[0]), Indices(s[1..]))
      case (Some(i), Some(rest)) => Some([i] + rest)
      case _ => None
  }

  /** The three bytes of a full group of four sextets. */
  function Quantum(a: nat, b: nat, c: nat, d: nat): seq<byte>
    requires a < 64 && b < 64 && c < 64 && d < 64
  {
    [a * 4 + b / 16, (b % 16) * 16 + c / 4, (c % 4) * 64 + d]
  }

  /** Bytes from six-bit groups: four groups give three bytes, a final two or three give one or two. */
  function FromSextets(q: seq<nat>): Option<seq<byte>>
    requires forall i :: 0 <= i < |q| ==> q[i] < 64
    decreases |q|
  {
    if |q| == 0 then Some([])
    else if |q| == 1 then None
    else if |q| == 2 then Some([q[0] * 4 + q[1] / 16])
    else if |q| == 3 then Some([q[0] * 4 + q[1] / 16, (q[1] % 16) * 16 + q[2] / 4])
    else
      match FromSextets(q[4..])
      case None => None
      case Some(rest) =>
        Some(Quantum(q[0], q[1], q[2], q[3]) + rest)
  }

  /** Decoding of unpadded base64url text. */
  function DecodeUrlNoPad(s: string): Option<seq<byte>> {
    match Indices(s)
    case None => None
    case Some(q) => FromSextets(q)
  }

  lemma {:induction false} IndicesOfUrlChars(q: seq<nat>)
    requires forall i :: 0 <= i < |q| ==> q[i] < 64
    ensures Indices(seq(|q|, i requires 0 <= i < |q| => UrlChar(q[i]))) == Some(q)
    decreases |q|
  {
    var s := seq(|q|, i requires 0 <= i < |q| => UrlChar(q[i]));
    if q != [] {
      UrlCharInverse(q[0]);
      IndicesOfUrlChars(q[1..]);
      assert s[1..] == seq(|q[1..]|, i requires 0 <= i < |q[1..]| => UrlChar(q[1..][i]));
      assert [q[0]] + q[1..] == q;
    }
  }

  /** One three-byte group survives the split into four sextets and back. */
  lemma GroupRoundTrip(x: byte, y: byte, z: byte)
    ensures (x / 4) * 4 + ((x % 4) * 16 + y / 16) / 16 == x
    ensures (((x % 4) * 16 + y / 16) % 16) * 16 + ((y % 16) * 4 + z / 64) / 4 == y
    ensures (((y % 16) * 4 + z / 64) % 4) * 64 + z % 64 == z
  {
  }

  /** The four sextets of three bytes decode to those bytes. */
  lemma QuantumOfGroup(x: byte, y: byte, z: byte)
    ensures Quantum(x / 4, (x % 4) * 16 + y / 16, (y % 16) * 4 + z / 64, z % 64) == [x, y, z]
  {
    GroupRoundTrip(x, y, z);
  }

  /** Decoding a full quantum followed by more sextets. */
  lemma FromSextetsQuantum(g: seq<nat>, rest: seq<nat>)
    requires |g| == 4 && forall i :: 0 <= i < 4 ==> g[i] < 64
    requires forall i :: 0 <= i < |rest| ==> rest[i] < 64
    requires FromSextets(rest).Some?
    ensures FromSextets(g + rest)
         == Some(Quantum(g[0], g[1], g[2], g[3]) + FromSextets(rest).value)
  {
    assert (g + rest)[4..] == rest;
  }

  /** A final group of one byte decodes back. */
  lemma FromSextetsOfOne(x: byte)
    ensures FromSextets(Sextets([x])) == Some([x])
  {
    var q := Sextets([x]);
    assert q == [x / 4, (x % 4) * 16];
    GroupRoundTrip(x, 0, 0);
    var d := q[0] * 4 + q[1] / 16;
    assert d == x;
  }

  /** A final group of two bytes decodes back. */
  lemma FromSextetsOfTwo(x: byte, y: byte)
    ensures FromSextets(Sextets([x, y])) == Some([x, y])
  {
    var q := Sextets([x, y]);
    assert q == [x / 4, (x % 4) * 16 + y / 16, (y % 16) * 4];
    GroupRoundTrip(x, y, 0);
    var d0, d1 := q[0] * 4 + q[1] / 16, (q[1] % 16) * 16 + q[2] / 4;
    assert d0 == x && d1 == y;
  }

  /** Encoding three bytes and more: one full quantum, then the rest. */
  lemma SextetsOfHead(x: byte, y: byte, z: byte, rest: seq<byte>)
    ensures Sextets([x, y, z] + rest)
         == [x / 4, (x % 4) * 16 + y / 16, (y % 16) * 4 + z / 64, z % 64] + Sextets(rest)
  {
    assert ([x, y, z] + rest)[3..] == rest;
  }

  /** The first three bytes of a longer string give back a full quantum. */
  lemma FromSextetsOfHead(x: byte, y: byte, z: byte, rest: seq<byte>)
    requires FromSextets(Sextets(rest)) == Some(rest)
    ensures FromSextets(Sextets([x, y, z] + rest)) == Some([x, y, z] + rest)
  {
    var g := [x / 4, (x % 4) * 16 + y / 16, (y % 16) * 4 + z / 64, z % 64];
    SextetsOfHead(x, y, z, rest);
    FromSextetsQuantum(g, Sextets(rest));
    QuantumOfGroup(x, y, z);
  }

  lemma {:induction false} FromSextetsOfBytes(b: seq<byte>)
    ensures FromSextets(Sextets(b)) == Some(b)
    decreases |b|
  {
    if |b| == 1 {
      FromSextetsOfOne(b[0]);
      assert [b[0]] == b;
    } else if |b| == 2 {
      FromSextetsOfTwo(b[0], b[1]);
      assert [b[0], b[1]] == b;
    } else if |b| >= 3 {
      FromSextetsOfBytes(b[3..]);
      FromSextetsOfHead(b[0], b[1], b[2], b[3..]);
      assert [b[0], b[1], b[2]] + b[3..] == b;
    }
  }

  /** Decoding inverts the reference encoding, so the encoding is injective. */
  lemma DecodeEncode(b: seq<byte>)
    ensures DecodeUrlNoPad(Base64UrlNoPad(b)) == Some(b)
  {
    IndicesOfUrlChars(Sextets(b));
    FromSextetsOfBytes(b);
  }

  /** Two byte strings with the same encoding are equal. */
  lemma EncodingInjective(b1: seq<byte>, b2: seq<byte>)
    requires Base64UrlNoPad(b1) == Base64UrlNoPad(b2)
    ensures b1 == b2
  {
    DecodeEncode(b1);
    DecodeEncode(b2);
  }
}
