/**
 * The padded standard base64 encoding of section 4 of RFC 4648, as Go's
 * base64.StdEncoding decodes it: carriage returns and line feeds are skipped, the input
 * must come in whole four-character groups, '=' may only pad the last group, and the
 * unused low bits of a padded group are not checked.
 */
module Base64 {
  import opened Wrappers

  type byte = x: int | 0 <= x < 256

  /** The character for a six-bit value: A-Z, a-z, 0-9, '+', '/'. */
  function CharOf(k: int): (c: char)
    requires 0 <= k < 64
  {
    if k < 26 then (65 + k) as char
    else if k < 52 then (97 + k - 26) as char
    else if k < 62 then (48 + k - 52) as char
    else if k == 62 then '+'
    else '/'
  }

  predicate InAlphabet(c: char) {
    'A' <= c <= 'Z' || 'a' <= c <= 'z' || '0' <= c <= '9' || c == '+' || c == '/'
  }

  /** The six-bit value a character of the alphabet stands for. */
  function Sextet(c: char): (k: int)
    requires InAlphabet(c)
    ensures 0 <= k < 64
  {
    if 'A' <= c <= 'Z' then c as int - 65
    else if 'a' <= c <= 'z' then c as int - 97 + 26
    else if '0' <= c <= '9' then c as int - 48 + 52
    else if c == '+' then 62
    else 63
  }

  /** Sextet undoes CharOf. */
  lemma SextetOfCharOf(k: int)
    requires 0 <= k < 64
    ensures InAlphabet(CharOf(k)) && Sextet(CharOf(k)) == k
  {
  }

  /** Three bytes as four characters. */
  function Quad(x: byte, y: byte, z: byte): string {
    [CharOf(x / 4), CharOf(x % 4 * 16 + y / 16), CharOf(y % 16 * 4 + z / 64), CharOf(z % 64)]
  }

  /** The padded encoding: whole groups, then one or two bytes padded with "==" or "=". */
  function Encode(b: seq<byte>): (r: string)
    ensures |r| == 4 * ((|b| + 2) / 3)
  {
    if |b| == 0 then ""
    else if |b| == 1 then [CharOf(b[0] / 4), CharOf(b[0] % 4 * 16), '=', '=']
    else if |b| == 2 then [CharOf(b[0] / 4), CharOf(b[0] % 4 * 16 + b[1] / 16), CharOf(b[1] % 16 * 4), '=']
    else Quad(b[0], b[1], b[2]) + Encode(b[3..])
  }

  /** The characters the decoder skips wherever they occur. */
  function Strip(s: string): (r: string)
    ensures |r| <= |s|
  {
    if |s| == 0 then ""
    else if s[0] == '\r' || s[0] == '\n' then Strip(s[1..])
    else [s[0]] + Strip(s[1..])
  }

  /** The bytes of four characters of the alphabet. */
  function Triple(a: char, b: char, c: char, d: char): seq<byte>
    requires InAlphabet(a) && InAlphabet(b) && InAlphabet(c) && InAlphabet(d)
  {
    [Sextet(a) * 4 + Sextet(b) / 16, Sextet(b) % 16 * 16 + Sextet(c) / 4, Sextet(c) % 4 * 64 + Sextet(d)]
  }

  /** Decoding once line breaks are gone: None is Go's CorruptInputError. */
  function DecodeGroups(t: string): (r: Option<seq<byte>>)
    decreases |t|
  {
    if |t| == 0 then Some([])
    else if |t| < 4 then None
    else if InAlphabet(t[0]) && InAlphabet(t[1]) && InAlphabet(t[2]) && InAlphabet(t[3]) then
      match DecodeGroups(t[4..])
      case None => None
      case Some(rest) => Some(Triple(t[0], t[1], t[2], t[3]) + rest)
    else if |t| == 4 && InAlphabet(t[0]) && InAlphabet(t[1]) && t[2] == '=' && t[3] == '=' then
      Some([Sextet(t[0]) * 4 + Sextet(t[1]) / 16])
    else if |t| == 4 && InAlphabet(t[0]) && InAlphabet(t[1]) && InAlphabet(t[2]) && t[3] == '=' then
      Some([Sextet(t[0]) * 4 + Sextet(t[1]) / 16, Sextet(t[1]) % 16 * 16 + Sextet(t[2]) / 4])
    else None
  }

  /** base64.StdEncoding.DecodeString: Some(bytes) when err is nil. */
  function Decode(s: string): Option<seq<byte>> {
    DecodeGroups(Strip(s))
  }

  /** The encoding is made of alphabet characters and '=' only. */
  predicate EncodedChars(s: string) {
    forall i :: 0 <= i < |s| ==> InAlphabet(s[i]) || s[i] == '='
  }

  lemma {:induction false} EncodeChars(b: seq<byte>)
    ensures EncodedChars(Encode(b))
    decreases |b|
  {
    if |b| >= 3 {
      EncodeChars(b[3..]);
      var q := Quad(b[0], b[1], b[2]);
      SextetOfCharOf(b[0] / 4);
      SextetOfCharOf(b[0] % 4 * 16 + b[1] / 16);
      SextetOfCharOf(b[1] % 16 * 4 + b[2] / 64);
      SextetOfCharOf(b[2] % 64);
      assert forall i :: 0 <= i < 4 ==> InAlphabet(q[i]);
    } else if |b| == 2 {
      SextetOfCharOf(b[0] / 4);
      SextetOfCharOf(b[0] % 4 * 16 + b[1] / 16);
      SextetOfCharOf(b[1] % 16 * 4);
    } else if |b| == 1 {
      SextetOfCharOf(b[0] / 4);
      SextetOfCharOf(b[0] % 4 * 16);
    }
  }

  /** Text with no line breaks in it passes Strip unchanged. */
  lemma {:induction false} StripKeeps(s: string)
    requires forall i :: 0 <= i < |s| ==> s[i] != '\r' && s[i] != '\n'
    ensures Strip(s) == s
  {
    if |s| > 0 {
      StripKeeps(s[1..]);
    }
  }

  /** A value cut at a power of two and glued back. */
  lemma Glue(h: int, l: int, d: int)
    requires 0 <= h && 0 <= l < d && (d == 4 || d == 16 || d == 64)
    ensures (h * d + l) / d == h && (h * d + l) % d == l
  {
  }

  /** The bit arithmetic of a full group: the four sextets give back the three bytes. */
  lemma QuadArithmetic(x: int, y: int, z: int)
    requires 0 <= x < 256 && 0 <= y < 256 && 0 <= z < 256
    ensures x / 4 * 4 + (x % 4 * 16 + y / 16) / 16 == x
    ensures (x % 4 * 16 + y / 16) % 16 * 16 + (y % 16 * 4 + z / 64) / 4 == y
    ensures (y % 16 * 4 + z / 64) % 4 * 64 + z % 64 == z
  {
    Glue(x % 4, y / 16, 16);
    Glue(y % 16, z / 64, 4);
  }

  /** Three bytes survive the trip through four characters. */
  lemma QuadRoundTrip(x: byte, y: byte, z: byte)
    ensures var q := Quad(x, y, z);
      InAlphabet(q[0]) && InAlphabet(q[1]) && InAlphabet(q[2]) && InAlphabet(q[3])
      && Triple(q[0], q[1], q[2], q[3]) == [x, y, z]
  {
    var k0, k1, k2, k3 := x / 4, x % 4 * 16 + y / 16, y % 16 * 4 + z / 64, z % 64;
    TripleOfChars(k0, k1, k2, k3);
    QuadArithmetic(x, y, z);
  }

  /** Four characters of the alphabet decode to the bytes their sextets spell. */
  lemma TripleOfChars(k0: int, k1: int, k2: int, k3: int)
    requires 0 <= k0 < 64 && 0 <= k1 < 64 && 0 <= k2 < 64 && 0 <= k3 < 64
    ensures InAlphabet(CharOf(k0)) && InAlphabet(CharOf(k1)) && InAlphabet(CharOf(k2)) && InAlphabet(CharOf(k3))
    ensures Triple(CharOf(k0), CharOf(k1), CharOf(k2), CharOf(k3)) == [k0 * 4 + k1 / 16, k1 % 16 * 16 + k2 / 4, k2 % 4 * 64 + k3]
  {
    SextetOfCharOf(k0);
    SextetOfCharOf(k1);
    SextetOfCharOf(k2);
    SextetOfCharOf(k3);
  }

  /** The bit arithmetic of a group that carries two bytes. */
  lemma PairArithmetic(x: byte, y: byte)
    ensures x / 4 * 4 + (x % 4 * 16 + y / 16) / 16 == x
    ensures (x % 4 * 16 + y / 16) % 16 * 16 + y % 16 * 4 / 4 == y
  {
    assert (x % 4 * 16 + y / 16) / 16 == x % 4;
    assert (x % 4 * 16 + y / 16) % 16 == y / 16;
  }

  /** Two bytes survive the trip through a group padded with one '='. */
  lemma PairRoundTrip(x: byte, y: byte)
    ensures DecodeGroups(Encode([x, y])) == Some([x, y])
  {
    var k0, k1, k2 := x / 4, x % 4 * 16 + y / 16, y % 16 * 4;
    SextetOfCharOf(k0);
    SextetOfCharOf(k1);
    SextetOfCharOf(k2);
    PairArithmetic(x, y);
    var t := Encode([x, y]);
    assert t == [CharOf(k0), CharOf(k1), CharOf(k2), '='];
    assert DecodeGroups(t) == Some([k0 * 4 + k1 / 16, k1 % 16 * 16 + k2 / 4]);
  }

  /** One byte survives the trip through a group padded with "==". */
  lemma SingleRoundTrip(x: byte)
    ensures DecodeGroups(Encode([x])) == Some([x])
  {
    SextetOfCharOf(x / 4);
    SextetOfCharOf(x % 4 * 16);
    assert (x % 4 * 16) / 16 == x % 4;
    var t := Encode([x]);
    assert !InAlphabet(t[2]);
  }

  /** A leading group of four alphabet characters decodes to its three bytes ahead of the rest. */
  lemma DecodeGroupsCons(q: string, rest: string)
    requires |q| == 4 && InAlphabet(q[0]) && InAlphabet(q[1]) && InAlphabet(q[2]) && InAlphabet(q[3])
    requires DecodeGroups(rest).Some?
    ensures DecodeGroups(q + rest) == Some(Triple(q[0], q[1], q[2], q[3]) + DecodeGroups(rest).value)
  {
    assert (q + rest)[4..] == rest;
  }

  /** Decoding undoes the encoder, group by group. */
  lemma {:induction false} DecodeGroupsOfEncode(b: seq<byte>)
    ensures DecodeGroups(Encode(b)) == Some(b)
    decreases |b|
  {
    if |b| >= 3 {
      assert b == [b[0], b[1], b[2]] + b[3..];
      DecodeGroupsOfEncode(b[3..]);
      QuadRoundTrip(b[0], b[1], b[2]);
      DecodeGroupsCons(Quad(b[0], b[1], b[2]), Encode(b[3..]));
    } else if |b| == 2 {
      PairRoundTrip(b[0], b[1]);
      assert b == [b[0], b[1]];
    } else if |b| == 1 {
      SingleRoundTrip(b[0]);
      assert b == [b[0]];
    }
  }

  /** Decoding what the encoder writes gives back the bytes (the round trip of RFC 4648). */
  lemma DecodeEncode(b: seq<byte>)
    ensures Decode(Encode(b)) == Some(b)
  {
    EncodeChars(b);
    StripKeeps(Encode(b));
    DecodeGroupsOfEncode(b);
  }

  /** Whatever decodes, once its line breaks are gone, comes in whole groups of four. */
  lemma {:induction false} DecodeNeedsGroups(t: string)
    requires DecodeGroups(t).Some?
    ensures |t| % 4 == 0
    decreases |t|
  {
    if |t| > 4 && InAlphabet(t[0]) && InAlphabet(t[1]) && InAlphabet(t[2]) && InAlphabet(t[3]) {
      DecodeNeedsGroups(t[4..]);
      assert |t| == |t[4..]| + 4;
    } else {
      assert |t| == 0 || |t| == 4;
    }
  }

  /** A decoded group of four gives three bytes, and a padded last group one or two. */
  lemma {:induction false} DecodedLength(t: string)
    requires DecodeGroups(t).Some?
    ensures |DecodeGroups(t).value| <= 3 * (|t| / 4)
    ensures 3 * (|t| / 4) - 2 <= |DecodeGroups(t).value|
    decreases |t|
  {
    if |t| > 4 && InAlphabet(t[0]) && InAlphabet(t[1]) && InAlphabet(t[2]) && InAlphabet(t[3]) {
      DecodedLength(t[4..]);
    }
  }

  /** Text with a character outside the alphabet, '=' and line breaks never decodes. */
  lemma {:induction false} ForeignCharRejected(t: string, i: nat)
    requires i < |t| && !InAlphabet(t[i]) && t[i] != '='
    ensures DecodeGroups(t).None?
    decreases |t|
  {
    if |t| >= 4 && InAlphabet(t[0]) && InAlphabet(t[1]) && InAlphabet(t[2]) && InAlphabet(t[3]) {
      ForeignCharRejected(t[4..], i - 4);
    }
  }

  /** "admin" written as the settings store it. */
  lemma DecodeExample()
    ensures Decode("YWRtaW4=") == Some([97, 100, 109, 105, 110])
  {
    var t := "YWRtaW4=";
    assert t[4..] == "aW4=";
    assert Sextet('a') == 26 && Sextet('W') == 22 && Sextet('4') == 56;
    assert DecodeGroups("aW4=") == Some([105, 110]);
    assert Sextet('Y') == 24 && Sextet('R') == 17 && Sextet('t') == 45;
    assert Triple('Y', 'W', 'R', 't') == [97, 100, 109];
    var admin: seq<byte> := [97, 100, 109, 105, 110];
    assert admin == [97, 100, 109] + [105, 110];
    assert DecodeGroups(t) == Some(admin);
    StripKeeps(t);
  }

  /** A line break anywhere in the text changes nothing in what it decodes to. */
  lemma BreakIgnored(a: string, b: string)
    ensures Decode(a + "\n" + b) == Decode(a + b)
  {
    StripDropsBreak(a, b);
  }

  lemma {:induction false} StripDropsBreak(a: string, b: string)
    ensures Strip(a + "\n" + b) == Strip(a + b)
  {
    if |a| == 0 {
      assert a + "\n" + b == "\n" + b;
      assert a + b == b;
    } else {
      assert (a + "\n" + b)[1..] == a[1..] + "\n" + b;
      assert (a + b)[1..] == a[1..] + b;
      StripDropsBreak(a[1..], b);
    }
  }

  /** A missing '=' is an error. */
  lemma RejectUnpadded()
    ensures Decode("YWRtaW4").None?
  {
    StripKeeps("YWRtaW4");
    DecodeNeedsGroupsContra("YWRtaW4");
  }

  /** A character outside the alphabet is an error. */
  lemma RejectForeign()
    ensures Decode("admin!").None?
  {
    StripKeeps("admin!");
    ForeignCharRejected("admin!", 5);
  }

  lemma DecodeNeedsGroupsContra(t: string)
    requires |t| % 4 != 0
    ensures DecodeGroups(t).None?
  {
    if DecodeGroups(t).Some? {
      DecodeNeedsGroups(t);
    }
  }
}
