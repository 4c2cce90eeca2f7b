/**
 * Identifier formats of the login-session store: login tokens and auth codes
 * are the lowercase hex encoding of 16 random bytes, scene ids are
 * "login_" + decimal Unix seconds + "_" + hex of 8 random bytes.
 * The random bytes and the clock are parameters; the encodings are modelled
 * together with their decoders so that distinct inputs give distinct ids.
 */
module Ids {

  type byte = x: int | 0 <= x < 256

  const NANOS_PER_SECOND: int := 1_000_000_000
  const TOKEN_BYTES: nat := 16
  const SCENE_RANDOM_BYTES: nat := 8
  const SCENE_PREFIX: string := "login_"

  predicate IsLowerHex(c: char) {
    ('0' <= c <= '9') || ('a' <= c <= 'f')
  }

  predicate IsDigit(c: char) {
    '0' <= c <= '9'
  }

  /** The characters a generated scene id is made of. */
  predicate IsSceneChar(c: char) {
    IsLowerHex(c) || ('a' <= c <= 'z') || c == '_' || c == '-'
  }

  function HexValue(c: char): (v: int)
    requires IsLowerHex(c)
    ensures 0 <= v < 16
  {
    if c <= '9' then c as int - '0' as int else c as int - 'a' as int + 10
  }

  /** The digit of "0123456789abcdef" at position n. */
  function HexDigit(n: int): (c: char)
    requires 0 <= n < 16
    ensures IsLowerHex(c) && HexValue(c) == n
  {
    if n < 10 then ('0' as int + n) as char else ('a' as int + n - 10) as char
  }

  /** hex.EncodeToString: two lowercase digits per byte, high nibble first. */
  function HexEncode(b: seq<byte>): (s: string)
    ensures |s| == 2 * |b|
    ensures forall i :: 0 <= i < |s| ==> IsLowerHex(s[i])
  {
    if b == [] then "" else [HexDigit(b[0] / 16), HexDigit(b[0] % 16)] + HexEncode(b[1..])
  }

  /** The inverse of HexEncode, used to show that the encoding loses nothing. */
  function HexDecode(s: string): (b: seq<byte>)
    requires |s| % 2 == 0
    requires forall i :: 0 <= i < |s| ==> IsLowerHex(s[i])
    ensures |b| == |s| / 2
  {
    if s == [] then [] else [(16 * HexValue(s[0]) + HexValue(s[1])) as byte] + HexDecode(s[2..])
  }

  lemma {:induction false} HexRoundTrip(b: seq<byte>)
    ensures HexDecode(HexEncode(b)) == b
  {
    if b != [] {
      var s := HexEncode(b);
      assert s[2..] == HexEncode(b[1..]);
      HexRoundTrip(b[1..]);
      assert 16 * (b[0] / 16) + b[0] % 16 == b[0];
    }
  }

  lemma HexEncodeInjective(a: seq<byte>, b: seq<byte>)
    requires HexEncode(a) == HexEncode(b)
    ensures a == b
  {
    HexRoundTrip(a);
    HexRoundTrip(b);
  }

  /** generateLoginToken: used for both the login token and the auth code. */
  function GenerateToken(bytes: seq<byte>): (token: string)
    requires |bytes| == TOKEN_BYTES
    ensures |token| == 32
    ensures forall i :: 0 <= i < |token| ==> IsLowerHex(token[i])
  {
    HexEncode(bytes)
  }

  /** Distinct random bytes give distinct tokens (and auth codes). */
  lemma GenerateTokenInjective(a: seq<byte>, b: seq<byte>)
    requires |a| == TOKEN_BYTES && |b| == TOKEN_BYTES
    requires GenerateToken(a) == GenerateToken(b)
    ensures a == b
  {
    HexEncodeInjective(a, b);
  }

  function DigitChar(d: int): (c: char)
    requires 0 <= d < 10
    ensures IsDigit(c) && c as int - '0' as int == d
  {
    ('0' as int + d) as char
  }

  /** Decimal digits of a natural number, most significant first. */
  function NatDigits(n: nat): (s: string)
    ensures |s| >= 1
    ensures forall i :: 0 <= i < |s| ==> IsDigit(s[i])
    decreases n
  {
    if n < 10 then [DigitChar(n)] else NatDigits(n / 10) + [DigitChar(n % 10)]
  }

  /** The value of a string of decimal digits. */
  function DigitsValue(s: string): nat
    requires forall i :: 0 <= i < |s| ==> IsDigit(s[i])
  {
    if s == [] then 0
    else
      assert IsDigit(s[|s| - 1]);
      DigitsValue(s[..|s| - 1]) * 10 + (s[|s| - 1] as int - '0' as int)
  }

  lemma {:induction false} NatDigitsRoundTrip(n: nat)
    ensures DigitsValue(NatDigits(n)) == n
    decreases n
  {
    if n >= 10 {
      var s := NatDigits(n);
      assert s[..|s| - 1] == NatDigits(n / 10);
      NatDigitsRoundTrip(n / 10);
    }
  }

  /** Go's %d verb on an int64: a minus sign, then the digits of the magnitude. */
  function FormatInt(n: int): (s: string)
    ensures |s| >= 1
    ensures forall i :: 0 <= i < |s| ==> IsDigit(s[i]) || (i == 0 && s[i] == '-')
    ensures (s[0] == '-') <==> n < 0
  {
    if n < 0 then "-" + NatDigits(-n) else NatDigits(n)
  }

  lemma FormatIntInjective(a: int, b: int)
    requires FormatInt(a) == FormatInt(b)
    ensures a == b
  {
    assert (a < 0) == (b < 0);
    if a < 0 {
      var da, db := NatDigits(-a), NatDigits(-b);
      assert FormatInt(a) == "-" + da && FormatInt(b) == "-" + db;
      assert da == FormatInt(a)[1..] && db == FormatInt(b)[1..];
      NatDigitsRoundTrip(-a);
      NatDigitsRoundTrip(-b);
    } else {
      NatDigitsRoundTrip(a);
      NatDigitsRoundTrip(b);
    }
  }

  /** The digits of `%d`, after the sign, spell the magnitude of the number. */
  lemma FormatIntValue(n: int)
    ensures var s := FormatInt(n);
      var digits := if n < 0 then s[1..] else s;
      && (forall i :: 0 <= i < |digits| ==> IsDigit(digits[i]))
      && DigitsValue(digits) == (if n < 0 then -n else n)
  {
    var m := if n < 0 then -n else n;
    var s := FormatInt(n);
    var digits := if n < 0 then s[1..] else s;
    assert digits == NatDigits(m);
    NatDigitsRoundTrip(m);
  }

  /** generateSceneID, with the clock reading `now` in nanoseconds. */
  function GenerateSceneId(now: int, bytes: seq<byte>): (id: string)
    requires |bytes| == SCENE_RANDOM_BYTES
    ensures |id| >= |SCENE_PREFIX| + 1 + 1 + 16 && id[|id| - 17] == '_'
    ensures id[..|SCENE_PREFIX|] == SCENE_PREFIX
    ensures forall i :: 0 <= i < |id| ==> IsSceneChar(id[i])
    ensures forall i :: |id| - 16 <= i < |id| ==> IsLowerHex(id[i])
    ensures forall i :: |SCENE_PREFIX| <= i < |id| - 17 ==>
      IsDigit(id[i]) || (i == |SCENE_PREFIX| && id[i] == '-')
    ensures (id[|SCENE_PREFIX|] == '-') <==> now / NANOS_PER_SECOND < 0
    ensures id[|SCENE_PREFIX|..|id| - 17] == FormatInt(now / NANOS_PER_SECOND)
    ensures id[|id| - 16..] == HexEncode(bytes)
  {
    var d, h := FormatInt(now / NANOS_PER_SECOND), HexEncode(bytes);
    SceneIdParts(d, h);
    SCENE_PREFIX + d + "_" + h
  }

  /** Where the timestamp and the random part sit in a scene id. */
  lemma SceneIdParts(d: string, h: string)
    ensures var s := SCENE_PREFIX + d + "_" + h;
      && |s| == |SCENE_PREFIX| + |d| + 1 + |h|
      && s[|SCENE_PREFIX|..|SCENE_PREFIX| + |d|] == d
      && s[|s| - |h|..] == h
  {
    var s := SCENE_PREFIX + d + "_" + h;
    forall i | 0 <= i < |d| ensures s[|SCENE_PREFIX| + i] == d[i] {
    }
    forall i | 0 <= i < |h| ensures s[|s| - |h| + i] == h[i] {
    }
  }

  /** Two scene ids are equal only when both their second and their random bytes are. */
  lemma SceneIdInjective(now1: int, b1: seq<byte>, now2: int, b2: seq<byte>)
    requires |b1| == SCENE_RANDOM_BYTES && |b2| == SCENE_RANDOM_BYTES
    requires GenerateSceneId(now1, b1) == GenerateSceneId(now2, b2)
    ensures now1 / NANOS_PER_SECOND == now2 / NANOS_PER_SECOND && b1 == b2
  {
    var d1, d2 := FormatInt(now1 / NANOS_PER_SECOND), FormatInt(now2 / NANOS_PER_SECOND);
    var h1, h2 := HexEncode(b1), HexEncode(b2);
    SceneIdParts(d1, h1);
    SceneIdParts(d2, h2);
    assert h1 == h2;
    HexEncodeInjective(b1, b2);
    assert d1 == d2;
    FormatIntInjective(now1 / NANOS_PER_SECOND, now2 / NANOS_PER_SECOND);
  }

  /** Number of bytes of the UTF-8 encoding of one character. */
  function Utf8Width(c: char): (w: nat)
    ensures 1 <= w <= 4
  {
    if c as int < 0x80 then 1
    else if c as int < 0x800 then 2
    else if c as int < 0x10000 then 3
    else 4
  }

  /** Go's len() on a string: its length in UTF-8 bytes. */
  function Utf8Length(s: string): (n: nat)
    ensures n >= |s|
    ensures n == |s| <==> forall i :: 0 <= i < |s| ==> s[i] as int < 0x80
  {
    if s == [] then 0 else Utf8Width(s[0]) + Utf8Length(s[1..])
  }
}
