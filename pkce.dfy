/**
 * The PKCE helpers of the API client: `_base64url` (the URL-safe alphabet of
 * RFC 4648 section 5, padding stripped) and the structure of `_generate_pkce`
 * (RFC 7636, the S256 challenge of section 4.2). Randomness and SHA-256 are
 * parameters: the random bytes come in an `Entropy` record and the digest is
 * an uninterpreted function.
 */
module Pkce {
  import opened Common

  // ---------------------------------------------------------------------
  // The URL-safe alphabet
  // ---------------------------------------------------------------------

  predicate IsUrlSafe(c: char) {
    ('A' <= c <= 'Z') || ('a' <= c <= 'z') || ('0' <= c <= '9') || c == '-' || c == '_'
  }

  /** Character for a six-bit value. */
  function Letter(i: nat): (c: char)
    requires i < 64
    ensures IsUrlSafe(c)
  {
    if i < 26 then ('A' as int + i) as char
    else if i < 52 then ('a' as int + (i - 26)) as char
    else if i < 62 then ('0' as int + (i - 52)) as char
    else if i == 62 then '-'
    else '_'
  }

  /** Six-bit value of a character, None outside the alphabet. */
  function SextetOf(c: char): (r: Option<nat>)
    ensures r.Some? ==> r.value < 64
  {
    if 'A' <= c <= 'Z' then Some(c as int - 'A' as int)
    else if 'a' <= c <= 'z' then Some(c as int - 'a' as int + 26)
    else if '0' <= c <= '9' then Some(c as int - '0' as int + 52)
    else if c == '-' then Some(62)
    else if c == '_' then Some(63)
    else None
  }

  lemma LetterSextet(i: nat)
    requires i < 64
    ensures SextetOf(Letter(i)) == Some(i)
  {
  }

  // ---------------------------------------------------------------------
  // Encoding: urlsafe_b64encode, then rstrip(b"=")
  // ---------------------------------------------------------------------

  function Group3(b0: byte, b1: byte, b2: byte): seq<char> {
    [Letter(b0 / 4), Letter((b0 % 4) * 16 + b1 / 16), Letter((b1 % 16) * 4 + b2 / 64), Letter(b2 % 64)]
  }

  function Group2(b0: byte, b1: byte): seq<char> {
    [Letter(b0 / 4), Letter((b0 % 4) * 16 + b1 / 16), Letter((b1 % 16) * 4)]
  }

  function Group1(b0: byte): seq<char> {
    [Letter(b0 / 4), Letter((b0 % 4) * 16)]
  }

  /** `urlsafe_b64encode(data)`: four characters per three bytes, '=' padding at the end. */
  function EncodePadded(data: seq<byte>): seq<char>
    decreases |data|
  {
    if |data| == 0 then []
    else if |data| == 1 then Group1(data[0]) + "=="
    else if |data| == 2 then Group2(data[0], data[1]) + "="
    else Group3(data[0], data[1], data[2]) + EncodePadded(data[3..])
  }

  /** The same groups without the padding: what `_base64url` must produce. */
  function EncodeBare(data: seq<byte>): string
    decreases |data|
  {
    if |data| == 0 then []
    else if |data| == 1 then Group1(data[0])
    else if |data| == 2 then Group2(data[0], data[1])
    else Group3(data[0], data[1], data[2]) + EncodeBare(data[3..])
  }

  /** Every character of the encoding is in the URL-safe alphabet, so none is '='. */
  lemma {:induction false} EncodeBareUrlSafe(data: seq<byte>)
    decreases |data|
    ensures forall i | 0 <= i < |EncodeBare(data)| :: IsUrlSafe(EncodeBare(data)[i])
  {
    if |data| >= 3 {
      EncodeBareUrlSafe(data[3..]);
      var g, t := Group3(data[0], data[1], data[2]), EncodeBare(data[3..]);
      assert EncodeBare(data) == g + t;
      forall i | 0 <= i < |g + t| ensures IsUrlSafe((g + t)[i]) {
        if i >= |g| {
          assert (g + t)[i] == t[i - |g|];
        }
      }
    }
  }

  /** `s.rstrip(c)` for one character. */
  function RStrip(s: string, c: char): (r: string)
    decreases |s|
  {
    if |s| > 0 && s[|s| - 1] == c then RStrip(s[..|s| - 1], c) else s
  }

  function Padding(data: seq<byte>): string {
    if |data| % 3 == 1 then "==" else if |data| % 3 == 2 then "=" else ""
  }

  /** Dropping a group of three bytes keeps the padding. */
  lemma PaddingSkipsGroup(data: seq<byte>)
    requires |data| >= 3
    ensures Padding(data[3..]) == Padding(data)
  {
    var n := |data| - 3;
    assert |data| == n + 3;
    assert (n + 3) % 3 == n % 3;
  }

  lemma {:induction false} PaddedIsBarePlusPadding(data: seq<byte>)
    ensures EncodePadded(data) == EncodeBare(data) + Padding(data)
    decreases |data|
  {
    if |data| >= 3 {
      var g, t := Group3(data[0], data[1], data[2]), data[3..];
      PaddedIsBarePlusPadding(t);
      PaddingSkipsGroup(data);
      assert Padding(data) == Padding(t);
      assert EncodePadded(data) == g + (EncodeBare(t) + Padding(t));
      assert EncodeBare(data) + Padding(data) == (g + EncodeBare(t)) + Padding(t);
    }
  }

  lemma {:induction false} RStripDropsPadding(u: string, pad: string)
    requires forall i | 0 <= i < |u| :: u[i] != '='
    requires forall i | 0 <= i < |pad| :: pad[i] == '='
    ensures RStrip(u + pad, '=') == u
    decreases |pad|
  {
    if |pad| == 0 {
      assert u + pad == u;
    } else {
      var shorter := pad[..|pad| - 1];
      assert (u + pad)[..|u + pad| - 1] == u + shorter;
      RStripDropsPadding(u, shorter);
    }
  }

  /** `_base64url(data)`. */
  function Base64Url(data: seq<byte>): (r: string)
    ensures r == EncodeBare(data)
  {
    PaddedIsBarePlusPadding(data);
    EncodeBareUrlSafe(data);
    RStripDropsPadding(EncodeBare(data), Padding(data));
    RStrip(EncodePadded(data), '=')
  }

  lemma {:induction false} Base64UrlLength(data: seq<byte>)
    ensures |Base64Url(data)| == (4 * |data| + 2) / 3
    decreases |data|
  {
    if |data| >= 3 {
      Base64UrlLength(data[3..]);
    }
  }

  // ---------------------------------------------------------------------
  // Decoding (the partner of the encoder)
  // ---------------------------------------------------------------------

  /** Unpadded URL-safe base64 decoding: a trailing group of 2 or 3 characters carries 1 or 2 bytes. */
  function Base64UrlDecode(s: string): Option<seq<byte>>
    decreases |s|
  {
    if |s| == 0 then Some([])
    else if |s| == 1 then None
    else
      var c0, c1 := SextetOf(s[0]), SextetOf(s[1]);
      if c0.None? || c1.None? then None
      else if |s| == 2 then Some([c0.value * 4 + c1.value / 16])
      else
        var c2 := SextetOf(s[2]);
        if c2.None? then None
        else if |s| == 3 then Some([c0.value * 4 + c1.value / 16, (c1.value % 16) * 16 + c2.value / 4])
        else
          var c3 := SextetOf(s[3]);
          if c3.None? then None
          else
            var rest := Base64UrlDecode(s[4..]);
            if rest.None? then None
            else Some([c0.value * 4 + c1.value / 16, (c1.value % 16) * 16 + c2.value / 4,
                       (c2.value % 4) * 64 + c3.value] + rest.value)
  }

  lemma GroupArithmetic(b0: byte, b1: byte, b2: byte)
    ensures (b0 / 4) * 4 + ((b0 % 4) * 16 + b1 / 16) / 16 == b0
    ensures (((b0 % 4) * 16 + b1 / 16) % 16) * 16 + ((b1 % 16) * 4 + b2 / 64) / 4 == b1
    ensures (((b1 % 16) * 4 + b2 / 64) % 4) * 64 + b2 % 64 == b2
    ensures ((b0 % 4) * 16) / 16 == b0 % 4 && ((b1 % 16) * 4) / 4 == b1 % 16
  {
  }

  lemma DecodeGroup1(b0: byte)
    ensures Base64UrlDecode(Group1(b0)) == Some([b0])
  {
    LetterSextet(b0 / 4);
    LetterSextet((b0 % 4) * 16);
    GroupArithmetic(b0, 0, 0);
  }

  lemma DecodeGroup2(b0: byte, b1: byte)
    ensures Base64UrlDecode(Group2(b0, b1)) == Some([b0, b1])
  {
    LetterSextet(b0 / 4);
    LetterSextet((b0 % 4) * 16 + b1 / 16);
    LetterSextet((b1 % 16) * 4);
    GroupArithmetic(b0, b1, 0);
  }

  /** A full group of four characters decodes to three bytes ahead of the rest. */
  lemma DecodeFour(s: string, x0: nat, x1: nat, x2: nat, x3: nat, rest: seq<byte>)
    requires |s| >= 4 && x0 < 64 && x1 < 64 && x2 < 64 && x3 < 64
    requires SextetOf(s[0]) == Some(x0) && SextetOf(s[1]) == Some(x1)
    requires SextetOf(s[2]) == Some(x2) && SextetOf(s[3]) == Some(x3)
    requires Base64UrlDecode(s[4..]) == Some(rest)
    ensures Base64UrlDecode(s) == Some([x0 * 4 + x1 / 16, (x1 % 16) * 16 + x2 / 4, (x2 % 4) * 64 + x3] + rest)
  {
  }

  lemma DecodeGroup3(b0: byte, b1: byte, b2: byte, tail: string, rest: seq<byte>)
    requires Base64UrlDecode(tail) == Some(rest)
    ensures Base64UrlDecode(Group3(b0, b1, b2) + tail) == Some([b0, b1, b2] + rest)
  {
    var c0, c1, c2, c3 := b0 / 4, (b0 % 4) * 16 + b1 / 16, (b1 % 16) * 4 + b2 / 64, b2 % 64;
    var s := Group3(b0, b1, b2) + tail;
    assert s[0] == Letter(c0) && s[1] == Letter(c1) && s[2] == Letter(c2) && s[3] == Letter(c3);
    LetterSextet(c0);
    LetterSextet(c1);
    LetterSextet(c2);
    LetterSextet(c3);
    assert s[4..] == tail;
    DecodeFour(s, c0, c1, c2, c3, rest);
    GroupArithmetic(b0, b1, b2);
  }

  /** Decoding undoes the unpadded encoding, group by group. */
  lemma {:induction false} DecodeBare(data: seq<byte>)
    ensures Base64UrlDecode(EncodeBare(data)) == Some(data)
    decreases |data|
  {
    if |data| == 1 {
      DecodeGroup1(data[0]);
      assert data == [data[0]];
    } else if |data| == 2 {
      DecodeGroup2(data[0], data[1]);
      assert data == [data[0], data[1]];
    } else if |data| >= 3 {
      assert data == [data[0], data[1], data[2]] + data[3..];
      var tail := EncodeBare(data[3..]);
      assert EncodeBare(data) == Group3(data[0], data[1], data[2]) + tail;
      DecodeBare(data[3..]);
      DecodeGroup3(data[0], data[1], data[2], tail, data[3..]);
    }
  }

  /** Decoding undoes `_base64url`. */
  lemma DecodeBase64Url(data: seq<byte>)
    ensures Base64UrlDecode(Base64Url(data)) == Some(data)
  {
    DecodeBare(data);
  }

  // ---------------------------------------------------------------------
  // Hex and ASCII
  // ---------------------------------------------------------------------

  predicate IsLowerHex(c: char) {
    ('0' <= c <= '9') || ('a' <= c <= 'f')
  }

  function HexDigit(n: nat): (c: char)
    requires n < 16
    ensures IsLowerHex(c)
  {
    if n < 10 then ('0' as int + n) as char else ('a' as int + (n - 10)) as char
  }

  /** `bytes.hex()`: two lower-case hex digits per byte, high nibble first. */
  function Hex(data: seq<byte>): (r: string)
    ensures |r| == 2 * |data|
    ensures forall i | 0 <= i < |r| :: IsLowerHex(r[i])
  {
    if |data| == 0 then [] else [HexDigit(data[0] / 16), HexDigit(data[0] % 16)] + Hex(data[1..])
  }

  /** Byte i of the data is written at positions 2i and 2i+1: its high nibble, then its low one. */
  lemma {:induction false} HexNibbles(data: seq<byte>)
    ensures forall i | 0 <= i < |data| :: Hex(data)[2 * i] == HexDigit(data[i] / 16) && Hex(data)[2 * i + 1] == HexDigit(data[i] % 16)
  {
    if |data| > 0 {
      HexNibbles(data[1..]);
      forall i | 0 < i < |data|
        ensures Hex(data)[2 * i] == HexDigit(data[i] / 16) && Hex(data)[2 * i + 1] == HexDigit(data[i] % 16)
      {
        assert Hex(data)[2 * i] == Hex(data[1..])[2 * (i - 1)];
        assert Hex(data)[2 * i + 1] == Hex(data[1..])[2 * (i - 1) + 1];
        assert data[i] == data[1..][i - 1];
      }
    }
  }

  /** The value of a lower-case hex digit. */
  function HexValue(c: char): (n: nat)
    requires IsLowerHex(c)
    ensures n < 16
  {
    if '0' <= c <= '9' then c as int - '0' as int else c as int - 'a' as int + 10
  }

  /** Reading two digits per byte, high nibble first; None unless the text is an even
      number of lower-case hex digits. */
  function HexDecode(s: string): Option<seq<byte>>
    decreases |s|
  {
    if |s| == 0 then Some([])
    else if |s| == 1 || !IsLowerHex(s[0]) || !IsLowerHex(s[1]) then None
    else match HexDecode(s[2..])
      case None => None
      case Some(rest) => Some([16 * HexValue(s[0]) + HexValue(s[1])] + rest)
  }

  /** Reading a digit back gives the nibble it was written from. */
  lemma HexDigitValue(n: nat)
    requires n < 16
    ensures HexValue(HexDigit(n)) == n
  {
  }

  /** The hex text of bytes reads back as those bytes. */
  lemma {:induction false} DecodeHex(data: seq<byte>)
    ensures HexDecode(Hex(data)) == Some(data)
  {
    if |data| > 0 {
      var b := data[0];
      var h := Hex(data);
      assert h == [HexDigit(b / 16), HexDigit(b % 16)] + Hex(data[1..]);
      assert h[2..] == Hex(data[1..]);
      DecodeHex(data[1..]);
      HexDigitValue(b / 16);
      HexDigitValue(b % 16);
      assert 16 * (b / 16) + b % 16 == b;
      assert HexDecode(h) == Some([b] + data[1..]);
      assert [b] + data[1..] == data;
    }
  }

  predicate IsAscii(s: string) {
    forall i | 0 <= i < |s| :: s[i] as int < 128
  }

  /** `s.encode("ascii")` on a string that is ASCII (the only strings encoded here). */
  function AsciiEncode(s: string): (r: seq<byte>)
    requires IsAscii(s)
    ensures |r| == |s|
  {
    seq(|s|, i requires 0 <= i < |s| => s[i] as int)
  }

  lemma UrlSafeIsAscii(s: string)
    requires forall i | 0 <= i < |s| :: IsUrlSafe(s[i])
    ensures IsAscii(s)
  {
  }

  // ---------------------------------------------------------------------
  // _generate_pkce
  // ---------------------------------------------------------------------

  /** The output of the three `os.urandom` calls (16, 16 and 32 bytes in the source). */
  datatype Entropy = Entropy(stateBytes: seq<byte>, nonceBytes: seq<byte>, verifierBytes: seq<byte>)

  datatype Pkce = Pkce(state: string, nonce: string, codeVerifier: string, codeChallenge: string)

  /** `_generate_pkce()` with its random bytes and its SHA-256 supplied. */
  function GeneratePkce(e: Entropy, sha256: seq<byte> -> seq<byte>): Pkce {
    var verifier := Base64Url(e.verifierBytes);
    EncodeBareUrlSafe(e.verifierBytes);
    UrlSafeIsAscii(verifier);
    Pkce(Hex(e.stateBytes), Hex(e.nonceBytes), verifier, Base64Url(sha256(AsciiEncode(verifier))))
  }

  /** State and nonce are lower-case hex of their bytes; the verifier is the unpadded
      URL-safe encoding of its bytes (43 characters for 32 bytes) and the challenge that of
      the SHA-256 digest of the verifier's ASCII bytes, as the S256 method of RFC 7636
      section 4.2 prescribes. */
  lemma GeneratePkceSpec(e: Entropy, sha256: seq<byte> -> seq<byte>)
    ensures var p := GeneratePkce(e, sha256);
      && |p.state| == 2 * |e.stateBytes| && |p.nonce| == 2 * |e.nonceBytes|
      && (forall i | 0 <= i < |p.state| :: IsLowerHex(p.state[i]))
      && (forall i | 0 <= i < |p.nonce| :: IsLowerHex(p.nonce[i]))
      && HexDecode(p.state) == Some(e.stateBytes) && HexDecode(p.nonce) == Some(e.nonceBytes)
      && IsAscii(p.codeVerifier) && '=' !in p.codeVerifier && '=' !in p.codeChallenge
      && Base64UrlDecode(p.codeVerifier) == Some(e.verifierBytes)
      && Base64UrlDecode(p.codeChallenge) == Some(sha256(AsciiEncode(p.codeVerifier)))
      && (|e.verifierBytes| == 32 ==> |p.codeVerifier| == 43)
  {
    var verifier := Base64Url(e.verifierBytes);
    EncodeBareUrlSafe(e.verifierBytes);
    UrlSafeIsAscii(verifier);
    EncodeBareUrlSafe(sha256(AsciiEncode(verifier)));
    DecodeBase64Url(e.verifierBytes);
    DecodeBase64Url(sha256(AsciiEncode(verifier)));
    Base64UrlLength(e.verifierBytes);
    DecodeHex(e.stateBytes);
    DecodeHex(e.nonceBytes);
  }
}
