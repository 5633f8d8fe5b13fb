/**
 * Standard base64 (section 4 of RFC 4648) as the report route uses it to
 * inline an image: the byte loop of `arrayBufferToBase64`, the `btoa` it
 * ends with, and the `data:` URL (section 3 of RFC 2397) the encoded bytes
 * are placed in.
 */
module Base64 {
  import opened Wrappers

  type Byte = x: int | 0 <= x < 256

  const Pad: char := '='

  /** The character that encodes the 6-bit value `v`: Table 1 of section 4 of RFC 4648, A-Z, a-z, 0-9, '+', '/'. */
  function Digit(v: int): (c: char)
    requires 0 <= v < 64
  {
    if v < 26 then ('A' as int + v) as char
    else if v < 52 then ('a' as int + (v - 26)) as char
    else if v < 62 then ('0' as int + (v - 52)) as char
    else if v == 62 then '+'
    else '/'
  }

  /** The 6-bit value a character of the alphabet stands for; None for any other character. */
  function DigitValue(c: char): Option<int>
  {
    if 'A' <= c <= 'Z' then Some(c as int - 'A' as int)
    else if 'a' <= c <= 'z' then Some(c as int - 'a' as int + 26)
    else if '0' <= c <= '9' then Some(c as int - '0' as int + 52)
    else if c == '+' then Some(62)
    else if c == '/' then Some(63)
    else None
  }

  /** `DigitValue` reads every digit back. */
  lemma DigitRoundTrip(v: int)
    requires 0 <= v < 64
    ensures DigitValue(Digit(v)) == Some(v)
  {
  }

  /** A character that has a value is the digit of that value, and padding has none. */
  lemma DigitValueSound(c: char)
    ensures DigitValue(c).Some? ==> 0 <= DigitValue(c).value < 64 && Digit(DigitValue(c).value) == c
    ensures DigitValue(Pad).None?
  {
  }

  /** Splitting three bytes into four 6-bit values and joining them again gives the bytes back. */
  lemma SplitJoin(b0: Byte, b1: Byte, b2: Byte)
    ensures (b0 / 4) * 4 + ((b0 % 4) * 16 + b1 / 16) / 16 == b0
    ensures (((b0 % 4) * 16 + b1 / 16) % 16) * 16 + ((b1 % 16) * 4 + b2 / 64) / 4 == b1
    ensures (((b1 % 16) * 4 + b2 / 64) % 4) * 64 + b2 % 64 == b2
  {
  }

  /** Joining four 6-bit values into three bytes and splitting them again gives the values back. */
  lemma JoinSplit(c0: int, c1: int, c2: int, c3: int)
    requires 0 <= c0 < 64 && 0 <= c1 < 64 && 0 <= c2 < 64 && 0 <= c3 < 64
    ensures (c0 * 4 + c1 / 16) / 4 == c0
    ensures ((c0 * 4 + c1 / 16) % 4) * 16 + ((c1 % 16) * 16 + c2 / 4) / 16 == c1
    ensures (((c1 % 16) * 16 + c2 / 4) % 16) * 4 + ((c2 % 4) * 64 + c3) / 64 == c2
    ensures ((c2 % 4) * 64 + c3) % 64 == c3
  {
  }

  /** One group of one to three bytes as four characters, padded with '=' when short. */
  function EncodeGroup(g: seq<Byte>): (q: string)
    requires 1 <= |g| <= 3
    ensures |q| == 4
  {
    if |g| == 1 then
      [Digit(g[0] / 4), Digit((g[0] % 4) * 16), Pad, Pad]
    else if |g| == 2 then
      [Digit(g[0] / 4), Digit((g[0] % 4) * 16 + g[1] / 16), Digit((g[1] % 16) * 4), Pad]
    else
      [Digit(g[0] / 4), Digit((g[0] % 4) * 16 + g[1] / 16), Digit((g[1] % 16) * 4 + g[2] / 64), Digit(g[2] % 64)]
  }

  /**
   * The encoding of section 4 of RFC 4648: every group of three bytes becomes
   * four characters; a final group of one or two bytes is padded with '='.
   */
  function Encode(b: seq<Byte>): string
  {
    if |b| == 0 then ""
    else if |b| <= 3 then EncodeGroup(b)
    else EncodeGroup(b[..3]) + Encode(b[3..])
  }

  /**
   * One group of four characters back to its bytes. Rejects characters outside
   * the alphabet, misplaced padding and non-zero padding bits.
   */
  function DecodeGroup(q: string): Option<seq<Byte>>
    requires |q| == 4
  {
    var d0, d1, d2, d3 := DigitValue(q[0]), DigitValue(q[1]), DigitValue(q[2]), DigitValue(q[3]);
    if d0.None? || d1.None? then None
    else if q[2] == Pad then
      if q[3] == Pad && d1.value % 16 == 0 then Some([d0.value * 4 + d1.value / 16]) else None
    else if d2.None? then None
    else if q[3] == Pad then
      if d2.value % 4 == 0 then Some([d0.value * 4 + d1.value / 16, (d1.value % 16) * 16 + d2.value / 4])
      else None
    else if d3.None? then None
    else Some([d0.value * 4 + d1.value / 16, (d1.value % 16) * 16 + d2.value / 4, (d2.value % 4) * 64 + d3.value])
  }

  /**
   * Canonical decoding, the inverse of `Encode`: groups of four characters, of
   * which only the last may be padded.
   */
  function Decode(s: string): Option<seq<Byte>>
  {
    if |s| == 0 then Some([])
    else if |s| < 4 then None
    else
      match DecodeGroup(s[..4])
      case None => None
      case Some(g) =>
        if |s| == 4 then Some(g)
        else if |g| < 3 then None
        else
          match Decode(s[4..])
          case None => None
          case Some(rest) => Some(g + rest)
  }

  lemma GroupRoundTrip(g: seq<Byte>)
    requires 1 <= |g| <= 3
    ensures DecodeGroup(EncodeGroup(g)) == Some(g)
  {
    if |g| == 1 {
      OneByteRoundTrip(g);
    } else if |g| == 2 {
      TwoBytesRoundTrip(g);
    } else {
      ThreeBytesRoundTrip(g);
    }
  }

  lemma OneByteRoundTrip(g: seq<Byte>)
    requires |g| == 1
    ensures DecodeGroup(EncodeGroup(g)) == Some(g)
  {
    DigitValueSound(Pad);
    DigitRoundTrip(g[0] / 4);
    DigitRoundTrip((g[0] % 4) * 16);
    SplitJoin(g[0], 0, 0);
    assert g == [g[0]];
  }

  lemma TwoBytesRoundTrip(g: seq<Byte>)
    requires |g| == 2
    ensures DecodeGroup(EncodeGroup(g)) == Some(g)
  {
    DigitValueSound(Pad);
    DigitRoundTrip(g[0] / 4);
    DigitRoundTrip((g[0] % 4) * 16 + g[1] / 16);
    DigitRoundTrip((g[1] % 16) * 4);
    SplitJoin(g[0], g[1], 0);
    assert g == [g[0], g[1]];
  }

  lemma ThreeBytesRoundTrip(g: seq<Byte>)
    requires |g| == 3
    ensures DecodeGroup(EncodeGroup(g)) == Some(g)
  {
    DigitValueSound(Pad);
    DigitRoundTrip(g[0] / 4);
    DigitRoundTrip((g[0] % 4) * 16 + g[1] / 16);
    DigitRoundTrip((g[1] % 16) * 4 + g[2] / 64);
    DigitRoundTrip(g[2] % 64);
    SplitJoin(g[0], g[1], g[2]);
    assert g == [g[0], g[1], g[2]];
  }

  lemma GroupInverse(q: string, g: seq<Byte>)
    requires |q| == 4 && DecodeGroup(q) == Some(g)
    ensures 1 <= |g| <= 3 && EncodeGroup(g) == q
    ensures |g| < 3 <==> q[3] == Pad
  {
    DigitValueSound(q[0]);
    DigitValueSound(q[1]);
    DigitValueSound(q[2]);
    DigitValueSound(q[3]);
    var c0, c1 := DigitValue(q[0]).value, DigitValue(q[1]).value;
    if q[2] == Pad {
      JoinSplit(c0, c1, 0, 0);
    } else if q[3] == Pad {
      JoinSplit(c0, c1, DigitValue(q[2]).value, 0);
    } else {
      JoinSplit(c0, c1, DigitValue(q[2]).value, DigitValue(q[3]).value);
    }
    assert q == [q[0], q[1], q[2], q[3]];
  }

  /** The encoded length is four characters per started group of three bytes. */
  lemma {:induction false} EncodeLength(b: seq<Byte>)
    ensures |Encode(b)| == 4 * ((|b| + 2) / 3)
  {
    var n := |b|;
    if n > 3 {
      EncodeLength(b[3..]);
      assert |Encode(b)| == 4 + |Encode(b[3..])|;
      assert (n - 3 + 2) / 3 + 1 == (n + 2) / 3;
    } else if n > 0 {
      assert (n + 2) / 3 == 1;
    }
  }

  /** Decoding an encoding gives the bytes back. */
  lemma {:induction false} DecodeEncode(b: seq<Byte>)
    ensures Decode(Encode(b)) == Some(b)
  {
    if 1 <= |b| <= 3 {
      GroupRoundTrip(b);
    } else if |b| > 3 {
      var s := Encode(b);
      GroupRoundTrip(b[..3]);
      EncodeLength(b[3..]);
      DecodeEncode(b[3..]);
      assert s[..4] == EncodeGroup(b[..3]) && s[4..] == Encode(b[3..]);
      assert b == b[..3] + b[3..];
    }
  }

  /** Every string that decodes is the encoding of what it decodes to. */
  lemma {:induction false} EncodeDecode(s: string, b: seq<Byte>)
    requires Decode(s) == Some(b)
    ensures Encode(b) == s
  {
    if |s| >= 4 {
      var g := DecodeGroup(s[..4]).value;
      GroupInverse(s[..4], g);
      if |s| == 4 {
        assert s == s[..4];
      } else {
        var rest := Decode(s[4..]).value;
        EncodeDecode(s[4..], rest);
        assert b == g + rest && |g| == 3;
        assert b[..3] == g && b[3..] == rest;
        assert s == s[..4] + s[4..];
      }
    }
  }

  /** `String.fromCharCode` of a byte: the Latin-1 character with that code. */
  function Latin1(b: seq<Byte>): (s: string)
    ensures |s| == |b| && forall i :: 0 <= i < |b| ==> s[i] as int == b[i]
  {
    seq(|b|, i requires 0 <= i < |b| => b[i] as char)
  }

  /** `btoa`: base64 of a string of Latin-1 characters; any wider character is an InvalidCharacterError. */
  function Btoa(s: string): (r: Option<string>)
    ensures r.Some? <==> forall i :: 0 <= i < |s| ==> s[i] as int < 256
  {
    if forall i :: 0 <= i < |s| ==> s[i] as int < 256 then
      Some(Encode(seq(|s|, i requires 0 <= i < |s| => s[i] as int as Byte)))
    else None
  }

  /** `arrayBufferToBase64`: each byte becomes one character, then `btoa`. */
  method ArrayBufferToBase64(buffer: array<Byte>) returns (r: string)
    ensures r == Encode(buffer[..])
    ensures |r| == 4 * ((buffer.Length + 2) / 3)
    ensures Decode(r) == Some(buffer[..])
  {
    var binary := "";
    var i := 0;
    while i < buffer.Length
      invariant 0 <= i <= buffer.Length
      invariant binary == Latin1(buffer[..i])
    {
      binary := binary + [buffer[i] as char];
      i := i + 1;
    }
    assert buffer[..i] == buffer[..];
    var encoded := Btoa(binary);
    match encoded {
      case Some(e) =>
        assert seq(|binary|, k requires 0 <= k < |binary| => binary[k] as int as Byte) == buffer[..];
        r := e;
      case None =>
        assert false;
    }
    EncodeLength(buffer[..]);
    DecodeEncode(buffer[..]);
  }

  /** The `data:` URL of section 3 of RFC 2397 for base64 content of the given media type. */
  function DataUrl(mediaType: string, base64: string): string
  {
    "data:" + mediaType + ";base64," + base64
  }

  /** The position of the first occurrence of `c` in `s`. */
  function FirstIndex(s: string, c: char): (r: Option<nat>)
    ensures r.Some? ==> r.value < |s| && s[r.value] == c && c !in s[..r.value]
    ensures r.None? ==> c !in s
  {
    if s == [] then None
    else if s[0] == c then Some(0)
    else
      match FirstIndex(s[1..], c)
      case None => None
      case Some(k) =>
        assert s[..k + 1] == [s[0]] + s[1..][..k];
        Some(k + 1)
  }

  /**
   * Reading a `data:` URL back as section 3 of RFC 2397 does: the media type
   * runs up to the first ',', must carry the `;base64` extension, and the data
   * after the comma is base64-decoded.
   */
  function ParseDataUrl(url: string): Option<(string, seq<Byte>)>
  {
    if |url| < 5 || url[..5] != "data:" then None
    else
      match FirstIndex(url, ',')
      case None => None
      case Some(k) =>
        if k < 5 + 7 || url[k - 7..k] != ";base64" then None
        else
          match Decode(url[k + 1..])
          case None => None
          case Some(bytes) => Some((url[5..k - 7], bytes))
  }

  /** When the media type has no comma, the image part carries exactly the downloaded bytes. */
  lemma DataUrlRoundTrip(mediaType: string, b: seq<Byte>)
    requires ',' !in mediaType
    ensures ParseDataUrl(DataUrl(mediaType, Encode(b))) == Some((mediaType, b))
  {
    var url := DataUrl(mediaType, Encode(b));
    var k := 5 + |mediaType| + 7;
    assert url[k] == ',';
    assert url[..k] == "data:" + mediaType + ";base64";
    assert ',' !in url[..k];
    assert FirstIndex(url, ',') == Some(k);
    assert url[..5] == "data:";
    assert url[k - 7..k] == ";base64";
    assert url[k + 1..] == Encode(b);
    assert url[5..k - 7] == mediaType;
    DecodeEncode(b);
  }
}
