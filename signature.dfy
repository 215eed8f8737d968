/**
 * The request signer shared by Lazada and Redmart: HMAC-SHA256, keyed by the app
 * secret, over the API path followed by every parameter's key and value in ascending
 * key order, written as upper-case hex. The byte encoding (UTF-8) and the hex
 * encoding are modelled exactly; HMAC-SHA256 itself is a parameter.
 */
module Signature {
  import opened Wrappers
  import Text
  import opened PyDict

  newtype byte = x: int | 0 <= x < 256

  /** The 32 bytes HMAC-SHA256 produces. */
  type Digest = d: seq<byte> | |d| == 32 witness seq(32, _ => 0)

  /** HMAC-SHA256 (RFC 2104 over FIPS 180-4 SHA-256): key bytes, message bytes, digest. */
  type Mac = (seq<byte>, seq<byte>) -> Digest

  // ---------------------------------------------------------------------------
  // UTF-8 (`str.encode("utf-8")`) and its inverse
  // ---------------------------------------------------------------------------

  predicate IsScalar(n: int) {
    0 <= n < 0xD800 || 0xE000 <= n < 0x110000
  }

  function EncodeScalar(n: int): (bs: seq<byte>)
    requires IsScalar(n)
    ensures 1 <= |bs| <= 4
  {
    if n < 0x80 then [n as byte]
    else if n < 0x800 then [(0xC0 + n / 64) as byte, (0x80 + n % 64) as byte]
    else if n < 0x10000 then
      [(0xE0 + n / 4096) as byte, (0x80 + (n / 64) % 64) as byte, (0x80 + n % 64) as byte]
    else
      [(0xF0 + n / 262144) as byte, (0x80 + (n / 4096) % 64) as byte,
       (0x80 + (n / 64) % 64) as byte, (0x80 + n % 64) as byte]
  }

  function Utf8(s: string): (bs: seq<byte>)
    ensures |s| <= |bs| <= 4 * |s|
  {
    if s == [] then [] else EncodeScalar(s[0] as int) + Utf8(s[1..])
  }

  predicate IsContinuation(b: byte) {
    0x80 <= b < 0xC0
  }

  /** The scalar value at the head of `bs` and the number of bytes it takes. */
  function DecodeScalar(bs: seq<byte>): Option<(int, nat)> {
    if |bs| == 0 then None
    else if bs[0] < 0x80 then Some((bs[0] as int, 1))
    else if 0xC0 <= bs[0] < 0xE0 && |bs| >= 2 && IsContinuation(bs[1]) then
      Some(((bs[0] as int - 0xC0) * 64 + (bs[1] as int - 0x80), 2))
    else if 0xE0 <= bs[0] < 0xF0 && |bs| >= 3 && IsContinuation(bs[1]) && IsContinuation(bs[2]) then
      Some(((bs[0] as int - 0xE0) * 4096 + (bs[1] as int - 0x80) * 64 + (bs[2] as int - 0x80), 3))
    else if 0xF0 <= bs[0] < 0xF8 && |bs| >= 4
            && IsContinuation(bs[1]) && IsContinuation(bs[2]) && IsContinuation(bs[3]) then
      Some(((bs[0] as int - 0xF0) * 262144 + (bs[1] as int - 0x80) * 4096
            + (bs[2] as int - 0x80) * 64 + (bs[3] as int - 0x80), 4))
    else None
  }

  function Utf8Decode(bs: seq<byte>): Option<string>
    decreases |bs|
  {
    if bs == [] then Some([])
    else match DecodeScalar(bs)
      case None => None
      case Some((n, len)) =>
        if IsScalar(n) && 0 < len <= |bs| then
          match Utf8Decode(bs[len..])
          case None => None
          case Some(rest) => Some([n as char] + rest)
        else None
  }

  /** Splitting off the low six bits and putting them back gives the number again. */
  lemma SixBits(n: nat)
    ensures n == (n / 64) * 64 + n % 64 && n % 64 < 64
  {
  }

  lemma DecodeEncodeScalar(n: int, rest: seq<byte>)
    requires IsScalar(n)
    ensures DecodeScalar(EncodeScalar(n) + rest) == Some((n, |EncodeScalar(n)|))
  {
    if n >= 0x10000 {
      SixBits(n);
      SixBits(n / 64);
      SixBits(n / 4096);
      assert n / 64 / 64 == n / 4096 && n / 4096 / 64 == n / 262144;
    } else if n >= 0x800 {
      SixBits(n);
      SixBits(n / 64);
      assert n / 64 / 64 == n / 4096;
    } else if n >= 0x80 {
      SixBits(n);
    }
  }

  /** Decoding what `encode("utf-8")` produced gives back the string. */
  lemma {:induction false} Utf8RoundTrip(s: string)
    ensures Utf8Decode(Utf8(s)) == Some(s)
  {
    if s != [] {
      var n := s[0] as int;
      var head := EncodeScalar(n);
      var bs := Utf8(s);
      assert bs == head + Utf8(s[1..]);
      DecodeEncodeScalar(n, Utf8(s[1..]));
      assert bs[|head|..] == Utf8(s[1..]);
      Utf8RoundTrip(s[1..]);
      assert n as char == s[0];
      assert Utf8Decode(bs) == Some([n as char] + s[1..]);
      assert [s[0]] + s[1..] == s;
    }
  }

  /** Different strings are different byte strings, so the MAC sees every character. */
  lemma Utf8Injective(s: string, t: string)
    requires s != t
    ensures Utf8(s) != Utf8(t)
  {
    Utf8RoundTrip(s);
    Utf8RoundTrip(t);
  }

  // ---------------------------------------------------------------------------
  // Hex (`hexdigest()`, optionally followed by `.upper()`) and its inverse
  // ---------------------------------------------------------------------------

  function HexDigit(d: nat, upper: bool): char
    requires d < 16
  {
    if upper then "0123456789ABCDEF"[d] else "0123456789abcdef"[d]
  }

  predicate IsHexDigit(c: char, upper: bool) {
    '0' <= c <= '9' || (upper && 'A' <= c <= 'F') || (!upper && 'a' <= c <= 'f')
  }

  /** Two hex digits per byte, high nibble first. */
  function Hex(bs: seq<byte>, upper: bool): (s: string)
    ensures |s| == 2 * |bs|
    ensures forall i :: 0 <= i < |s| ==> IsHexDigit(s[i], upper)
  {
    if bs == [] then []
    else [HexDigit(bs[0] as int / 16, upper), HexDigit(bs[0] as int % 16, upper)] + Hex(bs[1..], upper)
  }

  function HexValue(c: char): Option<nat> {
    if '0' <= c <= '9' then Some(c as int - '0' as int)
    else if 'a' <= c <= 'f' then Some(c as int - 'a' as int + 10)
    else if 'A' <= c <= 'F' then Some(c as int - 'A' as int + 10)
    else None
  }

  function HexDecode(s: string): Option<seq<byte>>
    decreases |s|
  {
    if s == [] then Some([])
    else if |s| < 2 then None
    else match (HexValue(s[0]), HexValue(s[1]), HexDecode(s[2..]))
      case (Some(hi), Some(lo), Some(rest)) => Some([(hi * 16 + lo) as byte] + rest)
      case _ => None
  }

  lemma HexDigitValue(d: nat, upper: bool)
    requires d < 16
    ensures HexValue(HexDigit(d, upper)) == Some(d)
    ensures Text.UpperChar(HexDigit(d, false)) == HexDigit(d, true)
  {
  }

  /** Decoding reads the two digits of one byte back, then the rest. */
  lemma HexDecodeByte(x: byte, upper: bool, rest: string)
    ensures HexDecode([HexDigit(x as int / 16, upper), HexDigit(x as int % 16, upper)] + rest)
            == match HexDecode(rest) case Some(r) => Some([x] + r) case None => None
  {
    var h := [HexDigit(x as int / 16, upper), HexDigit(x as int % 16, upper)] + rest;
    HexDigitValue(x as int / 16, upper);
    HexDigitValue(x as int % 16, upper);
    assert h[2..] == rest;
    assert (x as int / 16 * 16 + x as int % 16) as byte == x;
  }

  /** Reading the hex text back gives the bytes it was written from, in either case. */
  lemma {:induction false} HexRoundTrip(bs: seq<byte>, upper: bool)
    ensures HexDecode(Hex(bs, upper)) == Some(bs)
  {
    if bs != [] {
      HexDecodeByte(bs[0], upper, Hex(bs[1..], upper));
      HexRoundTrip(bs[1..], upper);
      assert [bs[0]] + bs[1..] == bs;
    }
  }

  /** `hexdigest().upper()` is the upper-case hex encoding. */
  lemma {:induction false} UpperOfLowerHex(bs: seq<byte>)
    ensures Text.Upper(Hex(bs, false)) == Hex(bs, true)
  {
    if bs != [] {
      UpperOfLowerHex(bs[1..]);
      HexDigitValue(bs[0] as int / 16, false);
      HexDigitValue(bs[0] as int % 16, false);
      var lo := Hex(bs, false);
      assert lo[2..] == Hex(bs[1..], false);
      assert Text.Upper(lo) == Text.Upper(lo[..2]) + Text.Upper(lo[2..]);
    }
  }

  // ---------------------------------------------------------------------------
  // The Lazada/Redmart signature (lazadaclient/signature.py)
  // ---------------------------------------------------------------------------

  /** Each key followed by its value, for the keys in the order given. */
  function KeyValueText(params: Dict<string>, keys: seq<string>): string {
    if keys == [] then "" else keys[0] + GetOr(params, keys[0], "") + KeyValueText(params, keys[1..])
  }

  /** The API path followed by every key and value, keys in ascending order. */
  function StringToSign(apiPath: string, params: Dict<string>): (r: string)
    ensures params == [] ==> r == apiPath
    ensures |apiPath| <= |r| && r[..|apiPath|] == apiPath
  {
    apiPath + KeyValueText(params, Text.Sort(Keys(params)))
  }

  /** `generate_signature(app_secret, api_path, parameters)`. */
  function GenerateSignature(mac: Mac, appSecret: string, apiPath: string, params: Dict<string>): (sig: string)
    ensures |sig| == 64
    ensures forall i :: 0 <= i < |sig| ==> IsHexDigit(sig[i], true) && !Text.IsLowerLetter(sig[i])
    ensures HexDecode(sig) == Some(mac(Utf8(appSecret), Utf8(StringToSign(apiPath, params))))
  {
    var digest := mac(Utf8(appSecret), Utf8(StringToSign(apiPath, params)));
    UpperOfLowerHex(digest);
    HexRoundTrip(digest, true);
    Text.Upper(Hex(digest, false))
  }

  /**
   * For any listing of the parameter keys in ascending order, the string to sign is the
   * path followed by each key and its value in that order.
   */
  lemma StringToSignAscending(apiPath: string, params: Dict<string>, keys: seq<string>)
    requires DistinctKeys(params)
    requires Text.Ascending(keys)
    requires forall k :: k in keys <==> k in Keys(params)
    ensures StringToSign(apiPath, params) == apiPath + KeyValueText(params, keys)
  {
    Text.SortAscending(Keys(params));
    Text.AscendingUnique(Text.Sort(Keys(params)), keys);
  }

  /** Key/value text depends only on what each listed key maps to. */
  lemma {:induction false} KeyValueTextSameValues(p: Dict<string>, q: Dict<string>, keys: seq<string>)
    requires forall k :: k in keys ==> Get(p, k) == Get(q, k)
    ensures KeyValueText(p, keys) == KeyValueText(q, keys)
  {
    if keys != [] {
      KeyValueTextSameValues(p, q, keys[1..]);
    }
  }

  /** Two dicts holding the same key/value pairs, in whatever insertion order, sign alike. */
  lemma SignatureIgnoresInsertionOrder(mac: Mac, appSecret: string, apiPath: string, p: Dict<string>, q: Dict<string>)
    requires DistinctKeys(p) && DistinctKeys(q)
    requires forall k :: Get(p, k) == Get(q, k)
    ensures GenerateSignature(mac, appSecret, apiPath, p) == GenerateSignature(mac, appSecret, apiPath, q)
  {
    var sp := Text.Sort(Keys(p));
    var sq := Text.Sort(Keys(q));
    Text.SortAscending(Keys(p));
    Text.SortAscending(Keys(q));
    forall k ensures k in sp <==> k in sq {
      assert Get(p, k).Some? == Get(q, k).Some?;
    }
    Text.AscendingUnique(sp, sq);
    KeyValueTextSameValues(p, q, sp);
  }
}
