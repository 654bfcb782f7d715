/**
 * Request signing: the hex SHA-256 of a body, and the HMAC-SHA256 (RFC 2104)
 * of a colon-joined string to sign, hex-encoded (section 8 of RFC 4648).
 * Both are functions of their arguments alone: no clock, no randomness.
 */
module Signature {
  import opened Wrappers
  import opened GoBase
  import Hex
  import opened Hmac

  /** Lower-case hex of SHA-256 of the payload: 64 characters that decode back to the digest. */
  function HashSha256Hex(h: Sha256, payload: seq<byte>): (r: string)
    ensures |r| == 64
    ensures forall i :: 0 <= i < |r| ==> Hex.IsLowerHexDigit(r[i])
    ensures Hex.Decode(r) == Some(h(payload))
  {
    Hex.DecodeEncode(h(payload));
    Hex.Encode(h(payload))
  }

  /** Each field followed by one ':', nothing escaped. */
  function ColonTerminated(fields: seq<string>): string
  {
    if fields == [] then "" else fields[0] + ":" + ColonTerminated(fields[1..])
  }

  predicate ColonFree(s: string)
  {
    forall i :: 0 <= i < |s| ==> s[i] != ':'
  }

  /** The string the partner banks expect to be signed. */
  function StringToSign(httpMethod: string, relativeUrl: string, accessToken: string, bodyHash: string, timestamp: string): (r: string)
    ensures r == httpMethod + ":" + relativeUrl + ":" + accessToken + ":" + bodyHash + ":" + timestamp + ":"
    ensures |r| == |httpMethod| + |relativeUrl| + |accessToken| + |bodyHash| + |timestamp| + 5
  {
    var fields := [httpMethod, relativeUrl, accessToken, bodyHash, timestamp];
    assert ColonTerminated(fields[4..]) == timestamp + ":";
    assert ColonTerminated(fields[3..]) == bodyHash + ":" + timestamp + ":";
    assert ColonTerminated(fields[2..]) == accessToken + ":" + bodyHash + ":" + timestamp + ":";
    assert ColonTerminated(fields[1..]) == relativeUrl + ":" + accessToken + ":" + bodyHash + ":" + timestamp + ":";
    ColonTerminated(fields)
  }

  /** Index of the first ':' in s, or |s| when there is none. */
  function FirstColon(s: string): (n: nat)
    ensures n <= |s|
    ensures forall i :: 0 <= i < n ==> s[i] != ':'
    ensures n < |s| ==> s[n] == ':'
  {
    if s == [] then 0 else if s[0] == ':' then 0 else 1 + FirstColon(s[1..])
  }

  lemma {:induction false} FirstColonOfField(x: string, rest: string)
    requires ColonFree(x)
    ensures FirstColon(x + ":" + rest) == |x|
  {
    if x != [] {
      assert (x + ":" + rest)[1..] == x[1..] + ":" + rest;
      FirstColonOfField(x[1..], rest);
    }
  }

  /** A colon-free field is recovered from the text it starts. */
  lemma SplitAtColon(x: string, r1: string, y: string, r2: string)
    requires ColonFree(x) && ColonFree(y)
    requires x + ":" + r1 == y + ":" + r2
    ensures x == y && r1 == r2
  {
    var s := x + ":" + r1;
    FirstColonOfField(x, r1);
    FirstColonOfField(y, r2);
    assert x == s[..|x|];
    assert r1 == s[|x| + 1..];
  }

  /** When no field contains ':', the joined text determines the fields. */
  lemma {:induction false} ColonTerminatedInjective(a: seq<string>, b: seq<string>)
    requires |a| == |b|
    requires forall i :: 0 <= i < |a| ==> ColonFree(a[i])
    requires forall i :: 0 <= i < |b| ==> ColonFree(b[i])
    requires ColonTerminated(a) == ColonTerminated(b)
    ensures a == b
  {
    if a != [] {
      SplitAtColon(a[0], ColonTerminated(a[1..]), b[0], ColonTerminated(b[1..]));
      ColonTerminatedInjective(a[1..], b[1..]);
      assert a == [a[0]] + a[1..] && b == [b[0]] + b[1..];
    }
  }

  /** With colon-free fields, equal strings to sign come from equal arguments. */
  lemma StringToSignInjective(m: string, u: string, t: string, bh: string, ts: string,
                              m': string, u': string, t': string, bh': string, ts': string)
    requires ColonFree(m) && ColonFree(u) && ColonFree(t) && ColonFree(bh) && ColonFree(ts)
    requires ColonFree(m') && ColonFree(u') && ColonFree(t') && ColonFree(bh') && ColonFree(ts')
    requires StringToSign(m, u, t, bh, ts) == StringToSign(m', u', t', bh', ts')
    ensures m == m' && u == u' && t == t' && bh == bh' && ts == ts'
  {
    var a, b := [m, u, t, bh, ts], [m', u', t', bh', ts'];
    ColonTerminatedInjective(a, b);
    assert a[0] == b[0] && a[1] == b[1] && a[2] == b[2] && a[3] == b[3] && a[4] == b[4];
  }

  /**
   * Fields are not escaped, and URLs contain ':': moving a colon from the
   * method into the URL leaves the string to sign, and so the signature, unchanged.
   */
  lemma StringToSignAmbiguous(accessToken: string, bodyHash: string, timestamp: string)
    ensures StringToSign("POST", "https://bank/inquiry", accessToken, bodyHash, timestamp)
         == StringToSign("POST:https", "//bank/inquiry", accessToken, bodyHash, timestamp)
  {
    assert "POST" + ":" + "https://bank/inquiry" == "POST:https" + ":" + "//bank/inquiry";
  }

  /**
   * Lower-case hex of HMAC-SHA256 keyed by the UTF-8 bytes of the secret over
   * the UTF-8 bytes of the string to sign.
   */
  function HashSignature(h: Sha256, httpMethod: string, relativeUrl: string, accessToken: string,
                         bodyHash: string, timestamp: string, apiSecret: string): (r: string)
    ensures |r| == 64
    ensures forall i :: 0 <= i < |r| ==> Hex.IsLowerHexDigit(r[i])
    ensures Hex.Decode(r) == Some(HmacSha256(h, Utf8(apiSecret), Utf8(StringToSign(httpMethod, relativeUrl, accessToken, bodyHash, timestamp))))
  {
    var mac := HmacSha256(h, Utf8(apiSecret), Utf8(StringToSign(httpMethod, relativeUrl, accessToken, bodyHash, timestamp)));
    Hex.DecodeEncode(mac);
    Hex.Encode(mac)
  }

  /**
   * HMAC pads short keys with zero bytes, so a secret and the same secret
   * followed by a NUL character sign every request identically.
   */
  lemma SecretWithTrailingNulCollides(h: Sha256, httpMethod: string, relativeUrl: string, accessToken: string,
                                      bodyHash: string, timestamp: string, apiSecret: string)
    requires |Utf8(apiSecret)| < BlockSize
    ensures HashSignature(h, httpMethod, relativeUrl, accessToken, bodyHash, timestamp, apiSecret)
         == HashSignature(h, httpMethod, relativeUrl, accessToken, bodyHash, timestamp, apiSecret + "\0")
  {
    Utf8Append(apiSecret, "\0");
    assert Utf8("\0") == [0];
    ZeroPaddedKeysCollide(h, Utf8(apiSecret), Utf8(StringToSign(httpMethod, relativeUrl, accessToken, bodyHash, timestamp)));
  }
}
