/**
 * Acquiring a partner access token: an RSASSA-PKCS1-v1_5 signature
 * (section 8.2 of RFC 8017) over `clientKey|timestamp`, posted to the bank's
 * token endpoint, and a chain of checks on the answer.
 */
module AccessTokenAuth {
  import opened Wrappers
  import opened GoBase
  import opened Hmac
  import opened Entity
  import opened Dto
  import opened JsonCodec
  import opened Transport

  /** A decoded PEM block: its type line and its DER contents. */
  datatype PemBlock = PemBlock(blockType: string, bytes: seq<byte>)

  /** An RSA private key, known only by its encoding. */
  datatype RsaPrivateKey = RsaPrivateKey(der: seq<byte>)

  /** What PKCS#8 parsing can yield: an RSA key or a key of another algorithm. */
  datatype PrivateKey = RsaKey(rsa: RsaPrivateKey) | OtherKey(algorithm: string)

  /**
   * The library routines the token flow calls, none of them modelled:
   * PEM decoding, PKCS#8 and PKCS#1 parsing, PKCS#1 v1.5 signing of a
   * SHA-256 digest (its randomness included) and standard base64.
   */
  datatype KeyPrimitives = KeyPrimitives(
    pemDecode: seq<byte> -> Option<PemBlock>,
    parsePkcs8: seq<byte> -> Result<PrivateKey, GoError>,
    parsePkcs1: seq<byte> -> Result<RsaPrivateKey, GoError>,
    signPkcs1v15: (RsaPrivateKey, Digest) -> Result<seq<byte>, GoError>,
    base64: seq<byte> -> string)

  const PemBlockError := NewError("failed to parse PEM block with private key")
  const NotRsaError := NewError("not RSA private key")

  /** The key file's contents, or the read error wrapped with its context. */
  function ReadPemFile(file: Result<seq<byte>, GoError>): (r: Result<seq<byte>, GoError>)
    ensures file.Success? ==> r == file
    ensures file.Failure? ==> r == Failure(Wrap("failed to read private key", file.error))
  {
    match file
    case Success(bytes) => Success(bytes)
    case Failure(e) => Failure(Wrap("failed to read private key", e))
  }

  /**
   * The first PEM block is parsed as PKCS#8 and, only when that fails, as
   * PKCS#1; a PKCS#8 key of another algorithm is refused without a retry.
   */
  function LoadPrivateKey(kp: KeyPrimitives, pemData: seq<byte>): (r: Result<RsaPrivateKey, GoError>)
    ensures kp.pemDecode(pemData).None? ==> r == Failure(PemBlockError)
    ensures r.Success? <==>
      kp.pemDecode(pemData).Some? &&
      var der := kp.pemDecode(pemData).value.bytes;
      (kp.parsePkcs8(der).Success? && kp.parsePkcs8(der).value.RsaKey?) ||
      (kp.parsePkcs8(der).Failure? && kp.parsePkcs1(der).Success?)
    ensures kp.pemDecode(pemData).Some? ==>
      var der := kp.pemDecode(pemData).value.bytes;
      && (kp.parsePkcs8(der).Success? && kp.parsePkcs8(der).value.RsaKey? ==> r == Success(kp.parsePkcs8(der).value.rsa))
      && (kp.parsePkcs8(der).Success? && kp.parsePkcs8(der).value.OtherKey? ==> r == Failure(NotRsaError))
      && (kp.parsePkcs8(der).Failure? && kp.parsePkcs1(der).Success? ==> r == kp.parsePkcs1(der))
      && (kp.parsePkcs8(der).Failure? && kp.parsePkcs1(der).Failure? ==> r == Failure(kp.parsePkcs8(der).error))
  {
    match kp.pemDecode(pemData)
    case None => Failure(PemBlockError)
    case Some(block) =>
      match kp.parsePkcs8(block.bytes)
      case Failure(err) =>
        (match kp.parsePkcs1(block.bytes)
         case Failure(_) => Failure(err)
         case Success(key2) => Success(key2))
      case Success(key) =>
        if key.RsaKey? then Success(key.rsa) else Failure(NotRsaError)
  }

  /** Whenever PKCS#8 parsing succeeds, the PKCS#1 parser plays no part in the outcome. */
  lemma Pkcs1OnlyAfterPkcs8Fails(kp: KeyPrimitives, pemData: seq<byte>, otherPkcs1: seq<byte> -> Result<RsaPrivateKey, GoError>)
    requires kp.pemDecode(pemData).Some?
    requires kp.parsePkcs8(kp.pemDecode(pemData).value.bytes).Success?
    ensures LoadPrivateKey(kp, pemData) == LoadPrivateKey(kp.(parsePkcs1 := otherPkcs1), pemData)
  {
  }

  /** Base64 of the PKCS#1 v1.5 signature of SHA-256 of the UTF-8 bytes of `data`. */
  function SignWithRsa(kp: KeyPrimitives, h: Sha256, key: RsaPrivateKey, data: string): (r: Result<string, GoError>)
    ensures r.Success? <==> kp.signPkcs1v15(key, h(Utf8(data))).Success?
    ensures r.Success? ==> r.value == kp.base64(kp.signPkcs1v15(key, h(Utf8(data))).value)
    ensures r.Failure? ==> r.error == kp.signPkcs1v15(key, h(Utf8(data))).error
  {
    match kp.signPkcs1v15(key, h(Utf8(data)))
    case Success(signature) => Success(kp.base64(signature))
    case Failure(e) => Failure(e)
  }

  /** The client-credentials grant body. */
  const GrantPayload: map<string, string> := map["grant_type" := "client_credentials"]

  function TokenHeaders(timestamp: string, clientKey: string, signature: string): (m: map<string, string>)
    ensures m.Keys == {"Content-Type", "X-TIMESTAMP", "X-CLIENT-KEY", "X-SIGNATURE"}
    ensures m["Content-Type"] == "application/json"
    ensures m["X-TIMESTAMP"] == timestamp && m["X-CLIENT-KEY"] == clientKey && m["X-SIGNATURE"] == signature
  {
    map["Content-Type" := "application/json", "X-TIMESTAMP" := timestamp,
        "X-CLIENT-KEY" := clientKey, "X-SIGNATURE" := signature]
  }

  /** What is signed to obtain a token. */
  function TokenStringToSign(clientKey: string, timestamp: string): string
  {
    clientKey + "|" + timestamp
  }

  /**
   * Everything before the POST: read the key file, load the key, sign,
   * and build the request. The first failing step decides the error.
   */
  function PrepareTokenRequest(cfg: BankConfig, timestamp: string, pemFile: Result<seq<byte>, GoError>,
                               kp: KeyPrimitives, h: Sha256, codec: Codec): (r: Result<HttpRequest, GoError>)
    ensures pemFile.Failure? ==> r == Failure(Wrap("failed to read private key", pemFile.error))
    ensures pemFile.Success? && LoadPrivateKey(kp, pemFile.value).Failure? ==> r == Failure(LoadPrivateKey(kp, pemFile.value).error)
    ensures r.Success? <==>
      pemFile.Success? && LoadPrivateKey(kp, pemFile.value).Success? &&
      SignWithRsa(kp, h, LoadPrivateKey(kp, pemFile.value).value, TokenStringToSign(cfg.clientKey, timestamp)).Success?
    ensures r.Success? ==>
      && r.value.httpMethod == "POST"
      && r.value.url == cfg.baseUrl + cfg.accessTokenUrl
      && r.value.payload == codec.marshalStrings(GrantPayload)
      && r.value.headers == TokenHeaders(timestamp, cfg.clientKey,
           SignWithRsa(kp, h, LoadPrivateKey(kp, pemFile.value).value, TokenStringToSign(cfg.clientKey, timestamp)).value)
  {
    var endpoint := cfg.baseUrl + cfg.accessTokenUrl;
    var stringToSign := TokenStringToSign(cfg.clientKey, timestamp);
    match ReadPemFile(pemFile)
    case Failure(e) => Failure(e)
    case Success(pem) =>
      match LoadPrivateKey(kp, pem)
      case Failure(e) => Failure(e)
      case Success(pk) =>
        match SignWithRsa(kp, h, pk, stringToSign)
        case Failure(e) => Failure(e)
        case Success(signature) =>
          Success(HttpRequest("POST", endpoint, codec.marshalStrings(GrantPayload),
                              TokenHeaders(timestamp, cfg.clientKey, signature)))
  }

  /**
   * The checks on the token endpoint's answer, in order: transport error,
   * status other than 200, decode error, empty token.
   */
  function CheckTokenResponse(resp: HttpResult, codec: Codec): (r: Result<SnapAccessToken, GoError>)
    ensures r.Success? <==>
      resp.err.None? && resp.status == StatusOK &&
      codec.decodeToken(BodyBytes(resp)).err.None? && codec.decodeToken(BodyBytes(resp)).value.accessToken != ""
    ensures r.Success? ==> r.value == codec.decodeToken(BodyBytes(resp)).value && r.value.accessToken != ""
    ensures resp.err.Some? ==> r == Failure(resp.err.value)
    ensures resp.err.None? && resp.status != StatusOK ==>
      r == Failure(NewError("access unauthorized: http code " + DecimalString(resp.status)))
    ensures resp.err.None? && resp.status == StatusOK && codec.decodeToken(BodyBytes(resp)).err.Some? ==>
      r == Failure(codec.decodeToken(BodyBytes(resp)).err.value)
  {
    if resp.err.Some? then Failure(resp.err.value)
    else if resp.status != StatusOK then Failure(NewError("access unauthorized: http code " + DecimalString(resp.status)))
    else
      var decoded := codec.decodeToken(BodyBytes(resp));
      if decoded.err.Some? then Failure(decoded.err.value)
      else if decoded.value.accessToken == "" then Failure(NewError("access token empty"))
      else Success(decoded.value)
  }

  /**
   * The whole acquisition. A returned token is never empty; a request that
   * is sent goes to `baseUrl + accessTokenUrl` with the signed timestamp as X-TIMESTAMP.
   */
  function GetAccessToken(cfg: BankConfig, timestamp: string, pemFile: Result<seq<byte>, GoError>,
                          kp: KeyPrimitives, h: Sha256, codec: Codec, send: Sender): (r: Result<SnapAccessToken, GoError>)
    ensures r.Success? ==> r.value.accessToken != ""
    ensures PrepareTokenRequest(cfg, timestamp, pemFile, kp, h, codec).Failure? ==>
      r == Failure(PrepareTokenRequest(cfg, timestamp, pemFile, kp, h, codec).error)
    ensures PrepareTokenRequest(cfg, timestamp, pemFile, kp, h, codec).Success? ==>
      r == CheckTokenResponse(send(PrepareTokenRequest(cfg, timestamp, pemFile, kp, h, codec).value), codec)
    ensures r.Success? ==>
      var req := PrepareTokenRequest(cfg, timestamp, pemFile, kp, h, codec);
      && req.Success?
      && req.value.url == cfg.baseUrl + cfg.accessTokenUrl
      && req.value.headers["X-TIMESTAMP"] == timestamp
      && var resp := send(req.value);
         resp.err.None? && resp.status == StatusOK && r.value == codec.decodeToken(BodyBytes(resp)).value
  {
    match PrepareTokenRequest(cfg, timestamp, pemFile, kp, h, codec)
    case Failure(e) => Failure(e)
    case Success(req) => CheckTokenResponse(send(req), codec)
  }
}
