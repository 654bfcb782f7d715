/**
 * The inquiry orchestrator: configuration, route, token, request, transport
 * check, parse, status check, persistence, reply.
 */
module InquiryService {
  import opened Wrappers
  import opened GoBase
  import opened Hmac
  import opened Entity
  import opened Dto
  import opened JsonCodec
  import opened Transport
  import opened MapperCommon
  import opened RoutingHelper
  import opened ErrorHelper
  import opened AccessTokenAuth
  import opened AccessTokenService
  import opened PartnerService
  import Signature
  import BcaMapper

  /** The library functions the service relies on. */
  datatype Platform = Platform(sha256: Sha256, keys: KeyPrimitives, codec: Codec)

  /**
   * What the outside world contributes to one call: the clock (one reading in
   * Unix seconds, and the formatted timestamps), the key file, the two POSTs,
   * and the success or failure of each store access.
   */
  datatype Effects = Effects(
    now: int,
    tokenTimestamp: string,
    headerTimestamp: string,
    bodyTimestamp: string,
    pemFile: Result<seq<byte>, GoError>,
    sendToken: Sender,
    sendInquiry: Sender,
    cacheReadFault: Option<GoError>,
    dbReadFault: Option<GoError>,
    cacheWriteBackFault: Option<GoError>,
    tokenDbWriteFault: Option<GoError>,
    tokenCacheWriteFault: Option<GoError>,
    inquiryWriteFault: Option<GoError>)

  datatype InquiryContext = InquiryContext(request: InquiryRequest, bankConfig: BankConfig, partnerRefNo: string)

  /** A call either returns a reply or panics. */
  datatype Outcome = Returned(reply: Reply) | Panicked(reason: string)
  {
    predicate IsSuccess()
    {
      Returned? && reply.response.status
    }
  }

  const ConnectionError := ErrorDetail("INTERNAL_CONNECTION_ERROR", "Fail to send request to bank",
                                       "Failed to send request, please check connection", SourceInternal)
  const NoResponseError := ErrorDetail("BANK_NO_RESPONSE", "No response from bank", "Empty or nil response from bank", SourceBank)

  function FormatError(err: GoError): ErrorDetail
  {
    ErrorDetail("BANK_FORMAT_ERROR", "Invalid response format from bank", ErrorString(err), SourceInternal)
  }

  function PersistError(err: GoError): ErrorDetail
  {
    ErrorDetail("INTERNAL_SERVER_ERROR", "Internal server error occured", ErrorString(err), SourceInternal)
  }

  /**
   * A transport error is an internal connection error; otherwise a nil body
   * is a bank no-response; otherwise there is nothing to report.
   */
  function HandleTransportError(err: Option<GoError>, respData: Option<seq<byte>>): (r: Option<Reply>)
    ensures r.None? <==> err.None? && respData.Some?
    ensures err.Some? ==> r == Some(BuildErrorResponse(ConnectionError, "", err))
    ensures err.Some? ==> r.value.response.code == "INTERNAL_CONNECTION_ERROR" && r.value.response.source == SourceInternal
    ensures err.None? && respData.None? ==> r == Some(BuildErrorResponse(NoResponseError, "", None))
  {
    if err.Some? then Some(BuildErrorResponse(ConnectionError, "", err))
    else if respData.None? then Some(BuildErrorResponse(NoResponseError, "", None))
    else None
  }

  /** The helper that performs the POST never yields a nil body without an error, so no bank no-response is reported for it. */
  lemma NoResponseUnreachable(resp: HttpResult)
    requires FromSendRequest(resp)
    ensures HandleTransportError(resp.err, resp.body).Some? ==> HandleTransportError(resp.err, resp.body).value.response.code != "BANK_NO_RESPONSE"
  {
  }

  /** The mapped data and an error slot that is never filled. */
  datatype Parsed = Parsed(data: MapOutcome, err: Option<GoError>)

  function ParseBankResponse(codec: Codec, bankResp: seq<byte>, bankCfg: BankConfig, httpStatus: int): (r: Parsed)
    ensures r.err.None?
    ensures r.data == MapResponse(NewBankRouteResponse(bankCfg, httpStatus), codec, bankResp)
  {
    var routeResp := NewBankRouteResponse(bankCfg, httpStatus);
    Parsed(MapResponse(routeResp, codec, bankResp), None)
  }

  /** A bank status other than 200: its table entry or the default, with a status error; the bank's message is dropped. */
  function HandleBankError(httpStatus: int, mapData: BankResponseData): (r: Reply)
    ensures r == BuildErrorResponse(DetailForStatus(httpStatus), mapData.responseMessage,
                                    Some(NewError("bank error status: " + DecimalString(httpStatus))))
    ensures !r.response.status && r.response.source == SourceBank && r.err.Some?
    ensures httpStatus in ErrorMap ==> r.response.code == ErrorMap[httpStatus].code
    ensures httpStatus !in ErrorMap ==> r.response.code == "BANK_UNKOWN_ERROR"
  {
    BuildErrorResponse(DetailForStatus(httpStatus), mapData.responseMessage,
                       Some(NewError("bank error status: " + DecimalString(httpStatus))))
  }

  /** The row a successful inquiry writes: keyed by the external id, not the request's partner reference. */
  function InquiryRecord(data: InquiryContext, mapData: BankResponseData, now: int): (r: Inquiry)
    ensures r.merchantCode == data.request.companyId
    ensures r.partnerReferenceNo == data.partnerRefNo
    ensures r.beneficiaryAccount == data.request.beneficiaryAccount
    ensures r.beneficiaryBankCode == data.request.bankCode
    ensures r.beneficiaryAccountName == mapData.accountName
    ensures r.inquiryDate == now && r.status == "SUCCESS"
  {
    Inquiry(data.request.companyId, data.partnerRefNo, data.request.beneficiaryAccount, data.request.bankCode,
            mapData.accountName, now, "SUCCESS")
  }

  function BuildSuccessResponse(data: InquiryContext, mapData: BankResponseData): (r: Reply)
    ensures r.response.status && r.err.None?
    ensures r.response.code == "SUCCESS" && r.response.message == "Inquiry successful" && r.response.source == SourceBank
    ensures r.response.data == InquiryData(data.request.beneficiaryAccount, data.request.bankCode, mapData.accountName)
  {
    Reply(InquiryResponse(true, "Inquiry successful", "SUCCESS", SourceBank,
                          InquiryData(data.request.beneficiaryAccount, data.request.bankCode, mapData.accountName)),
          None)
  }

  /** What follows a parse: panic, reply now, or persist and then reply. */
  datatype Step = Abort(reason: string) | Respond(reply: Reply) | Persist(data: BankResponseData)

  /** The checks after the transport check, in handleInquiryResponse's order: format error, bank status. */
  function AfterParse(parsed: Parsed, httpStatus: int): (s: Step)
    ensures parsed.data.Panic? ==> s == Abort(parsed.data.reason)
    ensures parsed.data.Mapped? && parsed.err.Some? ==>
      s == Respond(BuildErrorResponse(FormatError(parsed.err.value), "", parsed.err))
    ensures parsed.data.Mapped? && parsed.err.None? && httpStatus != StatusOK ==>
      s == Respond(HandleBankError(httpStatus, parsed.data.data))
    ensures s.Persist? <==> parsed.data.Mapped? && parsed.err.None? && httpStatus == StatusOK
    ensures s.Persist? ==> s.data == parsed.data.data
  {
    match parsed.data
    case Panic(reason) => Abort(reason)
    case Mapped(mapData) =>
      if parsed.err.Some? then Respond(BuildErrorResponse(FormatError(parsed.err.value), "", parsed.err))
      else if httpStatus != StatusOK then Respond(HandleBankError(httpStatus, mapData))
      else Persist(mapData)
  }

  /** Replies that follow a parse are never format errors, and never success: success comes only after persisting. */
  lemma {:induction false} AfterParseReplies(codec: Codec, bankResp: seq<byte>, cfg: BankConfig, httpStatus: int)
    ensures var s := AfterParse(ParseBankResponse(codec, bankResp, cfg, httpStatus), httpStatus);
      && (s.Respond? ==> s.reply.response.code != "BANK_FORMAT_ERROR" && !s.reply.response.status && s.reply.err.Some?)
      && (s.Abort? <==> cfg.bankCode == "013")
      && (httpStatus != StatusOK ==> !s.Persist?)
  {
    OnlyPermataPanics(cfg, httpStatus, codec, bankResp);
    var parsed := ParseBankResponse(codec, bankResp, cfg, httpStatus);
    if parsed.data.Mapped? && httpStatus != StatusOK {
      ErrorMapShape();
    }
  }

  /** A BRI 200 answer naming JOHN DOE is mapped to that name and leads to persisting the inquiry. */
  lemma BriSuccessIsPersisted(codec: Codec, bankResp: seq<byte>, cfg: BankConfig)
    requires cfg.bankCode == "002"
    requires codec.decodeBriInternal(bankResp).value.beneficiaryAccountName == "JOHN DOE"
    requires codec.decodeBriInternal(bankResp).value.responseMessage == "Successful"
    ensures AfterParse(ParseBankResponse(codec, bankResp, cfg, 200), 200) == Persist(BankResponseData("JOHN DOE", "Successful"))
  {
  }

  /**
   * A 404 is reported as ACCOUNT_NOT_FOUND from the bank for every
   * configuration except Permata's, whose parser panics before the status is looked at.
   */
  lemma {:induction false} NotFoundStatus(codec: Codec, bankResp: seq<byte>, cfg: BankConfig)
    ensures var s := AfterParse(ParseBankResponse(codec, bankResp, cfg, 404), 404);
      && (cfg.bankCode != "013" ==> s.Respond? && s.reply.response.code == "ACCOUNT_NOT_FOUND"
                                    && s.reply.response.source == SourceBank && !s.reply.response.status)
      && (cfg.bankCode == "013" ==> s.Abort?)
  {
    OnlyPermataPanics(cfg, 404, codec, bankResp);
  }

  /**
   * The token row made from a fresh token: type forced to "Bearer" and
   * expiry `now + (expiresIn - 30)`, the subtraction done in Go `int16`.
   */
  function NewTokenEntity(t: SnapAccessToken, now: int): (a: AccessToken)
    ensures a.accessToken == t.accessToken && a.tokenType == "Bearer" && a.expiresIn == t.expiresIn
    ensures t.expiresIn >= -32738 ==> a.expiresDate == now + t.expiresIn as int - 30
    ensures t.expiresIn < -32738 ==> a.expiresDate == now + t.expiresIn as int - 30 + 0x1_0000
  {
    AccessToken(t.accessToken, "Bearer", t.expiresIn, now + Int16Sub(t.expiresIn, 30) as int)
  }

  /**
   * With no floor, a token living 30 seconds or less is stored already
   * expired and refused by the cache; the most negative lifetimes wrap
   * around to an expiry about nine hours ahead.
   */
  lemma {:induction false} ShortLivedTokenIsNeverServed(t: SnapAccessToken, now: int)
    ensures -32738 <= t.expiresIn <= 30 ==> !ValidAt(NewTokenEntity(t, now), now) && TtlSeconds(t.expiresIn) == 0
    ensures t.expiresIn == -32768 ==> NewTokenEntity(t, now).expiresDate == now + 32738
  {
  }

  /** The request posted to the bank: the route's URL, its body as JSON, its headers over that very body. */
  function OutboundRequest(p: Platform, fx: Effects, route: BankRouteRequest, accessToken: string,
                           externalId: string, cfg: BankConfig): (r: HttpRequest)
    ensures r.httpMethod == "POST" && r.url == GetUrl(route)
    ensures r.payload == p.codec.marshalBody(BuildBodyRequest(route, fx.bodyTimestamp))
    ensures r.headers == GetHeaders(route, p.sha256, accessToken, externalId, cfg, r.payload, fx.headerTimestamp)
  {
    var payload := p.codec.marshalBody(BuildBodyRequest(route, fx.bodyTimestamp));
    HttpRequest("POST", GetUrl(route), payload, GetHeaders(route, p.sha256, accessToken, externalId, cfg, payload, fx.headerTimestamp))
  }

  /**
   * An unknown bank code falls back to BCA's configuration: the request goes
   * to BCA's external URL, but the signature covers BCA's internal URL.
   */
  lemma UnknownCodePostsExternalSignsInternal(bp: BankPartner, p: Platform, fx: Effects, req: InquiryRequest,
                                              accessToken: string, externalId: string)
    requires bp.Valid()
    requires req.bankCode !in bp.bankCache && "014" in bp.bankCache
    requires req.bankCode !in {"002", "013", "014", "022"}
    ensures var cfg := bp.GetBankConfig(req.bankCode);
      var r := OutboundRequest(p, fx, NewBankRouteRequest(req, cfg, externalId), accessToken, externalId, cfg);
      && r.url == cfg.externalInquiryUrl
      && r.headers["X-SIGNATURE"] == Signature.HashSignature(p.sha256, "POST", cfg.internalInquiryUrl, accessToken,
           Signature.HashSha256Hex(p.sha256, r.payload), fx.headerTimestamp, cfg.clientSecret)
  {
    var cfg := bp.GetBankConfig(req.bankCode);
    assert cfg.bankCode == "014";
  }

  /**
   * The outcome of one bank answer: the transport check, then the parse and
   * status checks, then the insert's fault. Success happens exactly for a
   * delivered 200 answer, outside Permata's configuration, whose row was saved.
   */
  function Decide(p: Platform, fx: Effects, data: InquiryContext, respData: Option<seq<byte>>,
                  httpStatus: int, er: Option<GoError>): (o: Outcome)
    ensures o.IsSuccess() <==>
      er.None? && respData.Some? && httpStatus == StatusOK && data.bankConfig.bankCode != "013" && fx.inquiryWriteFault.None?
    ensures o.IsSuccess() ==>
      o.reply == BuildSuccessResponse(data, MapResponse(NewBankRouteResponse(data.bankConfig, httpStatus), p.codec, respData.value).data)
    ensures o.Returned? ==> o.reply.response.code != "BANK_FORMAT_ERROR"
    ensures o.Returned? && !o.reply.response.status ==> o.reply.err.Some?
    ensures o.Panicked? <==> er.None? && respData.Some? && data.bankConfig.bankCode == "013"
    ensures er.Some? ==> o == Returned(BuildErrorResponse(ConnectionError, "", er))
    ensures HandleTransportError(er, respData).Some? ==> o == Returned(HandleTransportError(er, respData).value)
    ensures HandleTransportError(er, respData).None? ==>
      var s := AfterParse(ParseBankResponse(p.codec, respData.value, data.bankConfig, httpStatus), httpStatus);
      && (s.Abort? ==> o == Panicked(s.reason))
      && (s.Respond? ==> o == Returned(s.reply))
      && (s.Persist? && fx.inquiryWriteFault.None? ==> o == Returned(BuildSuccessResponse(data, s.data)))
      && (s.Persist? && fx.inquiryWriteFault.Some? ==>
            o == Returned(BuildErrorResponse(PersistError(fx.inquiryWriteFault.value), "", fx.inquiryWriteFault)))
  {
    match HandleTransportError(er, respData)
    case Some(reply) => Returned(reply)
    case None =>
      AfterParseReplies(p.codec, respData.value, data.bankConfig, httpStatus);
      match AfterParse(ParseBankResponse(p.codec, respData.value, data.bankConfig, httpStatus), httpStatus)
      case Abort(reason) => Panicked(reason)
      case Respond(reply) => Returned(reply)
      case Persist(mapData) =>
        if fx.inquiryWriteFault.Some? then
          Returned(BuildErrorResponse(PersistError(fx.inquiryWriteFault.value), "", fx.inquiryWriteFault))
        else Returned(BuildSuccessResponse(data, mapData))
  }

  /** What acquiring a token yields and leaves in the two token stores. */
  datatype TokenStep = TokenStep(result: Result<string, GoError>, cache: map<string, CacheEntry>, tokens: seq<AccessToken>)

  /**
   * After a successful call: one row was appended, holding the caller's
   * merchant, the external id, the request's account and bank code and the
   * name that was replied, and the reply reports success from the bank.
   */
  ghost predicate SuccessRecorded(before: seq<Inquiry>, after: seq<Inquiry>, reply: Reply, data: InquiryContext, now: int)
  {
    && |after| == |before| + 1
    && after[..|before|] == before
    && var row := after[|before|];
    && row.merchantCode == data.request.companyId
    && row.partnerReferenceNo == data.partnerRefNo
    && row.beneficiaryAccount == data.request.beneficiaryAccount
    && row.beneficiaryBankCode == data.request.bankCode
    && row.beneficiaryAccountName == reply.response.data.beneficiaryName
    && row.inquiryDate == now && row.status == "SUCCESS"
    && reply.response.code == "SUCCESS" && reply.response.source == SourceBank && reply.err.None?
    && reply.response.data.beneficiaryAccount == data.request.beneficiaryAccount
    && reply.response.data.bankCode == data.request.bankCode
  }

  /**
   * What every inquiry guarantees about its outcome and the inquiry table:
   * append-only, one row exactly on success and recorded as replied, never a
   * format error, every failed reply carrying an error, and panics confined
   * to Permata's configuration, under which no call succeeds.
   */
  ghost predicate InquiryGuarantees(before: seq<Inquiry>, after: seq<Inquiry>, out: Outcome, data: InquiryContext, now: int)
  {
    && (after == before || |after| == |before| + 1)
    && (after != before <==> out.IsSuccess())
    && (out.IsSuccess() ==> SuccessRecorded(before, after, out.reply, data, now))
    && (out.Returned? ==> out.reply.response.code != "BANK_FORMAT_ERROR")
    && (out.Returned? && !out.reply.response.status ==> out.reply.err.Some?)
    && (out.Panicked? ==> data.bankConfig.bankCode == "013")
    && (data.bankConfig.bankCode == "013" ==> !out.IsSuccess())
  }

  class InquiryService {
    const tokenSvc: TokenService
    const bankRepo: BankPartner
    /** The inquiry table, append-only. */
    var inquiries: seq<Inquiry>

    constructor (tokenSvc: TokenService, bankRepo: BankPartner)
      ensures this.tokenSvc == tokenSvc && this.bankRepo == bankRepo && inquiries == []
    {
      this.tokenSvc := tokenSvc;
      this.bankRepo := bankRepo;
      inquiries := [];
    }

    /** The transactional insert of the inquiry row. */
    method PersistInquiry(data: InquiryContext, mapData: BankResponseData, now: int, fault: Option<GoError>)
      returns (err: Option<GoError>)
      modifies this
      ensures err == fault
      ensures fault.None? ==> inquiries == old(inquiries) + [InquiryRecord(data, mapData, now)]
      ensures fault.Some? ==> inquiries == old(inquiries)
    {
      if fault.Some? {
        return fault;
      }
      inquiries := inquiries + [InquiryRecord(data, mapData, now)];
      return None;
    }

    /**
     * Turns a transport result into the call's outcome. At most one row is
     * appended, and exactly when the call succeeds; no reply is a format error.
     */
    method HandleInquiryResponse(p: Platform, fx: Effects, data: InquiryContext, respData: Option<seq<byte>>,
                                 httpStatus: int, er: Option<GoError>) returns (out: Outcome)
      modifies this
      ensures out == Decide(p, fx, data, respData, httpStatus, er)
      ensures out.IsSuccess() ==>
        inquiries == old(inquiries) + [InquiryRecord(data, MapResponse(NewBankRouteResponse(data.bankConfig, httpStatus),
                                                                       p.codec, respData.value).data, fx.now)]
      ensures !out.IsSuccess() ==> inquiries == old(inquiries)
      ensures InquiryGuarantees(old(inquiries), inquiries, out, data, fx.now)
    {
      var transport := HandleTransportError(er, respData);
      if transport.Some? {
        return Returned(transport.value);
      }
      var parsed := ParseBankResponse(p.codec, respData.value, data.bankConfig, httpStatus);
      AfterParseReplies(p.codec, respData.value, data.bankConfig, httpStatus);
      match AfterParse(parsed, httpStatus)
      case Abort(reason) =>
        out := Panicked(reason);
      case Respond(reply) =>
        out := Returned(reply);
      case Persist(mapData) =>
        var err := PersistInquiry(data, mapData, fx.now, fx.inquiryWriteFault);
        if err.Some? {
          out := Returned(BuildErrorResponse(PersistError(err.value), "", err));
        } else {
          out := Returned(BuildSuccessResponse(data, mapData));
        }
    }

    /**
     * Acquiring a token for a configuration, stated on the stores as they
     * stand: the cached token; else the table's latest valid token, written
     * back to the cache; else a fetched token, saved to the table and the
     * cache. Only the bank's cache key can change, only a fetched token is
     * appended to the table, and a token written to the cache is live.
     */
    function TokenPlan(p: Platform, fx: Effects, cfg: BankConfig): (s: TokenStep)
      reads tokenSvc
      ensures var key := CacheKey(cfg.bankName);
        && (s.cache == tokenSvc.cache || (key in s.cache && s.cache == tokenSvc.cache[key := s.cache[key]]))
        && (s.cache != tokenSvc.cache ==> s.result.Success? && s.cache[key].value == s.result.value && s.cache[key].LiveAt(fx.now))
      ensures s.tokens == tokenSvc.tokens ||
        (|s.tokens| == |tokenSvc.tokens| + 1 && s.tokens[..|tokenSvc.tokens|] == tokenSvc.tokens
         && s.result.Success? && s.tokens[|tokenSvc.tokens|].accessToken == s.result.value)
      ensures s.result.Failure? ==> s.cache == tokenSvc.cache && s.tokens == tokenSvc.tokens
      ensures tokenSvc.GetToken(CacheKey(cfg.bankName), fx.now, fx.cacheReadFault).Success? ==>
        s == TokenStep(tokenSvc.GetToken(CacheKey(cfg.bankName), fx.now, fx.cacheReadFault), tokenSvc.cache, tokenSvc.tokens)
      ensures tokenSvc.FindToken(fx.now, fx.dbReadFault).Success? ==>
        s.result.Success? && s.tokens == tokenSvc.tokens
      ensures
        var key := CacheKey(cfg.bankName);
        var found := tokenSvc.FindToken(fx.now, fx.dbReadFault);
        tokenSvc.GetToken(key, fx.now, fx.cacheReadFault).Failure? && found.Success? ==>
          && s.result == Success(found.value.accessToken)
          && (found.value.expiresIn > 30 && fx.cacheWriteBackFault.None? ==>
                s.cache == tokenSvc.cache[key := CacheEntry(found.value.accessToken, TtlSeconds(found.value.expiresIn), fx.now)])
          && (found.value.expiresIn <= 30 || fx.cacheWriteBackFault.Some? ==> s.cache == tokenSvc.cache)
      ensures
        var key := CacheKey(cfg.bankName);
        var fetched := GetAccessToken(cfg, fx.tokenTimestamp, fx.pemFile, p.keys, p.sha256, p.codec, fx.sendToken);
        tokenSvc.GetToken(key, fx.now, fx.cacheReadFault).Failure? &&
        tokenSvc.FindToken(fx.now, fx.dbReadFault).Failure? && fetched.Success? ==>
          var t := NewTokenEntity(fetched.value, fx.now);
          && s.result == Success(fetched.value.accessToken) && s.result.value != ""
          && (fx.tokenDbWriteFault.None? ==> s.tokens == tokenSvc.tokens + [t])
          && (fx.tokenDbWriteFault.Some? ==> s.tokens == tokenSvc.tokens)
          && (t.expiresIn > 30 && fx.tokenCacheWriteFault.None? ==>
                s.cache == tokenSvc.cache[key := CacheEntry(t.accessToken, t.expiresIn as int - 30, fx.now)])
          && (t.expiresIn <= 30 || fx.tokenCacheWriteFault.Some? ==> s.cache == tokenSvc.cache)
      ensures
        var fetched := GetAccessToken(cfg, fx.tokenTimestamp, fx.pemFile, p.keys, p.sha256, p.codec, fx.sendToken);
        tokenSvc.GetToken(CacheKey(cfg.bankName), fx.now, fx.cacheReadFault).Failure? &&
        tokenSvc.FindToken(fx.now, fx.dbReadFault).Failure? && fetched.Failure? ==>
          s.result == Failure(fetched.error)
      ensures s.tokens != tokenSvc.tokens <==>
        && tokenSvc.GetToken(CacheKey(cfg.bankName), fx.now, fx.cacheReadFault).Failure?
        && tokenSvc.FindToken(fx.now, fx.dbReadFault).Failure?
        && GetAccessToken(cfg, fx.tokenTimestamp, fx.pemFile, p.keys, p.sha256, p.codec, fx.sendToken).Success?
        && fx.tokenDbWriteFault.None?
    {
      var key := CacheKey(cfg.bankName);
      var cached := tokenSvc.GetToken(key, fx.now, fx.cacheReadFault);
      if cached.Success? then TokenStep(cached, tokenSvc.cache, tokenSvc.tokens)
      else
        match tokenSvc.FindToken(fx.now, fx.dbReadFault)
        case Success(found) =>
          var cache' := if found.expiresIn > 30 && fx.cacheWriteBackFault.None?
                        then tokenSvc.cache[key := CacheEntry(found.accessToken, TtlSeconds(found.expiresIn), fx.now)]
                        else tokenSvc.cache;
          TokenStep(Success(found.accessToken), cache', tokenSvc.tokens)
        case Failure(_) =>
          match GetAccessToken(cfg, fx.tokenTimestamp, fx.pemFile, p.keys, p.sha256, p.codec, fx.sendToken)
          case Failure(e) => TokenStep(Failure(e), tokenSvc.cache, tokenSvc.tokens)
          case Success(fetched) =>
            var t := NewTokenEntity(fetched, fx.now);
            var cache' := if t.expiresIn > 30 && fx.tokenCacheWriteFault.None?
                          then tokenSvc.cache[key := CacheEntry(t.accessToken, t.expiresIn as int - 30, fx.now)]
                          else tokenSvc.cache;
            var tokens' := if fx.tokenDbWriteFault.None? then tokenSvc.tokens + [t] else tokenSvc.tokens;
            TokenStep(Success(t.accessToken), cache', tokens')
    }

    method AcquireToken(p: Platform, fx: Effects, cfg: BankConfig) returns (r: Result<string, GoError>)
      modifies tokenSvc
      ensures var s := old(TokenPlan(p, fx, cfg));
        r == s.result && tokenSvc.cache == s.cache && tokenSvc.tokens == s.tokens
    {
      var active := tokenSvc.GetActiveAccessToken(cfg.bankName, fx.now, fx.cacheReadFault, fx.dbReadFault, fx.cacheWriteBackFault);
      if active.Success? {
        return active;
      }
      var fetched := GetAccessToken(cfg, fx.tokenTimestamp, fx.pemFile, p.keys, p.sha256, p.codec, fx.sendToken);
      if fetched.Failure? {
        return Failure(fetched.error);
      }
      var token := NewTokenEntity(fetched.value, fx.now);
      var _ := tokenSvc.SaveAccessTokenDB(token, fx.tokenDbWriteFault);
      var _ := tokenSvc.SaveAccessTokenRedis(cfg.bankName, token, fx.now, fx.tokenCacheWriteFault);
      if fetched.value.accessToken == "" {
        // The Go code answers "missing access token after refresh" here; a fetched token is never empty.
        assert false;
      }
      return Success(fetched.value.accessToken);
    }

    /** Posts the routed request with a token and hands the bank's answer to HandleInquiryResponse. */
    method SendInquiry(p: Platform, fx: Effects, data: InquiryContext, route: BankRouteRequest, accessToken: string)
      returns (out: Outcome)
      modifies this
      ensures var resp := fx.sendInquiry(OutboundRequest(p, fx, route, accessToken, data.partnerRefNo, data.bankConfig));
        out == Decide(p, fx, data, resp.body, resp.status, resp.err)
      ensures InquiryGuarantees(old(inquiries), inquiries, out, data, fx.now)
    {
      var request := OutboundRequest(p, fx, route, accessToken, data.partnerRefNo, data.bankConfig);
      var resp := fx.sendInquiry(request);
      out := HandleInquiryResponse(p, fx, data, resp.body, resp.status, resp.err);
    }

    /**
     * One inquiry for a given configuration: a token, the bank's request, and
     * the outcome HandleInquiryResponse decides. A failed token acquisition
     * is reported as a connection error.
     */
    method InquiryWithConfig(p: Platform, fx: Effects, req: InquiryRequest, externalId: string, cfg: BankConfig)
      returns (out: Outcome)
      modifies this, tokenSvc
      ensures
        var data := InquiryContext(req, cfg, externalId);
        var plan := old(TokenPlan(p, fx, cfg));
        && tokenSvc.cache == plan.cache && tokenSvc.tokens == plan.tokens
        && (plan.result.Failure? ==> out == Decide(p, fx, data, None, 0, Some(plan.result.error)))
        && (plan.result.Success? ==>
              var resp := fx.sendInquiry(OutboundRequest(p, fx, NewBankRouteRequest(req, cfg, externalId),
                                                         plan.result.value, externalId, cfg));
              out == Decide(p, fx, data, resp.body, resp.status, resp.err))
      ensures InquiryGuarantees(old(inquiries), inquiries, out, InquiryContext(req, cfg, externalId), fx.now)
    {
      var route := NewBankRouteRequest(req, cfg, externalId);
      var data := InquiryContext(req, cfg, externalId);
      var token := AcquireToken(p, fx, cfg);
      if token.Failure? {
        out := HandleInquiryResponse(p, fx, data, None, 0, Some(token.error));
      } else {
        out := SendInquiry(p, fx, data, route, token.value);
      }
    }

    /**
     * One inquiry: the configuration from the partner cache by the requested
     * code, then InquiryWithConfig. When no token can be had the reply is the
     * connection error carrying the fetch's error.
     */
    method InquiryAccount(p: Platform, fx: Effects, req: InquiryRequest, externalId: string) returns (out: Outcome)
      modifies this, tokenSvc
      ensures
        var cfg := bankRepo.GetBankConfig(req.bankCode);
        var data := InquiryContext(req, cfg, externalId);
        var plan := old(TokenPlan(p, fx, cfg));
        && tokenSvc.cache == plan.cache && tokenSvc.tokens == plan.tokens
        && (plan.result.Failure? ==> out == Decide(p, fx, data, None, 0, Some(plan.result.error)))
        && (plan.result.Success? ==>
              var resp := fx.sendInquiry(OutboundRequest(p, fx, NewBankRouteRequest(req, cfg, externalId),
                                                         plan.result.value, externalId, cfg));
              out == Decide(p, fx, data, resp.body, resp.status, resp.err))
      ensures InquiryGuarantees(old(inquiries), inquiries, out,
                                InquiryContext(req, bankRepo.GetBankConfig(req.bankCode), externalId), fx.now)
      ensures
        var cfg := bankRepo.GetBankConfig(req.bankCode);
        var fetched := GetAccessToken(cfg, fx.tokenTimestamp, fx.pemFile, p.keys, p.sha256, p.codec, fx.sendToken);
        old(tokenSvc.GetToken(CacheKey(cfg.bankName), fx.now, fx.cacheReadFault)).Failure? &&
        old(tokenSvc.FindToken(fx.now, fx.dbReadFault)).Failure? && fetched.Failure? ==>
          out == Returned(BuildErrorResponse(ConnectionError, "", Some(fetched.error))) && inquiries == old(inquiries)
    {
      var cfg := bankRepo.GetBankConfig(req.bankCode);
      out := InquiryWithConfig(p, fx, req, externalId, cfg);
    }
  }
}
