/** The BRI adapter: always posts to the internal URL; its parser depends on the HTTP status. */
module BriMapper {
  import opened GoBase
  import opened Hmac
  import opened Entity
  import opened Dto
  import opened JsonCodec
  import opened Transport
  import opened MapperCommon

  const BriCode := "002"

  function BuildBodyRequest(req: InquiryRequest): (b: RequestBody)
    ensures b.BriInternal? <==> req.bankCode == BriCode
    ensures b.BriExternal? <==> req.bankCode != BriCode
    ensures b.BriInternal? ==>
      b.briInternal == BriInternalInquiryRequest(req.beneficiaryAccount, map["channel" := "", "deviceId" := ""])
    ensures b.BriExternal? ==>
      && b.briExternal.beneficiaryBankCode == req.bankCode
      && b.briExternal.beneficiaryAccountNo == req.beneficiaryAccount
      && b.briExternal.additionalInfo.Keys == {"serviceCode", "deviceId", "channel"}
      && (b.briExternal.additionalInfo["serviceCode"] == "81" <==> req.inquiryType == "bifast")
      && b.briExternal.additionalInfo["serviceCode"] in {"81", "16"}
      && b.briExternal.additionalInfo["deviceId"] == "" && b.briExternal.additionalInfo["channel"] == ""
  {
    if req.bankCode == BriCode then
      BriInternal(BriInternalInquiryRequest(req.beneficiaryAccount, map["channel" := "", "deviceId" := ""]))
    else
      var serviceCode := if req.inquiryType == "bifast" then "81" else "16";
      BriExternal(BriExternalInquiryRequest(req.bankCode, req.beneficiaryAccount,
        map["serviceCode" := serviceCode, "deviceId" := "", "channel" := ""]))
  }

  /** No BRI body carries the partner reference: two requests that differ only there get the same body. */
  lemma BodyOmitsPartnerReference(req: InquiryRequest, otherRef: string)
    ensures BuildBodyRequest(req) == BuildBodyRequest(req.(partnerReferenceNo := otherRef))
  {
  }

  /** Always the internal URL, whatever the bank code. */
  function GetUrl(cfg: BankConfig, req: InquiryRequest): (url: string)
    ensures url == cfg.internalInquiryUrl
  {
    cfg.internalInquiryUrl
  }

  function SignedEndpoint(cfg: BankConfig): (url: string)
    ensures cfg.bankCode == BriCode ==> url == cfg.internalInquiryUrl
    ensures cfg.bankCode != BriCode ==> url == cfg.externalInquiryUrl
  {
    if cfg.bankCode == BriCode then cfg.internalInquiryUrl else cfg.externalInquiryUrl
  }

  function GetHeaders(h: Sha256, accessToken: string, externalId: string, cfg: BankConfig,
                      payload: seq<byte>, timestamp: string): (m: map<string, string>)
    ensures m == SignedHeaders(h, accessToken, externalId, cfg, SignedEndpoint(cfg), payload, timestamp)
    ensures m.Keys == SignedHeaderKeys && m["Authorization"] == "Bearer " + accessToken
  {
    SignedHeaders(h, accessToken, externalId, cfg, SignedEndpoint(cfg), payload, timestamp)
  }

  /** For a non-BRI configuration the URL posted to is not the URL signed, unless the two coincide. */
  lemma SignedUrlMatchesPostedUrl(cfg: BankConfig, req: InquiryRequest)
    ensures SignedEndpoint(cfg) == GetUrl(cfg, req) <==>
      cfg.bankCode == BriCode || cfg.internalInquiryUrl == cfg.externalInquiryUrl
  {
  }

  /**
   * A non-200 answer is read as BRI's error envelope: empty name, its message.
   * A 200 answer is read as the internal or external DTO by the configuration's code.
   */
  function MapResponse(cfg: BankConfig, httpStatus: int, codec: Codec, bankResponse: seq<byte>): (r: BankResponseData)
    ensures httpStatus != StatusOK ==>
      r == BankResponseData("", codec.decodeBriError(bankResponse).value.responseMessage)
    ensures httpStatus == StatusOK && cfg.bankCode == BriCode ==>
      r == BankResponseData(codec.decodeBriInternal(bankResponse).value.beneficiaryAccountName,
                            codec.decodeBriInternal(bankResponse).value.responseMessage)
    ensures httpStatus == StatusOK && cfg.bankCode != BriCode ==>
      r == BankResponseData(codec.decodeBriExternal(bankResponse).value.beneficiaryAccountName,
                            codec.decodeBriExternal(bankResponse).value.responseMessage)
  {
    if httpStatus != StatusOK then
      var resDto := codec.decodeBriError(bankResponse).value;
      BankResponseData("", resDto.responseMessage)
    else if cfg.bankCode == BriCode then
      var resDto := codec.decodeBriInternal(bankResponse).value;
      BankResponseData(resDto.beneficiaryAccountName, resDto.responseMessage)
    else
      var resDto := codec.decodeBriExternal(bankResponse).value;
      BankResponseData(resDto.beneficiaryAccountName, resDto.responseMessage)
  }

  /** On any status other than 200 the configuration plays no part and no name is reported. */
  lemma ErrorStatusIgnoresConfig(cfg: BankConfig, cfg': BankConfig, httpStatus: int, codec: Codec, bankResponse: seq<byte>)
    requires httpStatus != StatusOK
    ensures MapResponse(cfg, httpStatus, codec, bankResponse) == MapResponse(cfg', httpStatus, codec, bankResponse)
    ensures MapResponse(cfg, httpStatus, codec, bankResponse).accountName == ""
  {
  }
}
