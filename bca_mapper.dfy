/** The BCA adapter, which also serves every bank code the router does not know. */
module BcaMapper {
  import opened Wrappers
  import opened GoBase
  import opened Hmac
  import opened Entity
  import opened Dto
  import opened JsonCodec
  import opened MapperCommon

  const BcaCode := "014"

  /** The internal shape for BCA's own accounts, the external shape (with the BI-FAST flag) otherwise. */
  function BuildBodyRequest(req: InquiryRequest): (b: RequestBody)
    ensures b.BcaInternal? <==> req.bankCode == BcaCode
    ensures b.BcaExternal? <==> req.bankCode != BcaCode
    ensures b.BcaInternal? ==>
      b.bcaInternal.partnerReferenceNo == req.partnerReferenceNo && b.bcaInternal.beneficiaryAccountNo == req.beneficiaryAccount
    ensures b.BcaExternal? ==>
      && b.bcaExternal.beneficiaryBankCode == req.bankCode
      && b.bcaExternal.beneficiaryAccountNo == req.beneficiaryAccount
      && b.bcaExternal.partnerReferenceNo == req.partnerReferenceNo
      && (b.bcaExternal.additionalInfo.inquiryService == "2" <==> req.inquiryType == "bifast")
      && b.bcaExternal.additionalInfo.inquiryService in {"1", "2"}
  {
    if req.bankCode == BcaCode then
      BcaInternal(BcaInternalInquiryRequest(req.partnerReferenceNo, req.beneficiaryAccount))
    else
      var inquiryService := if req.inquiryType == "bifast" then "2" else "1";
      BcaExternal(BcaExternalInquiryRequest(req.bankCode, req.beneficiaryAccount, req.partnerReferenceNo,
                                            BcaAdditionalInfo(inquiryService)))
  }

  /** Posted URL: chosen by the requested bank code. */
  function GetUrl(cfg: BankConfig, req: InquiryRequest): (url: string)
    ensures req.bankCode == BcaCode ==> url == cfg.internalInquiryUrl
    ensures req.bankCode != BcaCode ==> url == cfg.externalInquiryUrl
  {
    if req.bankCode == BcaCode then cfg.internalInquiryUrl else cfg.externalInquiryUrl
  }

  /** Signed URL: chosen by the configuration's bank code. */
  function SignedEndpoint(cfg: BankConfig): (url: string)
    ensures cfg.bankCode == BcaCode ==> url == cfg.internalInquiryUrl
    ensures cfg.bankCode != BcaCode ==> url == cfg.externalInquiryUrl
  {
    if cfg.bankCode == BcaCode then cfg.internalInquiryUrl else cfg.externalInquiryUrl
  }

  function GetHeaders(h: Sha256, accessToken: string, externalId: string, cfg: BankConfig,
                      payload: seq<byte>, timestamp: string): (m: map<string, string>)
    ensures m == SignedHeaders(h, accessToken, externalId, cfg, SignedEndpoint(cfg), payload, timestamp)
    ensures m.Keys == SignedHeaderKeys && m["Authorization"] == "Bearer " + accessToken
  {
    SignedHeaders(h, accessToken, externalId, cfg, SignedEndpoint(cfg), payload, timestamp)
  }

  /**
   * The posted URL and the signed URL agree exactly when the request's and
   * the configuration's codes agree on being BCA, or when both URLs coincide.
   */
  lemma SignedUrlMatchesPostedUrl(cfg: BankConfig, req: InquiryRequest)
    ensures SignedEndpoint(cfg) == GetUrl(cfg, req) <==>
      (cfg.bankCode == BcaCode) == (req.bankCode == BcaCode) || cfg.internalInquiryUrl == cfg.externalInquiryUrl
  {
  }

  /** The body shape and the posted URL are chosen by the same test. */
  lemma BodyShapeFollowsUrl(cfg: BankConfig, req: InquiryRequest)
    ensures BuildBodyRequest(req).BcaInternal? ==> GetUrl(cfg, req) == cfg.internalInquiryUrl
    ensures BuildBodyRequest(req).BcaExternal? ==> GetUrl(cfg, req) == cfg.externalInquiryUrl
  {
  }

  /** Name and message of whatever the decoder filled in; a decode error is not looked at. */
  function MapResponse(codec: Codec, bankResponse: seq<byte>): (r: BankResponseData)
    ensures r.accountName == codec.decodeBca(bankResponse).value.beneficiaryAccountName
    ensures r.responseMessage == codec.decodeBca(bankResponse).value.responseMessage
  {
    var decoded := codec.decodeBca(bankResponse);
    BankResponseData(decoded.value.beneficiaryAccountName, decoded.value.responseMessage)
  }

  /** Input the decoder cannot read leaves the zero value behind, so the result is two empty strings, not an error. */
  lemma MalformedResponseMapsToEmpty(codec: Codec, bankResponse: seq<byte>, e: GoError)
    requires codec.decodeBca(bankResponse) == Decoded(BcaInquiryResponse("", "", "", "", "", "", ""), Some(e))
    ensures MapResponse(codec, bankResponse) == BankResponseData("", "")
  {
  }
}
