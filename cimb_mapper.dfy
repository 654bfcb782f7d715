/** The CIMB adapter. */
module CimbMapper {
  import opened GoBase
  import opened Hmac
  import opened Entity
  import opened Dto
  import opened JsonCodec
  import opened MapperCommon

  const CimbCode := "022"

  function BuildBodyRequest(req: InquiryRequest): (b: RequestBody)
    ensures b.CimbInternal? <==> req.bankCode == CimbCode
    ensures b.CimbExternal? <==> req.bankCode != CimbCode
    ensures b.CimbInternal? ==>
      b.cimbInternal == CimbInternalInquiryRequest(req.partnerReferenceNo, req.beneficiaryAccount, map[])
    ensures b.CimbExternal? ==>
      && b.cimbExternal.partnerReferenceNo == req.partnerReferenceNo
      && b.cimbExternal.beneficiaryBankCode == req.bankCode
      && b.cimbExternal.beneficiaryAccountNo == req.beneficiaryAccount
      && b.cimbExternal.additionalInfo.Keys == {"trxType", "proxyValue", "proxyType", "trxPurposeCode"}
      && (b.cimbExternal.additionalInfo["trxType"] == "02" <==> req.inquiryType == "bifast")
      && b.cimbExternal.additionalInfo["trxType"] in {"01", "02"}
      && b.cimbExternal.additionalInfo["proxyValue"] == "01"
      && b.cimbExternal.additionalInfo["proxyType"] == "01"
      && b.cimbExternal.additionalInfo["trxPurposeCode"] == "99"
  {
    if req.bankCode == CimbCode then
      CimbInternal(CimbInternalInquiryRequest(req.partnerReferenceNo, req.beneficiaryAccount, map[]))
    else
      var trxType := if req.inquiryType == "bifast" then "02" else "01";
      CimbExternal(CimbExternalInquiryRequest(req.partnerReferenceNo, req.bankCode, req.beneficiaryAccount,
        map["trxType" := trxType, "proxyValue" := "01", "proxyType" := "01", "trxPurposeCode" := "99"]))
  }

  function GetUrl(cfg: BankConfig, req: InquiryRequest): (url: string)
    ensures req.bankCode == CimbCode ==> url == cfg.internalInquiryUrl
    ensures req.bankCode != CimbCode ==> url == cfg.externalInquiryUrl
  {
    if req.bankCode == CimbCode then cfg.internalInquiryUrl else cfg.externalInquiryUrl
  }

  function SignedEndpoint(cfg: BankConfig): (url: string)
    ensures cfg.bankCode == CimbCode ==> url == cfg.internalInquiryUrl
    ensures cfg.bankCode != CimbCode ==> url == cfg.externalInquiryUrl
  {
    if cfg.bankCode == CimbCode then cfg.internalInquiryUrl else cfg.externalInquiryUrl
  }

  function GetHeaders(h: Sha256, accessToken: string, externalId: string, cfg: BankConfig,
                      payload: seq<byte>, timestamp: string): (m: map<string, string>)
    ensures m == SignedHeaders(h, accessToken, externalId, cfg, SignedEndpoint(cfg), payload, timestamp)
    ensures m.Keys == SignedHeaderKeys && m["Authorization"] == "Bearer " + accessToken
  {
    SignedHeaders(h, accessToken, externalId, cfg, SignedEndpoint(cfg), payload, timestamp)
  }

  lemma SignedUrlMatchesPostedUrl(cfg: BankConfig, req: InquiryRequest)
    ensures SignedEndpoint(cfg) == GetUrl(cfg, req) <==>
      (cfg.bankCode == CimbCode) == (req.bankCode == CimbCode) || cfg.internalInquiryUrl == cfg.externalInquiryUrl
  {
  }

  /** Read as the internal or the external DTO by the configuration's code; a decode error is not looked at. */
  function MapResponse(cfg: BankConfig, codec: Codec, bankResponse: seq<byte>): (r: BankResponseData)
    ensures cfg.bankCode == CimbCode ==>
      r == BankResponseData(codec.decodeCimbInternal(bankResponse).value.beneficiaryAccountName,
                            codec.decodeCimbInternal(bankResponse).value.responseMessage)
    ensures cfg.bankCode != CimbCode ==>
      r == BankResponseData(codec.decodeCimbExternal(bankResponse).value.beneficiaryAccountName,
                            codec.decodeCimbExternal(bankResponse).value.responseMessage)
  {
    if cfg.bankCode == CimbCode then
      var respDto := codec.decodeCimbInternal(bankResponse).value;
      BankResponseData(respDto.beneficiaryAccountName, respDto.responseMessage)
    else
      var respDto := codec.decodeCimbExternal(bankResponse).value;
      BankResponseData(respDto.beneficiaryAccountName, respDto.responseMessage)
  }
}
