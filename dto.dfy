/** The request and response shapes exchanged with the caller and with each bank. */
module Dto {
  import opened GoBase

  // ---- the caller's side ----

  /** `inquiryType` is the request's `Type` field: "bifast" or "online". */
  datatype InquiryRequest = InquiryRequest(
    companyId: string,
    beneficiaryAccount: string,
    partnerReferenceNo: string,
    bankCode: string,
    inquiryType: string)

  datatype InquiryData = InquiryData(beneficiaryAccount: string, bankCode: string, beneficiaryName: string)

  const EmptyInquiryData := InquiryData("", "", "")

  datatype InquiryResponse = InquiryResponse(
    status: bool,
    message: string,
    code: string,
    source: string,
    data: InquiryData)

  // ---- outbound bodies ----

  datatype BcaInternalInquiryRequest = BcaInternalInquiryRequest(partnerReferenceNo: string, beneficiaryAccountNo: string)

  datatype BcaAdditionalInfo = BcaAdditionalInfo(inquiryService: string)

  datatype BcaExternalInquiryRequest = BcaExternalInquiryRequest(
    beneficiaryBankCode: string,
    beneficiaryAccountNo: string,
    partnerReferenceNo: string,
    additionalInfo: BcaAdditionalInfo)

  datatype BriInternalInquiryRequest = BriInternalInquiryRequest(
    beneficiaryAccountNo: string,
    additionalInfo: map<string, string>)

  datatype BriExternalInquiryRequest = BriExternalInquiryRequest(
    beneficiaryBankCode: string,
    beneficiaryAccountNo: string,
    additionalInfo: map<string, string>)

  datatype CimbInternalInquiryRequest = CimbInternalInquiryRequest(
    partnerReferenceNo: string,
    beneficiaryAccountNo: string,
    additionalInfo: map<string, string>)

  datatype CimbExternalInquiryRequest = CimbExternalInquiryRequest(
    partnerReferenceNo: string,
    beneficiaryBankCode: string,
    beneficiaryAccountNo: string,
    additionalInfo: map<string, string>)

  datatype PermataInquiryHeaderRequest = PermataInquiryHeaderRequest(requestTimeStamp: string, custReffId: string)

  datatype PermataInternalInquiryBodyRequest = PermataInternalInquiryBodyRequest(accountNumber: string)

  /** Serialised as {"MsgRqHdr": ..., "InqInfo": ...}. */
  datatype PermataInternalInquiryRequest = PermataInternalInquiryRequest(
    messageHeader: PermataInquiryHeaderRequest,
    messageBody: PermataInternalInquiryBodyRequest)

  /** Every body an adapter can hand to the JSON encoder. */
  datatype RequestBody =
    | BcaInternal(bcaInternal: BcaInternalInquiryRequest)
    | BcaExternal(bcaExternal: BcaExternalInquiryRequest)
    | BriInternal(briInternal: BriInternalInquiryRequest)
    | BriExternal(briExternal: BriExternalInquiryRequest)
    | CimbInternal(cimbInternal: CimbInternalInquiryRequest)
    | CimbExternal(cimbExternal: CimbExternalInquiryRequest)
    | PermataWrapper(wrapper: map<string, PermataInternalInquiryRequest>)
  {
    /** The shapes used to reach a third-party bank through the partner. */
    predicate IsExternalShape()
    {
      BcaExternal? || BriExternal? || CimbExternal?
    }
  }

  // ---- inbound bodies ----

  datatype BcaInquiryResponse = BcaInquiryResponse(
    responseCode: string,
    responseMessage: string,
    referenceNo: string,
    partnerReferenceNo: string,
    beneficiaryAccountName: string,
    beneficiaryAccountNo: string,
    beneficiaryBankCode: string)

  datatype BriInternalInquiryResponse = BriInternalInquiryResponse(
    responseCode: string,
    responseMessage: string,
    referenceNo: string,
    beneficiaryAccountNo: string,
    beneficiaryAccountName: string,
    beneficiaryAccountStatus: string,
    beneficiaryAccountType: string,
    currency: string,
    additionalInfo: map<string, string>)

  datatype BriExternalInquiryResponse = BriExternalInquiryResponse(
    responseCode: string,
    responseMessage: string,
    referenceNo: string,
    beneficiaryAccountName: string,
    beneficiaryAccountNo: string,
    beneficiaryBankCode: string,
    beneficiaryBankName: string,
    currency: string,
    additionalInfo: map<string, string>)

  datatype BriErrorResponse = BriErrorResponse(responseCode: string, responseMessage: string)

  datatype CimbInternalInquiryResponse = CimbInternalInquiryResponse(
    responseCode: string,
    responseMessage: string,
    partnerReferenceNo: string,
    beneficiaryAccountName: string,
    beneficiaryAccountNo: string,
    beneficiaryAccountStatus: string,
    beneficiaryAccountType: string,
    currency: string,
    additionalInfo: map<string, string>)

  datatype CimbExternalInquiryResponse = CimbExternalInquiryResponse(
    responseCode: string,
    responseMessage: string,
    partnerReferenceNo: string,
    beneficiaryAccountName: string,
    beneficiaryAccountNo: string,
    beneficiaryBankCode: string,
    currency: string,
    additionalInfo: map<string, string>)

  datatype PermataInquiryHeaderResponse = PermataInquiryHeaderResponse(
    responseTimestamp: string,
    custReffId: string,
    statusCode: string,
    statusDesc: string)

  datatype PermataInternalInquiryBodyResponse = PermataInternalInquiryBodyResponse(accountNumber: string, accountName: string)

  datatype PermataInternalInquiryResponse = PermataInternalInquiryResponse(
    messageHeader: PermataInquiryHeaderResponse,
    messageBody: PermataInternalInquiryBodyResponse)

  datatype PermataExternalInquiryBodyResponse = PermataExternalInquiryBodyResponse(
    toAccount: string,
    toAccountFullName: string,
    bankId: string,
    bankName: string)

  datatype PermataExternalInquiryResponse = PermataExternalInquiryResponse(
    messageHeader: PermataInquiryHeaderResponse,
    messageBody: PermataExternalInquiryBodyResponse)

  /** The token endpoint's answer; `expiresIn` is a Go `int16`. */
  datatype SnapAccessToken = SnapAccessToken(
    responseCode: string,
    responseMessage: string,
    accessToken: string,
    tokenType: string,
    expiresIn: int16)
}
