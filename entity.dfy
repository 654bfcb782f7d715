/** The persisted records: partner bank configuration, access tokens, inquiries. */
module Entity {
  import opened GoBase

  /**
   * One partner's credentials and endpoints. The two inquiry URLs are kept
   * as the Go field names give them; which column fills which is not modelled.
   */
  datatype BankConfig = BankConfig(
    bankCode: string,
    bankName: string,
    externalInquiryUrl: string,
    internalInquiryUrl: string,
    accessTokenUrl: string,
    baseUrl: string,
    clientKey: string,
    clientSecret: string,
    partnerId: string,
    channelId: string)

  /** Go's zero value of BankConfig: every field empty. */
  const ZeroBankConfig := BankConfig("", "", "", "", "", "", "", "", "", "")

  /** A token row; `expiresDate` is a Unix time in seconds. The row id is assigned by the table and left out. */
  datatype AccessToken = AccessToken(
    accessToken: string,
    tokenType: string,
    expiresIn: int16,
    expiresDate: int)

  /** An inquiry row; `inquiryDate` is a Unix time in seconds. */
  datatype Inquiry = Inquiry(
    merchantCode: string,
    partnerReferenceNo: string,
    beneficiaryAccount: string,
    beneficiaryBankCode: string,
    beneficiaryAccountName: string,
    inquiryDate: int,
    status: string)
}
