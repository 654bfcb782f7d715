/** The error taxonomy: a table from bank HTTP status to error detail, and the error reply builder. */
module ErrorHelper {
  import opened Wrappers
  import opened GoBase
  import opened Dto

  datatype ErrorDetail = ErrorDetail(code: string, message: string, logMessage: string, source: string)

  const SourceBank := "bank"
  const SourceInternal := "internal"
  const SourceClient := "client"

  const ErrorMap: map<int, ErrorDetail> := map[
    400 := ErrorDetail("INVALID_BODY", "Invalid payload request", "Invalid body verified by bank", SourceBank),
    401 := ErrorDetail("UNAUTHORIZED", "Access unauthorized", "Bank return unauthorized access", SourceBank),
    403 := ErrorDetail("FORBIDDEN_FEATURE", "Service not allowed", "Feature forbidden by bank", SourceBank),
    404 := ErrorDetail("ACCOUNT_NOT_FOUND", "Account number not found", "Account number not found in bank system", SourceBank),
    409 := ErrorDetail("DUPLICATE_REFERENCE", "Duplicate external id in same day", "Duplicate external id request", SourceBank),
    500 := ErrorDetail("BANK_INTERNAL_ERROR", "Bank internal error, please use check status service", "Bank returned internal error", SourceBank),
    504 := ErrorDetail("BANK_TIMEOUT", "Bank timeout, please use check status service", "Bank timeout while processing request", SourceBank)
  ]

  /** The code keeps the Go code's spelling. */
  const DefaultBankError := ErrorDetail("BANK_UNKOWN_ERROR", "Unexpecter error from bank", "Unkown bank error occured", SourceBank)

  /** What a service call hands back: the response body and the error (None for Go's nil). */
  datatype Reply = Reply(response: InquiryResponse, err: Option<GoError>)

  /** The detail for a bank status: its table entry, or the default. */
  function DetailForStatus(httpStatus: int): (d: ErrorDetail)
    ensures httpStatus in ErrorMap ==> d == ErrorMap[httpStatus]
    ensures httpStatus !in ErrorMap ==> d == DefaultBankError
    ensures d.source == SourceBank
  {
    if httpStatus in ErrorMap then ErrorMap[httpStatus] else DefaultBankError
  }

  /** The table has exactly seven statuses, every entry is attributed to the bank, and no two share a code. */
  lemma ErrorMapShape()
    ensures ErrorMap.Keys == {400, 401, 403, 404, 409, 500, 504}
    ensures forall s :: s in ErrorMap ==> ErrorMap[s].source == SourceBank && ErrorMap[s].code != DefaultBankError.code
    ensures forall s, t :: s in ErrorMap && t in ErrorMap && s != t ==> ErrorMap[s].code != ErrorMap[t].code
  {
  }

  /** The code a bank status is reported with; the default exactly for statuses outside the table. */
  lemma {:induction false} StatusCodeTable(httpStatus: int)
    ensures DetailForStatus(httpStatus).code == "BANK_UNKOWN_ERROR" <==> httpStatus !in {400, 401, 403, 404, 409, 500, 504}
    ensures httpStatus == 404 ==> DetailForStatus(httpStatus).code == "ACCOUNT_NOT_FOUND"
    ensures httpStatus == 504 ==> DetailForStatus(httpStatus).code == "BANK_TIMEOUT"
  {
    ErrorMapShape();
    if httpStatus in ErrorMap {
      assert ErrorMap[httpStatus].code != DefaultBankError.code;
    }
  }

  /**
   * A failed reply: status false, code, message and source from the detail,
   * empty data, and an error that always exists and wraps the log message
   * around `err`. The `message` argument is not used.
   */
  function BuildErrorResponse(errDetail: ErrorDetail, message: string, err: Option<GoError>): (r: Reply)
    ensures !r.response.status
    ensures r.response.code == errDetail.code && r.response.message == errDetail.message
    ensures r.response.source == errDetail.source && r.response.data == EmptyInquiryData
    ensures r.err == Some(GoError(errDetail.logMessage, err))
  {
    Reply(InquiryResponse(false, errDetail.message, errDetail.code, errDetail.source, EmptyInquiryData),
          Some(GoError(errDetail.logMessage, err)))
  }

  /** Whatever message is passed, the reply is the same. */
  lemma MessageIgnored(errDetail: ErrorDetail, m1: string, m2: string, err: Option<GoError>)
    ensures BuildErrorResponse(errDetail, m1, err) == BuildErrorResponse(errDetail, m2, err)
  {
  }
}
