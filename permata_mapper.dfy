/**
 * The Permata adapter: one fixed body shape, two unsigned headers, and a
 * response parser that asserts a JSON-decoded value to a struct type.
 */
module PermataMapper {
  import opened Wrappers
  import opened GoBase
  import opened Entity
  import opened Dto
  import opened JsonCodec
  import opened MapperCommon

  const PermataCode := "013"
  const RequestKey := "AcctInqRq"

  /** The internal body under the single key "AcctInqRq", whatever the bank code or inquiry type. */
  function BuildBodyRequest(req: InquiryRequest, timestamp: string): (b: RequestBody)
    ensures b.PermataWrapper? && b.wrapper.Keys == {RequestKey}
    ensures b.wrapper[RequestKey].messageHeader == PermataInquiryHeaderRequest(timestamp, req.companyId)
    ensures b.wrapper[RequestKey].messageBody == PermataInternalInquiryBodyRequest(req.beneficiaryAccount)
  {
    var headerMsg := PermataInquiryHeaderRequest(timestamp, req.companyId);
    var bodyMsg := PermataInternalInquiryBodyRequest(req.beneficiaryAccount);
    PermataWrapper(map[RequestKey := PermataInternalInquiryRequest(headerMsg, bodyMsg)])
  }

  /** Neither the bank code, the inquiry type nor the partner reference reaches the body. */
  lemma BodyIgnoresCodeTypeAndReference(req: InquiryRequest, timestamp: string, code: string, kind: string, ref: string)
    ensures BuildBodyRequest(req, timestamp)
         == BuildBodyRequest(req.(bankCode := code, inquiryType := kind, partnerReferenceNo := ref), timestamp)
  {
  }

  function GetUrl(cfg: BankConfig): (url: string)
    ensures url == cfg.internalInquiryUrl
  {
    cfg.internalInquiryUrl
  }

  /** Two unsigned headers; the token, external id, configuration and payload are not used. */
  function GetHeaders(req: InquiryRequest, accessToken: string, externalId: string, cfg: BankConfig, payload: seq<byte>): (m: map<string, string>)
    ensures m.Keys == {"Content-Type", "OrganizationName"}
    ensures m["Content-Type"] == "application/json" && m["OrganizationName"] == req.companyId
  {
    map["Content-Type" := "application/json", "OrganizationName" := req.companyId]
  }

  /**
   * A Go `interface{}` value as the parser meets it: nil, something
   * `encoding/json` produced, or one of the two response structs.
   */
  datatype AnyValue =
    | NilInterface
    | FromJson(json: JsonValue)
    | InternalResponseValue(internal: PermataInternalInquiryResponse)
    | ExternalResponseValue(external: PermataExternalInquiryResponse)

  /** Indexing a decoded `map[string]interface{}`: nil for a missing key. */
  function Lookup(wrapper: map<string, JsonValue>, key: string): (v: AnyValue)
    ensures v.NilInterface? || v.FromJson?
    ensures key in wrapper ==> v == FromJson(wrapper[key])
  {
    if key in wrapper then FromJson(wrapper[key]) else NilInterface
  }

  /** The key the answer is expected under: "AcctInqRs" for configuration 013, "OlXferInqRs" otherwise. */
  function ResponseKey(cfg: BankConfig): (key: string)
    ensures cfg.bankCode == PermataCode <==> key == "AcctInqRs"
    ensures key in {"AcctInqRs", "OlXferInqRs"}
  {
    if cfg.bankCode == PermataCode then "AcctInqRs" else "OlXferInqRs"
  }

  /**
   * The unchecked type assertion followed by the intended projection: the
   * name from the body, the message from the header's status description.
   */
  function Project(cfg: BankConfig, v: AnyValue): (r: MapOutcome)
    ensures cfg.bankCode == PermataCode && v.InternalResponseValue? ==>
      r == Mapped(BankResponseData(v.internal.messageBody.accountName, v.internal.messageHeader.statusDesc))
    ensures cfg.bankCode != PermataCode && v.ExternalResponseValue? ==>
      r == Mapped(BankResponseData(v.external.messageBody.toAccountFullName, v.external.messageHeader.statusDesc))
    ensures r.Panic? <==>
      (cfg.bankCode == PermataCode && !v.InternalResponseValue?) || (cfg.bankCode != PermataCode && !v.ExternalResponseValue?)
  {
    if cfg.bankCode == PermataCode then
      match v
      case InternalResponseValue(data) => Mapped(BankResponseData(data.messageBody.accountName, data.messageHeader.statusDesc))
      case _ => Panic("interface conversion: value is not dto.PermataInternalInquiryResponse")
    else
      match v
      case ExternalResponseValue(data) => Mapped(BankResponseData(data.messageBody.toAccountFullName, data.messageHeader.statusDesc))
      case _ => Panic("interface conversion: value is not dto.PermataExternalInquiryResponse")
  }

  /** Decode the body into a generic map, look up the key, assert its type, project. */
  function MapResponse(cfg: BankConfig, codec: Codec, bankResponse: seq<byte>): (r: MapOutcome)
    ensures r == Project(cfg, Lookup(codec.decodeObject(bankResponse).value, ResponseKey(cfg)))
  {
    var wrapper := codec.decodeObject(bankResponse).value;
    Project(cfg, Lookup(wrapper, ResponseKey(cfg)))
  }

  /**
   * A value decoded into `map[string]interface{}` is never a struct, so the
   * assertion fails for every configuration, decoder and body: the parser cannot succeed.
   */
  lemma MapResponseAlwaysPanics(cfg: BankConfig, codec: Codec, bankResponse: seq<byte>)
    ensures MapResponse(cfg, codec, bankResponse).Panic?
  {
    var v := Lookup(codec.decodeObject(bankResponse).value, ResponseKey(cfg));
    assert v.NilInterface? || v.FromJson?;
  }
}
