/**
 * The adapter router. Request building is chosen by the requested bank code,
 * response parsing by the configuration's bank code; BCA is the default of both.
 */
module RoutingHelper {
  import opened GoBase
  import opened Hmac
  import opened Entity
  import opened Dto
  import opened JsonCodec
  import opened MapperCommon
  import BcaMapper
  import BriMapper
  import CimbMapper
  import PermataMapper

  /** The request-side adapter together with the values it was built from. */
  datatype BankRouteRequest =
    | BriRequest(cfg: BankConfig, req: InquiryRequest)
    | PermataRequest(cfg: BankConfig, req: InquiryRequest)
    | BcaRequest(cfg: BankConfig, req: InquiryRequest)
    | CimbRequest(cfg: BankConfig, req: InquiryRequest)

  /** The response-side adapter; only BRI keeps the HTTP status. */
  datatype BankRouteResponse =
    | BriResponse(cfg: BankConfig, httpStatus: int)
    | PermataResponse(cfg: BankConfig)
    | BcaResponse(cfg: BankConfig)
    | CimbResponse(cfg: BankConfig)

  /** Selection by `req.bankCode` alone; total, with BCA for every unknown code. The partner reference is not used. */
  function NewBankRouteRequest(req: InquiryRequest, cfg: BankConfig, partnerRefNo: string): (r: BankRouteRequest)
    ensures r.cfg == cfg && r.req == req
    ensures r.BriRequest? <==> req.bankCode == "002"
    ensures r.PermataRequest? <==> req.bankCode == "013"
    ensures r.CimbRequest? <==> req.bankCode == "022"
    ensures r.BcaRequest? <==> req.bankCode !in {"002", "013", "022"}
  {
    match req.bankCode
    case "002" => BriRequest(cfg, req)
    case "013" => PermataRequest(cfg, req)
    case "014" => BcaRequest(cfg, req)
    case "022" => CimbRequest(cfg, req)
    case _ => BcaRequest(cfg, req)
  }

  /** Selection by `cfg.bankCode` alone, with the same table; the status reaches only BRI. */
  function NewBankRouteResponse(cfg: BankConfig, httpStatus: int): (r: BankRouteResponse)
    ensures r.cfg == cfg
    ensures r.BriResponse? <==> cfg.bankCode == "002"
    ensures r.BriResponse? ==> r.httpStatus == httpStatus
    ensures r.PermataResponse? <==> cfg.bankCode == "013"
    ensures r.CimbResponse? <==> cfg.bankCode == "022"
    ensures r.BcaResponse? <==> cfg.bankCode !in {"002", "013", "022"}
  {
    match cfg.bankCode
    case "002" => BriResponse(cfg, httpStatus)
    case "013" => PermataResponse(cfg)
    case "014" => BcaResponse(cfg)
    case "022" => CimbResponse(cfg)
    case _ => BcaResponse(cfg)
  }

  /** The body the chosen adapter builds; `timestamp` is the clock reading Permata puts in its header. */
  function BuildBodyRequest(route: BankRouteRequest, timestamp: string): (b: RequestBody)
    ensures route.BriRequest? <==> b.BriInternal? || b.BriExternal?
    ensures route.PermataRequest? <==> b.PermataWrapper?
    ensures route.BcaRequest? <==> b.BcaInternal? || b.BcaExternal?
    ensures route.CimbRequest? <==> b.CimbInternal? || b.CimbExternal?
  {
    match route
    case BriRequest(_, req) => BriMapper.BuildBodyRequest(req)
    case PermataRequest(_, req) => PermataMapper.BuildBodyRequest(req, timestamp)
    case BcaRequest(_, req) => BcaMapper.BuildBodyRequest(req)
    case CimbRequest(_, req) => CimbMapper.BuildBodyRequest(req)
  }

  /** The chosen adapter's URL: always one of the configuration's two inquiry URLs, the internal one for BRI and Permata. */
  function GetUrl(route: BankRouteRequest): (url: string)
    ensures url == route.cfg.internalInquiryUrl || url == route.cfg.externalInquiryUrl
    ensures route.BriRequest? || route.PermataRequest? ==> url == route.cfg.internalInquiryUrl
  {
    match route
    case BriRequest(cfg, req) => BriMapper.GetUrl(cfg, req)
    case PermataRequest(cfg, _) => PermataMapper.GetUrl(cfg)
    case BcaRequest(cfg, req) => BcaMapper.GetUrl(cfg, req)
    case CimbRequest(cfg, req) => CimbMapper.GetUrl(cfg, req)
  }

  /** The chosen adapter's headers; `timestamp` is the clock reading the signing adapters sign. */
  function GetHeaders(route: BankRouteRequest, h: Sha256, accessToken: string, externalId: string,
                      cfg: BankConfig, payload: seq<byte>, timestamp: string): (m: map<string, string>)
    ensures route.PermataRequest? ==> m.Keys == {"Content-Type", "OrganizationName"}
    ensures !route.PermataRequest? ==> m.Keys == SignedHeaderKeys && m["Authorization"] == "Bearer " + accessToken
  {
    match route
    case BriRequest(_, _) => BriMapper.GetHeaders(h, accessToken, externalId, cfg, payload, timestamp)
    case PermataRequest(_, req) => PermataMapper.GetHeaders(req, accessToken, externalId, cfg, payload)
    case BcaRequest(_, _) => BcaMapper.GetHeaders(h, accessToken, externalId, cfg, payload, timestamp)
    case CimbRequest(_, _) => CimbMapper.GetHeaders(h, accessToken, externalId, cfg, payload, timestamp)
  }

  /** The chosen adapter's parse; only Permata's panics, and it always does. */
  function MapResponse(route: BankRouteResponse, codec: Codec, bankResponse: seq<byte>): (r: MapOutcome)
    ensures r.Panic? <==> route.PermataResponse?
  {
    match route
    case BriResponse(cfg, httpStatus) => Mapped(BriMapper.MapResponse(cfg, httpStatus, codec, bankResponse))
    case PermataResponse(cfg) =>
      PermataMapper.MapResponseAlwaysPanics(cfg, codec, bankResponse);
      PermataMapper.MapResponse(cfg, codec, bankResponse)
    case BcaResponse(_) => Mapped(BcaMapper.MapResponse(codec, bankResponse))
    case CimbResponse(cfg) => Mapped(CimbMapper.MapResponse(cfg, codec, bankResponse))
  }

  /**
   * Through the router BRI and CIMB are reached only with their own codes,
   * so their external shapes never occur: a body has an external shape
   * exactly when the code is unknown and BCA builds it.
   */
  lemma {:induction false} ExternalBodyOnlyFromBcaDefault(req: InquiryRequest, cfg: BankConfig, partnerRefNo: string, timestamp: string)
    ensures BuildBodyRequest(NewBankRouteRequest(req, cfg, partnerRefNo), timestamp).IsExternalShape()
        <==> req.bankCode !in {"002", "013", "014", "022"}
    ensures BuildBodyRequest(NewBankRouteRequest(req, cfg, partnerRefNo), timestamp).IsExternalShape() ==>
            BuildBodyRequest(NewBankRouteRequest(req, cfg, partnerRefNo), timestamp).BcaExternal?
  {
    var route := NewBankRouteRequest(req, cfg, partnerRefNo);
    match route
    case BriRequest(_, _) =>
      assert BriMapper.BuildBodyRequest(req).BriInternal?;
    case PermataRequest(_, _) =>
    case BcaRequest(_, _) =>
    case CimbRequest(_, _) =>
      assert CimbMapper.BuildBodyRequest(req).CimbInternal?;
  }

  /** Every route that can fail to produce data is Permata's, and Permata's always does. */
  lemma {:induction false} OnlyPermataPanics(cfg: BankConfig, httpStatus: int, codec: Codec, bankResponse: seq<byte>)
    ensures MapResponse(NewBankRouteResponse(cfg, httpStatus), codec, bankResponse).Panic? <==> cfg.bankCode == "013"
  {
    if cfg.bankCode == "013" {
      PermataMapper.MapResponseAlwaysPanics(cfg, codec, bankResponse);
    }
  }

  /** The HTTP status influences parsing only for configuration 002. */
  lemma StatusMattersOnlyForBri(cfg: BankConfig, s1: int, s2: int, codec: Codec, bankResponse: seq<byte>)
    requires cfg.bankCode != "002"
    ensures MapResponse(NewBankRouteResponse(cfg, s1), codec, bankResponse)
         == MapResponse(NewBankRouteResponse(cfg, s2), codec, bankResponse)
  {
  }

  /** The partner reference given to the router has no effect on the adapter chosen. */
  lemma PartnerReferenceUnused(req: InquiryRequest, cfg: BankConfig, p1: string, p2: string)
    ensures NewBankRouteRequest(req, cfg, p1) == NewBankRouteRequest(req, cfg, p2)
  {
  }
}
