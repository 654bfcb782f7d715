/**
 * `encoding/json` is not modelled byte by byte. An encoder or decoder is an
 * opaque function; the Codec bundles the ones the service calls.
 */
module JsonCodec {
  import opened Wrappers
  import opened GoBase
  import opened Dto

  /** A JSON value as `json.Unmarshal` stores it in an `interface{}`. */
  datatype JsonValue =
    | JNull
    | JBool(b: bool)
    | JNumber(literal: string)
    | JString(s: string)
    | JArray(items: seq<JsonValue>)
    | JObject(fields: map<string, JsonValue>)

  /**
   * What `json.Unmarshal(data, &v)` leaves behind: the value it filled in
   * (fields it could not fill keep their zero values) and the error it returned.
   */
  datatype Decoded<T> = Decoded(value: T, err: Option<GoError>)

  datatype Codec = Codec(
    marshalBody: RequestBody -> seq<byte>,
    marshalStrings: map<string, string> -> seq<byte>,
    decodeBca: seq<byte> -> Decoded<BcaInquiryResponse>,
    decodeBriError: seq<byte> -> Decoded<BriErrorResponse>,
    decodeBriInternal: seq<byte> -> Decoded<BriInternalInquiryResponse>,
    decodeBriExternal: seq<byte> -> Decoded<BriExternalInquiryResponse>,
    decodeCimbInternal: seq<byte> -> Decoded<CimbInternalInquiryResponse>,
    decodeCimbExternal: seq<byte> -> Decoded<CimbExternalInquiryResponse>,
    decodeObject: seq<byte> -> Decoded<map<string, JsonValue>>,
    decodeToken: seq<byte> -> Decoded<SnapAccessToken>)
}
