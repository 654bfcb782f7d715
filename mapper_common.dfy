/** What the four bank adapters share: their projected result and the SNAP header map. */
module MapperCommon {
  import opened GoBase
  import opened Hmac
  import opened Entity
  import Signature

  /** The two fields the service takes from any bank's answer. */
  datatype BankResponseData = BankResponseData(accountName: string, responseMessage: string)

  /** A projection either yields its data or panics (an unchecked type assertion that fails). */
  datatype MapOutcome = Mapped(data: BankResponseData) | Panic(reason: string)

  const SignedHeaderKeys: set<string> :=
    {"Content-Type", "Authorization", "X-TIMESTAMP", "X-SIGNATURE", "X-PARTNER-ID", "X-EXTERNAL-ID", "CHANNEL-ID"}

  /**
   * The header map of the signing adapters (BCA, BRI, CIMB): the token as a
   * bearer credential, the timestamp that was signed, and the signature of
   * POST to `endpoint` over the hex SHA-256 of exactly `payload`, keyed by the client secret.
   */
  function SignedHeaders(h: Sha256, accessToken: string, externalId: string, cfg: BankConfig,
                         endpoint: string, payload: seq<byte>, timestamp: string): (m: map<string, string>)
    ensures m.Keys == SignedHeaderKeys
    ensures m["Content-Type"] == "application/json"
    ensures m["Authorization"] == "Bearer " + accessToken
    ensures m["X-TIMESTAMP"] == timestamp
    ensures m["X-SIGNATURE"] == Signature.HashSignature(h, "POST", endpoint, accessToken,
                                   Signature.HashSha256Hex(h, payload), timestamp, cfg.clientSecret)
    ensures m["X-PARTNER-ID"] == cfg.partnerId && m["X-EXTERNAL-ID"] == externalId && m["CHANNEL-ID"] == cfg.channelId
  {
    var hexPayload := Signature.HashSha256Hex(h, payload);
    var signature := Signature.HashSignature(h, "POST", endpoint, accessToken, hexPayload, timestamp, cfg.clientSecret);
    map["Content-Type" := "application/json",
        "Authorization" := "Bearer " + accessToken,
        "X-TIMESTAMP" := timestamp,
        "X-SIGNATURE" := signature,
        "X-PARTNER-ID" := cfg.partnerId,
        "X-EXTERNAL-ID" := externalId,
        "CHANNEL-ID" := cfg.channelId]
  }
}
