# briefcash-inquiry account-inquiry gateway, modelled in Dafny

The gateway answers "whose account is this?" for a beneficiary account at a
partner bank. Given an inquiry request (company, account, partner reference,
bank code, and type "bifast" or "online"), it does the following:

1. It looks up the partner bank's configuration in an in-memory cache. Unknown codes fall back to BCA ("014").
2. It picks a per-bank adapter (BCA, BRI, CIMB, Permata).
3. It gets an access token: first from an expiring cache, then from the token table, and otherwise from the bank's token endpoint. That endpoint is called with an RSA-signed `clientKey|timestamp`.
4. It signs and posts the inquiry.
5. It classifies the result. The classes are transport error, no body, parse, bank status, persistence and success.
6. On success it appends an inquiry row.

The model follows the Go packages module by module:

- `GoBase` covers bytes, `int16` with wrap-around, errors, `[]byte(string)` as UTF-8, and `%d`.
- `Hex` covers section 8 of RFC 4648. `Hmac` covers HMAC-SHA256 as in RFC 2104, over an abstract SHA-256.
- `Signature`, `AccessTokenAuth` model the authorization package.
- `MapperCommon`, `BcaMapper`, `BriMapper`, `CimbMapper`, `PermataMapper` model the mappers.
- `RoutingHelper` and `ErrorHelper` model the helpers.
- `AccessTokenService`, `PartnerService`, `InquiryService` model the services. Each is a class whose fields are the stores it updates.
- `Entity`, `Dto`, `JsonCodec`, `Transport` hold the data.

SHA-256, RSA signing (RSASSA-PKCS1-v1_5, section 8.2 of RFC 8017), PEM, PKCS#8 and PKCS#1 parsing, base64 and `encoding/json` are not modelled. They are function-valued parameters (`Sha256`, `KeyPrimitives`, `Codec`). So are the HTTP exchange (`Sender`), the clock and every store fault (`Effects`).

The service's design notes promise some things the Go code does not do. In each case below the model follows the code:

- **Cache TTL.** The design notes promise a TTL floor of 30 seconds. The code computes `max(expiresIn, 30) - 30`, which is 0 for any lifetime of 30 s or less, and the cache refuses a TTL of 0. `TtlSeconds` and `SaveAccessTokenRedis` state this.
- **Config reload.** The design notes say reload replaces the configuration map. The code merges into it (`LoadAllBankPartner`, `LoadKeepsUnmentioned`).
- **Default error code.** The design notes spell it `BANK_UNKNOWN_ERROR`. The code says `BANK_UNKOWN_ERROR`.
- **Signature uniqueness.** The design notes say changing any single input changes the request signature. This is false for the secret: `SecretWithTrailingNulCollides` shows that a secret and the same secret followed by NUL give the same signature. For colon-free fields the string to sign is injective (`StringToSignInjective`). Otherwise it is not (`StringToSignAmbiguous`).
- **404 handling.** The design notes report a 404 as ACCOUNT_NOT_FOUND for any bank. For the Permata configuration the parser panics before the status is read (`NotFoundStatus`).
- **Cache repopulation.** The design notes say a DB hit repopulates the cache. That write-back is refused when the stored lifetime is 30 s or less (`GetActiveAccessToken`).

## Model

| member | source | states |
|---|---|---|
| GoBase.Int16Sub | internal/service/inquiry_service.go:77 | `expiresIn - 30` on Go int16: the exact difference when it fits, otherwise wrapped by 2^16 |
| Hex.DecodeEncode | internal/authorization/signature.go:13 | hex encoding is invertible: decoding the lower-case hex text gives back exactly the digest bytes |
| Hmac.ZeroPaddedKeysCollide | internal/authorization/signature.go:18 | HMAC zero-pads short keys, so key and key+[0] give the same MAC for every message |
| Signature.HashSha256Hex | internal/authorization/signature.go:10-14 | 64 lower-case hex characters that decode to SHA-256 of the payload |
| Signature.StringToSign | internal/authorization/signature.go:17 | method, URL, token, body hash, timestamp, each followed by ':' including the last; length is the sum plus 5 |
| Signature.StringToSignInjective | internal/authorization/signature.go:17 | when no field contains ':', equal strings to sign come only from equal arguments |
| Signature.StringToSignAmbiguous | internal/authorization/signature.go:17 | fields are not escaped: ("POST", "https://bank/inquiry") and ("POST:https", "//bank/inquiry") give the same string to sign |
| Signature.HashSignature | internal/authorization/signature.go:16-21 | 64 lower-case hex characters decoding to HMAC-SHA256 keyed by the secret's bytes over the string to sign |
| Signature.SecretWithTrailingNulCollides | internal/authorization/signature.go:18 | a secret shorter than 64 bytes and the same secret + NUL sign every request identically |
| AccessTokenAuth.ReadPemFile | internal/authorization/access_token.go:25-31 | the file contents, or the read error wrapped as "failed to read private key" |
| AccessTokenAuth.LoadPrivateKey | internal/authorization/access_token.go:33-54 | no PEM block is an error; PKCS#8 first; PKCS#1 only if PKCS#8 fails; both failing returns the PKCS#8 error; non-RSA PKCS#8 gives "not RSA private key" |
| AccessTokenAuth.Pkcs1OnlyAfterPkcs8Fails | internal/authorization/access_token.go:39-46 | whenever PKCS#8 parsing succeeds, the PKCS#1 parser has no influence on the result |
| AccessTokenAuth.SignWithRsa | internal/authorization/access_token.go:56-63 | succeeds iff the PKCS#1 v1.5 signature of SHA-256 of the data succeeds, returning its base64 |
| AccessTokenAuth.TokenHeaders | internal/authorization/access_token.go:100-105 | exactly 4 headers: JSON content type, the timestamp, the client key, the signature |
| AccessTokenAuth.PrepareTokenRequest | internal/authorization/access_token.go:65-109 | read, load, sign fail in that order; a built request is a POST to baseUrl + accessTokenUrl carrying the grant_type body and the signature of clientKey + "\|" + timestamp |
| AccessTokenAuth.CheckTokenResponse | internal/authorization/access_token.go:111-131 | succeeds iff no transport error, status 200, decode ok and a non-empty token; otherwise the first failing check's error |
| AccessTokenAuth.GetAccessToken | internal/authorization/access_token.go:65-132 | a preparation failure is returned as is; otherwise the result is CheckTokenResponse of the answer to the prepared request, so transport, status, decode and empty-token failures come in that order; a returned token is never empty and came from a 200 answer to baseUrl + accessTokenUrl with the signed timestamp |
| MapperCommon.SignedHeaders | internal/mapper/bca_mapper.go:69-89 | exactly 7 keys: Bearer token, signed timestamp, partner, external id, channel, and the signature of POST to the endpoint over the hex SHA-256 of exactly the payload |
| BcaMapper.BuildBodyRequest | internal/mapper/bca_mapper.go:32-57 | internal shape iff code 014 with reference and account; otherwise external with the code, and inquiryService "2" iff bifast, else "1" |
| BcaMapper.GetUrl | internal/mapper/bca_mapper.go:59-67 | internal URL iff the requested code is 014 |
| BcaMapper.SignedEndpoint | internal/mapper/bca_mapper.go:72-78 | internal URL iff the configuration's code is 014 |
| BcaMapper.GetHeaders | internal/mapper/bca_mapper.go:69-89 | the signed header map for the configuration-chosen endpoint |
| BcaMapper.SignedUrlMatchesPostedUrl | internal/mapper/bca_mapper.go:59-79 | signed URL equals posted URL iff request and configuration agree on being 014, or the two URLs coincide |
| BcaMapper.BodyShapeFollowsUrl | internal/mapper/bca_mapper.go:32-67 | the internal body goes to the internal URL, the external body to the external URL |
| BcaMapper.MapResponse | internal/mapper/bca_mapper.go:91-98 | name and message of the decoded DTO; the decode error is not consulted |
| BcaMapper.MalformedResponseMapsToEmpty | internal/mapper/bca_mapper.go:92-97 | undecodable input yields two empty strings, never an error |
| BriMapper.BuildBodyRequest | internal/mapper/bri_mapper.go:37-65 | internal shape iff code 002 with channel/deviceId ""; otherwise external with serviceCode "81" iff bifast, else "16" |
| BriMapper.BodyOmitsPartnerReference | internal/mapper/bri_mapper.go:37-65 | the partner reference never reaches a BRI body |
| BriMapper.GetUrl | internal/mapper/bri_mapper.go:67-69 | always the internal URL |
| BriMapper.SignedEndpoint | internal/mapper/bri_mapper.go:73-79 | internal URL iff the configuration's code is 002 |
| BriMapper.GetHeaders | internal/mapper/bri_mapper.go:71-91 | the signed header map for the configuration-chosen endpoint |
| BriMapper.SignedUrlMatchesPostedUrl | internal/mapper/bri_mapper.go:67-79 | signed URL equals posted URL iff the configuration is 002 or the two URLs coincide |
| BriMapper.MapResponse | internal/mapper/bri_mapper.go:93-119 | non-200: empty name and the error envelope's message; 200: name and message of the internal (002) or external DTO |
| BriMapper.ErrorStatusIgnoresConfig | internal/mapper/bri_mapper.go:95-102 | for any non-200 status the configuration does not matter and the name is empty |
| CimbMapper.BuildBodyRequest | internal/mapper/cimb_mapper.go:34-62 | internal iff code 022 with empty additionalInfo; otherwise external with trxType "02" iff bifast else "01", proxyValue/proxyType "01", trxPurposeCode "99" |
| CimbMapper.GetUrl | internal/mapper/cimb_mapper.go:64-72 | internal URL iff the requested code is 022 |
| CimbMapper.SignedEndpoint | internal/mapper/cimb_mapper.go:76-82 | internal URL iff the configuration's code is 022 |
| CimbMapper.GetHeaders | internal/mapper/cimb_mapper.go:74-94 | the signed header map for the configuration-chosen endpoint |
| CimbMapper.SignedUrlMatchesPostedUrl | internal/mapper/cimb_mapper.go:64-82 | signed URL equals posted URL iff request and configuration agree on being 022, or the URLs coincide |
| CimbMapper.MapResponse | internal/mapper/cimb_mapper.go:96-112 | internal or external DTO by the configuration's code; name and message; never fails |
| PermataMapper.BuildBodyRequest | internal/mapper/permata_mapper.go:33-54 | one key "AcctInqRq"; header has the timestamp and CustReffID = company id; body has AccountNumber = beneficiary account |
| PermataMapper.BodyIgnoresCodeTypeAndReference | internal/mapper/permata_mapper.go:33-54 | bank code, type and partner reference do not affect the body |
| PermataMapper.GetUrl | internal/mapper/permata_mapper.go:56-58 | always the internal URL |
| PermataMapper.GetHeaders | internal/mapper/permata_mapper.go:60-65 | exactly Content-Type and OrganizationName = company id, no signature |
| PermataMapper.Lookup | internal/mapper/permata_mapper.go:70-71 | indexing a JSON-decoded generic map yields nil or a JSON value, never a struct |
| PermataMapper.ResponseKey | internal/mapper/permata_mapper.go:68-81 | "AcctInqRs" iff the configuration's code is 013, else "OlXferInqRs" |
| PermataMapper.Project | internal/mapper/permata_mapper.go:71-89 | the type assertion panics unless the value is the expected struct; if it were, name from InqInfo.AccountName or ToAccountFullName, message from StatusDesc |
| PermataMapper.MapResponse | internal/mapper/permata_mapper.go:67-89 | decode into a generic map, look up the key, assert, project |
| PermataMapper.MapResponseAlwaysPanics | internal/mapper/permata_mapper.go:67-89 | for every configuration, decoder and body the parser panics |
| RoutingHelper.NewBankRouteRequest | internal/helper/routinghelper/routing_helper.go:15-28 | by requested code only: 002 BRI, 013 Permata, 022 CIMB, every other code BCA |
| RoutingHelper.NewBankRouteResponse | internal/helper/routinghelper/routing_helper.go:34-47 | by configuration code only, same table; only BRI receives the status |
| RoutingHelper.BuildBodyRequest | internal/helper/routinghelper/routing_helper.go:9-10 | the interface call builds the chosen adapter's own body family: BRI, CIMB or BCA internal/external shapes, and Permata's wrapper exactly for the Permata adapter |
| RoutingHelper.GetUrl | internal/helper/routinghelper/routing_helper.go:11 | the posted URL is always one of the configuration's two inquiry URLs, and the internal one for BRI and Permata |
| RoutingHelper.GetHeaders | internal/helper/routinghelper/routing_helper.go:12 | Permata's adapter sends exactly Content-Type and OrganizationName; every other adapter sends the seven signed headers with the Bearer token |
| RoutingHelper.MapResponse | internal/helper/routinghelper/routing_helper.go:30-32 | the parse panics exactly for the Permata adapter; every other adapter yields mapped data |
| RoutingHelper.ExternalBodyOnlyFromBcaDefault | internal/helper/routinghelper/routing_helper.go:15-28 | through the router a body is external iff the code is none of 002/013/014/022, and then it is BCA's |
| RoutingHelper.OnlyPermataPanics | internal/helper/routinghelper/routing_helper.go:34-47 | parsing panics iff the configuration's code is 013 |
| RoutingHelper.StatusMattersOnlyForBri | internal/helper/routinghelper/routing_helper.go:34-47 | for configurations other than 002 the status has no effect on parsing |
| RoutingHelper.PartnerReferenceUnused | internal/helper/routinghelper/routing_helper.go:15 | the partnerRefNo argument does not affect the route |
| ErrorHelper.DetailForStatus | internal/service/inquiry_service.go:198-201 | the table entry for a listed status, otherwise the default; always from the bank |
| ErrorHelper.ErrorMapShape | internal/helper/errorhelper/error_helper.go:21-29 | exactly statuses 400, 401, 403, 404, 409, 500, 504, all sourced "bank", with distinct codes |
| ErrorHelper.StatusCodeTable | internal/helper/errorhelper/error_helper.go:21-36 | the default code BANK_UNKOWN_ERROR exactly for statuses outside the table |
| ErrorHelper.BuildErrorResponse | internal/helper/errorhelper/error_helper.go:38-46 | status false, code/message/source from the detail, empty data, and always an error wrapping the log message |
| ErrorHelper.MessageIgnored | internal/helper/errorhelper/error_helper.go:38-46 | the message argument has no effect |
| AccessTokenService.CacheKey | internal/service/access_token_service.go:45 | bank + ":access_token", the same key for save and lookup |
| AccessTokenService.CacheKeyInjective | internal/service/access_token_service.go:45 | distinct banks never share a key |
| AccessTokenService.TtlSeconds | internal/service/access_token_service.go:39-43 | in [0, 32737]; 0 iff the lifetime is 30 s or less; lifetime - 30 above that |
| AccessTokenService.LatestValid | internal/repository/token_repository.go:51-63 | none iff no token is valid; otherwise a valid token with the latest expiry, the earliest inserted among equal expiries (gorm's `First` orders by primary key after `expires_date DESC`) |
| AccessTokenService.TieGoesToEarliestInserted | internal/repository/token_repository.go:54-56 | of two valid rows with the same expiry, the first inserted is returned |
| AccessTokenService.TokenService.GetToken | internal/repository/token_redis_repository.go:36-48 | a hit iff no fault and a live entry for the key, returning its value |
| AccessTokenService.TokenService.SetToken | internal/repository/token_redis_repository.go:26-34 | a TTL of 0 or less is refused; otherwise the key is set unless the store faults |
| AccessTokenService.TokenService.FindToken | internal/repository/token_repository.go:51-63 | the latest valid token of any bank, or an error |
| AccessTokenService.TokenService.SaveAccessTokenDB | internal/service/access_token_service.go:29-35 | the row is appended iff the insert succeeds; the cache is untouched |
| AccessTokenService.TokenService.SaveAccessTokenRedis | internal/service/access_token_service.go:37-50 | succeeds iff lifetime > 30 and no fault; a lifetime of 30 s or less always fails; on success the key holds the token for lifetime - 30 s |
| AccessTokenService.TokenService.GetActiveAccessToken | internal/service/access_token_service.go:52-75 | cache hit returned untouched; on any cache error the table's latest valid token, written back when its TTL is positive and the write succeeds; table error wrapped, nothing cached |
| PartnerService.ByBankCode | internal/service/partner_service.go:45-49 | keys are exactly the list's codes; each entry is stored under its own code; for duplicate codes the later element wins |
| PartnerService.BankPartner.LoadAllBankPartner | internal/service/partner_service.go:31-51 | a repository error is returned and the cache is unchanged; otherwise the list is merged into the cache; every entry stays under its own code |
| PartnerService.BankPartner.GetBankConfig | internal/service/partner_service.go:53-73 | the code's entry; otherwise 014's; otherwise the zero config; with valid entries, the code is kept iff present |
| PartnerService.EmptyLoadIsNoOp | internal/service/partner_service.go:45-49 | loading an empty list changes nothing |
| PartnerService.LoadKeepsUnmentioned | internal/service/partner_service.go:45-49 | entries whose codes are absent from the list keep their values |
| InquiryService.HandleTransportError | internal/service/inquiry_service.go:166-189 | nothing to report iff no error and a body; an error is INTERNAL_CONNECTION_ERROR from internal; otherwise a nil body is BANK_NO_RESPONSE |
| InquiryService.NoResponseUnreachable | internal/service/inquiry_service.go:178-187 | with the POST helper's results (nil body only with an error) BANK_NO_RESPONSE is never produced |
| InquiryService.ParseBankResponse | internal/service/inquiry_service.go:191-195 | the error is always nil; the data is the configuration-routed parse |
| InquiryService.HandleBankError | internal/service/inquiry_service.go:197-204 | ErrorMap[status] or BANK_UNKOWN_ERROR, source bank, an error always present; the bank's message is dropped |
| InquiryService.InquiryRecord | internal/service/inquiry_service.go:213-224 | merchant = company id, reference = external id, request account and code, mapped name, status "SUCCESS" |
| InquiryService.BuildSuccessResponse | internal/service/inquiry_service.go:226-238 | status true, "SUCCESS", source bank, request account and code with the mapped name, nil error |
| InquiryService.AfterParse | internal/service/inquiry_service.go:134-163 | panic, then format error, then bank status; persisting exactly for mapped data with no error and status 200 |
| InquiryService.AfterParseReplies | internal/service/inquiry_service.go:134-149 | no reply after a parse is BANK_FORMAT_ERROR or a success; panics iff configuration 013; non-200 never persists |
| InquiryService.BriSuccessIsPersisted | internal/mapper/bri_mapper.go:104-110 | a BRI 200 answer naming JOHN DOE maps to that name and message and leads to persisting |
| InquiryService.NotFoundStatus | internal/service/inquiry_service.go:146-148 | 404 gives ACCOUNT_NOT_FOUND from the bank for every configuration but 013, which panics first |
| InquiryService.NewTokenEntity | internal/service/inquiry_service.go:73-78 | type "Bearer", same token and lifetime, expiry now + (lifetime - 30) computed in int16 |
| InquiryService.ShortLivedTokenIsNeverServed | internal/service/inquiry_service.go:77 | a lifetime in [-32738, 30] is stored already expired with TTL 0; -32768 wraps to an expiry 32738 s ahead |
| InquiryService.OutboundRequest | internal/service/inquiry_service.go:116-123 | a POST to the route's URL with its JSON body and headers computed over that same body |
| InquiryService.UnknownCodePostsExternalSignsInternal | internal/service/inquiry_service.go:55-56 | an unknown code with BCA configured posts to BCA's external URL but signs BCA's internal URL |
| InquiryService.InquiryService.PersistInquiry | internal/service/inquiry_service.go:213-224 | the record is appended iff the insert succeeds; the insert's error is returned |
| InquiryService.Decide | internal/service/inquiry_service.go:127-164 | the outcome of one bank answer: success iff a delivered 200 answer, configuration not 013 and the insert succeeds, replying the mapped name; panics iff an answer arrived under 013; a transport error is INTERNAL_CONNECTION_ERROR; never BANK_FORMAT_ERROR; every failed reply carries an error |
| InquiryService.InquiryService.HandleInquiryResponse | internal/service/inquiry_service.go:127-164 | the outcome is Decide of the answer; on success exactly one row is appended, the record of the request with the mapped name; on failure the table is unchanged; never BANK_FORMAT_ERROR; every failure carries an error |
| InquiryService.InquiryService.TokenPlan | internal/service/inquiry_service.go:63-113 | the token and both stores after acquiring: a cache hit changes nothing; only the bank's cache key can change and only to a live entry holding the returned token; a row is appended iff cache and table miss, the fetch succeeds and the insert succeeds, and it holds the returned token; a failure changes no store |
| InquiryService.InquiryService.AcquireToken | internal/service/inquiry_service.go:63-113 | returns TokenPlan's token and leaves exactly TokenPlan's cache and table (GetActiveAccessToken, else GetAccessToken with both saves) |
| InquiryService.InquiryService.SendInquiry | internal/service/inquiry_service.go:116-124 | the outcome is Decide of the bank's answer to OutboundRequest for the route and token; the table only grows, by a row iff success; never BANK_FORMAT_ERROR; panics only for configuration 013 |
| InquiryService.InquiryService.InquiryWithConfig | internal/service/inquiry_service.go:51-124 | the token stores end as TokenPlan says; with a token the outcome is Decide of the bank's answer to the routed request, without one Decide of a transport error carrying the token error; append-only, a row iff success; never BANK_FORMAT_ERROR |
| InquiryService.InquiryService.InquiryAccount | internal/service/inquiry_service.go:46-125 | InquiryWithConfig's guarantees for the partner cache's configuration of the requested code; with no cached, stored or fetched token the reply is INTERNAL_CONNECTION_ERROR with the fetch error and nothing is recorded |

## Left out

- SHA-256, RSA PKCS#1 v1.5 signing and its randomness, PEM decoding, PKCS#8/PKCS#1 parsing, base64 and `encoding/json` are opaque function parameters. JSON bytes are never modelled; a decoder returns the value it filled in together with its error.
- The POST helper (internal/helper/httphelper/http_helper.go) is an opaque `Sender`. The 10-second timeouts and request-creation errors are folded into it. `Transport.FromSendRequest` records its one guarantee, used by `NoResponseUnreachable`.
- The clock is an input. One reading in Unix seconds (`Effects.now`) serves token expiry, cache lifetimes and the inquiry date, where the Go code reads the clock separately. The ISO-8601 formatter is represented by the timestamps it produces.
- The two token saves run as goroutines joined by a WaitGroup. They are modelled as two sequential attempts, first the table and then the cache, whose errors are dropped. The RWMutex around the partner cache is omitted.
- Logging, `context.Context`, the controller, `main.go`, configuration loading and connection pools are not part of this model. The repositories appear only as the stores inside the service classes.
- Cache expiry: an entry is live while `now < setAt + ttl`. Eviction and Redis internals are not modelled.
- AccessTokenAuth.PrepareTokenRequest: `json.Marshal` of a string map cannot fail, so the marshal-error branch (access_token.go:94-97) is not modelled. `WriteToJson` likewise discards marshal errors.
- AccessTokenAuth.CheckTokenResponse: the `%+v` dump of the response in the "access token empty" message is not reproduced.
- AccessTokenService.TokenService.SetToken: the Go error texts embed the TTL's duration formatting and the Redis error. The model keeps only the fixed prefix.
- ErrorHelper.BuildErrorResponse: a nil wrapped error is represented by an absent cause. Go prints `%!w(<nil>)` for it.
- Row ids, gorm tags (including the swapped URL column names) and the unused DTO `PermataExternalInquiryRequest` are not modelled. `BankConfig` keeps the Go field names with both URLs as opaque strings.
- The redis `Exists` and table `FindLatestValidToken` operations are never called by the core and are left out.
- The empty-token check after a refresh ("missing access token after refresh", inquiry_service.go:111-113) is unreachable. `AcquireToken` marks it with an assertion that the verifier discharges, because `GetAccessToken` never returns an empty token.
