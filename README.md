# terraform-provider-dnsmasqapi: the API client and the DNS entry resource

A Dafny model of the two parts of the DNSMasq API Terraform provider that hold logic:

- the API client (`pkg/client/client.go`), module `ApiClient`. It normalises the base address in
  `NewClient`. For each call it validates the arguments, builds the route and request, gates the
  response on status 200 and decodes the body into DNS records. This part is pure: functions of
  their inputs.
- the `dnsmasqapi_dnsentry` resource (`internal/provider/dnsentry/resource_dnsentry.go`), module
  `DnsEntryResource`. Its create, read, update and delete callbacks change the resource's ID in
  place. The class `ResourceData` holds that state. Each method states its new state in terms of the
  old one: Read, Create and Update through the pure functions `ReadSpec` and `PostThenReadSpec`,
  `Set` through `SetString`, and `SetId` and Delete directly. The lemmas are about those functions.

Supporting modules: `Wrappers` (Option, Result), `Strings` (prefix test, splitting at the first or
last occurrence of a character) and `Format` (Go's `%d` for the port, and its inverse).

What is a parameter instead of code:

- the network. A `Transport` maps the one request a call sends to its `Reply`: either no response
  (`TransportFailed`, which covers both a failed `http.NewRequest` and a failed `client.Do`) or a
  response with status, Content-Type header and body. A response from the transport always has a
  body, as one from `client.Do` does; only a hand-built `Response` given to `DecodeRecords` can have
  none. Requests carry the HTTP verb, the URL, the
  optional JSON body, the Content-Type header and the TLS policy (`verifyTls == sslVerify`).
- `url.Parse`. It is a function `string -> ParsedUrl`, seen only through what `NewClient` asks of
  it: did the parse fail, and which port does the URL carry.
- JSON decoding. A body is a `Payload`, either `Malformed` or the list of `Records` it decodes to.

Behaviour of the code that the model keeps, and the lemmas make visible:

- Read indexes the first record without checking the list, so a 200 with an empty JSON list makes
  it panic (`ReadPanicsOnEmptyList`, resource_dnsentry.go:49). A 200 whose body does not decode, an
  empty body among them, is an error diagnostic instead (`ReadReportsUndecodableBody`).
- Read writes the observed IP under the attribute's description text, not under `ip_address`. The
  write is refused and its error is dropped, so Read never changes `ip_address`
  (`ReadWriteKeyIsRefused`, `ReadSpec`).
- Delete clears the ID and returns no diagnostics even when the client fails, including for an
  empty hostname (`ResourceData.Delete`).
- The ID is built from the first record only (`ReadUsesFirstRecordOnly`).
- The hostname goes into the route unescaped. A hostname containing `?append=true` posts to the
  same route as an appending post (`PostRouteAmbiguousHostname`). Hostnames are validated as
  RFC 1123 names before they reach the client, and that validation is not part of this model.

- NewClient refuses an address that already carries a port whatever the port argument, even 0
  (client.go:42-46).
- Only status 200 is accepted; any other status, 2xx included, is an error (client.go:96).
- NewClient appends `:port` after the whole URL, so an address with a path gets the port after the
  path (`NewClientPortAfterPath`, client.go:49-51).

## Model

| member | source | states |
|---|---|---|
| `ApiClient.HasScheme` | pkg/client/client.go:26 | a URL has a scheme exactly when it starts with `http`, an optional `s`, then `://` |
| `ApiClient.WithScheme` | pkg/client/client.go:26-33 | the URL kept is the input when it starts with `http://` or `https://`, else `https://` + input; the result always has a scheme |
| `ApiClient.NewClient` | pkg/client/client.go:23-61 | a client exists iff the normalised URL parses with no port; it then carries exactly the scheme warning when the scheme was missing and no diagnostic otherwise, `sslVerify` as given, an address with a scheme equal to the URL when the port is 0 and to URL + ":" + decimal port otherwise; a parse failure or a URL with any port gives no client and a single error diagnostic (naming `api_port` for the port case) and drops the scheme warning |
| `ApiClient.NewClientAddressCarriesPort` | pkg/client/client.go:48-52 | with a non-zero port, the numeral after the address's last colon is the port's `%d`, what precedes it is the normalised URL, and the numeral reads back as the port |
| `ApiClient.NewClientPortAfterPath` | pkg/client/client.go:49-51 | `https://h/v1` with port 8080 becomes `https://h/v1:8080`: the port lands after the path |
| `Format.NatDigits` | pkg/client/client.go:51 | the rendering of a natural number is a non-empty string of decimal digits without a leading zero |
| `Format.Decimal` | pkg/client/client.go:51 | `%d` of an int is non-empty, has no colon, and is all digits exactly when the number is not negative |
| `Format.DecimalRoundTrip` | pkg/client/client.go:51 | reading back `%d` of any int gives that int |
| `ApiClient.BuildRequest` | pkg/client/client.go:64-88 | the request URL is address + "/" + route; the Content-Type header is `application/json` when there is a body and absent otherwise; TLS verification follows `sslVerify` |
| `ApiClient.DoRequest` | pkg/client/client.go:64-101 | the call succeeds iff the transport responds with status exactly 200, and then returns that response, body included; a transport failure or any other status is an error carrying the status |
| `ApiClient.DecodeRecords` | pkg/client/client.go:104-118 | a nil body is no records and no error; a body whose Content-Type is not exactly `application/json` is an error; under that Content-Type a malformed body is an error and a body that decodes to a list is accepted as that whole list; a success is never anything else |
| `ApiClient.Interpret` | pkg/client/client.go:91-118 | what a call makes of a reply: a transport failure or a status other than 200 is an error and the body is not decoded; a 200 reply is what decoding its body gives; the call succeeds exactly when the status is 200, the Content-Type is `application/json` and the body decodes to a list, and the result is that list |
| `ApiClient.DeleteDNSEntry` | pkg/client/client.go:121-131 | an empty hostname is an error whatever the transport; otherwise it sends DELETE address/dns/hostname with no body and no Content-Type, and succeeds iff the status is 200, whatever the body |
| `ApiClient.EntryRoute` | pkg/client/client.go:126 | the route of a hostname is `dns/` followed by the hostname, unescaped, which can be read back from it; it is the list route `dns` (line 135) followed by `/` and the hostname |
| `ApiClient.PostRoute` | pkg/client/client.go:166-169 | the posted route is the hostname's entry route followed by `?append=true` when appending and by nothing otherwise |
| `ApiClient.GetAllDNSEntries` | pkg/client/client.go:134-142 | sends GET address/dns with no body and returns what the reply yields |
| `ApiClient.GetDNSEntry` | pkg/client/client.go:145-157 | an empty hostname is an error whatever the transport; otherwise it sends GET address/dns/hostname with no body and returns what the reply yields |
| `ApiClient.PostDNSEntry` | pkg/client/client.go:161-182 | an empty hostname or ip is an error whatever the transport; otherwise it sends POST address/dns/hostname, with `?append=true` exactly when appending, a JSON body holding the one ip, and Content-Type `application/json` |
| `ApiClient.PostUrlQuery` | pkg/client/client.go:166-169 | for an address and hostname without `?`, the posted URL splits into path address/dns/hostname and query `append=true` when appending, empty query otherwise |
| `ApiClient.PostRouteAmbiguousHostname` | pkg/client/client.go:166-169 | an unvalidated hostname can make a replacing post indistinguishable from an appending one |
| `DnsEntryResource.SetString` | internal/provider/dnsentry/resource_dnsentry.go:50 | a string write by key takes effect, on that attribute only, exactly when the key is `hostname` or `ip_address`; any other key is refused and nothing changes |
| `DnsEntryResource.ReadWriteKeyIsRefused` | internal/provider/dnsentry/resource_dnsentry.go:50 | Read's write under the description text is refused and leaves the state unchanged |
| `DnsEntryResource.EntryId` | internal/provider/dnsentry/resource_dnsentry.go:49 | the ID is the hostname, then `\|`, then the IP, each part at its place |
| `DnsEntryResource.EntryIdRoundTrip` | internal/provider/dnsentry/resource_dnsentry.go:49 | for a hostname without `\|`, splitting the ID at its first `\|` gives back hostname and IP |
| `DnsEntryResource.ReadSpec` | internal/provider/dnsentry/resource_dnsentry.go:38-53 | Read never changes an attribute; a client error is returned as one error diagnostic with the state unchanged; it panics exactly when the client returns an empty list; otherwise it returns no diagnostic and the ID is hostname + "\|" + the first record's IP |
| `DnsEntryResource.PostThenReadSpec` | internal/provider/dnsentry/resource_dnsentry.go:22-36 | posting the state's hostname, IP and append flag: on a client error the state is unchanged and that error is the one diagnostic; on success the result is exactly Read's |
| `DnsEntryResource.ReadIdempotent` | internal/provider/dnsentry/resource_dnsentry.go:38-53 | reading again against the same API answers changes nothing more |
| `DnsEntryResource.ReadUsesFirstRecordOnly` | internal/provider/dnsentry/resource_dnsentry.go:49-50 | two record lists with the same first IP give the same Read result, whatever follows |
| `DnsEntryResource.ReadPanicsOnEmptyList` | internal/provider/dnsentry/resource_dnsentry.go:49 | a 200 reply with an empty JSON list makes Read panic |
| `DnsEntryResource.ReadReportsUndecodableBody` | internal/provider/dnsentry/resource_dnsentry.go:43-46 | a 200 reply whose JSON body does not decode gives Read one error diagnostic and no state change, not a panic |
| `DnsEntryResource.ResourceData.SetId` | internal/provider/dnsentry/resource_dnsentry.go:80 | `d.SetId` (used at lines 49 and 80) replaces the ID and nothing else |
| `DnsEntryResource.ResourceData.Set` | internal/provider/dnsentry/resource_dnsentry.go:50 | the object's new state and error are those of `SetString` on its old state |
| `DnsEntryResource.ResourceData.Read` | internal/provider/dnsentry/resource_dnsentry.go:38-53 | the object's new state and outcome are `ReadSpec` of its old state |
| `DnsEntryResource.ResourceData.Create` | internal/provider/dnsentry/resource_dnsentry.go:22-36 | the object's new state and outcome are `PostThenReadSpec` of its old state |
| `DnsEntryResource.ResourceData.Update` | internal/provider/dnsentry/resource_dnsentry.go:55-69 | the same contract as Create: Update behaves exactly as Create |
| `DnsEntryResource.ResourceData.Delete` | internal/provider/dnsentry/resource_dnsentry.go:71-82 | it asks the client to delete the hostname's entries (`DeleteDNSEntry` on the old hostname: DELETE address/dns/hostname unless the hostname is empty) and drops that call's error; whatever the client answers, the ID becomes empty, no attribute changes and no diagnostic is returned |

## Left out

- HTTP transport, TLS handshakes and `client.Do`: network I/O. The outcome of a call is the `Transport` parameter. A failed `http.NewRequest` is folded into `TransportFailed`.
- `json.Marshal` of the post body: it cannot fail for the fixed request type, so its error path is not modelled. The body is the value `SetRecordRequest([ip])`.
- `json.NewDecoder(...).Decode`: a foreign library. A body is the abstract `Payload` it decodes to, and JSON is not re-implemented.
- `url.Parse`: a foreign library. It is the `parse` parameter of `NewClient`.
- The text of error and diagnostic messages (`fmt.Errorf`, the warning's detail, the status and body in the status error): only their kinds and severities are modelled.
- The unused `httpClient` field of the client: `NewClient` never sets it, and each request builds its own HTTP client.
- `d.Get` type assertions and the Terraform SDK's own handling of `d.Set`: the resource's state is the four fields of `ResourceData`. A write is modelled for string values only, on the two string attributes of the schema.
- `SetString`: the SDK's `ResourceData.Set` is not part of this model. The refused write at resource_dnsentry.go:50 is modelled as logged and dropped, the SDK's behaviour outside acceptance-test runs; with `TF_ACC` set the SDK panics on that error instead, which the model does not capture.
- The request context and the provider meta value: the client is passed directly.
- Field validation (`pkg/validation/net.go`), schema registration, the data source, provider configuration and plugin serving: framework plumbing around a third-party validator.
