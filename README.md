# goserverbase support components, modelled in Dafny

This project models the sequential helpers of the goserverbase Go service
library and proves properties of them:

- **PKCS#7 padding** (`pkcs7.dfy`, module `Padding`): `Pad` and `UnPad` of
  the padder used by the AES-CBC helper, the scheme of section 6.3 of
  RFC 5652. Both round trips are proved, together with the block arithmetic.
- **Secret cache** (`secretmanager.dfy`, module `SecretManager`):
  `GetSecret` over the package-wide map of fetched secrets with its
  fifteen-minute time-to-live, and the lazily created default client. The
  package state is a class; the remote fetch, the JSON parse and the clock
  are parameters.
- **Request utilities** (`utilities.dfy`, module `Utilities`): correlation
  parameters read from request headers, the redaction and restoration of
  authentication headers in `PrintRequest`, the listen address, pagination
  defaults, and the order in which a JSON response is written.
- **Middleware** (`middleware.dfy`, module `Middleware`): the response
  writer that records status and body, the choice of log level, the decision
  table that turns an error into a status, a body and an optional
  notification, and the handler-error and panic paths.
- **Kafka configuration** (`config.dfy`, module `KafkaConfig`): the option
  records and the key/value map their JSON tags produce, with unset fields
  omitted and the embedded credential block flattened.

`http.dfy` (module `Http`) gives the parts of `net/http` these use: a header
map updated in place and a response writer that records, in order, every
call made on it (not what `net/http` finally sends to the client). `wrappers.dfy` and `bytes.dfy` hold `Option`, `Result` and `Byte`.

Go panics are preconditions: `UnPad` on empty
input or on a last byte larger than the input, `Pad` with a block size that
is not positive, and `WriteJsonWithStatusCode` with a body that does not
marshal. A marshal panic inside a handler is recovered by
`HandleExceptionMiddleware`; that path is not modelled (see below).

## Model

| member | source | states |
|---|---|---|
| `Padding.PKCS7.Pad` | crypto/padding/pkcs7.go:19-23 | the result is a whole number of blocks, 1 to blockSize bytes longer than the input; the input is a prefix; every appended byte is the count appended, truncated to 8 bits; an aligned input gains a full block |
| `Padding.PKCS7.UnPad` | crypto/padding/pkcs7.go:13-17 | on non-empty input whose last byte is at most its length, the result is a prefix of the input, shorter by exactly the value of the last byte |
| `Padding.PadIsWellPadded` | crypto/padding/pkcs7.go:19-23 | for block sizes 1 to 255, Pad yields padding as RFC 5652 section 6.3 defines it |
| `Padding.UnPadPad` | crypto/padding/pkcs7.go:13-23 | for block sizes 1 to 255, UnPad accepts Pad's output and returns the original input |
| `Padding.PadUnPad` | crypto/padding/pkcs7.go:13-23 | for correctly padded data, padding what UnPad returns gives the data back |
| `Padding.PadRoundTripIffCountFits` | crypto/padding/pkcs7.go:13-23 | for any positive block size and any input, UnPad undoes Pad exactly when the count appended is at most 255; a larger count is written truncated to 8 bits and UnPad strips too little |
| `Padding.UnPadDoesNotValidate` | crypto/padding/pkcs7.go:13-17 | UnPad accepts a whole block whose padding bytes disagree, checking only the last byte |
| `SecretManager.HitIgnoresFetch` | aws/secretmanager.go:48-50 | when an entry exists and now is strictly before its expiry, the cached string is used and the cache is unchanged, whatever a fetch would return |
| `SecretManager.FailedFetchKeepsCache` | aws/secretmanager.go:51-55 | on a miss or an expired entry, a failed fetch reports the fetch error and leaves the cache unchanged |
| `SecretManager.FetchRefreshesEntry` | aws/secretmanager.go:51-57 | on a miss or an expired entry, a successful fetch replaces the entry with the new data expiring 15 minutes after it was stored; it answers lookups until then and none after |
| `SecretManager.OtherEntriesUnchanged` | aws/secretmanager.go:57 | no entry other than the one for the requested secret is added, removed or changed |
| `SecretManager.StoredBeforeParse` | aws/secretmanager.go:56-66 | a fetched string that fails to parse is still cached, and the parse error is returned |
| `SecretManager.SuccessIsParseOfCachedEntry` | aws/secretmanager.go:59-67 | a successful result is the parse of the string the cache holds for the secret |
| `SecretManager.SecretsPackage.constructor` | aws/secretmanager.go:27-29 | the package starts with an empty cache and no default client |
| `SecretManager.SecretsPackage.GetDefaultSecretManagerClient` | aws/secretmanager.go:36-41 | the first call creates the default client and later calls wrap that same client; the cache is untouched |
| `SecretManager.DefaultClientIsShared` | aws/secretmanager.go:36-41 | two managers obtained one after the other share one client |
| `SecretManager.SecretManager.constructor` | aws/secretmanager.go:43-45 | a manager wraps the given client and the shared package state |
| `SecretManager.SecretError.Message` | aws/secretmanager.go:54-76 | every error text starts with "SecretManager.GetSecret: " and ends with the cause; a fetch failure has exactly "SecretManager.GetSecretNonCache: " between them, a parse failure nothing |
| `SecretManager.SecretManager.GetSecret` | aws/secretmanager.go:47-68 | the new cache and the result are those of the lookup-then-parse specification; a fetch is made exactly when the cache misses or the entry has expired |
| `Utilities.GetHttpCorrelationParams` | baseapp/utilities.go:17-28 | an empty `x-correlation-id` gives the service's default parameters; otherwise the correlation, scenario id, scenario name and session id headers are copied |
| `Utilities.CorrelationRoundTrip` | baseapp/utilities.go:17-28 | parameters sent as headers, with a non-empty correlation id, are read back unchanged whatever other headers the request has |
| `Utilities.RedactPassHeader` | baseapp/utilities.go:33-39 | while the request is logged, each listed header with values reads "---redacted---"; listed keys without values and unlisted headers are unchanged; no key appears or disappears |
| `Utilities.RedactPassSaved` | baseapp/utilities.go:33-39 | the saved keys are exactly the listed keys that had values, each saved with a non-empty list |
| `Utilities.RedactPassSavesOriginals` | baseapp/utilities.go:33-39 | when no key is listed twice, each saved list is the header's original list |
| `Utilities.RedactRestoreIdentity` | baseapp/utilities.go:33-64 | when no key is listed twice, redacting and then restoring leaves the header exactly as it was |
| `Utilities.DuplicateKeyKeepsRedaction` | baseapp/utilities.go:33-64 | for any header and key list, a key listed twice that has values saves the redacted value on its second pass, so after restoration it holds only "---redacted---" |
| `Utilities.RedactAuthHeaders` | baseapp/utilities.go:33-39 | the redaction loop leaves the header and the saved lists as the redaction specification says |
| `Utilities.ReplaceValues` | baseapp/utilities.go:60-63 | deleting a key and adding each saved value in turn leaves the key holding the saved list, in order |
| `Utilities.RestoreAuthHeaders` | baseapp/utilities.go:59-64 | after the restore loop, in any key order, every saved key holds its saved list and every other key is unchanged |
| `Utilities.PrintRequest` | baseapp/utilities.go:30-65 | the logged header is the redacted one; afterwards the header is restored, and equals the original when no key is listed twice |
| `Utilities.GetPort` | baseapp/utilities.go:72-74 | the address is the host, a colon, then the port |
| `Utilities.GetPortSplitsBack` | baseapp/utilities.go:72-74 | for a port without a colon, splitting the address at its last colon gives back the host and the port |
| `Utilities.PaginationError.Message` | baseapp/utilities.go:107-127 | the error text is exactly "baseapp.SetDefault : " followed by the cause for a decode failure, and "app.SetDefault : " followed by the cause for an encode failure |
| `Utilities.SetDefaultPagination` | baseapp/utilities.go:105-129 | a failed decode returns the wrapped decode error and writes nothing; otherwise the filter written back has the defaults applied, and a failed write-back returns the wrapped encode error |
| `Utilities.DefaultsAreUsable` | baseapp/utilities.go:111-123 | after the defaults, page number and limit are at least 1 and a sort direction is set |
| `Utilities.DefaultsIdempotent` | baseapp/utilities.go:111-123 | applying the defaults to a defaulted filter changes nothing |
| `Utilities.DefaultsKeepUsableFilter` | baseapp/utilities.go:111-123 | a filter whose fields are all usable is left unchanged |
| `Utilities.WriteJsonWithStatusCode` | baseapp/utilities.go:131-143 | the writer receives the JSON content-type header, then the status, then the body: raw bytes as given, any other value marshalled |
| `Utilities.WriteJson` | baseapp/utilities.go:145-147 | a JSON response with status 200 |
| `Middleware.LoggingResponseWriter.constructor` | baseapp/middleware.go:51-53 | a fresh wrapper records status 0 and an empty body |
| `Middleware.LoggingResponseWriter.AddHeader` | baseapp/middleware.go:32-36 | a header added through the wrapper's promoted `Header()` reaches the wrapped writer, and nothing is recorded |
| `Middleware.LoggingResponseWriter.WriteHeader` | baseapp/middleware.go:38-41 | records the code, keeps the body, and forwards the code |
| `Middleware.LoggingResponseWriter.Write` | baseapp/middleware.go:43-46 | replaces the recorded body with the chunk rather than appending, keeps the status, forwards the chunk and reports its length |
| `Middleware.NoWriteHeaderKeepsZero` | baseapp/middleware.go:38-41 | a handler that never sets a status leaves the recorded status at 0 |
| `Middleware.NoWriteKeepsBodyEmpty` | baseapp/middleware.go:43-46 | a handler that never writes leaves the recorded body empty |
| `Middleware.LastWriteWins` | baseapp/middleware.go:43-46 | the recorded body is the last chunk written, whatever header and status calls follow it |
| `Middleware.ResponseLog` | baseapp/middleware.go:55-61 | the status line and the body line are logged at Info and Debug below 500, and both at Error from 500 up |
| `Middleware.UnsetStatusLogsAsInfo` | baseapp/middleware.go:51-61 | a handler that never calls WriteHeader is logged with status 0 at Info |
| `Middleware.ServeThrough` | baseapp/middleware.go:54 | after the handler's calls the wrapper holds the last status and the last body written, and the wrapped writer has received every header, status and body call in order |
| `Middleware.LogRequestResponse` | baseapp/middleware.go:48-64 | the request is logged redacted; the header ends as the logged header overridden by the saved lists, which is the original when no key repeats; the wrapped writer receives the handler's calls unchanged; the response log reflects the last status and body |
| `Middleware.FindHTTPError` | baseapp/middleware.go:77 | an HTTPError at the head of the chain is found; a wrapper is looked through to its inner error, so one is found through any number of wrappers; a plain or custom error yields none |
| `Middleware.FindCustomError` | baseapp/middleware.go:84 | a CustomError at the head of the chain is found; a wrapper is looked through to its inner error; a plain or HTTP error yields none |
| `Middleware.DecideErrorResponse` | baseapp/middleware.go:68-94 | an HTTPError, checked first, supplies status, notify flag, error code, data and body; a CustomError gives 500, its notify flag and data and no error code; any other error gives 500 and the UNKNOWN body, with notify false |
| `Middleware.OnlyHTTPErrorsChooseStatus` | baseapp/middleware.go:73-94 | a status other than 500, or a non-empty error code, only comes from an HTTPError |
| `Middleware.UnknownErrorsAreNotNotified` | baseapp/middleware.go:89-94 | an error of no known kind is not notified although its wrapper is built with notify set |
| `Middleware.WrappingKeepsResponse` | baseapp/middleware.go:77-88 | wrapping a known error in another error does not change its status, notify flag, code or body |
| `Middleware.NotificationFor` | baseapp/middleware.go:95-102 | a notification is sent exactly when notify is set and a notifier exists; it is Send5XX exactly when the status is 500 or above, with the decision's code, error, stack trace and data |
| `Middleware.SendErrorResponse` | baseapp/middleware.go:68-104 | the notifier gains at most one call, as NotificationFor says, and exactly one JSON response with the decided status and body is written |
| `Middleware.ErrorRecorder.Record` | baseapp/middleware.go:123 | each recording overwrites the previous one, a nil error included |
| `Middleware.RecoveredError` | baseapp/middleware.go:114-118 | an error panic value is reported as itself; any other value as "non error panic: " followed by its JSON |
| `Middleware.ErrorToReport` | baseapp/middleware.go:109-128 | a panic is reported with the stack trace; otherwise the last recorded error, if not nil, is reported with an empty trace; otherwise nothing |
| `Middleware.LastRecordingWins` | baseapp/middleware.go:122-128 | the last recording decides: a final nil recording means no error response |
| `Middleware.HandleException` | baseapp/middleware.go:106-130 | one error response (and at most one notification) follows a panic or a recorded error; with no recorded error nothing is written or notified |
| `KafkaConfig.EncodeFields` | kafka/config.go:3-22 | with distinct tags, the encoded map holds each field under its tag exactly when it is set, and no other key |
| `KafkaConfig.ConsumerConfigMap` | kafka/config.go:12-17 | the consumer map uses only credential keys plus `group.id`, `go.events.channel.enable`, `auto.offset.reset`; each set field appears under its tag, each unset one is omitted; the event-channel key appears only when true; a nil credential block adds no keys |
| `KafkaConfig.ProducerConfigMap` | kafka/config.go:19-22 | the producer map uses only credential keys plus `acks`; each set field appears under its tag, each unset one is omitted; a nil credential block adds no keys |
| `KafkaConfig.CredRoundTrip` | kafka/config.go:3-10 | the six credential keys (`bootstrap.servers`, `sasl.username`, `sasl.password`, `sasl.mechanisms`, `security.protocol`, `client.id`) give the flattened block back |
| `KafkaConfig.ConsumerRoundTrip` | kafka/config.go:12-17 | reading the consumer map back yields the configuration, except that an all-unset credential block reads as nil |
| `KafkaConfig.ProducerRoundTrip` | kafka/config.go:19-22 | reading the producer map back yields the configuration, except that an all-unset credential block reads as nil |
| `KafkaConfig.NoKeyCollision` | kafka/config.go:3-22 | no consumer or producer key collides with a credential key |

## Left out

- The Kafka producer, consumer, message envelope and `LoadMessage`: their implementation files are not part of this model. `kafka/kafka_test.go` and `kafka/init_test.go` only drive a live broker with goroutines, sleeps and deadlines.
- `crypto/aes/cbcv2.go`, `db/mongo/database.go` and the AWS S3/SNS tests: thin wrappers over external libraries or integration tests.
- Logging calls, `json.Marshal`/`Unmarshal`, `StrictJsonTransformer`, `debug.Stack`, `time.Now` and the AWS SDK call are parameters, not behaviour. This covers the fetch and parse of a secret, `GetErrorResponse`, the marshaller, the two filter transformers, the stack trace, `log.GetDefaultCorrelationParams` and the clock.
- `GetBytes` (gob encoding), the request-body re-read in `PrintRequest`, and the other request fields it logs: I/O with no logic of its own.
- `GetCorrelationContext`, `SetHandlerError`, `SetContextMiddleware` and `RequestTimerMiddleware`: context plumbing and timing. The handler's calls of the error setter are given as a sequence.
- Header keys are compared exactly: the key canonicalisation that `net/http` applies is not modelled.
- Go's 64-bit integers are unbounded here: overflow of lengths, of page numbers and of nanosecond instants is not modelled.
- `SecretManager.SecretManager.GetSecret`: the two clock reads are the parameters `now` (the expiry check) and `storedAt` (the new expiry). A secret is modelled by its `SecretString`; the nil dereference of a binary secret is not modelled.
- `Middleware.FindCustomError`: custom and HTTP errors are leaves of the error chain. Unwrapping through them, and the exact body `GetErrorResponse` renders, belong to the errors package, which is not part of this model. An HTTPError's body is rendered from its custom-error part. An error is a single chain with one inner error per wrapper: the multi-error trees that `errors.As` also searches (`Unwrap() []error`, as `errors.Join` or `fmt.Errorf` with several `%w` build) are not modelled, so an HTTPError or CustomError in a later branch of such a tree cannot be expressed.
- `Middleware.HandleException`: a panic with a nil value is not modelled. The handler's own writes before a panic or an error response are taken as already sent.
- `Middleware.SendErrorResponse`: without interfaces, the writer it writes to is always the plain one. The case where it is a `loggingResponseWriter` further up the chain is not modelled.
- `Utilities.GetPort`: the port is given in its printed form; how `%v` prints the configured value is not modelled.
- `Utilities.WriteJsonWithStatusCode`: the values of `HttpHeaderContentType` and `HttpContentTypeJSON` are defined outside the modelled files. The model uses "Content-Type" and "application/json".
- `Padding.PKCS7.Pad`: a value result. Go's `append` may write the padding into spare capacity of the caller's array and return a slice sharing memory with the input; that aliasing is not modelled.
- `Middleware.ResponseLog`: the `headers` field of the "Response" line (the response headers at logging time) is not modelled; the line carries the level and the status only.
- `Middleware.LoggingResponseWriter.Write` and `Http.ResponseWriter.Write`: the inner writer always accepts the whole chunk. The `(n, err)` a real connection can return, a short write or an error, is not modelled.
- `SecretManager.SecretManager.GetSecret`: the package map is shared by all managers and written without a lock. The model is sequential; concurrent calls and their data race are not modelled.
- `Utilities.WriteJsonWithStatusCode`: a body that does not marshal is excluded by the precondition. The panic it raises, and its recovery into an error response by `HandleExceptionMiddleware` when a handler is running, are not modelled.
- `Middleware.HandleException`: the writer records every call made on it. What `net/http` then does is not modelled: a second `WriteHeader` is dropped, headers added after the status are not sent, and a first `Write` sends an implicit 200. A handler that has already written and then records an error therefore does not, on the wire, show the error response's status or content type.
