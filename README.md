# vanceai-go: a verified model of the client's decision layer

vanceai-go is a Go client for the VanceAI image web API. It uploads an image,
submits a processing job (a single module or a multi-step workflow), polls
the job's progress, downloads the result and queries the account's quota.
Every JSON route answers with the same envelope: `code`, `cscode`, `ip`, an
untyped `msg` and a `data` payload. The envelope's `code` is mapped to one
of eight sentinel errors, or to no error.

This project models the deterministic layer on top of the HTTP transport:

- `params.dfy` (module `Params`): the envelope, its payload, `MsgString`,
  the job descriptors, the two JSON request records and the six job status
  names.
- `errors.dfy` (module `Errors`): the eight sentinels, the code switch
  `(*Response).Error()` (`ErrorOf`), and Go's error wrapping. A `%w`
  wrapping is the `Wrapped` constructor, and `errors.Is` asked about a
  sentinel is `Is`.
- `image.dfy` (module `Image`): the client configuration, the request each
  operation builds, and the checks run after the transport call, stated
  once as the predicate `Classified`. It also holds `UploadImage`,
  `ProcessImage`, `GetProgress` and `Download`.
- `management.dfy` (module `Management`): `GetPoint`. It is a method
  because the source builds its query by updating the request in place.
- `wrappers.dfy`: `Option` and `Result`.

The transport is a parameter of each operation: a function from the request
the operation builds to what came back (`TransportOutcome` for the JSON
routes, `RawOutcome` for Download). Saying that an operation sends nothing
means its result is the same for every transport. `json.Marshal` of a job is
also a parameter (`marshal`) and may fail. The `%v` rendering of a non-string
`msg` is a parameter too (`render`).

`doAndUnmarshal` decodes the body before the caller looks at the HTTP
status. So a body that is not JSON is reported as a transport error,
whatever the status was. `TransportOutcome.DecodeFailed` models this, and it
takes precedence over the status check.

Two points of the code's behaviour the model keeps:

- Every status other than exactly 200 is a failure, including the other 2xx
  statuses (image.go:85, 122, 153, 184; management.go:23).
- Download never decodes a failure's JSON body. It reports only the status
  (image.go:184-186).

## Model

| member | source | states |
|---|---|---|
| `Params.MsgString` | params.go:13-22 | an absent msg gives "", a string msg gives itself, any other value gives its rendering; total over all three shapes |
| `Params.AllStatusesComplete` | params.go:91-101 | every job status is one of the six listed constants |
| `Params.StatusTextsDistinct` | params.go:93-101 | the six status texts are pairwise distinct, so the enumeration has exactly six values |
| `Params.StatusOf` | params.go:91-101 | a text names a status exactly when it is that status's constant; any other text names none |
| `Errors.ErrorOf` | error.go:16-37 | a sentinel is returned exactly when the code is one of the eight known codes, and its own code is the envelope's code |
| `Errors.KnownCodeTable` | error.go:17-33 | 10001, 10010, 10011, 10012, 10013, 10014, 30001 and 30004 map to IllegalParameter, InternalError, FileNotFound, SizeExceedsLimit, JParamParseError, JobFailed, InvalidApiKey and InsufficientBalance |
| `Errors.UnknownCodeIsNoError` | error.go:34-35 | any other code, 0 and 200 among them, is no error |
| `Errors.ErrorOfCode` | error.go:17-33 | the mapper yields sentinel k exactly when the code is k's code (the table read both ways) |
| `Errors.ErrorOfOnlyCode` | error.go:16-17 | two envelopes with the same code get the same verdict, whatever their cscode, ip, msg or data |
| `Errors.KindsDistinct` | error.go:5-14 | distinct sentinels have distinct codes and distinct texts, so the mapping is injective |
| `Errors.AllKindsComplete` | error.go:5-14 | every sentinel is one of the eight listed |
| `Errors.EightKnownCodes` | error.go:17-33 | there are exactly eight known codes, and they are exactly the sentinels' codes |
| `Errors.SentinelFreeMatchesNone` | image.go:81-87 | an error chain with no sentinel in it (decode, marshal or status errors) matches no sentinel under errors.Is, however deep the wrapping |
| `Errors.WrappedSentinelMatches` | image.go:88-90 | a sentinel wrapped with `%w` matches exactly that sentinel |
| `Image.NewClient` | image.go:21-32 | construction always succeeds and keeps the key and webhook, with the fixed base URL |
| `Image.JsonString` | image.go:38-52 | serialisation fails exactly when json.Marshal fails; on success the text is passed on verbatim; its error matches no sentinel |
| `Image.UploadRequest` | image.go:59-79 | a multipart POST to base+"/upload" with the file part `file` (that name and those bytes) followed by the field `api_token` = key |
| `Image.TransformRequest` | image.go:103-116 | a JSON POST to base+"/transform" with api_token = key, uid = uid, webhook = client webhook, jconfig = the serialised job verbatim |
| `Image.ProgressRequestFor` | image.go:136-147 | a JSON POST to base+"/progress" with api_token = key and trans_id = transID |
| `Image.DownloadRequest` | image.go:163-179 | a multipart POST to base+"/download" with the fields api_token = key, then trans_id = transID |
| `Image.Settle` | image.go:81-91 | the outcome satisfies `Classified`: a failed call or decode wins, then status other than 200, then a mapped code; an error always comes with the empty Response; errors.Is finds sentinel k exactly when the envelope's code named k or the failed call's own cause matches k; success returns the decoded envelope unchanged |
| `Image.UploadImage` | image.go:54-92 | an unreadable image gives the empty Response and the read error wrapped, which matches a sentinel exactly when the read error does; otherwise the outcome of the upload request is classified, the envelope message included in the error |
| `Image.ProcessImage` | image.go:94-129 | a job that does not serialise gives the empty Response and an error matching no sentinel; otherwise the outcome of the transform request carrying that exact text is classified |
| `Image.GetProgress` | image.go:131-160 | the outcome of the progress request for transID is classified |
| `Image.Download` | image.go:162-188 | the body is returned exactly when the call returned status 200, and it is returned unchanged; a nil body exactly when there is an error; a status error on other statuses; a failed call's error wrapped; only that failed call's own cause can match a sentinel (no envelope mapping) |
| `Image.ClassifiedDeterminesOutcome` | image.go:85-91 | once the call returned a status and an envelope, only one outcome is classified correctly |
| `Image.BadStatusIgnoresEnvelope` | image.go:85-87 | with status other than 200 the envelope is not consulted: any two envelopes give the same outcome, and it matches no sentinel |
| `Image.DecodeFailureIsTransportError` | http_client.go:91-95 | a body that does not decode gives the wrapped transport error, not a status or envelope error |
| `Image.SuccessEnvelopePassesThrough` | image_test.go:33-35 | the success envelope (code 200, HTTP 200) is returned unchanged with no error |
| `Image.UploadReadFailureSendsNothing` | image.go:65-68 | when the image cannot be read the outcome does not depend on the transport, so nothing was sent |
| `Image.ProcessMarshalFailureSendsNothing` | image.go:99-102 | when the job does not serialise the outcome does not depend on the transport, and the error is the marshal failure wrapped twice |
| `Image.WorkflowOrderReachesRequest` | params.go:43-46 | with a serialiser that tells jobs apart, two different step sequences (the same steps in another order among them) give different transform requests |
| `Management.PointRequest` | management.go:10-17 | a GET to base+"/point" with no body, Content-Type application/json, and the single query parameter api_token = key |
| `Management.GetPoint` | management.go:9-30 | the outcome of the point request is classified as for the other routes, with no message in the envelope error |
| `Management.PointQuotaVerbatim` | params.go:33-34 | on success the quota counters max_num and used_num are the strings the service sent |

## Left out

- HTTP itself (`http.Client.Do`, `http.NewRequestWithContext`, contexts, cancellation) is a parameter, the transport. A failure to create the request (a nil context) is not modelled: the base URL and method are fixed and valid.
- `doAndUnmarshal` (http_client.go:84-98) is represented only by the three outcomes it can report.
- Multipart encoding (boundary, part headers, byte layout) is left out. A form is modelled as its ordered list of fields. Writing into a `bytes.Buffer` cannot fail, so the error branches of `CreateFormFile`, `WriteField` and `Close` are omitted. The one branch that can fail, reading the image (`io.Copy`), is modelled.
- JSON encoding and decoding are left out. The job's `json.Marshal` is an abstract, possibly failing parameter, so no serialisation round trip is proved. `json.Marshal` of `ProcessRequest` and `ProgressRequest` cannot fail, since they hold only strings, so the branches at image.go:109-111 and image.go:140-142 are omitted.
- Params.MsgString: the exact text of `fmt.Sprintf("%v", msg)` is the uninterpreted `render`, so the model does not prove that a non-string message renders as non-empty text.
- The wording of error messages is left out. Only the operation, the wrapping context, the status and the wrapped sentinel are kept, plus MsgString where the message includes it.
- The `Op` tag of an error is the operation the error came from, not its wording. ProcessImage's envelope error (image.go:126) has the same text as UploadImage's (image.go:89), "failed to upload image …", so it reads as an upload failure although the model tags it `ProcessOp`.
- Errors the caller can inject (the image reader's, and those reaching `Do` through the context) are arbitrary `Error` values and may wrap this package's sentinels. Errors from encoding/json (job marshalling, response decoding) are assumed not to wrap them, and are modelled as sentinel-free `Foreign` errors.
- A nil reader (which panics at image.go:65) and a nil job (which panics at image.go:99) are not modelled.
- Query-string encoding (`url.Values.Encode`, escaping) is left out. The query is its list of key/value pairs.
- The Download body is modelled as its bytes, not as an open stream the caller must close.
- client.go and the older `Client`, `Response` and `UploadImage` in http_client.go are superseded revisions and are not part of this model. The same goes for example/sketch/main.go and the integration tests.
