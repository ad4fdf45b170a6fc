/**
 * The client and the image operations: upload, submit a job, poll its
 * progress, download its result.
 *
 * The HTTP exchange is outside the model: each operation receives the
 * transport as a function from the request it builds to what came back.
 * An operation that returns before the transport is called gives the same
 * result for every transport; that is how "no request is sent" is stated.
 */
module Image {

  import opened Wrappers
  import opened Params
  import opened Errors

  newtype byte = x: int | 0 <= x < 256

  const BaseUrl := "https://api-service.vanceai.com/web_api/v1"

  /** The immutable client configuration. The http.Client it holds is not modelled. */
  datatype Client = Client(apiKey: string, baseUrl: string, processWebhook: string)

  /** NewClient: the fixed base URL parses, so construction always succeeds. */
  function NewClient(apiKey: string, processWebhook: string): (c: Client)
    ensures c.apiKey == apiKey && c.processWebhook == processWebhook
    ensures c.baseUrl == "https://api-service.vanceai.com/web_api/v1"
  {
    Client(apiKey, BaseUrl, processWebhook)
  }

  datatype Method = Get | Post

  /** The Content-Type header; the multipart boundary is random and not modelled. */
  datatype ContentType = MultipartForm | ApplicationJson

  datatype FormField =
    | FormFile(field: string, fileName: string, content: seq<byte>)
    | FormValue(field: string, value: string)

  datatype Body =
    | NoBody
    | Form(fields: seq<FormField>)
    | ProcessJson(process: ProcessRequest)
    | ProgressJson(progress: ProgressRequest)

  /** A request as handed to the transport; `query` is the decoded query string. */
  datatype HttpRequest = HttpRequest(
    verb: Method,
    url: string,
    contentType: Option<ContentType>,
    query: seq<(string, string)>,
    body: Body)

  /**
   * What doAndUnmarshal reports: the call failed, the body did not decode
   * (reported whatever the status was, since decoding comes first), or the
   * HTTP status with the decoded envelope. A failed call may carry any
   * error, the caller's context's among them, so its cause is an arbitrary
   * Error; a decode failure comes from encoding/json.
   */
  datatype TransportOutcome =
    | DoFailed(cause: Error)
    | DecodeFailed(decodeError: ForeignError)
    | Got(status: int, decoded: Response)

  /** What the raw call of Download reports: a failure (any error), or the status and the body. */
  datatype RawOutcome =
    | RawFailed(cause: Error)
    | RawGot(status: int, body: seq<byte>)

  /** Go's (Response, error) pair. */
  datatype Outcome = Outcome(resp: Response, err: Option<Error>)

  /** Go's (io.ReadCloser, error) pair of Download; None is the nil body. */
  datatype DownloadOutcome = DownloadOutcome(body: Option<seq<byte>>, err: Option<Error>)

  /** errors.Is(err, k) for a possibly nil error. */
  predicate Matches(err: Option<Error>, k: ErrorKind)
  {
    err.Some? && Is(err.value, k)
  }

  /**
   * What an envelope-returning operation promises about the outcome `t` of
   * its transport call, checked in this order: a failed call or decode wins,
   * then an HTTP status other than 200, then a failure code in the envelope;
   * only when all pass is the decoded envelope returned, unchanged. Every
   * error comes with the empty Response, and errors.Is finds a sentinel
   * exactly when the envelope's code named it, or when the failed call's own
   * cause matches it.
   */
  predicate Classified(op: Op, t: TransportOutcome, msgRender: Option<OtherValue -> string>, r: Outcome)
  {
    && (r.err.None? <==> t.Got? && t.status == 200 && ErrorOf(t.decoded).None?)
    && (r.err.None? ==> r.resp == t.decoded)
    && (r.err.Some? ==> r.resp == EmptyResponse)
    && (!t.Got? ==> r.err.Some? && r.err.value.Wrapped? && r.err.value.context == DoRequest)
    && (t.DoFailed? ==> r.err == Some(Wrapped(DoRequest, t.cause)))
    && (t.Got? && t.status != 200 ==> r.err == Some(BadStatus(op, t.status)))
    && (forall k :: Matches(r.err, k) <==>
          (t.Got? && t.status == 200 && ErrorOf(t.decoded) == Some(k)) || (t.DoFailed? && Is(t.cause, k)))
    && (t.Got? && t.status == 200 && ErrorOf(t.decoded).Some? ==>
          var msg := if msgRender.Some? then Some(MsgString(t.decoded, msgRender.value)) else None;
          r.err.value == Wrapped(EnvelopeCode(op, msg), Sentinel(ErrorOf(t.decoded).value)))
  }

  /** The checks every envelope-returning operation runs after the transport call. */
  function Settle(op: Op, t: TransportOutcome, msgRender: Option<OtherValue -> string>): (r: Outcome)
    ensures Classified(op, t, msgRender, r)
  {
    match t
    case DoFailed(c) =>
      Outcome(EmptyResponse, Some(Wrapped(DoRequest, c)))
    case DecodeFailed(c) =>
      SentinelFreeMatchesNone(Wrapped(DoRequest, Wrapped(DecodeResponse, Foreign(c))));
      Outcome(EmptyResponse, Some(Wrapped(DoRequest, Wrapped(DecodeResponse, Foreign(c)))))
    case Got(status, decoded) =>
      if status != 200 then
        Outcome(EmptyResponse, Some(BadStatus(op, status)))
      else
        match ErrorOf(decoded)
        case Some(k) =>
          var msg := if msgRender.Some? then Some(MsgString(decoded, msgRender.value)) else None;
          WrappedSentinelMatches(EnvelopeCode(op, msg), k);
          Outcome(EmptyResponse, Some(Wrapped(EnvelopeCode(op, msg), Sentinel(k))))
        case None =>
          Outcome(decoded, None)
  }

  /** `jsonString`, the same for both job shapes: `marshal` is json.Marshal, failures are wrapped. */
  function JsonString(job: Job, marshal: Job -> Result<string, ForeignError>): (r: Result<string, Error>)
    ensures r.Success? <==> marshal(job).Success?
    ensures r.Success? ==> r.value == marshal(job).value
    ensures r.Failure? ==> SentinelFree(r.error)
  {
    match marshal(job)
    case Success(b) => Success(b)
    case Failure(c) => Failure(Wrapped(MarshalJobConfig, Foreign(c)))
  }

  /** The multipart POST to /upload: the file part first, then the api_token field. */
  function UploadRequest(cli: Client, name: string, content: seq<byte>): (req: HttpRequest)
    ensures req.verb == Post && req.url == cli.baseUrl + "/upload"
    ensures req.contentType == Some(MultipartForm) && req.query == []
    ensures req.body == Form([FormFile("file", name, content), FormValue("api_token", cli.apiKey)])
  {
    HttpRequest(Post, cli.baseUrl + "/upload", Some(MultipartForm), [],
      Form([FormFile("file", name, content), FormValue("api_token", cli.apiKey)]))
  }

  /** The JSON POST to /transform, carrying the serialised job as a string, verbatim. */
  function TransformRequest(cli: Client, uid: string, jobConfig: string): (req: HttpRequest)
    ensures req.verb == Post && req.url == cli.baseUrl + "/transform"
    ensures req.contentType == Some(ApplicationJson) && req.query == []
    ensures req.body.ProcessJson?
    ensures req.body.process.apiToken == cli.apiKey && req.body.process.uid == uid
    ensures req.body.process.webhook == cli.processWebhook && req.body.process.jobConfig == jobConfig
  {
    HttpRequest(Post, cli.baseUrl + "/transform", Some(ApplicationJson), [],
      ProcessJson(ProcessRequest(cli.apiKey, uid, cli.processWebhook, jobConfig)))
  }

  /** The JSON POST to /progress. */
  function ProgressRequestFor(cli: Client, transId: string): (req: HttpRequest)
    ensures req.verb == Post && req.url == cli.baseUrl + "/progress"
    ensures req.contentType == Some(ApplicationJson) && req.query == []
    ensures req.body.ProgressJson?
    ensures req.body.progress.apiToken == cli.apiKey && req.body.progress.transId == transId
  {
    HttpRequest(Post, cli.baseUrl + "/progress", Some(ApplicationJson), [],
      ProgressJson(ProgressRequest(cli.apiKey, transId)))
  }

  /** The multipart POST to /download: the api_token field, then the trans_id field. */
  function DownloadRequest(cli: Client, transId: string): (req: HttpRequest)
    ensures req.verb == Post && req.url == cli.baseUrl + "/download"
    ensures req.contentType == Some(MultipartForm) && req.query == []
    ensures req.body == Form([FormValue("api_token", cli.apiKey), FormValue("trans_id", transId)])
  {
    HttpRequest(Post, cli.baseUrl + "/download", Some(MultipartForm), [],
      Form([FormValue("api_token", cli.apiKey), FormValue("trans_id", transId)]))
  }

  /**
   * UploadImage. `file` is what reading the image gave: its bytes, or the
   * error io.Copy reported, in which case nothing is sent. The reader is the
   * caller's, so that error may be anything and stays reachable by errors.Is.
   */
  function UploadImage(
    cli: Client, file: Result<seq<byte>, Error>, name: string,
    transport: HttpRequest -> TransportOutcome, render: OtherValue -> string): (r: Outcome)
    ensures file.Failure? ==> r.resp == EmptyResponse && r.err == Some(Wrapped(CopyFile, file.error))
    ensures file.Failure? ==> forall k :: Matches(r.err, k) <==> Is(file.error, k)
    ensures file.Success? ==> Classified(UploadOp, transport(UploadRequest(cli, name, file.value)), Some(render), r)
  {
    match file
    case Failure(e) =>
      Outcome(EmptyResponse, Some(Wrapped(CopyFile, e)))
    case Success(content) =>
      Settle(UploadOp, transport(UploadRequest(cli, name, content)), Some(render))
  }

  /** ProcessImage: serialise the job, then submit it; a job that does not serialise is never sent. */
  function ProcessImage(
    cli: Client, uid: string, job: Job, marshal: Job -> Result<string, ForeignError>,
    transport: HttpRequest -> TransportOutcome, render: OtherValue -> string): (r: Outcome)
    ensures marshal(job).Failure? ==> r.resp == EmptyResponse && r.err.Some? && forall k :: !Matches(r.err, k)
    ensures marshal(job).Success? ==>
      Classified(ProcessOp, transport(TransformRequest(cli, uid, marshal(job).value)), Some(render), r)
  {
    match JsonString(job, marshal)
    case Failure(e) =>
      SentinelFreeMatchesNone(Wrapped(MarshalJobConfig, e));
      Outcome(EmptyResponse, Some(Wrapped(MarshalJobConfig, e)))
    case Success(jc) =>
      Settle(ProcessOp, transport(TransformRequest(cli, uid, jc)), Some(render))
  }

  /** GetProgress: one point-in-time poll of a job. */
  function GetProgress(
    cli: Client, transId: string,
    transport: HttpRequest -> TransportOutcome, render: OtherValue -> string): (r: Outcome)
    ensures Classified(ProgressOp, transport(ProgressRequestFor(cli, transId)), Some(render), r)
  {
    Settle(ProgressOp, transport(ProgressRequestFor(cli, transId)), Some(render))
  }

  /** Download: the body on status 200; no envelope is decoded and no code is mapped, so only a failed call's own cause can match a sentinel. */
  function Download(cli: Client, transId: string, transport: HttpRequest -> RawOutcome): (r: DownloadOutcome)
    ensures r.body.Some? <==> r.err.None?
    ensures r.err.None? <==> transport(DownloadRequest(cli, transId)).RawGot? && transport(DownloadRequest(cli, transId)).status == 200
    ensures r.body.Some? ==> r.body.value == transport(DownloadRequest(cli, transId)).body
    ensures transport(DownloadRequest(cli, transId)).RawGot? && transport(DownloadRequest(cli, transId)).status != 200 ==>
      r.err == Some(BadStatus(DownloadOp, transport(DownloadRequest(cli, transId)).status))
    ensures transport(DownloadRequest(cli, transId)).RawFailed? ==>
      r.err == Some(Wrapped(DoRequest, transport(DownloadRequest(cli, transId)).cause))
    ensures forall k :: Matches(r.err, k) <==>
      transport(DownloadRequest(cli, transId)).RawFailed? && Is(transport(DownloadRequest(cli, transId)).cause, k)
  {
    match transport(DownloadRequest(cli, transId))
    case RawFailed(e) =>
      DownloadOutcome(None, Some(Wrapped(DoRequest, e)))
    case RawGot(status, body) =>
      if status != 200 then DownloadOutcome(None, Some(BadStatus(DownloadOp, status)))
      else DownloadOutcome(Some(body), None)
  }

  /** Once the call returned a status and an envelope, Classified admits exactly one outcome. */
  lemma ClassifiedDeterminesOutcome(op: Op, t: TransportOutcome, m: Option<OtherValue -> string>, r1: Outcome, r2: Outcome)
    requires Classified(op, t, m, r1) && Classified(op, t, m, r2)
    requires t.Got?
    ensures r1 == r2
  {
  }

  /** With status other than 200 the envelope is not consulted: any two envelopes give the same outcome. */
  lemma BadStatusIgnoresEnvelope(op: Op, status: int, d1: Response, d2: Response, m: Option<OtherValue -> string>)
    requires status != 200
    ensures Settle(op, Got(status, d1), m) == Settle(op, Got(status, d2), m)
    ensures forall k :: !Matches(Settle(op, Got(status, d1), m).err, k)
  {
  }

  /** A failed decode is reported as a transport error, never as a status or envelope error. */
  lemma DecodeFailureIsTransportError(op: Op, c: ForeignError, m: Option<OtherValue -> string>)
    ensures Settle(op, DecodeFailed(c), m).err == Some(Wrapped(DoRequest, Wrapped(DecodeResponse, Foreign(c))))
  {
  }

  /** The success envelope (code 200, HTTP 200) is returned unchanged. */
  lemma SuccessEnvelopePassesThrough(op: Op, d: Response, m: Option<OtherValue -> string>)
    requires d.code == 200
    ensures Settle(op, Got(200, d), m) == Outcome(d, None)
  {
  }

  /** An image that cannot be read is never sent: the outcome is the same whatever the transport would do. */
  lemma UploadReadFailureSendsNothing(
    cli: Client, file: Result<seq<byte>, Error>, name: string,
    t1: HttpRequest -> TransportOutcome, t2: HttpRequest -> TransportOutcome, render: OtherValue -> string)
    requires file.Failure?
    ensures UploadImage(cli, file, name, t1, render) == UploadImage(cli, file, name, t2, render)
  {
  }

  /** A job that does not serialise is never sent: the outcome is the same whatever the transport would do. */
  lemma ProcessMarshalFailureSendsNothing(
    cli: Client, uid: string, job: Job, marshal: Job -> Result<string, ForeignError>,
    t1: HttpRequest -> TransportOutcome, t2: HttpRequest -> TransportOutcome, render: OtherValue -> string)
    requires marshal(job).Failure?
    ensures ProcessImage(cli, uid, job, marshal, t1, render) == ProcessImage(cli, uid, job, marshal, t2, render)
    ensures ProcessImage(cli, uid, job, marshal, t1, render).err ==
      Some(Wrapped(MarshalJobConfig, Wrapped(MarshalJobConfig, Foreign(marshal(job).error))))
  {
  }

  /**
   * A workflow's steps reach the request in the caller's order: with a
   * serialiser that tells jobs apart, two different step sequences are
   * submitted as two different requests.
   */
  lemma WorkflowOrderReachesRequest(
    cli: Client, uid: string, kind: string, steps1: seq<SingleConfig>, steps2: seq<SingleConfig>,
    marshal: Job -> Result<string, ForeignError>)
    requires steps1 != steps2
    requires forall j1, j2 :: marshal(j1) == marshal(j2) ==> j1 == j2
    requires marshal(Workflow(MultipleJob(kind, steps1))).Success?
    requires marshal(Workflow(MultipleJob(kind, steps2))).Success?
    ensures TransformRequest(cli, uid, marshal(Workflow(MultipleJob(kind, steps1))).value)
         != TransformRequest(cli, uid, marshal(Workflow(MultipleJob(kind, steps2))).value)
  {
    var w1, w2 := Workflow(MultipleJob(kind, steps1)), Workflow(MultipleJob(kind, steps2));
    assert w1 != w2;
  }
}
