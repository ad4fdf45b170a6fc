/**
 * The data model of the client: the response envelope every JSON route
 * returns, the job descriptors submitted to /transform, the request records
 * sent to /transform and /progress, and the job status names.
 */
module Params {

  import opened Wrappers

  /** Go's int64, the width of every integer field of the envelope. */
  newtype int64 = x: int | -0x8000_0000_0000_0000 <= x < 0x8000_0000_0000_0000

  /** A JSON value as it appears in the body; numbers keep their literal text. */
  datatype JsonValue =
    | JNull
    | JBool(b: bool)
    | JNumber(literal: string)
    | JString(s: string)
    | JArray(items: seq<JsonValue>)
    | JObject(members: seq<(string, JsonValue)>)

  /** A non-null `msg` that is not a string: a number, a boolean, an array or an object. */
  datatype OtherValue =
    | Number(literal: string)
    | Boolean(b: bool)
    | Array(items: seq<JsonValue>)
    | Object(members: seq<(string, JsonValue)>)

  /** The untyped `msg` field: absent (nil), a string, or any other JSON value. */
  datatype Msg = Absent | Text(s: string) | Other(v: OtherValue)

  /**
   * The payload of the envelope: the union of the fields the routes fill in.
   * `status` is Go's `Status`, a string type, so any text the service sends
   * is kept; the quota counters are strings, not numbers.
   */
  datatype Data = Data(
    uid: string,
    name: string,
    thumbnail: string,
    w: int64,
    h: int64,
    fileSize: int64,
    transId: string,
    status: string,
    maxNum: string,
    usedNum: string)

  datatype Response = Response(code: int64, csCode: int64, ip: string, data: Data, msg: Msg)

  /** Go's zero values `Data{}` and `Response{}`. */
  const EmptyData := Data("", "", "", 0, 0, 0, "", "", "", "")
  const EmptyResponse := Response(0, 0, "", EmptyData, Absent)

  /**
   * The message as display text. `render` stands for fmt's "%v" formatting
   * of a decoded JSON value, which the model does not interpret.
   */
  function MsgString(resp: Response, render: OtherValue -> string): (s: string)
    ensures resp.msg.Absent? ==> s == ""
    ensures resp.msg.Text? ==> s == resp.msg.s
    ensures resp.msg.Other? ==> s == render(resp.msg.v)
  {
    match resp.msg
    case Absent => ""
    case Text(s) => s
    case Other(v) => render(v)
  }

  /** The six status names the service documents for a job. */
  datatype JobStatus = Finish | Wait | Fatal | Process | Webhook | Busy {
    function Text(): string {
      match this
      case Finish => "finish"
      case Wait => "wait"
      case Fatal => "fatal"
      case Process => "process"
      case Webhook => "webhook"
      case Busy => "busy"
    }
  }

  const AllStatuses: seq<JobStatus> := [Finish, Wait, Fatal, Process, Webhook, Busy]

  /** Every status is listed in AllStatuses. */
  lemma AllStatusesComplete(k: JobStatus)
    ensures k in AllStatuses
  {
  }

  /** The six names are pairwise distinct texts: the enumeration has exactly six values. */
  lemma StatusTextsDistinct()
    ensures forall i, j :: 0 <= i < j < |AllStatuses| ==> AllStatuses[i].Text() != AllStatuses[j].Text()
    ensures |set k | k in AllStatuses :: k.Text()| == 6
  {
    var names := {"finish", "wait", "fatal", "process", "webhook", "busy"};
    assert |names| == 6;
    var texts := set k | k in AllStatuses :: k.Text();
    assert Finish.Text() in texts && Wait.Text() in texts && Fatal.Text() in texts;
    assert Process.Text() in texts && Webhook.Text() in texts && Busy.Text() in texts;
    assert texts == names;
  }

  /** The status text `s` names, if it is one of the six. */
  function StatusOf(s: string): (r: Option<JobStatus>)
    ensures r.Some? ==> r.value.Text() == s
    ensures r.None? ==> forall k: JobStatus :: k.Text() != s
  {
    if s == "finish" then Some(Finish)
    else if s == "wait" then Some(Wait)
    else if s == "fatal" then Some(Fatal)
    else if s == "process" then Some(Process)
    else if s == "webhook" then Some(Webhook)
    else if s == "busy" then Some(Busy)
    else None
  }

  datatype Compress = Compress(quality: int64)

  datatype OutParams = OutParams(compress: Compress)

  datatype ModuleParams = ModuleParams(
    modelName: string,
    suppressNoise: int64,
    removeBlur: int64,
    scale: string,
    rescale: int64,
    singleFace: bool,
    composite: bool,
    sigma: int64,
    alpha: int64,
    autoMode: bool,
    webAutoMode: bool)

  /** One module (`module` in JSON) with its parameters and output parameters. */
  datatype Config = Config(moduleName: string, moduleParams: ModuleParams, outParams: OutParams)

  /** A single-module job. */
  datatype JobConfig = JobConfig(job: string, config: Config)

  /** One named step of a workflow. */
  datatype SingleConfig = SingleConfig(name: string, config: Config)

  /** A workflow job: its steps in the order the caller gives them. */
  datatype MultipleJob = MultipleJob(job: string, config: seq<SingleConfig>)

  /** The two shapes that can be submitted to /transform. */
  datatype Job = Single(single: JobConfig) | Workflow(workflow: MultipleJob)

  /** The JSON body of /transform; `jobConfig` is the job serialised to a string. */
  datatype ProcessRequest = ProcessRequest(apiToken: string, uid: string, webhook: string, jobConfig: string)

  /** The JSON body of /progress. */
  datatype ProgressRequest = ProgressRequest(apiToken: string, transId: string)
}
