/**
 * The envelope error mapper and the error values the operations return.
 *
 * The eight sentinel errors of the package are the constructors of
 * ErrorKind. `ErrorOf` is the switch on the envelope's code. Go errors built
 * with fmt.Errorf are modelled as a tree: `Wrapped` is a "%w" wrapping (its
 * cause stays reachable through errors.Unwrap), `BadStatus` is a message that
 * wraps nothing, and `Is` is errors.Is asked about a sentinel.
 */
module Errors {

  import opened Wrappers
  import opened Params

  /** The eight sentinel errors. */
  datatype ErrorKind =
    | IllegalParameter
    | InternalError
    | FileNotFound
    | SizeExceedsLimit
    | JParamParseError
    | JobFailed
    | InvalidApiKey
    | InsufficientBalance
  {
    /** The text each sentinel was created with. */
    function Message(): string {
      match this
      case IllegalParameter => "illegal parameter"
      case InternalError => "vanceai internal error"
      case FileNotFound => "file not found"
      case SizeExceedsLimit => "size exceeds limit"
      case JParamParseError => "jparam parse error"
      case JobFailed => "job failed"
      case InvalidApiKey => "invalid api key"
      case InsufficientBalance => "insufficient balance"
    }

    /** The envelope code the service uses for this failure. */
    function Code(): int64 {
      match this
      case IllegalParameter => 10001
      case InternalError => 10010
      case FileNotFound => 10011
      case SizeExceedsLimit => 10012
      case JParamParseError => 10013
      case JobFailed => 10014
      case InvalidApiKey => 30001
      case InsufficientBalance => 30004
    }
  }

  const AllKinds: seq<ErrorKind> :=
    [IllegalParameter, InternalError, FileNotFound, SizeExceedsLimit,
     JParamParseError, JobFailed, InvalidApiKey, InsufficientBalance]

  /** The codes that name a failure; every other code means "no error". */
  const KnownCodes: set<int64> := {10001, 10010, 10011, 10012, 10013, 10014, 30001, 30004}

  /** `(*Response).Error()`: the sentinel for the envelope's code, or none. */
  function ErrorOf(r: Response): (e: Option<ErrorKind>)
    ensures e.Some? <==> r.code in KnownCodes
    ensures e.Some? ==> e.value.Code() == r.code
  {
    match r.code
    case 10001 => Some(IllegalParameter)
    case 10010 => Some(InternalError)
    case 10011 => Some(FileNotFound)
    case 10012 => Some(SizeExceedsLimit)
    case 10013 => Some(JParamParseError)
    case 10014 => Some(JobFailed)
    case 30001 => Some(InvalidApiKey)
    case 30004 => Some(InsufficientBalance)
    case _ => None
  }

  /** Each known code maps to exactly its named sentinel. */
  lemma KnownCodeTable(r: Response)
    ensures r.code == 10001 ==> ErrorOf(r) == Some(IllegalParameter)
    ensures r.code == 10010 ==> ErrorOf(r) == Some(InternalError)
    ensures r.code == 10011 ==> ErrorOf(r) == Some(FileNotFound)
    ensures r.code == 10012 ==> ErrorOf(r) == Some(SizeExceedsLimit)
    ensures r.code == 10013 ==> ErrorOf(r) == Some(JParamParseError)
    ensures r.code == 10014 ==> ErrorOf(r) == Some(JobFailed)
    ensures r.code == 30001 ==> ErrorOf(r) == Some(InvalidApiKey)
    ensures r.code == 30004 ==> ErrorOf(r) == Some(InsufficientBalance)
  {
  }

  /** Every code outside the table, the success codes 0 and 200 among them, is "no error". */
  lemma UnknownCodeIsNoError(r: Response)
    ensures r.code !in KnownCodes ==> ErrorOf(r) == None
    ensures r.code == 0 || r.code == 200 ==> ErrorOf(r) == None
  {
  }

  /** The mapper inverts the code table: a sentinel's own code gives back that sentinel. */
  lemma ErrorOfCode(r: Response, k: ErrorKind)
    ensures ErrorOf(r) == Some(k) <==> r.code == k.Code()
  {
  }

  /** Only the code is consulted: cscode, ip, msg and data never change the verdict. */
  lemma ErrorOfOnlyCode(r1: Response, r2: Response)
    requires r1.code == r2.code
    ensures ErrorOf(r1) == ErrorOf(r2)
  {
  }

  /** Distinct sentinels have distinct codes and distinct texts, so the table is injective. */
  lemma KindsDistinct(a: ErrorKind, b: ErrorKind)
    requires a != b
    ensures a.Code() != b.Code()
    ensures a.Message() != b.Message()
  {
  }

  /** Every sentinel is listed in AllKinds. */
  lemma AllKindsComplete(k: ErrorKind)
    ensures k in AllKinds
  {
  }

  /** The table has exactly eight entries, and they are exactly the sentinels' codes. */
  lemma EightKnownCodes()
    ensures |KnownCodes| == 8
    ensures forall k: ErrorKind :: k.Code() in KnownCodes
    ensures forall c :: c in KnownCodes ==> exists k: ErrorKind :: k.Code() == c
  {
    forall c | c in KnownCodes ensures exists k: ErrorKind :: k.Code() == c {
      var e := ErrorOf(EmptyResponse.(code := c));
      assert e.value.Code() == c;
    }
  }

  /** The operation an error comes from; the wording of each message differs by operation. */
  datatype Op = UploadOp | ProcessOp | ProgressOp | DownloadOp | PointOp

  /** The context fmt.Errorf adds in a "%w" wrapping. */
  datatype Context =
    | CopyFile                                   // the image could not be read into the form
    | MarshalJobConfig                           // the job could not be serialised
    | DoRequest                                  // the transport call failed
    | DecodeResponse                             // the body was not a JSON envelope
    | EnvelopeCode(op: Op, msg: Option<string>) // the envelope named a failure; msg is MsgString when included

  /** An error produced by a library the model does not interpret (net/http, encoding/json, io). */
  datatype ForeignError = ForeignError(description: string)

  datatype Error =
    | Sentinel(kind: ErrorKind)
    | Foreign(cause: ForeignError)
    | BadStatus(op: Op, status: int)
    | Wrapped(context: Context, inner: Error)

  /** errors.Is(e, sentinel): the sentinel is on e's chain of wrapped causes. */
  function Is(e: Error, k: ErrorKind): bool
  {
    match e
    case Sentinel(s) => s == k
    case Foreign(_) => false
    case BadStatus(_, _) => false
    case Wrapped(_, inner) => Is(inner, k)
  }

  /** An error built without any sentinel in it. */
  predicate SentinelFree(e: Error)
  {
    match e
    case Sentinel(_) => false
    case Foreign(_) => true
    case BadStatus(_, _) => true
    case Wrapped(_, inner) => SentinelFree(inner)
  }

  /** However deeply it wraps, an error without a sentinel matches none, so callers tell transport from semantic failures. */
  lemma {:induction false} SentinelFreeMatchesNone(e: Error)
    requires SentinelFree(e)
    ensures forall k :: !Is(e, k)
  {
    match e
    case Foreign(_) =>
    case BadStatus(_, _) =>
    case Wrapped(_, inner) => SentinelFreeMatchesNone(inner);
  }

  /** A sentinel wrapped once matches exactly that sentinel. */
  lemma WrappedSentinelMatches(c: Context, s: ErrorKind)
    ensures forall k :: Is(Wrapped(c, Sentinel(s)), k) <==> s == k
  {
  }
}
