/**
 * The fine-tuning service as the backend sees it: the requests it sends and
 * a script of the replies the service gives, in order. A reply either
 * carries a value or is an exception raised by the client library.
 */
module Remote {
  import opened Basics
  import opened FileStore

  datatype Reply<+T> = Ok(value: T) | Raise(message: string)

  /** A freshly created remote file or job: its id and the status it reports. */
  datatype Handle = Handle(id: string, status: string)

  /** Every call the backend makes to the service. */
  datatype Request =
    | CreateFile(content: seq<Line>)
    | RetrieveFile(fileId: string)
    | CreateJob(trainingFile: string, baseModel: string)
    | RetrieveJob(jobId: string)
    | DeleteFile(fileId: string)
    | DeleteModel(modelName: string)
    | Chat(model: Option<string>, prompt: string)

  /**
   * The service's replies for one request cycle: the file creation, each
   * later file status, the job creation, each later job status, the job as
   * retrieved once it has succeeded (its fine-tuned model name, possibly
   * null), and the chat completion's text.
   */
  datatype Script = Script(
    fileCreated: Reply<Handle>,
    fileStatuses: seq<Reply<string>>,
    jobCreated: Reply<Handle>,
    jobStatuses: seq<Reply<string>>,
    jobFinal: Reply<Option<string>>,
    chat: Reply<string>)

  // ---------------------------------------------------------------------------
  // Poll loops
  // ---------------------------------------------------------------------------

  /**
   * How a loop `while status != target: status = retrieve().status` ends on a
   * sequence of observed statuses (the creation's first, then one per
   * retrieve): it reaches the target at some position, a retrieve raises at
   * some position, or the supplied statuses run out while it is still
   * waiting, so that the real loop never returns.
   */
  datatype Poll = Reached(at: nat) | Failed(at: nat, message: string) | Blocked

  predicate Pending(x: Reply<string>, target: string) {
    x.Ok? && x.value != target
  }

  /** The first `n` observations all kept the loop waiting. */
  predicate WaitedThrough(obs: seq<Reply<string>>, target: string, n: nat) {
    n <= |obs| && forall j :: 0 <= j < n ==> Pending(obs[j], target)
  }

  /** `p` is how the poll loop ends on `obs`. */
  predicate Describes(obs: seq<Reply<string>>, target: string, p: Poll) {
    match p
    case Reached(k) => k < |obs| && obs[k] == Ok(target) && WaitedThrough(obs, target, k)
    case Failed(k, m) => k < |obs| && obs[k] == Raise(m) && WaitedThrough(obs, target, k)
    case Blocked => WaitedThrough(obs, target, |obs|)
  }

  function SettleFrom(obs: seq<Reply<string>>, target: string, k: nat): (p: Poll)
    requires WaitedThrough(obs, target, k)
    ensures Describes(obs, target, p)
    decreases |obs| - k
  {
    if k == |obs| then Blocked
    else
      match obs[k]
      case Raise(m) => Failed(k, m)
      case Ok(s) => if s == target then Reached(k) else SettleFrom(obs, target, k + 1)
  }

  /** How the poll loop ends on the observed statuses. */
  function Settle(obs: seq<Reply<string>>, target: string): (p: Poll)
    ensures Describes(obs, target, p)
  {
    SettleFrom(obs, target, 0)
  }

  /** Only one outcome describes a poll: `Settle` is the loop's meaning. */
  lemma SettleUnique(obs: seq<Reply<string>>, target: string, p: Poll)
    requires Describes(obs, target, p)
    ensures Settle(obs, target) == p
  {
  }

  /** The observations of a poll loop on a created handle and the later retrieves. */
  function Observed(h: Handle, replies: seq<Reply<string>>): (obs: seq<Reply<string>>)
    ensures |obs| == |replies| + 1 && obs[0] == Ok(h.status) && obs[1..] == replies
  {
    [Ok(h.status)] + replies
  }

  /** The same request sent `n` times. */
  function Repeat(r: Request, n: nat): (s: seq<Request>)
    ensures |s| == n && forall j :: 0 <= j < n ==> s[j] == r
  {
    seq(n, _ => r)
  }
}
