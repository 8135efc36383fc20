/**
 * A job record of the echo agent and everything that happens to one record:
 * its lifecycle pending -> running -> completed | failed, the tripled text a
 * successful job stores, the failure message a failed job stores, and the
 * shape of a job id.
 */
module Jobs {
  import opened Wrappers

  type JobId = string

  /** The caller's `input_data`; values are the texts the schema asks for. */
  type Input = map<string, string>

  /** The single field of the input schema: the text to echo. */
  const TextKey: string := "text_input"

  datatype Status = Pending | Running | Completed | Failed
  {
    /** The worker has written its outcome. */
    predicate IsTerminal() { this == Completed || this == Failed }

    /**
     * Position in the lifecycle; every transition raises it. "failed" comes
     * after "completed" because the worker's error handler can still turn a
     * completed record into a failed one.
     */
    function Rank(): nat
    {
      match this
      case Pending => 0
      case Running => 1
      case Completed => 2
      case Failed => 3
    }
  }

  /** One entry of the job table. */
  datatype Job = Job(
    status: Status,
    inputData: Input,
    identifierFromPurchaser: string,
    result: Option<string>,
    message: Option<string>)

  /** The record a new job is stored with. */
  function NewJob(identifierFromPurchaser: string, inputData: Input): Job
  {
    Job(Pending, inputData, identifierFromPurchaser, None, None)
  }

  /** First locked block of the worker: the status becomes "running". */
  function Started(j: Job): Job
  {
    j.(status := Running)
  }

  /** Locked block of the success path: status "completed" and the result. */
  function Succeeded(j: Job, resultText: string): Job
  {
    j.(status := Completed, result := Some(resultText))
  }

  /** Locked block of the error handler: status "failed" and the message. */
  function FailedWith(j: Job, errorMessage: string): Job
  {
    j.(status := Failed, message := Some(errorMessage))
  }

  /**
   * The record invariant. Pending and running records carry neither result
   * nor message. A completed record carries the tripled input text and no
   * message. A failed record carries a message, and a result only when the
   * error came after the completion block, in which case the result is the
   * tripled input text: result and message are exclusive except there.
   */
  ghost predicate WellFormed(j: Job)
  {
    match j.status
    case Pending => j.result == None && j.message == None
    case Running => j.result == None && j.message == None
    case Completed =>
      && j.message == None
      && TextKey in j.inputData
      && j.result == Some(Triple(j.inputData[TextKey]))
    case Failed =>
      && j.message.Some?
      && (j.result.Some? ==> TextKey in j.inputData && j.result == Some(Triple(j.inputData[TextKey])))
  }

  // ---------------------------------------------------------------------
  // The work step: the input text three times, separated by single spaces
  // ---------------------------------------------------------------------

  /** `r` is `t`, a space, `t`, a space, `t`, described position by position. */
  ghost predicate IsTripled(r: string, t: string)
  {
    var n := |t|;
    && |r| == 3 * n + 2
    && r[..n] == t
    && r[n] == ' '
    && r[n + 1 .. 2 * n + 1] == t
    && r[2 * n + 1] == ' '
    && r[2 * n + 2 ..] == t
  }

  function Triple(t: string): (r: string)
    ensures IsTripled(r, t)
  {
    t + " " + t + " " + t
  }

  /** The description IsTripled leaves no freedom: it determines the text. */
  lemma TripleUnique(r: string, t: string)
    requires IsTripled(r, t)
    ensures r == Triple(t)
  {
  }

  /** Different inputs never produce the same result. */
  lemma TripleInjective(a: string, b: string)
    requires Triple(a) == Triple(b)
    ensures a == b
  {
  }

  /** Reference definition: `n` copies of `t`, joined by single spaces. */
  function Repeat(t: string, n: nat): string
    requires n >= 1
    decreases n
  {
    if n == 1 then t else t + " " + Repeat(t, n - 1)
  }

  /** The worker's result is the input text repeated three times. */
  lemma TripleIsRepeat(t: string)
    ensures Triple(t) == Repeat(t, 3)
  {
  }

  // ---------------------------------------------------------------------
  // Job ids and failure messages
  // ---------------------------------------------------------------------

  /** What `uuid.uuid4().hex` yields: 32 lower-case hexadecimal digits. */
  predicate IsUuidHex(h: string)
  {
    |h| == 32 && forall i :: 0 <= i < |h| ==> h[i] in "0123456789abcdef"
  }

  /** `job_` followed by the first 12 hex digits of a uuid. */
  function JobIdFor(uuidHex: string): (id: JobId)
    requires IsUuidHex(uuidHex)
    ensures |id| == 16 && id[..4] == "job_"
    ensures forall i :: 4 <= i < 16 ==> id[i] in "0123456789abcdef"
  {
    "job_" + uuidHex[..12]
  }

  /** Message stored when the worker's guarded block raised an error with text `error`. */
  function FailureMessage(jobId: JobId, error: string): string
  {
    "Job " + jobId + " failed unexpectedly: " + error
  }

  // ---------------------------------------------------------------------
  // The whole worker run on one record
  // ---------------------------------------------------------------------

  /**
   * Where the worker raises, if it does: nowhere; in the log line it starts
   * with, before its first locked block, so that the error escapes and
   * nothing is stored; or inside its guarded block, in the work before the
   * completion block or in the log line after that block. `error` is the
   * text of an error the guarded block catches.
   */
  datatype Raise =
    | NoRaise
    | RaiseAtStart
    | RaiseBeforeCompletion(error: string)
    | RaiseAfterCompletion(error: string)

  /** The record after the worker for `jobId` has run, on the path `raise` selects. */
  function Processed(j: Job, jobId: JobId, raise: Raise): Job
    requires TextKey in j.inputData
  {
    var completed := Succeeded(Started(j), Triple(j.inputData[TextKey]));
    match raise
    case NoRaise => completed
    case RaiseAtStart => j
    case RaiseBeforeCompletion(e) => FailedWith(Started(j), FailureMessage(jobId, e))
    case RaiseAfterCompletion(e) => FailedWith(completed, FailureMessage(jobId, e))
  }

  /**
   * A worker run on a pending job keeps the record well-formed. When it
   * raises at its start the job stays pending for good; otherwise it ends in
   * a terminal record: completed with the tripled text when nothing raises,
   * failed with the message when the guarded block raises. The result is
   * kept beside the message exactly when the error came after the
   * completion block.
   */
  lemma ProcessedFromPending(j: Job, jobId: JobId, raise: Raise)
    requires WellFormed(j) && j.status == Pending && TextKey in j.inputData
    ensures var p := Processed(j, jobId, raise);
      && WellFormed(p)
      && p.inputData == j.inputData
      && p.identifierFromPurchaser == j.identifierFromPurchaser
      && (p == j <==> raise == RaiseAtStart)
      && (raise != RaiseAtStart ==>
            p.status.IsTerminal() && p.status.Rank() > Started(j).status.Rank() > j.status.Rank())
      && (raise == NoRaise <==> p.status == Completed)
      && (p.result.Some? <==> raise.NoRaise? || raise.RaiseAfterCompletion?)
      && (p.result.Some? ==> p.result == Some(Triple(j.inputData[TextKey])))
      && (p.message.Some? <==> raise.RaiseBeforeCompletion? || raise.RaiseAfterCompletion?)
      && (raise.RaiseBeforeCompletion? || raise.RaiseAfterCompletion? ==>
            p.message == Some(FailureMessage(jobId, raise.error)))
      && (p.result.Some? && p.message.Some? <==> raise.RaiseAfterCompletion?)
  {
  }

  /**
   * Nothing in the worker checks the status it finds: run again on a failed
   * job it stores "completed" next to the stored message. The invariant
   * rests on each job's worker being dispatched exactly once.
   */
  lemma ReprocessingFailedJob(j: Job, jobId: JobId)
    requires WellFormed(j) && j.status == Failed && TextKey in j.inputData
    ensures var p := Processed(j, jobId, NoRaise);
      p.result.Some? && p.message.Some? && !WellFormed(p)
  {
  }
}
