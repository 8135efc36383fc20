/**
 * The echo agent's in-memory job registry: a table from job id to job record,
 * updated in place. Each method that writes the table is one block the
 * service runs while holding its lock, so each is one atomic update here.
 */
module EchoAgent {
  import opened Wrappers
  import opened Jobs

  /** What job creation hands back: the new id and the input's fingerprint. */
  datatype JobInfo = JobInfo(jobId: JobId, inputHash: string)

  class EchoAgentService {
    var jobs: map<JobId, Job>

    /** Every stored record satisfies the record invariant. */
    ghost predicate Valid()
      reads this
    {
      forall id :: id in jobs ==> WellFormed(jobs[id])
    }

    constructor ()
      ensures jobs == map[]
      ensures Valid()
    {
      jobs := map[];
    }

    /**
     * Stores a pending record for a new job. The uuid the service draws is
     * the parameter `uuidHex`, and the fingerprint (a hash of the input's
     * key-sorted serialisation) is the parameter `fingerprint`. Nothing
     * checks that the id is new: an entry already stored under it is
     * replaced.
     */
    method StartNewJob(identifierFromPurchaser: string, inputData: Input,
                       uuidHex: string, fingerprint: Input -> string)
      returns (info: JobInfo)
      requires IsUuidHex(uuidHex)
      modifies this
      ensures info.jobId == JobIdFor(uuidHex) && info.inputHash == fingerprint(inputData)
      ensures jobs == old(jobs)[info.jobId := NewJob(identifierFromPurchaser, inputData)]
      ensures old(Valid()) ==> Valid()
    {
      var jobId := JobIdFor(uuidHex);
      var inputHash := fingerprint(inputData);
      jobs := jobs[jobId := NewJob(identifierFromPurchaser, inputData)];
      info := JobInfo(jobId, inputHash);
    }

    /** First locked block of the worker: mark running and read the text. */
    method MarkRunning(jobId: JobId) returns (text: string)
      requires jobId in jobs && TextKey in jobs[jobId].inputData
      modifies this
      ensures text == old(jobs[jobId].inputData[TextKey])
      ensures jobs == old(jobs)[jobId := Started(old(jobs[jobId]))]
      ensures old(Valid()) && old(jobs[jobId].status) == Pending ==> Valid()
    {
      jobs := jobs[jobId := Started(jobs[jobId])];
      text := jobs[jobId].inputData[TextKey];
    }

    /** Locked block of the success path. */
    method MarkCompleted(jobId: JobId, resultText: string)
      requires jobId in jobs
      modifies this
      ensures jobs == old(jobs)[jobId := Succeeded(old(jobs[jobId]), resultText)]
      ensures old(Valid()) && old(jobs[jobId].status) == Running
              && TextKey in old(jobs[jobId]).inputData
              && resultText == Triple(old(jobs[jobId]).inputData[TextKey])
              ==> Valid()
    {
      jobs := jobs[jobId := Succeeded(jobs[jobId], resultText)];
    }

    /**
     * Locked block of the error handler. It runs on a running record when
     * the work raised, and on a completed one when the log line after the
     * completion block raised.
     */
    method MarkFailed(jobId: JobId, errorMessage: string)
      requires jobId in jobs
      modifies this
      ensures jobs == old(jobs)[jobId := FailedWith(old(jobs[jobId]), errorMessage)]
      ensures old(Valid()) && old(jobs[jobId].status) in {Running, Completed} ==> Valid()
    {
      jobs := jobs[jobId := FailedWith(jobs[jobId], errorMessage)];
    }

    /**
     * The background worker for one job. `raise` selects the path: nothing
     * raises; the log line at the start raises, and the worker stops before
     * its first locked block; the work raises before the completion block;
     * or the log line after the completion block raises. The wait is not
     * modelled.
     */
    method ProcessJob(jobId: JobId, raise: Raise)
      requires jobId in jobs && TextKey in jobs[jobId].inputData
      modifies this
      ensures jobs == old(jobs)[jobId := Processed(old(jobs[jobId]), jobId, raise)]
      ensures old(Valid()) && old(jobs[jobId].status) == Pending ==> Valid()
    {
      if raise == RaiseAtStart {
        return;
      }
      var text := MarkRunning(jobId);
      match raise {
        case NoRaise =>
          var resultText := Triple(text);
          MarkCompleted(jobId, resultText);
        case RaiseBeforeCompletion(e) =>
          var errorMessage := FailureMessage(jobId, e);
          MarkFailed(jobId, errorMessage);
        case RaiseAfterCompletion(e) =>
          var resultText := Triple(text);
          MarkCompleted(jobId, resultText);
          var errorMessage := FailureMessage(jobId, e);
          MarkFailed(jobId, errorMessage);
      }
    }

    /**
     * A copy, taken under the lock, of the record stored under `jobId`, or
     * `None` for an id never stored.
     */
    function GetJobStatus(jobId: JobId): (r: Option<Job>)
      reads this
      ensures r.Some? <==> jobId in jobs
      ensures r.Some? ==> r.value == jobs[jobId]
      ensures r.Some? && Valid() ==> WellFormed(r.value)
    {
      if jobId in jobs then Some(jobs[jobId]) else None
    }
  }

  /**
   * A buyer submits "hi": the record is pending right after creation, the
   * worker leaves it completed with "hi hi hi", and an unknown id is not found.
   */
  method EchoHiScenario(uuidHex: string, fingerprint: Input -> string)
    returns (before: Option<Job>, after: Option<Job>, unknown: Option<Job>)
    requires IsUuidHex(uuidHex)
    ensures before == Some(Job(Pending, map[TextKey := "hi"], "buyer1", None, None))
    ensures after == Some(Job(Completed, map[TextKey := "hi"], "buyer1", Some("hi hi hi"), None))
    ensures unknown == None
  {
    var agent := new EchoAgentService();
    var info := agent.StartNewJob("buyer1", map[TextKey := "hi"], uuidHex, fingerprint);
    before := agent.GetJobStatus(info.jobId);
    agent.ProcessJob(info.jobId, NoRaise);
    assert Triple("hi") == "hi hi hi";
    after := agent.GetJobStatus(info.jobId);
    assert |"nonexistent"| != |info.jobId|;
    unknown := agent.GetJobStatus("nonexistent");
  }
}
