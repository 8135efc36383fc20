/**
 * The job table under any interleaving of the service's locked blocks. Each
 * step is one block run while holding the lock: creating a job, or one of the
 * worker's updates for one job. Steps of different jobs may interleave in
 * any order; each job's worker is dispatched once, right after its creation,
 * so its first step finds the job pending, its completion step finds it
 * running, and its error handler finds it running or, when the log line after
 * completion raised, completed. Job ids are assumed never to collide.
 */
module Interleaving {
  import opened Wrappers
  import opened Jobs

  type Store = map<JobId, Job>

  datatype Step =
    | Create(jobId: JobId, identifierFromPurchaser: string, inputData: Input)
    | Begin(jobId: JobId)
    | Complete(jobId: JobId)
    | Fail(jobId: JobId, error: string)

  /**
   * Whether `step` may run on `s`: creation needs a fresh id, the worker's
   * first block a pending job with text to echo, its completion block a
   * running job, and its error handler a running or completed job.
   */
  predicate Enabled(s: Store, step: Step)
  {
    match step
    case Create(id, _, _) => id !in s
    case Begin(id) => id in s && s[id].status == Pending && TextKey in s[id].inputData
    case Complete(id) => id in s && s[id].status == Running && TextKey in s[id].inputData
    case Fail(id, _) => id in s && (s[id].status == Running || s[id].status == Completed)
  }

  /** The table after one locked block. */
  function Apply(s: Store, step: Step): Store
    requires Enabled(s, step)
  {
    match step
    case Create(id, who, input) => s[id := NewJob(who, input)]
    case Begin(id) => s[id := Started(s[id])]
    case Complete(id) => s[id := Succeeded(s[id], Triple(s[id].inputData[TextKey]))]
    case Fail(id, e) => s[id := FailedWith(s[id], FailureMessage(id, e))]
  }

  /** Every step of `steps` is enabled when its turn comes. */
  predicate Legal(s: Store, steps: seq<Step>)
    decreases |steps|
  {
    steps == [] || (Enabled(s, steps[0]) && Legal(Apply(s, steps[0]), steps[1..]))
  }

  function Run(s: Store, steps: seq<Step>): Store
    requires Legal(s, steps)
    decreases |steps|
  {
    if steps == [] then s else Run(Apply(s, steps[0]), steps[1..])
  }

  ghost predicate AllWellFormed(s: Store)
  {
    forall id :: id in s ==> WellFormed(s[id])
  }

  /** The worker's locked blocks for one job, on the path `raise` selects. */
  function WorkerSteps(jobId: JobId, raise: Raise): seq<Step>
  {
    match raise
    case NoRaise => [Begin(jobId), Complete(jobId)]
    case RaiseAtStart => []
    case RaiseBeforeCompletion(e) => [Begin(jobId), Fail(jobId, e)]
    case RaiseAfterCompletion(e) => [Begin(jobId), Complete(jobId), Fail(jobId, e)]
  }

  /** A step touches only its own job's entry, and never removes an entry. */
  lemma ApplyFrame(s: Store, step: Step)
    requires Enabled(s, step)
    ensures Apply(s, step).Keys == s.Keys + {step.jobId}
    ensures forall id :: id in s && id != step.jobId ==> Apply(s, step)[id] == s[id]
  {
  }

  lemma ApplyPreservesWellFormed(s: Store, step: Step)
    requires AllWellFormed(s) && Enabled(s, step)
    ensures AllWellFormed(Apply(s, step))
  {
  }

  /** Under every interleaving, every record stays well-formed. */
  lemma {:induction false} RunPreservesWellFormed(s: Store, steps: seq<Step>)
    requires AllWellFormed(s) && Legal(s, steps)
    ensures AllWellFormed(Run(s, steps))
    decreases |steps|
  {
    if steps != [] {
      ApplyPreservesWellFormed(s, steps[0]);
      RunPreservesWellFormed(Apply(s, steps[0]), steps[1..]);
    }
  }

  /**
   * Under every interleaving, a stored job stays stored, its status never
   * moves backwards, its input and purchaser identifier never change, a
   * result once stored never changes, and a failed record never changes
   * again. A completed record can still become failed, keeping its result.
   */
  lemma {:induction false} RunMovesForward(s: Store, steps: seq<Step>, id: JobId)
    requires AllWellFormed(s) && Legal(s, steps) && id in s
    ensures id in Run(s, steps)
    ensures Run(s, steps)[id].status.Rank() >= s[id].status.Rank()
    ensures Run(s, steps)[id].inputData == s[id].inputData
    ensures Run(s, steps)[id].identifierFromPurchaser == s[id].identifierFromPurchaser
    ensures s[id].result.Some? ==> Run(s, steps)[id].result == s[id].result
    ensures s[id].status == Failed ==> Run(s, steps)[id] == s[id]
    ensures s[id].status == Completed ==> Run(s, steps)[id].status.IsTerminal()
    decreases |steps|
  {
    if steps != [] {
      ApplyFrame(s, steps[0]);
      ApplyPreservesWellFormed(s, steps[0]);
      RunMovesForward(Apply(s, steps[0]), steps[1..], id);
    }
  }

  /** Steps of other jobs leave an entry exactly as it was, or absent. */
  lemma {:induction false} RunFramesOthers(s: Store, steps: seq<Step>, id: JobId)
    requires Legal(s, steps)
    requires forall i :: 0 <= i < |steps| ==> steps[i].jobId != id
    ensures id in Run(s, steps) <==> id in s
    ensures id in s ==> Run(s, steps)[id] == s[id]
    decreases |steps|
  {
    if steps != [] {
      ApplyFrame(s, steps[0]);
      RunFramesOthers(Apply(s, steps[0]), steps[1..], id);
    }
  }

  /** Running a first step, then the rest, is running the whole sequence. */
  lemma RunFirst(s: Store, step: Step, rest: seq<Step>)
    requires Enabled(s, step) && Legal(Apply(s, step), rest)
    ensures Legal(s, [step] + rest)
    ensures Run(s, [step] + rest) == Run(Apply(s, step), rest)
  {
    assert ([step] + rest)[0] == step;
    assert ([step] + rest)[1..] == rest;
  }

  /**
   * The worker's locked blocks, run back to back on a pending job, are
   * enabled and have the effect of one worker run on that record.
   */
  lemma WorkerStepsProcess(s: Store, jobId: JobId, raise: Raise)
    requires jobId in s && s[jobId].status == Pending && TextKey in s[jobId].inputData
    ensures Legal(s, WorkerSteps(jobId, raise))
    ensures Run(s, WorkerSteps(jobId, raise)) == s[jobId := Processed(s[jobId], jobId, raise)]
  {
    var j := s[jobId];
    var s1 := Apply(s, Begin(jobId));
    assert s1 == s[jobId := Started(j)];
    var s2 := Apply(s1, Complete(jobId));
    assert s2 == s[jobId := Succeeded(Started(j), Triple(j.inputData[TextKey]))];
    match raise
    case RaiseAtStart =>
      assert s[jobId := j] == s;
    case NoRaise =>
      RunFirst(s1, Complete(jobId), []);
      RunFirst(s, Begin(jobId), [Complete(jobId)]);
      assert [Begin(jobId)] + [Complete(jobId)] == WorkerSteps(jobId, raise);
    case RaiseBeforeCompletion(e) =>
      RunFirst(s1, Fail(jobId, e), []);
      RunFirst(s, Begin(jobId), [Fail(jobId, e)]);
      assert [Begin(jobId)] + [Fail(jobId, e)] == WorkerSteps(jobId, raise);
    case RaiseAfterCompletion(e) =>
      RunFirst(s2, Fail(jobId, e), []);
      RunFirst(s1, Complete(jobId), [Fail(jobId, e)]);
      RunFirst(s, Begin(jobId), [Complete(jobId), Fail(jobId, e)]);
      assert [Begin(jobId)] + [Complete(jobId), Fail(jobId, e)] == WorkerSteps(jobId, raise);
  }
}
