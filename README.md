# Echo agent job registry, modelled in Dafny

The echo agent accepts a text, stores a job for it, and a background worker
later writes back the text repeated three times, separated by single spaces.
Its core is `EchoAgentService`: an in-memory table from job id to a record
with `status`, `input_data`, `identifier_from_purchaser`, `result` and
`message`. Every write to the table, and every lookup in it, happens inside
one `with self.lock:` block. The lookup hands out the stored record itself,
which callers then read outside the lock.

The model has four modules:

- `Wrappers` (`wrappers.dfy`): `Option`, standing for Python's `None` or a value.
- `Jobs` (`jobs.dfy`): the job record and its status lifecycle
  pending → running → completed | failed, as pure functions.
  - `WellFormed` is the record invariant. Any result is the tripled input
    text. Pending and running records have neither result nor message. A
    completed record has a result and no message. A failed record has a
    message; it keeps a result only when the error was raised after the
    completion block, by the log line at echo_agent_service.py:62, which sits
    inside the guarded block.
  - `Triple` is the work step. It is characterised position by position and
    proved equal to a general "n copies joined by spaces" definition.
  - Also here: the job id format, the failure message, and `Processed`, the
    whole worker run on one record. `Raise` says where the worker raises,
    if it does: nowhere, at its start before any locked block, or inside its
    guarded block before or after the completion block.
- `EchoAgent` (`service.dfy`): the class `EchoAgentService`. Its field
  `jobs: map<JobId, Job>` is updated in place.
  - Each locked block is one method: `StartNewJob`, `MarkRunning`,
    `MarkCompleted`, `MarkFailed`.
  - `ProcessJob` is the worker. It composes the three worker blocks.
  - `GetJobStatus` is the read-only lookup.
  - `EchoHiScenario` is a client that runs the "hi" example end to end.
- `Interleaving` (`interleaving.dfy`): the table under any interleaving of
  the locked blocks of many jobs. Each step is one atomic update. Lemmas by
  induction show that every interleaving keeps every record well-formed,
  that a status only moves forward, that input and purchaser never change,
  that a stored result never changes, that a failed record is frozen, and
  that steps of other jobs leave an entry untouched.

Inputs from outside the program are parameters:
- `uuidHex` stands for the uuid the service draws.
- `fingerprint` stands for MD5 of the key-sorted JSON of the input.
- `raise` selects the worker's path: `NoRaise`, `RaiseAtStart`,
  `RaiseBeforeCompletion(e)` or `RaiseAfterCompletion(e)`, where `e` is the
  error's text.

## Model

| member | source | states |
|---|---|---|
| `EchoAgent.EchoAgentService.constructor` | echo_agent_service.py:33-36 | the service starts with an empty job table, which trivially satisfies the record invariant |
| `EchoAgent.EchoAgentService.StartNewJob` | echo_agent_service.py:71-85 | returns id `job_` + first 12 uuid hex digits and the input's fingerprint; the table's entry under that id becomes the pending record with no result and no message, holding the given input and purchaser id (replacing any record already there); every other entry is unchanged; the invariant is kept |
| `EchoAgent.EchoAgentService.MarkRunning` | echo_agent_service.py:45-49 | the job's status becomes running and nothing else in the table changes; returns the job's `text_input`; from a pending job the invariant is kept |
| `EchoAgent.EchoAgentService.MarkCompleted` | echo_agent_service.py:59-61 | the job becomes completed with the given result; no other field or entry changes; from a running job with the tripled text as result the invariant is kept |
| `EchoAgent.EchoAgentService.MarkFailed` | echo_agent_service.py:64-68 | the job becomes failed with the given message; the result and every other entry stay as they were; from a running or a completed job the invariant is kept |
| `EchoAgent.EchoAgentService.ProcessJob` | echo_agent_service.py:38-69 | needs the job stored and its input holding `text_input` (both are read outside the error handling); runs the locked blocks on the path `raise` selects: none when the log line at line 43 raises, otherwise running then completed, failed, or completed then failed; only that entry changes, to the worker-run record `Processed`; started on a pending job it keeps the invariant |
| `EchoAgent.EchoAgentService.GetJobStatus` | echo_agent_service.py:87-90 | returns a record exactly when the id is stored, and then the stored record; reads without writing; a record copied from a valid table under the lock is well-formed |
| `EchoAgent.EchoHiScenario` | echo_agent_service.py:38-90 | for purchaser "buyer1" and text "hi": pending with no result right after creation, then completed with result "hi hi hi" and no message; an unknown id gives None |
| `Jobs.Triple` | echo_agent_service.py:56 | the result has length 3\|t\|+2 and is t, a space, t, a space, t, each part at its position |
| `Jobs.TripleUnique` | echo_agent_service.py:56 | any string matching that positional description is the tripled text, so the description is complete |
| `Jobs.TripleInjective` | echo_agent_service.py:56 | two inputs with the same tripled result are the same input |
| `Jobs.TripleIsRepeat` | echo_agent_service.py:56 | the tripled text equals the general definition of three copies joined by single spaces |
| `Jobs.JobIdFor` | echo_agent_service.py:73 | a job id is 16 characters: `job_` followed by 12 lower-case hex digits |
| `Jobs.ProcessedFromPending` | echo_agent_service.py:38-68 | a worker run on a pending job keeps the invariant and leaves input and purchaser unchanged; it leaves the record exactly as it was precisely when it raises at line 43, and otherwise ends terminal, passing through running: completed with the tripled text and no message when nothing raises; otherwise failed with "Job {id} failed unexpectedly: {e}"; it keeps the tripled text as result beside the message exactly when the error came after the completion block |
| `Jobs.ReprocessingFailedJob` | echo_agent_service.py:45-68 | the worker does not check the status it finds: a second run on a failed job leaves both result and message set, so the invariant depends on one dispatch per job |
| `Interleaving.ApplyFrame` | echo_agent_service.py:45-84 | one locked block adds or rewrites only its own job's entry and never removes an entry |
| `Interleaving.ApplyPreservesWellFormed` | echo_agent_service.py:45-84 | one enabled locked block keeps every record well-formed |
| `Interleaving.RunPreservesWellFormed` | echo_agent_service.py:45-84 | every interleaving of enabled locked blocks keeps every record well-formed, so a record copied under the lock never shows a result beside "pending" or "running", and shows a result beside a message only when failed after completion |
| `Interleaving.RunMovesForward` | echo_agent_service.py:45-84 | under every interleaving, starting from a well-formed table: a stored job stays stored; its status never moves backwards; input and purchaser never change; a stored result never changes; a failed record never changes again; a completed one can only become failed |
| `Interleaving.RunFramesOthers` | echo_agent_service.py:45-84 | steps for other jobs leave a job's entry exactly as it was, or absent |
| `Interleaving.WorkerStepsProcess` | echo_agent_service.py:38-68 | on a pending job the worker's locked blocks for each `raise` path (none at all when line 43 raises), run back to back, are enabled and give the same record as `ProcessJob` |
| `Interleaving.RunFirst` | echo_agent_service.py:45-84 | running one enabled locked block and then a legal rest is a legal run of the whole sequence, with the same final table |

## Left out

- `threading.Lock` and real concurrency. Each `with self.lock:` block is one atomic update. `Interleaving` covers any order of those updates across jobs.
- `time.sleep(2)` and the `print` calls as output. Errors the prints can raise (a closed standard output, say) are modelled where they change the table:
  - an error from the print at echo_agent_service.py:43 escapes before the first locked block, so the job stays pending and is never processed, since its worker is dispatched once (main.py:76); this is `RaiseAtStart`;
  - the print at line 62 sits inside the guarded block, so its error is `RaiseAfterCompletion`;
  - an error from the print at line 69 escapes after the failed record is stored and changes nothing, so it is not a separate path.
- `uuid.uuid4()`. The caller supplies the 32 hex digits.
- StartNewJob: does not promise a new id. The id keeps only 12 hex digits (48 random bits) and nothing checks it, so on a collision line 78 replaces the stored record, as the contract says.
- RunMovesForward, RunPreservesWellFormed, ApplyPreservesWellFormed: assume job ids never collide, because creation is enabled only for a fresh id. After a collision the source breaks these promises. The new record goes back to pending. If the old job's worker is still running, its lines 60-61 then write the old text's tripled result into the new record.
- `json.dumps(..., sort_keys=True)` and MD5. Together they are the function parameter `fingerprint`, so the model keeps only that the hash is a deterministic function of the input.
- The cause of the worker's error. The work step cannot raise one as written, so the `raise` parameter chooses the path and, where the error is caught and stored, carries its text.
- `ProcessJob`: does not model a missing `text_input`. In the source, the status is already "running" when the lookup at line 49 raises, and the error escapes to the caller. The model requires the key instead, because the HTTP layer rejects such input before creating a job (main.py:72).
- `ProcessJob`: does not model an unknown job id, which raises at line 46 before any change. It is required instead, because the worker is only scheduled for an id just created.
- Values of `input_data` are modelled as strings. The source formats the `text_input` value with `str()`, whatever its type. Other values are passed through untouched.
- GetJobStatus: returns a copy of the record, taken under the lock. The source returns the stored dict itself and releases the lock, and main.py:95-98 reads it afterwards. Such a reader can see a later update half done: "completed" with no result yet (between lines 60 and 61), or "running" and then a result when reading field by field. The "a record copied under the lock" clauses above do not cover such reads. The stored `input_data` dict is likewise shared with the caller. Aliasing is not modelled.
- The constants `AGENT_IDENTIFIER`, `SELLER_VKEY` and `INPUT_SCHEMA` (echo_agent_service.py:12-24) are not modelled, except that `Jobs.TextKey` is the id of `INPUT_SCHEMA`'s one field.
- All of main.py is outside the model. That covers the HTTP endpoints, response models, timestamps and the blockchain identifier.
