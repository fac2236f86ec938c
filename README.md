# nukiRestfulBLE: the job dispatcher and the configuration helpers

This project models two parts of a REST server that drives Nuki smart locks
over Bluetooth Low Energy:

- **The job queue** (`job_queue.py`). Every device operation goes through one
  dispatcher. The dispatcher takes job records from a FIFO queue one at a time,
  runs each one, and fulfils that job's future with either its result or its
  exception. `start` and `stop` flip a pair of lifecycle flags.
  `submit_job` appends a record and returns a pending future.
  - Module `Jobs` (`jobs.dfy`) describes the queue as a `State` with one
    function per atomic transition: `StartStep`, `StopStep`, `SubmitStep`,
    `TakeStep` and `FinishStep`.
  - `TakeStep` is the stop-flag test plus `get()`. `FinishStep` runs the job
    and fulfils its future.
  - These two are separate transitions because the dispatcher awaits the job
    between them. Other callers may start, stop or submit meanwhile.
  - Lemmas about runs (a run is a sequence of `Op`s applied by `Replay`) prove
    the lifecycle invariant, FIFO order, exactly-once fulfilment, failure
    isolation, and that the stop flag is only read between jobs.
  - The class `Jobs.JobQueue` holds the implementation's fields
    (`isRunning`, `stopFlag`, `queue`, plus the futures) and makes these same
    transitions in place. Each method's postcondition ties its new state to
    the transition function applied to the old state.
- **The configuration and paired-device helpers** (`restserver.py`). Module
  `RestServer` (`restserver.dfy`) covers:
  - `sync_dictionaries`, which reconciles a loaded configuration with the
    default key set;
  - `replace_or_add_entry_by_address`, a case-insensitive upsert comparing
    upper-cased addresses;
  - the paired-device lookup, which compares lower-cased addresses;
  - the name/id update of `update_and_save_device_info`;
  - the `unpair` filter, which compares addresses exactly;
  - the candidate filter of `scan`.

  The three address comparisons stay separate, as the source writes them
  (`CaseRule`). `Text.FoldsAgree` shows that the upper-case and lower-case
  comparisons agree under ASCII case mapping. `RestServer.UnpairIsCaseSensitive`
  shows that the exact comparison really differs: an entry the lookup finds
  can still be refused by `unpair`.

A job's `Work` is tagged `Sync` or `Async`. An `Async` body is an arbitrary
function from the positional and keyword arguments to a `Completion` (a
returned value or a raised exception). A `Sync` body gets the positional
arguments only, because `run_in_executor` passes no keyword arguments: a sync
job submitted with keyword arguments fails with `KeywordsRejected` without its
body running (`Jobs.Run`, `Jobs.SyncKeywordsFail`).

Points of the source's behaviour that the model keeps:

- The lifecycle is the two flags `isRunning` and `stopFlag`, always opposite.
- Submitting before the first `start` fails: `self.__loop` is still `None`, so
  handing the record to the event loop raises. This is `SubmitStep`'s
  `NoEventLoop` error.
- Submitting after `stop` does not fail.
- `stop` adds no wake-up for the dispatcher, and it neither drains nor fails
  the queued jobs.
- Jobs still queued at `stop` are neither run nor failed. They stay pending
  (`QueuedStayPendingWhileStopped`).

## Model

| member | source | states |
|---|---|---|
| `Jobs.Settle` | job_queue.py:25-27 | the future gets exactly one of a result or an exception, never stays pending, and is resolved with the returned value exactly when the body returned, failed with the raised exception otherwise |
| `Jobs.Run` | job_queue.py:19-27 | the future never stays pending; an async job gets its body's outcome on all arguments; a sync job with keyword arguments fails with the executor's refusal; a sync job without gets its body's outcome on the positional arguments |
| `Jobs.Init` | job_queue.py:8-13 | a fresh queue is not running, has its stop flag set, has no event loop yet, holds no jobs or futures, starts numbering futures at 0, and satisfies the invariant |
| `Jobs.SubmitBeforeStartFails` | job_queue.py:8-55 | before the first `start`, any run of the other operations leaves a fresh queue unchanged, and a submission is refused with `NoEventLoop` and changes nothing |
| `Jobs.StartStep` | job_queue.py:29-34 | afterwards the queue is running; when it already ran nothing changes, otherwise the stop flag is cleared; jobs and futures are untouched |
| `Jobs.StopStep` | job_queue.py:38-43 | afterwards the queue is not running; when it was not running nothing changes, otherwise the stop flag is set; the event loop survives, so later submissions still succeed; queued and in-flight jobs and the future counter are untouched |
| `Jobs.SubmitStep` | job_queue.py:52-55 | with no event loop yet the submission fails and changes nothing; otherwise it returns a new pending future, appends exactly one record carrying it at the tail, advances the future counter by one and leaves the lifecycle flags, the event loop and the in-flight record as they were |
| `Jobs.TakeStep` | job_queue.py:16-17 | between jobs, with the stop flag clear and a record waiting, the head record becomes the one in flight and leaves the queue, with futures, flags, event loop and future counter unchanged; otherwise nothing changes |
| `Jobs.FinishStep` | job_queue.py:19-27 | the in-flight record's future, and only it, receives that job's outcome as `Run` defines it (including the keyword refusal of sync jobs), whatever the stop flag says; nothing is in flight afterwards; queue, flags, event loop and future counter are unchanged |
| `Jobs.ApplyKeepsInv` | job_queue.py:15-55 | every transition keeps the invariant: flags opposite, queued and in-flight futures pending, queue in submission order, futures numbered densely |
| `Jobs.ReplayKeepsInv` | job_queue.py:15-55 | any run from a valid state ends in a valid state |
| `Jobs.FlagsStayOpposite` | job_queue.py:29-43 | after any sequence of operations from a fresh queue, `isRunning == !stopFlag` |
| `Jobs.LifecycleIdempotent` | job_queue.py:29-43 | a second `start`, or a second `stop`, has no effect |
| `Jobs.SubmitAppendsOne` | job_queue.py:52-55 | a submission hands out a future that did not exist and is pending, appends one record at the tail and changes no earlier record or future |
| `Jobs.TakeIsOldest` | job_queue.py:16-17 | the record taken is the oldest waiting one |
| `Jobs.TakenInSubmissionOrder` | job_queue.py:15-17 | along any run, records are taken in strictly increasing submission order, each at most once, none older than what was waiting at the start |
| `Jobs.SettledIsFinal` | job_queue.py:19-27 | a fulfilled future is never written again, whatever follows |
| `Jobs.InFlightIsFulfilled` | job_queue.py:15-27 | whatever stops, starts or submissions happen while a job is in flight, the next finishing step fulfils its future with its own outcome, and that value stays |
| `Jobs.QueuedStayPendingWhileStopped` | job_queue.py:15-17 | after stop, until a new start, queued records are neither run, dropped nor failed: they stay at the front of the queue, pending |
| `Jobs.DispatchIteration` | job_queue.py:16-27 | one uninterrupted loop iteration removes the head record and writes its outcome into its future alone |
| `Jobs.DrainedSettlesEach` | job_queue.py:15-27 | an uninterrupted dispatcher run empties a running queue and fulfils each queued future with its own job's outcome regardless of the others' failures; other futures are unchanged |
| `Jobs.ThreeJobScenario` | job_queue.py:15-27 | jobs A (returns 1), B (raises "boom"), C (returns 3) submitted back to back end with futures 1, the error, 3 |
| `Jobs.SyncKeywordsFail` | job_queue.py:20-27 | a sync job submitted with keyword arguments ends failed with the executor's refusal whatever its body, while an async job with the same arguments gets its body's outcome |
| `Jobs.JobQueue.constructor` | job_queue.py:8-13 | a new queue object is the fresh state: not running, stop flag set, empty queue |
| `Jobs.JobQueue.Start` | job_queue.py:29-36 | the object's new state is `StartStep` of its old state; it is running with the stop flag clear |
| `Jobs.JobQueue.Stop` | job_queue.py:38-44 | the object's new state is `StopStep` of its old state; it is stopped with the stop flag set |
| `Jobs.JobQueue.Submit` | job_queue.py:52-55 | the new state and the result are `SubmitStep`'s; on success the future is new and pending and the queue grew by exactly that record |
| `Jobs.JobQueue.BeginJob` | job_queue.py:16-17 | the new state is `TakeStep` of the old; it reports whether a record was taken |
| `Jobs.JobQueue.FinishJob` | job_queue.py:19-27 | runs the async branch, or the sync branch with its keyword refusal, and fulfils the future: the new state is `FinishStep` of the old |
| `Jobs.JobQueue.DispatchStep` | job_queue.py:16-27 | one loop iteration; reports the future it fulfilled, which is the old head's and is no longer pending |
| `Jobs.JobQueue.RunDispatcher` | job_queue.py:15-27 | the `while not stopFlag` loop, run until the queue is empty; its final state is `Drained` of the initial one |
| `Text.FoldsAgree` | restserver.py:612 | under ASCII case mapping, upper-cased equality and lower-cased equality accept the same address pairs |
| `RestServer.DefaultConfig` | restserver.py:561-575 | a default configuration has exactly the seven default keys, an empty paired-device list and the given app id |
| `RestServer.Synced` | restserver.py:599-608 | the reconciled dictionary has the reference's key set, keeps the target's value on shared keys and takes the reference's value on missing ones |
| `RestServer.SyncDictionaries` | restserver.py:599-608 | the comprehension plus the loop over reference keys computes `Synced`: the reference's key set, target values kept, missing keys filled from the reference |
| `RestServer.SyncedIdempotent` | restserver.py:599-608 | reconciling twice gives the same dictionary as reconciling once |
| `RestServer.SyncedKeepsConforming` | restserver.py:599-608 | a target with exactly the reference's keys is returned unchanged |
| `RestServer.LoadedConfigHasDefaultKeys` | restserver.py:587 | any loaded configuration, reconciled against a default one, has exactly the default keys and keeps its own paired-device list |
| `RestServer.FirstMatch` | restserver.py:611-614 | returns the first position whose address matches under the given comparison, and none exactly when no position matches |
| `RestServer.ReplaceOrAddEntryByAddress` | restserver.py:610-618 | the loop returns `Upserted`: the first case-insensitive match replaced, or the entry appended |
| `RestServer.UpsertReplacesFirstMatch` | restserver.py:611-614 | when an entry matches ignoring case, the first one is replaced by the new entry, the length is unchanged and every other position is untouched |
| `RestServer.UpsertAppendsWhenAbsent` | restserver.py:616-618 | when none matches, the new entry is appended after the unchanged old entries and the length grows by one |
| `RestServer.UpsertIdempotent` | restserver.py:610-618 | upserting the same entry twice gives the same list as upserting it once |
| `RestServer.FindPairedDevice` | restserver.py:624-630 | a missing or empty address is refused; one with no lower-cased match is refused as not paired; a matching address returns the first lower-cased match (the same lookup is at restserver.py:639-645) |
| `RestServer.UpdateDeviceInfo` | restserver.py:620-633 | fails exactly when the lookup fails, with the same error; otherwise only the first lower-cased match changes, getting the new name and id, with its address and other keys kept and the length unchanged |
| `RestServer.WithAddress` | restserver.py:237 | holds exactly the entries whose address equals the given one exactly |
| `RestServer.WithoutAddress` | restserver.py:242 | holds exactly the entries whose address differs; with `WithAddress` it partitions the list by length |
| `RestServer.WithoutAddressAppend` | restserver.py:242 | the filter keeps order: filtering a concatenation concatenates the filtered parts |
| `RestServer.WithoutAbsentAddress` | restserver.py:242 | a list with no entry of that address passes through unchanged |
| `RestServer.Unpair` | restserver.py:234-242 | a missing address is refused; one no entry has exactly is refused as not paired; otherwise the result is the order-preserving filter `WithoutAddress`: exactly the entries with other addresses remain, and the list shrinks |
| `RestServer.UnpairIsCaseSensitive` | restserver.py:237 | an entry paired in lower case is found by the lookup yet refused by unpair given the upper-case spelling |
| `RestServer.Candidates` | restserver.py:286-290 | a device is among the candidates exactly when it is a scanned device that passes the Nuki test |
| `RestServer.CandidatesAppend` | restserver.py:286-290 | candidates keep discovery order: those of a concatenation are the concatenation of those of the parts |
| `RestServer.CandidateIff` | restserver.py:288 | the Nuki test holds exactly when the name starts with "Nuki" or the upper-cased address starts with "52:D2:72:" |
| `RestServer.ScanCandidates` | restserver.py:286-290 | the loop of `scan` collects exactly `Candidates` of the scanned devices |

## Left out

- Python 3.10 or later queue semantics are assumed throughout: the
  `asyncio.Queue` binds to the first event loop that waits on it. On Python
  3.8 and 3.9 the queue created in `__init__` (job_queue.py:9) binds to the
  main thread's loop instead, and the dispatcher's first `get()` on an empty
  queue raises `RuntimeError` outside the `try`, even before any restart.
- Threads and event loops (job_queue.py:35-36, 47-50). `threading.Thread`,
  `new_event_loop`, `run_until_complete`, `run_coroutine_threadsafe`,
  `wrap_future` and `run_in_executor` are not modelled. Each transition is
  atomic, and cross-thread delivery of a record is an atomic append. No claim
  is made about mutual exclusion between real threads.
- Sync/async classification is the datatype tag `Work`, not
  `iscoroutinefunction`. The executor's thread pool is not modelled: a sync
  body runs atomically on its positional arguments. The executor's only
  visible effect kept is its refusal of keyword arguments.
- `join` in `stop` is modelled only as the flag change. The blocking `get()` on
  an empty queue is modelled as "nothing happens". The model therefore does
  not show that `stop` can hang while the queue is empty. It also does not
  show that a job submitted during that hang would still be run.
- Submitting after `stop` has returned from `join` (job_queue.py:44): the
  source schedules the `put` on the event loop that `self.__loop` still names,
  which no longer runs. The record never reaches the queue. (While `stop` is
  still waiting for the job in flight, the first loop runs and the record does
  reach the queue, as in the model.) A later `start` builds a new loop
  (job_queue.py:35, 48), so that submitter's future stays pending for good. The model instead appends
  the record to `queue`; it stays pending while stopped, but it is taken and
  run after the next `Start`. The model is therefore more generous than the
  source for jobs submitted while stopped.
- Restarting after `stop`: the source makes a new thread and event loop, while
  the `asyncio.Queue` stays bound to the first loop. The restarted dispatcher's first `get()` on an empty queue therefore raises
  `RuntimeError` outside the `try` (job_queue.py:17). That ends the
  dispatcher, so after a restart nothing submitted once the queue has run empty
  is ever run. The model resumes the same queue and keeps dispatching,
  including records submitted while stopped, which the source never runs.
- Submitting right after `start`, before the worker thread has assigned the
  event loop, is a race that is not modelled.
- Exceptions outside `Exception`, such as cancellation, escape the dispatcher in
  the source. The model has no cancellation and no such exceptions. A failing
  `set_result` on a cancelled future is not modelled either.
- Flask routes, Swagger configuration, request and JSON parsing, and HTTP
  status mapping (restserver.py:18-96, 121-201, 297-559) are framework glue.
  Only the filters taken from them are modelled. The two refusals of `unpair`
  are the `Err` results of `Unpair`.
- BLE and Nuki protocol calls (BleakScanner, NukiDevice, connect, pair, lock,
  unlock, update_state) and `async_get_registered_devices` are not modelled.
  They are calls into libraries whose behaviour the model cannot see.
  `async_get_paired_device` is modelled only up to its lookup.
- `DefaultConfig`: key generation and the random app id (restserver.py:563-569)
  are parameters. Only the key set is used, as the reference of
  `sync_dictionaries`.
- `load_config` and `save_config` (restserver.py:577-597) are file I/O and are
  not modelled. This includes the save at the end of
  `update_and_save_device_info`.
- `Synced`: dictionary key order is not modelled. Maps are unordered; the
  source's result lists the target's keys first and then the added reference
  keys.
- `UpdateDeviceInfo` and `ReplaceOrAddEntryByAddress` return new lists. The
  source mutates the shared list and dictionary in place, so callers holding
  the matched entry see the update. That aliasing is not modelled.
- Case mapping covers ASCII characters only. Python's `upper()` and `lower()`
  follow full Unicode. MAC addresses are ASCII.
- Every paired entry is assumed to have a string address (pairing always
  writes one). In the source, an entry without one makes `.upper()` and
  `.lower()` raise. A request address is a string or absent; other JSON types
  are not modelled.
