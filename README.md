# Marlin worker: record schema and in-memory Moray store

This project models two parts of the Marlin job engine's worker and proves
properties about them.

- **The record schema** (`lib/schema.js`). These are the JSON Schema
  (draft-03) literals that describe a Moray *job* record (its phases, input
  keys, state and output key lists) and a *task group* record (its phase,
  phase number, state and per-task results).
- **`MockMoray`** (`lib/worker/moray.js`). This is the in-memory stand-in for
  the Moray metadata store. It has:
  - buckets of JSON records;
  - a per-job table of outstanding operations, which allows one save, assign
    or list per job at a time;
  - two rate-limit guards, one for the "find unassigned jobs" poll and one for
    the task-group watch poll;
  - a batched task-group write;
  - a round-robin `mantaLocate`.

## Structure

- `wrappers.dfy` (`Wrappers`): `Option`, `Result` and `Outcome`.
- `json.dfy` (`JsonValue`): JSON values, property lookup, and JavaScript
  truthiness of a looked-up property.
- `draft03.dfy` (`Draft03`): the subset of draft-03 that the schema uses, as
  an interpreter `Conforms(schema, value, isDateTime)`. The subset covers:
  - `type`;
  - `properties`, with additional properties allowed;
  - `items`;
  - boolean `required`;
  - `minimum`;
  - `minItems`;
  - `enum`;
  - `format: date-time`.

  The `date-time` format check is a parameter: a predicate on strings.
- `schema.dfy` (`Schema`):
  - one constant per schema literal, mirroring the source field for field;
  - typed records `Job`, `Phase`, `TaskGroup`, `TaskResult` and `Error`, with
    absent optional fields as `Option`;
  - the predicates `ValidJob`, `ValidTaskGroup`, `ValidTaskResult` and
    `ValidPhase`;
  - decoders and encoders between JSON and records.

  The main theorems say that a JSON value conforms to a schema literal exactly
  when it decodes to a record that satisfies the matching `Valid...`
  predicate. Encoding and then decoding gives back the same record.
- `moray.dfy` (`Moray`): the class `MockMoray`. Each request that the source
  completes in a `setTimeout` callback becomes two methods:
  - `X`, which runs when the request is made;
  - `XComplete`, the callback.

  Pending find, watch and batch callbacks are kept in sequences, oldest
  first. Pending job operations (save, assign, list) are kept in a map keyed
  by job id, and the caller completes them in any order. The clock is the
  argument `now`, in milliseconds. `Valid()` is the class invariant:
  - each poll guard is single-flight;
  - a pending callback that captured a bucket still finds that bucket;
  - pending task-group batches have string ids.

The `phase.type` enum follows the code, `{generic, storage-map}`
(`lib/schema.js:53`), even though reduce phases are used elsewhere in the
system. `Schema.ReducePhaseRejected` and `Schema.JobWithReducePhaseRejected`
prove that a job with a `reduce` phase does not conform.

Where the code and its comments disagree, the model follows the code. The
one exception is the `tooRecent` defect under "## Findings". The class uses
the corrected `TooRecent`, and `TooRecentAsWritten` keeps the code as
written.
`watchTaskGroups` is documented as calling back only when groups are found,
but it always calls back, possibly with an empty list.

## Model

| member | source | states |
|---|---|---|
| `Schema.ValidJob` | lib/schema.js:88-112 | What the job literal demands beyond types: at least one phase, every phase valid, at least one input key, a date-time `createTime`, `state` in the enum, and a date-time `finishTime` when present. Its contract adds two consequences: no phase of a valid job has type `reduce`, and `state` is `queued`, `running` or `done`. |
| `Schema.ValidTaskGroup` | lib/schema.js:117-154 | What the task-group literal demands beyond types: at least one input key, a valid `phase` when present, `phaseNum` ≥ 0, `state` in the enum, and every result valid. Its contract adds two consequences: the phase is never of type `reduce`, and every result is `ok` or `fail`. |
| `Schema.StringArrayConformance` | lib/schema.js:28-37 | A value conforms to `sStringArray` or `sStringArrayRequired` iff it is an array of strings. It conforms to `sInputKeys` iff it is such an array with at least one element. |
| `Schema.PhaseConformance` | lib/schema.js:48-59 | A value conforms to `sJobPhase` iff it decodes to a `Phase` whose `type`, when present, is `generic` or `storage-map`. `exec` is a required string, `assets` is an optional string array and `uarg` is an optional object. |
| `Schema.PhasesConformance` | lib/schema.js:61-66 | A value conforms to `sJobPhases` iff it is an array of at least one element and every element decodes to a valid phase. |
| `Schema.ErrorConformance` | lib/schema.js:77-83 | A value conforms to `sError` iff it is an object whose `code` and `message` are strings. |
| `Schema.TaskResultProperties` | lib/schema.js:134-151 | A task result object conforms iff each of its nine declared properties conforms. |
| `Schema.TaskResultConformance` | lib/schema.js:134-151 | A value conforms to the task-result item schema iff it decodes to a `TaskResult` that satisfies `ValidTaskResult`. `ValidTaskResult` requires `result` ∈ {ok, fail} and the date-time format on `startTime` and `doneTime`. |
| `Schema.ResultsConformance` | lib/schema.js:131-152 | `results` conforms iff it is an array (possibly empty) of valid task results. |
| `Schema.PhaseNumProperty` | lib/schema.js:39-43 | `phaseNum` conforms iff it is present and is an integer ≥ 0. |
| `Schema.TaskGroupProperties` | lib/schema.js:117-154 | A task group object conforms iff each of its eight declared properties conforms. |
| `Schema.TaskGroupConformance` | lib/schema.js:117-154 | A value conforms to `sMorayTaskGroup` iff it decodes to a `TaskGroup` that satisfies `ValidTaskGroup`. |
| `Schema.JobProperties` | lib/schema.js:88-112 | A job object conforms iff each of its eleven declared properties conforms. |
| `Schema.JobConformance` | lib/schema.js:88-112 | A value conforms to `sMorayJob` iff it decodes to a `Job` that satisfies `ValidJob`. |
| `Schema.ArrayRoundTrip` | lib/schema.js:28-37 | When each element round-trips, decoding an encoded array gives back the same sequence. |
| `Schema.StringsRoundTrip` | lib/schema.js:28-37 | Decoding an encoded string array gives back the same strings. |
| `Schema.PhaseRoundTrip` | lib/schema.js:48-59 | `DecodePhase(EncodePhase(p)) == Some(p)`. |
| `Schema.TaskResultRoundTrip` | lib/schema.js:134-151 | `DecodeTaskResult(EncodeTaskResult(r)) == Some(r)`. |
| `Schema.TaskGroupRoundTrip` | lib/schema.js:117-154 | `DecodeTaskGroup(EncodeTaskGroup(g)) == Some(g)`. |
| `Schema.JobRoundTrip` | lib/schema.js:88-112 | `DecodeJob(EncodeJob(j)) == Some(j)`. |
| `Schema.EncodedJobConforms` | lib/schema.js:88-112 | An encoded job conforms to `sMorayJob` iff the job satisfies `ValidJob`. |
| `Schema.EncodedTaskGroupConforms` | lib/schema.js:117-154 | An encoded task group conforms to `sMorayTaskGroup` iff the group satisfies `ValidTaskGroup`. |
| `Schema.ConformingJobShape` | lib/schema.js:61-73 | In a conforming job, `phases` is present with at least one element, and every phase is an object with a string `exec`. `inputKeys` is a string array with at least one element. |
| `Schema.ConformingJobFields` | lib/schema.js:92-110 | In a conforming job:<br>• `jobId`, `jobName` and `createTime` are strings.<br>• `createTime` has the date-time format.<br>• `state` ∈ {queued, running, done}.<br>• `doneKeys`, `outputKeys` and `discardedKeys` are string arrays.<br>• `finishTime` and `worker` are strings when present. |
| `Schema.ReducePhaseRejected` | lib/schema.js:51-54 | A phase object whose `type` is `"reduce"` does not conform to `sJobPhase`. |
| `Schema.JobWithReducePhaseRejected` | lib/schema.js:51-54 | A job that has any phase of type `reduce` encodes to a value that does not conform to `sMorayJob`. |
| `Schema.UntypedPhaseAccepted` | lib/schema.js:51-54 | A phase without a `type` always conforms, so the field is optional. |
| `Schema.ConformingTaskGroupFields` | lib/schema.js:120-152 | In a conforming task group:<br>• `jobId`, `taskGroupId` and `host` are strings.<br>• `inputKeys` is a nonempty string array.<br>• `phase`, when present, conforms.<br>• `phaseNum` is an integer ≥ 0.<br>• `state` ∈ {dispatched, running, done}.<br>• `results` is an array of conforming task results. |
| `Schema.ConformingTaskResultFields` | lib/schema.js:137-149 | In a conforming task result:<br>• `input` is a string.<br>• `outputs` is a string array.<br>• `result` ∈ {ok, fail}.<br>• `error`, when present, has string `code` and `message`. |
| `Schema.EmptyResultsAccepted` | lib/schema.js:131-133 | A valid task group with no results conforms, so `results` may be empty. |
| `Schema.ErrorIndependentOfResult` | lib/schema.js:140-149 | The schema does not tie `error` to `result`. A result `ok` with an error conforms, and so does a result `fail` without one. |
| `Moray.RequestDelay` | lib/worker/moray.js:40-48 | A validated `requestDelay` is used as given. The default is 100. |
| `Moray.TooRecent` | lib/worker/moray.js:111-122 | The corrected guard. It is true whenever a request is outstanding. When it is false, no request is outstanding and at least `interval` ms have passed since the last completion, if there was one. |
| `Moray.TooRecentAsWritten` | lib/worker/moray.js:111-122 | `tooRecent` as written. A failure (the TypeError) happens only when a request has started and none has completed. Whenever it returns a value, that value equals `TooRecent`. |
| `Moray.TooRecentAsWrittenDiffers` | lib/worker/moray.js:111-122 | `tooRecent` as written throws exactly when a request has started and none has completed. Otherwise it equals `TooRecent`, which reports an outstanding request or a completion less than `interval` ms ago. |
| `Moray.SecondPollWhileFirstInFlight` | lib/worker/moray.js:111-122 | Polling while the first request is still in flight throws as written, but is "too recent" under the corrected guard. |
| `Moray.CoolingDown` | lib/worker/moray.js:117-121 | With nothing outstanding, a poll is throttled exactly while `now < done + interval`. |
| `Moray.Collect` | lib/worker/moray.js:102-105 | The `forEachKey` filter loop returns each matching key exactly once, together with the record stored under it. |
| `Moray.StoreGroupsAt` | lib/worker/moray.js:200-204 | After a batch save:<br>• each id holds the last group in the batch with that id;<br>• every other key keeps its old record;<br>• no other key appears. |
| `Moray.SavedBatchListed` | lib/worker/moray.js:162-208 | Take a bucket that holds none of a job's groups. Save a batch of that job's groups with distinct ids, then list the job's groups. The result is exactly the batch's ids, each holding its group. |
| `Moray.GetAfterPut` | lib/worker/moray.js:265-283 | `get` after `put` returns the object that was put. Every other bucket and key is unchanged, and `put` creates a missing bucket. |
| `Moray.MantaLocate` | lib/worker/moray.js:250-258 | The loop builds `Located(keys)`: each key in turn is mapped to `['node' + (i mod 3)]`. |
| `Moray.LocatedAt` | lib/worker/moray.js:255-257 | Every key is located. A key that does not occur again later is on node `i mod 3`, where `i` is its position. |
| `Moray.LocatedKeys` | lib/worker/moray.js:252-257 | The located keys are exactly the keys given. |
| `Moray.MockMoray.constructor` | lib/worker/moray.js:33-78 | The constructor:<br>• sets the delay (default 100);<br>• floors both intervals;<br>• stores both bucket names;<br>• starts with no buckets, no outstanding operations, no guard timestamps and no pending callbacks. |
| `Moray.MockMoray.FindUnassignedJobs` | lib/worker/moray.js:90-99 | The request is issued iff `TooRecent` is false. An issued request records `now` as the start and queues a callback that remembers whether the jobs bucket existed. A throttled call changes nothing. With an interval ≥ 1, at most one find is pending. |
| `Moray.MockMoray.FindUnassignedJobsComplete` | lib/worker/moray.js:101-108 | The callback returns exactly the jobs whose `worker` is falsy, or none if the bucket was missing at the start. It then records `now` as the done time. |
| `Moray.MockMoray.SaveJob` | lib/worker/moray.js:130-141 | The save fails if `jobId` is not a string, or if the job already has an outstanding operation; the operation table is then unchanged. Otherwise it adds exactly one `save` entry. This is stated as `SaveOutcome`. |
| `Moray.MockMoray.SaveJobComplete` | lib/worker/moray.js:143-148 | The job is stored under its id in the jobs bucket and the operation is cleared. All other records are unchanged. If the bucket did not exist at the start, the write fails and nothing changes. |
| `Moray.MockMoray.AssignJob` | lib/worker/moray.js:154-157 | Its contract is the same `SaveOutcome` as `SaveJob`: there is no test-and-set. |
| `Moray.MockMoray.ListTaskGroups` | lib/worker/moray.js:162-171 | The list fails if the job already has an outstanding operation. Otherwise it records a `list` operation. |
| `Moray.MockMoray.ListTaskGroupsComplete` | lib/worker/moray.js:173-186 | The callback clears the operation and returns exactly the stored groups whose `jobId` equals the argument. |
| `Moray.MockMoray.SaveTaskGroups` | lib/worker/moray.js:192-197 | Creates the task-groups bucket if it is missing and queues the batch. The operation table is not touched. |
| `Moray.MockMoray.SaveTaskGroupsComplete` | lib/worker/moray.js:200-207 | The task-groups bucket becomes `StoreGroups(old bucket, batch)`. Every other bucket is unchanged. |
| `Moray.MockMoray.WatchTaskGroups` | lib/worker/moray.js:219-228 | Same shape as the find request, with its own guard. With an interval ≥ 1, at most one watch is pending. |
| `Moray.MockMoray.WatchTaskGroupsComplete` | lib/worker/moray.js:230-243 | The callback returns exactly the groups whose `jobId` and `phaseNum` match, possibly none. It then records `now` as the done time. |
| `Moray.MockMoray.Put` | lib/worker/moray.js:265-272 | The buckets become `PutRecord(old buckets, bucket, key, obj)`. |
| `Moray.MockMoray.Get` | lib/worker/moray.js:277-283 | Returns `GetRecord(buckets, bucket, key)`: the stored record, or `None` when the bucket or the key is missing. With `Put` and `Moray.GetAfterPut`, `get` after `put` returns the object that was put. |
| `Moray.MockMoray.List` | lib/worker/moray.js:288-294 | Returns no keys when the bucket is missing. Otherwise it returns each of the bucket's keys exactly once. |

## Left out

- `restify` (lib/worker/moray.js:296-339): this is HTTP route wiring over `get`, `list` and `put`.
- Logging: `mm_log`, and the `log` argument with its type assertion.
- `Moray.MockMoray.constructor` requires a valid `requestDelay`: either absent, or a non-negative integer. The source asserts this at lib/worker/moray.js:40-43 and throws an AssertionError otherwise, so no store is created. A Dafny constructor cannot fail, so that error path is left out. The `typeof` assertions on the other arguments (lib/worker/moray.js:36-39) hold by the types of `Args`.
- `Moray.MockMoray.ListTaskGroups` takes `jobId` as a string, so the `typeof jobid` assertion at lib/worker/moray.js:167 always holds, and its failure path is not modelled.
- `setTimeout` latency and its ordering. Pending find and watch callbacks and pending task-group batches complete oldest first, and the caller chooses which kind runs next. Job operations (save, assign, list) complete in any order the caller picks. In the source every timer has the same `mm_delay`, so all callbacks fire in the order their requests started. The model therefore allows more interleavings than the source does. The value of `requestDelay` is stored but plays no further part.
- `Moray.MockMoray.FindUnassignedJobsComplete` and `Moray.MockMoray.WatchTaskGroupsComplete` require `now` to be no earlier than the pending request's start: the clock is assumed never to go back. The source reads the wall clock (lib/worker/moray.js:99, 107, 228, 242). If that clock stepped back while a request was in flight, the done time would be earlier than the start time. `tooRecent` would then report "ongoing" forever and that poll would never issue again. The model excludes this stall, and the single-flight invariant in `Valid()` relies on the assumption.
- `EventEmitter`. The `job` events of a find are returned as a sequence.
- Re-entrant calls from inside a callback are not modelled. The source runs the `job` listeners (lib/worker/moray.js:102-105) before it sets `mm_find_done`, and runs `ontaskgroups(rv)` (lib/worker/moray.js:241) before it sets `mm_tg_done` (line 242). A find or watch started from inside those callbacks therefore still sees the old done time. The model records the done time and returns the results in one step.
- The `date-time` format. It is a predicate passed in as a parameter.
- Loose `!=` in the filters (lib/worker/moray.js:179, 234-235). The model compares `jobId` with a string and `phaseNum` with a number strictly, so a `"1"` vs `1` coercion is not modelled.
- JavaScript property lookup through the prototype chain. Two cases are not modelled:
  - `get` of a key such as `constructor`;
  - property access on a `null` record, which throws. A string, number, boolean or array record gives `undefined` for `worker`, `jobId` and `phaseNum`, and `Member` returns `None` for it, as the source does.
- Key order of `forEachKey` and `Object.keys`. Results are stated as "each matching key exactly once" in some order.
- `deepCopy` and aliasing. Records are values, so later mutation of a saved object by its caller is not modelled.
- NaN and infinite numbers. Numbers are reals.
- `Moray.MockMoray.SaveTaskGroups` requires every group to have a string `taskGroupId`. The source would coerce any other value to a property key.
- `Moray.MockMoray.FindUnassignedJobs`: the single-flight bound holds only for an interval ≥ 1. With an interval ≤ 0, a request started in the same millisecond as the last completion is not seen as outstanding.
- The store never validates records against the schema, and the model does not claim it does.
- Phase chaining, task dispatch and the coordinator that drives jobs: `test/live/jobs.js` is not part of this model.

## Findings

| source | as written | input that shows it | evidently intended | confidence | as-written member | corrected member |
|---|---|---|---|---|---|---|
| lib/worker/moray.js:113 | `start && start.getTime() > done.getTime()` dereferences `done` even when no request has completed yet. | Call `findUnassignedJobs` (or `watchTaskGroups`) twice before the first callback runs. The second `tooRecent` sees `start` set and `done` undefined, and throws a TypeError. | A request in flight with no completion recorded counts as outstanding, so the call is "too recent". | not executed | `Moray.TooRecentAsWritten` (exhibited by `Moray.SecondPollWhileFirstInFlight`) | `Moray.TooRecent`, used by `Moray.MockMoray.FindUnassignedJobs` and `Moray.MockMoray.WatchTaskGroups`; single-flight proved as `Moray.MockMoray.Valid` |
