/**
 * The in-memory Moray store of lib/worker/moray.js (MockMoray), which the
 * worker uses in place of the real metadata store.
 *
 * Every request in the source does its work in a `setTimeout` callback.
 * Here each one is split in two: `X` is what runs when the caller makes the
 * request, and `XComplete` is the callback, run later by the event loop.
 * The callbacks not yet run are kept in the `pending...` fields, oldest
 * first, and in the per-job operation table, which the caller completes in
 * any order.  Clock readings (`new Date()`,
 * `Date.now()`) are the argument `now`, in milliseconds.
 */
module Moray {
  import opened Wrappers
  import opened JsonValue

  type Bucket = map<string, Json>

  /*
   * Constructor arguments
   */

  /** The constructor's arguments, typed as its assertions demand (the logger is not modelled). */
  datatype Args = Args(
    findInterval: real,
    taskGroupInterval: real,
    jobsBucket: string,
    taskGroupsBucket: string,
    requestDelay: Option<real>)

  const DefaultRequestDelay: nat := 100

  /** `requestDelay`, when given, must be a non-negative integer. */
  predicate ValidRequestDelay(d: Option<real>)
  {
    d.None? || (d.value.Floor as real == d.value && d.value >= 0.0)
  }

  function RequestDelay(d: Option<real>): (r: nat)
    requires ValidRequestDelay(d)
    ensures d.None? ==> r == DefaultRequestDelay
    ensures d.Some? ==> r as real == d.value
  {
    if d.None? then DefaultRequestDelay else d.value.Floor
  }

  /*
   * Request guards for the two polling requests (find and task-group watch)
   */

  /** A request started after the last one completed (or none has completed yet). */
  predicate Outstanding(start: Option<nat>, done: Option<nat>)
  {
    start.Some? && (done.None? || start.value > done.value)
  }

  /** `tooRecent`, with the first request still in flight counted as outstanding. */
  predicate TooRecent(start: Option<nat>, done: Option<nat>, interval: int, now: nat)
    ensures Outstanding(start, done) ==> TooRecent(start, done, interval, now)
    ensures !TooRecent(start, done, interval, now) ==> done.None? || now >= done.value + interval
  {
    Outstanding(start, done) || (done.Some? && now - done.value < interval)
  }

  /** `tooRecent` as written: `done.getTime()` throws while `done` is still undefined. */
  function TooRecentAsWritten(start: Option<nat>, done: Option<nat>, interval: int, now: nat): (r: Result<bool, string>)
    ensures r.Failure? ==> start.Some? && done.None?
    ensures r.Success? ==> r.value == TooRecent(start, done, interval, now)
  {
    if start.Some? && done.None? then Failure("TypeError: done is undefined")
    else if start.Some? && start.value > done.value then Success(true)
    else if done.Some? && now - done.value < interval then Success(true)
    else Success(false)
  }

  /**
   * The two agree except in one case: a request has started and none has
   * completed, where the source throws instead of reporting "too recent".
   */
  lemma TooRecentAsWrittenDiffers(start: Option<nat>, done: Option<nat>, interval: int, now: nat)
    ensures TooRecentAsWritten(start, done, interval, now).Failure? <==> start.Some? && done.None?
    ensures TooRecentAsWritten(start, done, interval, now).Success? ==>
      TooRecentAsWritten(start, done, interval, now).value == TooRecent(start, done, interval, now)
    ensures start.Some? && done.None? ==> TooRecent(start, done, interval, now)
  {
  }

  /**
   * Polling after the first request has started but before it has completed:
   * the source throws, where the guard is meant to say "too recent".
   */
  lemma SecondPollWhileFirstInFlight(started: nat, interval: int, now: nat)
    ensures TooRecentAsWritten(Some(started), None, interval, now).Failure?
    ensures TooRecent(Some(started), None, interval, now)
  {
  }

  /** Once no request is outstanding, polling is throttled exactly until `interval` ms after the last completion. */
  lemma CoolingDown(start: Option<nat>, done: nat, interval: int, now: nat)
    requires !Outstanding(start, Some(done))
    ensures TooRecent(start, Some(done), interval, now) <==> now < done + interval
  {
  }

  /**
   * The single-flight invariant of a guard: with an interval of at least one
   * millisecond, at most `1` callback is pending, and one is pending exactly
   * when the timestamps say a request is outstanding.
   */
  predicate SingleFlight(start: Option<nat>, done: Option<nat>, interval: int, count: nat, oldestStart: nat)
  {
    interval >= 1 ==>
      && count <= 1
      && (count == 1 <==> Outstanding(start, done))
      && (count == 1 ==> start == Some(oldestStart))
  }

  /*
   * Filtered reads over a bucket (the `forEachKey` loops)
   */

  /** Which records a read keeps. */
  datatype Query =
    | UnassignedJobs                        // findUnassignedJobs: `worker` is falsy
    | GroupsOfJob(jobId: string)            // listTaskGroups
    | GroupsOfPhase(jobId: string, phaseNum: int)  // watchTaskGroups
    | AllRecords                            // list

  predicate Matches(q: Query, v: Json)
  {
    match q
    case UnassignedJobs => !Truthy(Member(v, "worker"))
    case GroupsOfJob(id) => Member(v, "jobId") == Some(JStr(id))
    case GroupsOfPhase(id, n) => Member(v, "jobId") == Some(JStr(id)) && Member(v, "phaseNum") == Some(JNum(n as real))
    case AllRecords => true
  }

  function Selected(bucket: Bucket, q: Query): set<string>
  {
    set k | k in bucket && Matches(q, bucket[k])
  }

  /** `keys` lists each selected key once, in some order, and `records` the record stored under each. */
  ghost predicate Enumerates(bucket: Bucket, q: Query, keys: seq<string>, records: seq<Json>)
  {
    && |keys| == |records|
    && (forall i | 0 <= i < |keys| :: keys[i] in bucket && records[i] == bucket[keys[i]])
    && (forall i, j | 0 <= i < j < |keys| :: keys[i] != keys[j])
    && (forall k :: k in keys <==> k in Selected(bucket, q))
  }

  /** One pass over the keys of a bucket, keeping the records that match. */
  method Collect(bucket: Bucket, q: Query) returns (keys: seq<string>, records: seq<Json>)
    ensures Enumerates(bucket, q, keys, records)
  {
    keys, records := [], [];
    var rest := bucket.Keys;
    while rest != {}
      invariant rest <= bucket.Keys
      invariant |keys| == |records|
      invariant forall i | 0 <= i < |keys| :: keys[i] in bucket && keys[i] !in rest && records[i] == bucket[keys[i]]
      invariant forall i, j | 0 <= i < j < |keys| :: keys[i] != keys[j]
      invariant forall k :: k in keys <==> k in Selected(bucket, q) && k !in rest
      decreases rest
    {
      var k :| k in rest;
      if Matches(q, bucket[k]) {
        keys, records := keys + [k], records + [bucket[k]];
      }
      rest := rest - {k};
    }
  }

  /*
   * Batch write of task groups
   */

  predicate HasStringId(group: Json)
  {
    Member(group, "taskGroupId").Some? && Member(group, "taskGroupId").value.JStr?
  }

  predicate AllHaveStringIds(groups: seq<Json>)
  {
    forall i | 0 <= i < |groups| :: HasStringId(groups[i])
  }

  function GroupId(group: Json): string
    requires HasStringId(group)
  {
    Member(group, "taskGroupId").value.s
  }

  /** The bucket after `allgroups[group.taskGroupId] = group` for each group in turn. */
  function StoreGroups(bucket: Bucket, groups: seq<Json>): Bucket
    requires AllHaveStringIds(groups)
  {
    if groups == [] then bucket
    else
      var last := groups[|groups| - 1];
      StoreGroups(bucket, groups[..|groups| - 1])[GroupId(last) := last]
  }

  /** The last group of the batch with the given id. */
  function LastWithId(groups: seq<Json>, id: string): (r: Option<Json>)
    requires AllHaveStringIds(groups)
    ensures r.Some? ==> r.value in groups && HasStringId(r.value) && GroupId(r.value) == id
  {
    if groups == [] then None
    else
      var last := groups[|groups| - 1];
      if GroupId(last) == id then Some(last) else LastWithId(groups[..|groups| - 1], id)
  }

  /** Every group is stored under its id, a later group overwriting an earlier one; other keys keep their records. */
  lemma {:induction false} StoreGroupsAt(bucket: Bucket, groups: seq<Json>, id: string)
    requires AllHaveStringIds(groups)
    ensures id in StoreGroups(bucket, groups) <==> id in bucket || LastWithId(groups, id).Some?
    ensures LastWithId(groups, id).Some? ==> StoreGroups(bucket, groups)[id] == LastWithId(groups, id).value
    ensures LastWithId(groups, id).None? && id in bucket ==> StoreGroups(bucket, groups)[id] == bucket[id]
  {
    if groups != [] {
      StoreGroupsAt(bucket, groups[..|groups| - 1], id);
    }
  }

  /** With distinct ids, the last group with an id is the one at its index. */
  lemma {:induction false} LastWithDistinctId(groups: seq<Json>, i: nat)
    requires AllHaveStringIds(groups) && i < |groups|
    requires forall a, b | 0 <= a < b < |groups| :: GroupId(groups[a]) != GroupId(groups[b])
    ensures LastWithId(groups, GroupId(groups[i])) == Some(groups[i])
  {
    if i < |groups| - 1 {
      LastWithDistinctId(groups[..|groups| - 1], i);
    }
  }

  /**
   * Saving a batch of one job's groups with distinct ids, into a bucket that
   * holds none of that job's groups, and then listing the job's groups,
   * gives back exactly the batch: one key per group, each holding that group.
   */
  lemma SavedBatchListed(bucket: Bucket, groups: seq<Json>, jobId: string)
    requires AllHaveStringIds(groups)
    requires forall a, b | 0 <= a < b < |groups| :: GroupId(groups[a]) != GroupId(groups[b])
    requires forall i | 0 <= i < |groups| :: Matches(GroupsOfJob(jobId), groups[i])
    requires forall k | k in bucket :: !Matches(GroupsOfJob(jobId), bucket[k])
    ensures Selected(StoreGroups(bucket, groups), GroupsOfJob(jobId)) == set i | 0 <= i < |groups| :: GroupId(groups[i])
    ensures forall i | 0 <= i < |groups| ::
      GroupId(groups[i]) in StoreGroups(bucket, groups) && StoreGroups(bucket, groups)[GroupId(groups[i])] == groups[i]
  {
    var stored := StoreGroups(bucket, groups);
    var ids := set i | 0 <= i < |groups| :: GroupId(groups[i]);
    forall i | 0 <= i < |groups|
      ensures GroupId(groups[i]) in stored && stored[GroupId(groups[i])] == groups[i]
    {
      LastWithDistinctId(groups, i);
      StoreGroupsAt(bucket, groups, GroupId(groups[i]));
    }
    forall k | k in Selected(stored, GroupsOfJob(jobId))
      ensures k in ids
    {
      StoreGroupsAt(bucket, groups, k);
      assert LastWithId(groups, k).Some?;
      var g := LastWithId(groups, k).value;
      var i :| 0 <= i < |groups| && groups[i] == g;
      assert GroupId(groups[i]) == k;
    }
  }

  /*
   * Generic bucket access (put / get / list)
   */

  /** `put`: create the bucket if needed, then store `obj` under `key`. */
  function PutRecord(buckets: map<string, Bucket>, bucket: string, key: string, obj: Json): map<string, Bucket>
  {
    var b := if bucket in buckets then buckets[bucket] else map[];
    buckets[bucket := b[key := obj]]
  }

  /** `get`: undefined (None) unless the bucket exists and holds the key. */
  function GetRecord(buckets: map<string, Bucket>, bucket: string, key: string): Option<Json>
  {
    if bucket in buckets && key in buckets[bucket] then Some(buckets[bucket][key]) else None
  }

  /** `get` after `put` returns what was put and sees every other record as before. */
  lemma GetAfterPut(buckets: map<string, Bucket>, bucket: string, key: string, obj: Json, bucket': string, key': string)
    ensures GetRecord(PutRecord(buckets, bucket, key, obj), bucket, key) == Some(obj)
    ensures (bucket', key') != (bucket, key) ==>
      GetRecord(PutRecord(buckets, bucket, key, obj), bucket', key') == GetRecord(buckets, bucket', key')
    ensures PutRecord(buckets, bucket, key, obj).Keys == buckets.Keys + {bucket}
  {
  }

  /*
   * mantaLocate
   */

  function NodeName(n: nat): (r: string)
    requires n < 3
    ensures r == "node0" || r == "node1" || r == "node2"
  {
    "node" + [('0' as int + n) as char]
  }

  /** The map `mantaLocate` builds: each key in turn is given the node chosen round robin by its position. */
  function Located(keys: seq<string>): map<string, seq<string>>
  {
    if keys == [] then map[]
    else
      var n := |keys| - 1;
      Located(keys[..n])[keys[n] := [NodeName(n % 3)]]
  }

  /** mantaLocate: one node per key, round robin over `node0`, `node1`, `node2`. */
  method MantaLocate(keys: seq<string>) returns (rv: map<string, seq<string>>)
    ensures rv == Located(keys)
  {
    rv := map[];
    var i := 0;
    while i < |keys|
      invariant 0 <= i <= |keys|
      invariant rv == Located(keys[..i])
    {
      assert keys[..i + 1][..i] == keys[..i];
      rv := rv[keys[i] := [NodeName(i % 3)]];
      i := i + 1;
    }
    assert keys[..|keys|] == keys;
  }

  /**
   * Every key is located, and nothing else; a key is on the node of its last
   * position, so with distinct keys the i-th key is on node i mod 3.
   */
  lemma {:induction false} LocatedAt(keys: seq<string>, i: nat)
    requires i < |keys|
    ensures keys[i] in Located(keys)
    ensures keys[i] !in keys[i + 1..] ==> Located(keys)[keys[i]] == [NodeName(i % 3)]
  {
    var n := |keys| - 1;
    if i < n {
      LocatedAt(keys[..n], i);
      if keys[i] !in keys[i + 1..] {
        assert keys[n] == keys[i + 1..][n - i - 1];
        assert keys[..n][i + 1..] == keys[i + 1..][..n - i - 1];
      }
    }
  }

  /** The located keys are exactly the given keys. */
  lemma {:induction false} LocatedKeys(keys: seq<string>)
    ensures Located(keys).Keys == set i | 0 <= i < |keys| :: keys[i]
  {
    if keys != [] {
      var n := |keys| - 1;
      LocatedKeys(keys[..n]);
      assert (set i | 0 <= i < |keys| :: keys[i]) == (set i | 0 <= i < n :: keys[..n][i]) + {keys[n]};
    }
  }

  /*
   * The store
   */

  datatype FindRequest = FindRequest(start: nat, bucketExisted: bool)
  datatype WatchRequest = WatchRequest(jobId: string, phaseNum: int, start: nat, bucketExisted: bool)

  /** An entry of the per-job operation table; `assign` records a `save`. */
  datatype JobOp =
    | SaveOp(job: Json, start: nat, bucketExisted: bool)
    | ListOp(start: nat, bucketExisted: bool)

  /**
   * The outcome of `saveJob` (and so of `assignJob`): refused when `jobId` is
   * not a string or the job already has an outstanding operation, with the
   * operation table `ops'` unchanged from `ops`; otherwise exactly one `save`
   * entry is added.
   */
  predicate SaveOutcome(job: Json, now: nat, bucketExisted: bool,
                        ops: map<string, JobOp>, ops': map<string, JobOp>, r: Outcome<StoreError>)
  {
    var id := Member(job, "jobId");
    if !(id.Some? && id.value.JStr?) then r == Fail(JobIdNotString) && ops' == ops
    else if id.value.s in ops then r == Fail(OperationOutstanding(id.value.s)) && ops' == ops
    else r == Pass && ops' == ops[id.value.s := SaveOp(job, now, bucketExisted)]
  }

  datatype StoreError =
    | JobIdNotString                     // assertion: typeof (job.jobId) == 'string'
    | OperationOutstanding(jobId: string)  // assertion: no outstanding operation for the job
    | BucketMissing(bucket: string)      // TypeError: writing into an undefined bucket

  class MockMoray {
    const delay: nat
    const findInterval: int
    const tgInterval: int
    const jobsBucket: string
    const taskGroupsBucket: string

    var buckets: map<string, Bucket>
    var findStart: Option<nat>
    var findDone: Option<nat>
    var tgStart: Option<nat>
    var tgDone: Option<nat>
    var jobOps: map<string, JobOp>

    /** Callbacks scheduled and not yet run, oldest first. */
    var pendingFinds: seq<FindRequest>
    var pendingWatches: seq<WatchRequest>
    var pendingBatches: seq<seq<Json>>

    ghost predicate Valid()
      reads this
    {
      && SingleFlight(findStart, findDone, findInterval, |pendingFinds|,
                      if pendingFinds == [] then 0 else pendingFinds[0].start)
      && SingleFlight(tgStart, tgDone, tgInterval, |pendingWatches|,
                      if pendingWatches == [] then 0 else pendingWatches[0].start)
      && (forall i | 0 <= i < |pendingFinds| :: pendingFinds[i].bucketExisted ==> jobsBucket in buckets)
      && (forall i | 0 <= i < |pendingWatches| :: pendingWatches[i].bucketExisted ==> taskGroupsBucket in buckets)
      && (forall id | id in jobOps :: jobOps[id].bucketExisted ==> OpBucket(jobOps[id]) in buckets)
      && (pendingBatches != [] ==> taskGroupsBucket in buckets)
      && (forall i | 0 <= i < |pendingBatches| :: AllHaveStringIds(pendingBatches[i]))
    }

    /** The bucket an operation of the job table captured when it began. */
    function OpBucket(op: JobOp): string
    {
      if op.SaveOp? then jobsBucket else taskGroupsBucket
    }

    constructor (args: Args)
      requires ValidRequestDelay(args.requestDelay)
      ensures Valid()
      ensures delay == RequestDelay(args.requestDelay)
      ensures findInterval == args.findInterval.Floor && tgInterval == args.taskGroupInterval.Floor
      ensures jobsBucket == args.jobsBucket && taskGroupsBucket == args.taskGroupsBucket
      ensures buckets == map[] && jobOps == map[]
      ensures findStart == None && findDone == None && tgStart == None && tgDone == None
      ensures pendingFinds == [] && pendingWatches == [] && pendingBatches == []
    {
      delay := RequestDelay(args.requestDelay);
      buckets := map[];
      findStart, findDone := None, None;
      findInterval := args.findInterval.Floor;
      tgStart, tgDone := None, None;
      tgInterval := args.taskGroupInterval.Floor;
      jobsBucket := args.jobsBucket;
      taskGroupsBucket := args.taskGroupsBucket;
      jobOps := map[];
      pendingFinds, pendingWatches, pendingBatches := [], [], [];
    }

    /** findUnassignedJobs: start a find request unless the guard says it is too recent. */
    method FindUnassignedJobs(now: nat) returns (issued: bool)
      requires Valid()
      modifies this`findStart, this`pendingFinds
      ensures Valid()
      ensures issued == !TooRecent(old(findStart), findDone, findInterval, now)
      ensures issued ==>
        findStart == Some(now) && pendingFinds == old(pendingFinds) + [FindRequest(now, jobsBucket in buckets)]
      ensures !issued ==> findStart == old(findStart) && pendingFinds == old(pendingFinds)
      ensures findInterval >= 1 ==> |pendingFinds| <= 1 && (old(pendingFinds) != [] ==> !issued)
    {
      if TooRecent(findStart, findDone, findInterval, now) {
        return false;
      }
      findStart := Some(now);
      pendingFinds := pendingFinds + [FindRequest(now, jobsBucket in buckets)];
      issued := true;
    }

    /**
     * The find callback: the jobs of the jobs bucket (as captured when the
     * request began) whose `worker` is falsy, then the completion time.
     */
    method FindUnassignedJobsComplete(now: nat) returns (keys: seq<string>, jobs: seq<Json>)
      requires Valid() && pendingFinds != [] && now >= pendingFinds[0].start
      modifies this`findDone, this`pendingFinds
      ensures Valid()
      ensures findDone == Some(now) && pendingFinds == old(pendingFinds)[1..]
      ensures old(pendingFinds)[0].bucketExisted ==> Enumerates(buckets[jobsBucket], UnassignedJobs, keys, jobs)
      ensures !old(pendingFinds)[0].bucketExisted ==> keys == [] && jobs == []
    {
      var request := pendingFinds[0];
      if request.bucketExisted {
        keys, jobs := Collect(buckets[jobsBucket], UnassignedJobs);
      } else {
        keys, jobs := [], [];
      }
      findDone := Some(now);
      pendingFinds := pendingFinds[1..];
    }

    /**
     * saveJob: refuse a job whose `jobId` is not a string or that already has
     * an outstanding operation; otherwise record a `save` operation.
     */
    method SaveJob(job: Json, now: nat) returns (r: Outcome<StoreError>)
      requires Valid()
      modifies this`jobOps
      ensures Valid()
      ensures SaveOutcome(job, now, jobsBucket in buckets, old(jobOps), jobOps, r)
    {
      var id := Member(job, "jobId");
      if !(id.Some? && id.value.JStr?) {
        return Fail(JobIdNotString);
      }
      if id.value.s in jobOps {
        return Fail(OperationOutstanding(id.value.s));
      }
      jobOps := jobOps[id.value.s := SaveOp(job, now, jobsBucket in buckets)];
      r := Pass;
    }

    /**
     * The save callback: store the job under its id in the jobs bucket and
     * clear the operation.  If the jobs bucket did not exist when the save
     * began, the write throws and nothing changes.
     */
    method SaveJobComplete(jobId: string) returns (r: Outcome<StoreError>)
      requires Valid() && jobId in jobOps && jobOps[jobId].SaveOp?
      modifies this`buckets, this`jobOps
      ensures Valid()
      ensures old(jobOps[jobId]).bucketExisted ==>
        && r == Pass
        && jobOps == old(jobOps) - {jobId}
        && buckets == old(buckets)[jobsBucket := old(buckets)[jobsBucket][jobId := old(jobOps[jobId]).job]]
      ensures !old(jobOps[jobId]).bucketExisted ==>
        r == Fail(BucketMissing(jobsBucket)) && jobOps == old(jobOps) && buckets == old(buckets)
    {
      var op := jobOps[jobId];
      if !op.bucketExisted {
        return Fail(BucketMissing(jobsBucket));
      }
      buckets := buckets[jobsBucket := buckets[jobsBucket][jobId := op.job]];
      jobOps := jobOps - {jobId};
      r := Pass;
    }

    /** assignJob: the same as saveJob (the store performs no test-and-set). */
    method AssignJob(job: Json, now: nat) returns (r: Outcome<StoreError>)
      requires Valid()
      modifies this`jobOps
      ensures Valid()
      ensures SaveOutcome(job, now, jobsBucket in buckets, old(jobOps), jobOps, r)
    {
      r := SaveJob(job, now);
    }

    /** listTaskGroups: refuse a job with an outstanding operation; otherwise record a `list` operation. */
    method ListTaskGroups(jobId: string, now: nat) returns (r: Outcome<StoreError>)
      requires Valid()
      modifies this`jobOps
      ensures Valid()
      ensures jobId in old(jobOps) ==> r == Fail(OperationOutstanding(jobId)) && jobOps == old(jobOps)
      ensures jobId !in old(jobOps) ==>
        r == Pass && jobOps == old(jobOps)[jobId := ListOp(now, taskGroupsBucket in buckets)]
    {
      if jobId in jobOps {
        return Fail(OperationOutstanding(jobId));
      }
      jobOps := jobOps[jobId := ListOp(now, taskGroupsBucket in buckets)];
      r := Pass;
    }

    /** The list callback: clear the operation, then return the job's groups from the captured bucket. */
    method ListTaskGroupsComplete(jobId: string) returns (keys: seq<string>, groups: seq<Json>)
      requires Valid() && jobId in jobOps && jobOps[jobId].ListOp?
      modifies this`jobOps
      ensures Valid()
      ensures jobOps == old(jobOps) - {jobId}
      ensures old(jobOps[jobId]).bucketExisted ==> Enumerates(buckets[taskGroupsBucket], GroupsOfJob(jobId), keys, groups)
      ensures !old(jobOps[jobId]).bucketExisted ==> keys == [] && groups == []
    {
      var op := jobOps[jobId];
      jobOps := jobOps - {jobId};
      if op.bucketExisted {
        keys, groups := Collect(buckets[taskGroupsBucket], GroupsOfJob(jobId));
      } else {
        keys, groups := [], [];
      }
    }

    /** saveTaskGroups: create the task-groups bucket if it is missing and schedule the batch. */
    method SaveTaskGroups(groups: seq<Json>)
      requires Valid() && AllHaveStringIds(groups)
      modifies this`buckets, this`pendingBatches
      ensures Valid()
      ensures buckets == if taskGroupsBucket in old(buckets) then old(buckets) else old(buckets)[taskGroupsBucket := map[]]
      ensures pendingBatches == old(pendingBatches) + [groups]
    {
      if taskGroupsBucket !in buckets {
        buckets := buckets[taskGroupsBucket := map[]];
      }
      pendingBatches := pendingBatches + [groups];
    }

    /** The batch callback: store each group of the oldest batch under its `taskGroupId`, in order. */
    method SaveTaskGroupsComplete()
      requires Valid() && pendingBatches != []
      modifies this`buckets, this`pendingBatches
      ensures Valid()
      ensures buckets == old(buckets)[taskGroupsBucket := StoreGroups(old(buckets)[taskGroupsBucket], old(pendingBatches)[0])]
      ensures pendingBatches == old(pendingBatches)[1..]
    {
      var batch := pendingBatches[0];
      var i := 0;
      while i < |batch|
        invariant 0 <= i <= |batch|
        invariant AllHaveStringIds(batch)
        invariant pendingBatches == old(pendingBatches)
        invariant buckets == old(buckets)[taskGroupsBucket := StoreGroups(old(buckets)[taskGroupsBucket], batch[..i])]
      {
        assert batch[..i + 1][..i] == batch[..i];
        buckets := buckets[taskGroupsBucket := buckets[taskGroupsBucket][GroupId(batch[i]) := batch[i]]];
        i := i + 1;
      }
      assert batch[..|batch|] == batch;
      pendingBatches := pendingBatches[1..];
      assert forall i | 0 <= i < |pendingBatches| :: pendingBatches[i] == old(pendingBatches)[i + 1];
    }

    /** watchTaskGroups: start a watch request unless its own guard says it is too recent. */
    method WatchTaskGroups(jobId: string, phaseNum: int, now: nat) returns (issued: bool)
      requires Valid()
      modifies this`tgStart, this`pendingWatches
      ensures Valid()
      ensures issued == !TooRecent(old(tgStart), tgDone, tgInterval, now)
      ensures issued ==>
        && tgStart == Some(now)
        && pendingWatches == old(pendingWatches) + [WatchRequest(jobId, phaseNum, now, taskGroupsBucket in buckets)]
      ensures !issued ==> tgStart == old(tgStart) && pendingWatches == old(pendingWatches)
      ensures tgInterval >= 1 ==> |pendingWatches| <= 1 && (old(pendingWatches) != [] ==> !issued)
    {
      if TooRecent(tgStart, tgDone, tgInterval, now) {
        return false;
      }
      tgStart := Some(now);
      pendingWatches := pendingWatches + [WatchRequest(jobId, phaseNum, now, taskGroupsBucket in buckets)];
      issued := true;
    }

    /**
     * The watch callback: the groups of the requested job and phase (possibly
     * none; the callback is always invoked), then the completion time.
     */
    method WatchTaskGroupsComplete(now: nat) returns (keys: seq<string>, groups: seq<Json>)
      requires Valid() && pendingWatches != [] && now >= pendingWatches[0].start
      modifies this`tgDone, this`pendingWatches
      ensures Valid()
      ensures tgDone == Some(now) && pendingWatches == old(pendingWatches)[1..]
      ensures var w := old(pendingWatches)[0];
        w.bucketExisted ==> Enumerates(buckets[taskGroupsBucket], GroupsOfPhase(w.jobId, w.phaseNum), keys, groups)
      ensures !old(pendingWatches)[0].bucketExisted ==> keys == [] && groups == []
    {
      var w := pendingWatches[0];
      if w.bucketExisted {
        keys, groups := Collect(buckets[taskGroupsBucket], GroupsOfPhase(w.jobId, w.phaseNum));
      } else {
        keys, groups := [], [];
      }
      tgDone := Some(now);
      pendingWatches := pendingWatches[1..];
    }

    /** put: store a record, creating the bucket if it is missing. */
    method Put(bucket: string, key: string, obj: Json)
      requires Valid()
      modifies this`buckets
      ensures Valid()
      ensures buckets == PutRecord(old(buckets), bucket, key, obj)
    {
      var b := if bucket in buckets then buckets[bucket] else map[];
      buckets := buckets[bucket := b[key := obj]];
    }

    /** get: the record, or undefined (None) when the bucket or the key is missing. */
    method Get(bucket: string, key: string) returns (r: Option<Json>)
      ensures r == GetRecord(buckets, bucket, key)
    {
      if bucket !in buckets || key !in buckets[bucket] {
        return None;
      }
      r := Some(buckets[bucket][key]);
    }

    /** list: the bucket's keys, each once, or none when the bucket is missing. */
    method List(bucket: string) returns (keys: seq<string>)
      ensures bucket !in buckets ==> keys == []
      ensures bucket in buckets ==>
        && (forall k :: k in keys <==> k in buckets[bucket])
        && (forall i, j | 0 <= i < j < |keys| :: keys[i] != keys[j])
    {
      if bucket !in buckets {
        return [];
      }
      var records;
      keys, records := Collect(buckets[bucket], AllRecords);
    }
  }
}
