/**
 * The Marlin record schemas of lib/schema.js: the Job record and the task
 * group record kept in Moray, written as draft-03 schema values, together
 * with typed views of the same records.
 *
 * `DecodeX` reads a JSON value as a typed record when every `type` and
 * `required` constraint of the schema holds; `ValidX` states the remaining
 * constraints (`enum`, `minItems`, `minimum`, `format`) on the typed record.
 * The conformance lemmas prove that the schema value accepts a JSON value
 * exactly when it decodes to a valid record, and the round-trip lemmas that
 * encoding a record and decoding it again gives the record back.
 */
module Schema {
  import opened Wrappers
  import opened JsonValue
  import opened Draft03

  /*
   * Primitive schema components
   */

  const SString := SchemaNode(StringType)
  const SObject := SchemaNode(ObjectType)
  const SStringRequired := SchemaNode(StringType, required := true)
  const SDateTime := SchemaNode(StringType, dateTime := true)
  const SDateTimeRequired := SchemaNode(StringType, dateTime := true, required := true)
  const SStringArray := SchemaNode(ArrayType, items := Some(SString))
  const SStringArrayRequired := SchemaNode(ArrayType, required := true, items := Some(SString))
  const SNonNegativeIntegerRequired := SchemaNode(IntegerType, required := true, minimum := Some(0))

  /*
   * Marlin-specific reusable schema components
   */

  const PhaseTypes: seq<string> := ["generic", "storage-map"]

  const SJobPhase := SchemaNode(ObjectType, properties := [
    Property("type", SchemaNode(StringType, enumeration := Some(PhaseTypes))),
    Property("assets", SStringArray),
    Property("exec", SStringRequired),
    Property("uarg", SObject)])

  const SJobPhases := SchemaNode(ArrayType, required := true, minItems := 1, items := Some(SJobPhase))
  const SInputKeys := SchemaNode(ArrayType, required := true, minItems := 1, items := Some(SString))
  const SOutputKeys := SStringArrayRequired

  const SError := SchemaNode(ObjectType, properties := [
    Property("code", SStringRequired),
    Property("message", SStringRequired)])

  /*
   * Job record in Moray
   */

  const JobStates: seq<string> := ["queued", "running", "done"]

  const SMorayJob := SchemaNode(ObjectType, properties := [
    Property("jobId", SStringRequired),
    Property("jobName", SStringRequired),
    Property("phases", SJobPhases),
    Property("inputKeys", SInputKeys),
    Property("createTime", SDateTimeRequired),
    Property("state", SchemaNode(StringType, required := true, enumeration := Some(JobStates))),
    Property("doneKeys", SOutputKeys),
    Property("outputKeys", SOutputKeys),
    Property("discardedKeys", SOutputKeys),
    Property("finishTime", SDateTime),
    Property("worker", SString)])

  /*
   * Task group record in Moray
   */

  const TaskGroupStates: seq<string> := ["dispatched", "running", "done"]
  const ResultValues: seq<string> := ["ok", "fail"]

  const STaskResult := SchemaNode(ObjectType, properties := [
    Property("input", SStringRequired),
    Property("machine", SString),
    Property("outputs", SOutputKeys),
    Property("result", SchemaNode(StringType, required := true, enumeration := Some(ResultValues))),
    Property("partials", SStringArray),
    Property("discarded", SStringArray),
    Property("startTime", SDateTime),
    Property("doneTime", SDateTime),
    Property("error", SError)])

  const SMorayTaskGroup := SchemaNode(ObjectType, properties := [
    Property("jobId", SStringRequired),
    Property("taskGroupId", SStringRequired),
    Property("host", SStringRequired),
    Property("inputKeys", SInputKeys),
    Property("phase", SJobPhase),
    Property("phaseNum", SNonNegativeIntegerRequired),
    Property("state", SchemaNode(StringType, required := true, enumeration := Some(TaskGroupStates))),
    Property("results", SchemaNode(ArrayType, required := true, items := Some(STaskResult)))])

  /*
   * Typed records.  A field the schema does not require is an Option; the
   * enumerated fields stay strings so that a value outside the enumeration
   * can be written down and rejected.
   */

  datatype Phase = Phase(
    phaseType: Option<string>,
    assets: Option<seq<string>>,
    exec: string,
    uarg: Option<map<string, Json>>)

  datatype Error = Error(code: string, message: string)

  datatype TaskResult = TaskResult(
    input: string,
    machine: Option<string>,
    outputs: seq<string>,
    result: string,
    partials: Option<seq<string>>,
    discarded: Option<seq<string>>,
    startTime: Option<string>,
    doneTime: Option<string>,
    error: Option<Error>)

  datatype TaskGroup = TaskGroup(
    jobId: string,
    taskGroupId: string,
    host: string,
    inputKeys: seq<string>,
    phase: Option<Phase>,
    phaseNum: int,
    state: string,
    results: seq<TaskResult>)

  datatype Job = Job(
    jobId: string,
    jobName: string,
    phases: seq<Phase>,
    inputKeys: seq<string>,
    createTime: string,
    state: string,
    doneKeys: seq<string>,
    outputKeys: seq<string>,
    discardedKeys: seq<string>,
    finishTime: Option<string>,
    worker: Option<string>)

  /*
   * Validity of typed records: the constraints of the schema literals that
   * typing does not already express.
   */

  predicate ValidPhase(p: Phase)
  {
    p.phaseType.Some? ==> p.phaseType.value in PhaseTypes
  }

  predicate ValidTaskResult(r: TaskResult, isDateTime: string -> bool)
  {
    && r.result in ResultValues
    && (r.startTime.Some? ==> isDateTime(r.startTime.value))
    && (r.doneTime.Some? ==> isDateTime(r.doneTime.value))
  }

  predicate ValidTaskGroup(g: TaskGroup, isDateTime: string -> bool)
    ensures ValidTaskGroup(g, isDateTime) && g.phase.Some? ==> g.phase.value.phaseType != Some("reduce")
    ensures ValidTaskGroup(g, isDateTime) ==>
      forall i | 0 <= i < |g.results| :: g.results[i].result == "ok" || g.results[i].result == "fail"
  {
    && |g.inputKeys| >= 1
    && (g.phase.Some? ==> ValidPhase(g.phase.value))
    && g.phaseNum >= 0
    && g.state in TaskGroupStates
    && forall i | 0 <= i < |g.results| :: ValidTaskResult(g.results[i], isDateTime)
  }

  predicate ValidJob(j: Job, isDateTime: string -> bool)
    ensures ValidJob(j, isDateTime) ==> forall i | 0 <= i < |j.phases| :: j.phases[i].phaseType != Some("reduce")
    ensures ValidJob(j, isDateTime) ==> j.state == "queued" || j.state == "running" || j.state == "done"
  {
    && |j.phases| >= 1
    && (forall i | 0 <= i < |j.phases| :: ValidPhase(j.phases[i]))
    && |j.inputKeys| >= 1
    && isDateTime(j.createTime)
    && j.state in JobStates
    && (j.finishTime.Some? ==> isDateTime(j.finishTime.value))
  }

  /*
   * Decoding: JSON value to typed record.
   */

  function DecodeString(v: Json): Option<string>
  {
    if v.JStr? then Some(v.s) else None
  }

  function DecodeInteger(v: Json): Option<int>
  {
    if v.JNum? && IsInteger(v.n) then Some(v.n.Floor) else None
  }

  function DecodeObject(v: Json): Option<map<string, Json>>
  {
    if v.JObj? then Some(v.fields) else None
  }

  /** Decodes every element, failing if any element fails. */
  function DecodeAll<T>(es: seq<Json>, decode: Json -> Option<T>): (r: Option<seq<T>>)
    ensures r.Some? <==> forall i | 0 <= i < |es| :: decode(es[i]).Some?
    ensures r.Some? ==> |r.value| == |es| && forall i | 0 <= i < |es| :: r.value[i] == decode(es[i]).value
  {
    if es == [] then Some([])
    else
      match decode(es[0])
      case None => None
      case Some(x) =>
        match DecodeAll(es[1..], decode)
        case None => None
        case Some(xs) => Some([x] + xs)
  }

  function DecodeArray<T>(v: Json, decode: Json -> Option<T>): Option<seq<T>>
  {
    if v.JArr? then DecodeAll(v.elems, decode) else None
  }

  function DecodeStrings(v: Json): Option<seq<string>>
  {
    DecodeArray(v, DecodeString)
  }

  /** A required property: present and decodable. */
  function Required<T>(fields: map<string, Json>, name: string, decode: Json -> Option<T>): Option<T>
  {
    if name in fields then decode(fields[name]) else None
  }

  /** An optional property: Some(None) when absent, None when present but not decodable. */
  function Optional<T>(fields: map<string, Json>, name: string, decode: Json -> Option<T>): Option<Option<T>>
  {
    if name !in fields then Some(None)
    else
      match decode(fields[name])
      case Some(x) => Some(Some(x))
      case None => None
  }

  function DecodePhase(v: Json): Option<Phase>
  {
    if !v.JObj? then None
    else
      var f := v.fields;
      var phaseType := Optional(f, "type", DecodeString);
      var assets := Optional(f, "assets", DecodeStrings);
      var exec := Required(f, "exec", DecodeString);
      var uarg := Optional(f, "uarg", DecodeObject);
      if phaseType.Some? && assets.Some? && exec.Some? && uarg.Some?
      then Some(Phase(phaseType.value, assets.value, exec.value, uarg.value))
      else None
  }

  function DecodeError(v: Json): Option<Error>
  {
    if !v.JObj? then None
    else
      var code := Required(v.fields, "code", DecodeString);
      var message := Required(v.fields, "message", DecodeString);
      if code.Some? && message.Some? then Some(Error(code.value, message.value)) else None
  }

  function DecodeTaskResult(v: Json): Option<TaskResult>
  {
    if !v.JObj? then None
    else
      var f := v.fields;
      var input := Required(f, "input", DecodeString);
      var machine := Optional(f, "machine", DecodeString);
      var outputs := Required(f, "outputs", DecodeStrings);
      var result := Required(f, "result", DecodeString);
      var partials := Optional(f, "partials", DecodeStrings);
      var discarded := Optional(f, "discarded", DecodeStrings);
      var startTime := Optional(f, "startTime", DecodeString);
      var doneTime := Optional(f, "doneTime", DecodeString);
      var error := Optional(f, "error", DecodeError);
      if && input.Some? && machine.Some? && outputs.Some? && result.Some? && partials.Some?
         && discarded.Some? && startTime.Some? && doneTime.Some? && error.Some?
      then Some(TaskResult(input.value, machine.value, outputs.value, result.value, partials.value,
                           discarded.value, startTime.value, doneTime.value, error.value))
      else None
  }

  function DecodeTaskGroup(v: Json): Option<TaskGroup>
  {
    if !v.JObj? then None
    else
      var f := v.fields;
      var jobId := Required(f, "jobId", DecodeString);
      var taskGroupId := Required(f, "taskGroupId", DecodeString);
      var host := Required(f, "host", DecodeString);
      var inputKeys := Required(f, "inputKeys", DecodeStrings);
      var phase := Optional(f, "phase", DecodePhase);
      var phaseNum := Required(f, "phaseNum", DecodeInteger);
      var state := Required(f, "state", DecodeString);
      var results := Required(f, "results", v => DecodeArray(v, DecodeTaskResult));
      if && jobId.Some? && taskGroupId.Some? && host.Some? && inputKeys.Some? && phase.Some?
         && phaseNum.Some? && state.Some? && results.Some?
      then Some(TaskGroup(jobId.value, taskGroupId.value, host.value, inputKeys.value, phase.value,
                          phaseNum.value, state.value, results.value))
      else None
  }

  function DecodeJob(v: Json): Option<Job>
  {
    if !v.JObj? then None
    else
      var f := v.fields;
      var jobId := Required(f, "jobId", DecodeString);
      var jobName := Required(f, "jobName", DecodeString);
      var phases := Required(f, "phases", v => DecodeArray(v, DecodePhase));
      var inputKeys := Required(f, "inputKeys", DecodeStrings);
      var createTime := Required(f, "createTime", DecodeString);
      var state := Required(f, "state", DecodeString);
      var doneKeys := Required(f, "doneKeys", DecodeStrings);
      var outputKeys := Required(f, "outputKeys", DecodeStrings);
      var discardedKeys := Required(f, "discardedKeys", DecodeStrings);
      var finishTime := Optional(f, "finishTime", DecodeString);
      var worker := Optional(f, "worker", DecodeString);
      if && jobId.Some? && jobName.Some? && phases.Some? && inputKeys.Some? && createTime.Some?
         && state.Some? && doneKeys.Some? && outputKeys.Some? && discardedKeys.Some?
         && finishTime.Some? && worker.Some?
      then Some(Job(jobId.value, jobName.value, phases.value, inputKeys.value, createTime.value,
                    state.value, doneKeys.value, outputKeys.value, discardedKeys.value,
                    finishTime.value, worker.value))
      else None
  }

  /*
   * Encoding: typed record to JSON value (absent optional fields are left out).
   */

  function EncodeArray<T>(xs: seq<T>, encode: T -> Json): Json
  {
    JArr(seq(|xs|, i requires 0 <= i < |xs| => encode(xs[i])))
  }

  function EncodeString(s: string): Json
  {
    JStr(s)
  }

  function EncodeStrings(ss: seq<string>): Json
  {
    EncodeArray(ss, EncodeString)
  }

  /** Adds property `name` when the optional field is present. */
  function WithOptional<T>(m: map<string, Json>, name: string, o: Option<T>, encode: T -> Json): map<string, Json>
  {
    if o.Some? then m[name := encode(o.value)] else m
  }

  function EncodePhase(p: Phase): Json
  {
    var m0 := map["exec" := JStr(p.exec)];
    var m1 := WithOptional(m0, "type", p.phaseType, EncodeString);
    var m2 := WithOptional(m1, "assets", p.assets, EncodeStrings);
    JObj(WithOptional(m2, "uarg", p.uarg, f => JObj(f)))
  }

  function EncodeError(e: Error): Json
  {
    JObj(map["code" := JStr(e.code), "message" := JStr(e.message)])
  }

  function EncodeTaskResult(r: TaskResult): Json
  {
    var m0 := map["input" := JStr(r.input), "outputs" := EncodeStrings(r.outputs), "result" := JStr(r.result)];
    var m1 := WithOptional(m0, "machine", r.machine, EncodeString);
    var m2 := WithOptional(m1, "partials", r.partials, EncodeStrings);
    var m3 := WithOptional(m2, "discarded", r.discarded, EncodeStrings);
    var m4 := WithOptional(m3, "startTime", r.startTime, EncodeString);
    var m5 := WithOptional(m4, "doneTime", r.doneTime, EncodeString);
    JObj(WithOptional(m5, "error", r.error, EncodeError))
  }

  function EncodeTaskGroup(g: TaskGroup): Json
  {
    var m0 := map[
      "jobId" := JStr(g.jobId),
      "taskGroupId" := JStr(g.taskGroupId),
      "host" := JStr(g.host),
      "inputKeys" := EncodeStrings(g.inputKeys),
      "phaseNum" := JNum(g.phaseNum as real),
      "state" := JStr(g.state),
      "results" := EncodeArray(g.results, EncodeTaskResult)];
    JObj(WithOptional(m0, "phase", g.phase, EncodePhase))
  }

  function EncodeJob(j: Job): Json
  {
    var m0 := map[
      "jobId" := JStr(j.jobId),
      "jobName" := JStr(j.jobName),
      "phases" := EncodeArray(j.phases, EncodePhase),
      "inputKeys" := EncodeStrings(j.inputKeys),
      "createTime" := JStr(j.createTime),
      "state" := JStr(j.state),
      "doneKeys" := EncodeStrings(j.doneKeys),
      "outputKeys" := EncodeStrings(j.outputKeys),
      "discardedKeys" := EncodeStrings(j.discardedKeys)];
    var m1 := WithOptional(m0, "finishTime", j.finishTime, EncodeString);
    JObj(WithOptional(m1, "worker", j.worker, EncodeString))
  }

  /*
   * Conformance: the schema literals accept exactly the JSON values that
   * decode to valid records.
   */

  lemma StringArrayConformance(v: Json, isDateTime: string -> bool)
    ensures Conforms(SStringArray, v, isDateTime) <==> DecodeStrings(v).Some?
    ensures Conforms(SStringArrayRequired, v, isDateTime) <==> DecodeStrings(v).Some?
    ensures Conforms(SInputKeys, v, isDateTime) <==> DecodeStrings(v).Some? && |DecodeStrings(v).value| >= 1
  {
  }

  lemma PhaseConformance(v: Json, isDateTime: string -> bool)
    ensures Conforms(SJobPhase, v, isDateTime) <==> DecodePhase(v).Some? && ValidPhase(DecodePhase(v).value)
  {
    if v.JObj? {
      var f := v.fields;
      if "assets" in f {
        StringArrayConformance(f["assets"], isDateTime);
      }
      var ps := SJobPhase.properties;
      if Conforms(SJobPhase, v, isDateTime) {
        assert PropertyConforms(ps[0], f, isDateTime);
        assert PropertyConforms(ps[1], f, isDateTime);
        assert PropertyConforms(ps[2], f, isDateTime);
        assert PropertyConforms(ps[3], f, isDateTime);
      }
    }
  }

  lemma PhasesConformance(v: Json, isDateTime: string -> bool)
    ensures Conforms(SJobPhases, v, isDateTime) <==>
      && DecodeArray(v, DecodePhase).Some?
      && |DecodeArray(v, DecodePhase).value| >= 1
      && forall i | 0 <= i < |DecodeArray(v, DecodePhase).value| :: ValidPhase(DecodeArray(v, DecodePhase).value[i])
  {
    if v.JArr? {
      forall i | 0 <= i < |v.elems| {
        PhaseConformance(v.elems[i], isDateTime);
      }
    }
  }

  lemma ErrorConformance(v: Json, isDateTime: string -> bool)
    ensures Conforms(SError, v, isDateTime) <==> DecodeError(v).Some?
  {
    if v.JObj? && Conforms(SError, v, isDateTime) {
      assert PropertyConforms(SError.properties[0], v.fields, isDateTime);
      assert PropertyConforms(SError.properties[1], v.fields, isDateTime);
    }
  }

  /*
   * How each kind of declared property is judged, in terms of decoding.
   */

  lemma RequiredStringProperty(name: string, f: map<string, Json>, isDateTime: string -> bool)
    ensures PropertyConforms(Property(name, SStringRequired), f, isDateTime) <==>
      Required(f, name, DecodeString).Some?
  {
  }

  lemma OptionalStringProperty(name: string, f: map<string, Json>, isDateTime: string -> bool)
    ensures PropertyConforms(Property(name, SString), f, isDateTime) <==>
      Optional(f, name, DecodeString).Some?
  {
  }

  lemma OptionalDateTimeProperty(name: string, f: map<string, Json>, isDateTime: string -> bool)
    ensures PropertyConforms(Property(name, SDateTime), f, isDateTime) <==>
      && Optional(f, name, DecodeString).Some?
      && (Optional(f, name, DecodeString).value.Some? ==> isDateTime(Optional(f, name, DecodeString).value.value))
  {
  }

  lemma StringArrayProperty(name: string, f: map<string, Json>, isDateTime: string -> bool)
    ensures PropertyConforms(Property(name, SStringArray), f, isDateTime) <==>
      Optional(f, name, DecodeStrings).Some?
    ensures PropertyConforms(Property(name, SStringArrayRequired), f, isDateTime) <==>
      Required(f, name, DecodeStrings).Some?
  {
    if name in f {
      StringArrayConformance(f[name], isDateTime);
    }
  }

  lemma EnumProperty(name: string, values: seq<string>, f: map<string, Json>, isDateTime: string -> bool)
    ensures PropertyConforms(Property(name, SchemaNode(StringType, required := true, enumeration := Some(values))), f, isDateTime) <==>
      Required(f, name, DecodeString).Some? && Required(f, name, DecodeString).value in values
  {
  }

  lemma ErrorProperty(f: map<string, Json>, isDateTime: string -> bool)
    ensures PropertyConforms(Property("error", SError), f, isDateTime) <==>
      Optional(f, "error", DecodeError).Some?
  {
    if "error" in f {
      ErrorConformance(f["error"], isDateTime);
    }
  }

  lemma TaskResultProperties(f: map<string, Json>, isDateTime: string -> bool)
    ensures Conforms(STaskResult, JObj(f), isDateTime) <==>
      && PropertyConforms(Property("input", SStringRequired), f, isDateTime)
      && PropertyConforms(Property("machine", SString), f, isDateTime)
      && PropertyConforms(Property("outputs", SOutputKeys), f, isDateTime)
      && PropertyConforms(Property("result", SchemaNode(StringType, required := true, enumeration := Some(ResultValues))), f, isDateTime)
      && PropertyConforms(Property("partials", SStringArray), f, isDateTime)
      && PropertyConforms(Property("discarded", SStringArray), f, isDateTime)
      && PropertyConforms(Property("startTime", SDateTime), f, isDateTime)
      && PropertyConforms(Property("doneTime", SDateTime), f, isDateTime)
      && PropertyConforms(Property("error", SError), f, isDateTime)
  {
    var ps := STaskResult.properties;
    if Conforms(STaskResult, JObj(f), isDateTime) {
      assert PropertyConforms(ps[0], f, isDateTime);
      assert PropertyConforms(ps[1], f, isDateTime);
      assert PropertyConforms(ps[2], f, isDateTime);
      assert PropertyConforms(ps[3], f, isDateTime);
      assert PropertyConforms(ps[4], f, isDateTime);
      assert PropertyConforms(ps[5], f, isDateTime);
      assert PropertyConforms(ps[6], f, isDateTime);
      assert PropertyConforms(ps[7], f, isDateTime);
      assert PropertyConforms(ps[8], f, isDateTime);
    }
  }

  lemma TaskResultConformance(v: Json, isDateTime: string -> bool)
    ensures Conforms(STaskResult, v, isDateTime) <==>
      DecodeTaskResult(v).Some? && ValidTaskResult(DecodeTaskResult(v).value, isDateTime)
  {
    if v.JObj? {
      var f := v.fields;
      TaskResultProperties(f, isDateTime);
      RequiredStringProperty("input", f, isDateTime);
      OptionalStringProperty("machine", f, isDateTime);
      StringArrayProperty("outputs", f, isDateTime);
      EnumProperty("result", ResultValues, f, isDateTime);
      StringArrayProperty("partials", f, isDateTime);
      StringArrayProperty("discarded", f, isDateTime);
      OptionalDateTimeProperty("startTime", f, isDateTime);
      OptionalDateTimeProperty("doneTime", f, isDateTime);
      ErrorProperty(f, isDateTime);
    }
  }

  lemma ResultsConformance(v: Json, isDateTime: string -> bool)
    ensures Conforms(SMorayTaskGroup.properties[7].schema, v, isDateTime) <==>
      && DecodeArray(v, DecodeTaskResult).Some?
      && forall i | 0 <= i < |DecodeArray(v, DecodeTaskResult).value| ::
           ValidTaskResult(DecodeArray(v, DecodeTaskResult).value[i], isDateTime)
  {
    if v.JArr? {
      forall i | 0 <= i < |v.elems| {
        TaskResultConformance(v.elems[i], isDateTime);
      }
    }
  }

  lemma InputKeysProperty(name: string, f: map<string, Json>, isDateTime: string -> bool)
    ensures PropertyConforms(Property(name, SInputKeys), f, isDateTime) <==>
      Required(f, name, DecodeStrings).Some? && |Required(f, name, DecodeStrings).value| >= 1
  {
    if name in f {
      StringArrayConformance(f[name], isDateTime);
    }
  }

  lemma RequiredDateTimeProperty(name: string, f: map<string, Json>, isDateTime: string -> bool)
    ensures PropertyConforms(Property(name, SDateTimeRequired), f, isDateTime) <==>
      Required(f, name, DecodeString).Some? && isDateTime(Required(f, name, DecodeString).value)
  {
  }

  lemma PhaseProperty(f: map<string, Json>, isDateTime: string -> bool)
    ensures PropertyConforms(Property("phase", SJobPhase), f, isDateTime) <==>
      && Optional(f, "phase", DecodePhase).Some?
      && (Optional(f, "phase", DecodePhase).value.Some? ==> ValidPhase(Optional(f, "phase", DecodePhase).value.value))
  {
    if "phase" in f {
      PhaseConformance(f["phase"], isDateTime);
    }
  }

  lemma PhasesProperty(f: map<string, Json>, isDateTime: string -> bool)
    ensures PropertyConforms(Property("phases", SJobPhases), f, isDateTime) <==>
      var phases := Required(f, "phases", v => DecodeArray(v, DecodePhase));
      && phases.Some?
      && |phases.value| >= 1
      && forall i | 0 <= i < |phases.value| :: ValidPhase(phases.value[i])
  {
    if "phases" in f {
      PhasesConformance(f["phases"], isDateTime);
    }
  }

  lemma PhaseNumProperty(f: map<string, Json>, isDateTime: string -> bool)
    ensures PropertyConforms(Property("phaseNum", SNonNegativeIntegerRequired), f, isDateTime) <==>
      Required(f, "phaseNum", DecodeInteger).Some? && Required(f, "phaseNum", DecodeInteger).value >= 0
  {
    if "phaseNum" in f && f["phaseNum"].JNum? && IsInteger(f["phaseNum"].n) {
      var n := f["phaseNum"].n;
      assert n == n.Floor as real;
    }
  }

  lemma ResultsProperty(f: map<string, Json>, isDateTime: string -> bool)
    ensures PropertyConforms(SMorayTaskGroup.properties[7], f, isDateTime) <==>
      var results := Required(f, "results", v => DecodeArray(v, DecodeTaskResult));
      && results.Some?
      && forall i | 0 <= i < |results.value| :: ValidTaskResult(results.value[i], isDateTime)
  {
    if "results" in f {
      ResultsConformance(f["results"], isDateTime);
    }
  }

  lemma TaskGroupProperties(f: map<string, Json>, isDateTime: string -> bool)
    ensures Conforms(SMorayTaskGroup, JObj(f), isDateTime) <==>
      && PropertyConforms(Property("jobId", SStringRequired), f, isDateTime)
      && PropertyConforms(Property("taskGroupId", SStringRequired), f, isDateTime)
      && PropertyConforms(Property("host", SStringRequired), f, isDateTime)
      && PropertyConforms(Property("inputKeys", SInputKeys), f, isDateTime)
      && PropertyConforms(Property("phase", SJobPhase), f, isDateTime)
      && PropertyConforms(Property("phaseNum", SNonNegativeIntegerRequired), f, isDateTime)
      && PropertyConforms(Property("state", SchemaNode(StringType, required := true, enumeration := Some(TaskGroupStates))), f, isDateTime)
      && PropertyConforms(SMorayTaskGroup.properties[7], f, isDateTime)
  {
    var ps := SMorayTaskGroup.properties;
    if Conforms(SMorayTaskGroup, JObj(f), isDateTime) {
      assert PropertyConforms(ps[0], f, isDateTime);
      assert PropertyConforms(ps[1], f, isDateTime);
      assert PropertyConforms(ps[2], f, isDateTime);
      assert PropertyConforms(ps[3], f, isDateTime);
      assert PropertyConforms(ps[4], f, isDateTime);
      assert PropertyConforms(ps[5], f, isDateTime);
      assert PropertyConforms(ps[6], f, isDateTime);
      assert PropertyConforms(ps[7], f, isDateTime);
    }
  }

  lemma TaskGroupConformance(v: Json, isDateTime: string -> bool)
    ensures Conforms(SMorayTaskGroup, v, isDateTime) <==>
      DecodeTaskGroup(v).Some? && ValidTaskGroup(DecodeTaskGroup(v).value, isDateTime)
  {
    if v.JObj? {
      var f := v.fields;
      TaskGroupProperties(f, isDateTime);
      RequiredStringProperty("jobId", f, isDateTime);
      RequiredStringProperty("taskGroupId", f, isDateTime);
      RequiredStringProperty("host", f, isDateTime);
      InputKeysProperty("inputKeys", f, isDateTime);
      PhaseProperty(f, isDateTime);
      PhaseNumProperty(f, isDateTime);
      EnumProperty("state", TaskGroupStates, f, isDateTime);
      ResultsProperty(f, isDateTime);
    }
  }

  lemma JobProperties(f: map<string, Json>, isDateTime: string -> bool)
    ensures Conforms(SMorayJob, JObj(f), isDateTime) <==>
      && PropertyConforms(Property("jobId", SStringRequired), f, isDateTime)
      && PropertyConforms(Property("jobName", SStringRequired), f, isDateTime)
      && PropertyConforms(Property("phases", SJobPhases), f, isDateTime)
      && PropertyConforms(Property("inputKeys", SInputKeys), f, isDateTime)
      && PropertyConforms(Property("createTime", SDateTimeRequired), f, isDateTime)
      && PropertyConforms(Property("state", SchemaNode(StringType, required := true, enumeration := Some(JobStates))), f, isDateTime)
      && PropertyConforms(Property("doneKeys", SOutputKeys), f, isDateTime)
      && PropertyConforms(Property("outputKeys", SOutputKeys), f, isDateTime)
      && PropertyConforms(Property("discardedKeys", SOutputKeys), f, isDateTime)
      && PropertyConforms(Property("finishTime", SDateTime), f, isDateTime)
      && PropertyConforms(Property("worker", SString), f, isDateTime)
  {
    var ps := SMorayJob.properties;
    if Conforms(SMorayJob, JObj(f), isDateTime) {
      assert PropertyConforms(ps[0], f, isDateTime);
      assert PropertyConforms(ps[1], f, isDateTime);
      assert PropertyConforms(ps[2], f, isDateTime);
      assert PropertyConforms(ps[3], f, isDateTime);
      assert PropertyConforms(ps[4], f, isDateTime);
      assert PropertyConforms(ps[5], f, isDateTime);
      assert PropertyConforms(ps[6], f, isDateTime);
      assert PropertyConforms(ps[7], f, isDateTime);
      assert PropertyConforms(ps[8], f, isDateTime);
      assert PropertyConforms(ps[9], f, isDateTime);
      assert PropertyConforms(ps[10], f, isDateTime);
    }
  }

  lemma JobConformance(v: Json, isDateTime: string -> bool)
    ensures Conforms(SMorayJob, v, isDateTime) <==>
      DecodeJob(v).Some? && ValidJob(DecodeJob(v).value, isDateTime)
  {
    if v.JObj? {
      var f := v.fields;
      JobProperties(f, isDateTime);
      RequiredStringProperty("jobId", f, isDateTime);
      RequiredStringProperty("jobName", f, isDateTime);
      PhasesProperty(f, isDateTime);
      InputKeysProperty("inputKeys", f, isDateTime);
      RequiredDateTimeProperty("createTime", f, isDateTime);
      EnumProperty("state", JobStates, f, isDateTime);
      StringArrayProperty("doneKeys", f, isDateTime);
      StringArrayProperty("outputKeys", f, isDateTime);
      StringArrayProperty("discardedKeys", f, isDateTime);
      OptionalDateTimeProperty("finishTime", f, isDateTime);
      OptionalStringProperty("worker", f, isDateTime);
    }
  }

  /*
   * Round trips: encoding a record and decoding it gives the record back.
   */

  lemma ArrayRoundTrip<T>(xs: seq<T>, encode: T -> Json, decode: Json -> Option<T>)
    requires forall i | 0 <= i < |xs| :: decode(encode(xs[i])) == Some(xs[i])
    ensures DecodeArray(EncodeArray(xs, encode), decode) == Some(xs)
  {
    var r := DecodeArray(EncodeArray(xs, encode), decode);
    assert r.Some?;
    assert r.value == xs;
  }

  lemma StringsRoundTrip(ss: seq<string>)
    ensures DecodeStrings(EncodeStrings(ss)) == Some(ss)
  {
    ArrayRoundTrip(ss, EncodeString, DecodeString);
  }

  lemma PhaseRoundTrip(p: Phase)
    ensures DecodePhase(EncodePhase(p)) == Some(p)
  {
    if p.assets.Some? {
      StringsRoundTrip(p.assets.value);
    }
  }

  /** Decoding a task result object whose properties each decode. */
  lemma DecodeTaskResultFields(f: map<string, Json>, r: TaskResult)
    requires "input" in f && f["input"] == JStr(r.input)
    requires "machine" in f <==> r.machine.Some?
    requires r.machine.Some? ==> f["machine"] == JStr(r.machine.value)
    requires "outputs" in f && DecodeStrings(f["outputs"]) == Some(r.outputs)
    requires "result" in f && f["result"] == JStr(r.result)
    requires "partials" in f <==> r.partials.Some?
    requires r.partials.Some? ==> DecodeStrings(f["partials"]) == Some(r.partials.value)
    requires "discarded" in f <==> r.discarded.Some?
    requires r.discarded.Some? ==> DecodeStrings(f["discarded"]) == Some(r.discarded.value)
    requires "startTime" in f <==> r.startTime.Some?
    requires r.startTime.Some? ==> f["startTime"] == JStr(r.startTime.value)
    requires "doneTime" in f <==> r.doneTime.Some?
    requires r.doneTime.Some? ==> f["doneTime"] == JStr(r.doneTime.value)
    requires "error" in f <==> r.error.Some?
    requires r.error.Some? ==> DecodeError(f["error"]) == Some(r.error.value)
    ensures DecodeTaskResult(JObj(f)) == Some(r)
  {
  }

  lemma EncodedTaskResultRequired(r: TaskResult)
    ensures var f := EncodeTaskResult(r).fields;
      && f["input"] == JStr(r.input)
      && f["outputs"] == EncodeStrings(r.outputs)
      && f["result"] == JStr(r.result)
  {
  }

  lemma EncodedTaskResultLists(r: TaskResult)
    ensures var f := EncodeTaskResult(r).fields;
      && ("machine" in f <==> r.machine.Some?) && (r.machine.Some? ==> f["machine"] == JStr(r.machine.value))
      && ("partials" in f <==> r.partials.Some?) && (r.partials.Some? ==> f["partials"] == EncodeStrings(r.partials.value))
      && ("discarded" in f <==> r.discarded.Some?) && (r.discarded.Some? ==> f["discarded"] == EncodeStrings(r.discarded.value))
  {
  }

  lemma EncodedTaskResultTimes(r: TaskResult)
    ensures var f := EncodeTaskResult(r).fields;
      && ("startTime" in f <==> r.startTime.Some?) && (r.startTime.Some? ==> f["startTime"] == JStr(r.startTime.value))
      && ("doneTime" in f <==> r.doneTime.Some?) && (r.doneTime.Some? ==> f["doneTime"] == JStr(r.doneTime.value))
      && ("error" in f <==> r.error.Some?) && (r.error.Some? ==> f["error"] == EncodeError(r.error.value))
  {
  }

  lemma TaskResultRoundTrip(r: TaskResult)
    ensures DecodeTaskResult(EncodeTaskResult(r)) == Some(r)
  {
    EncodedTaskResultRequired(r);
    EncodedTaskResultLists(r);
    EncodedTaskResultTimes(r);
    StringsRoundTrip(r.outputs);
    if r.partials.Some? {
      StringsRoundTrip(r.partials.value);
    }
    if r.discarded.Some? {
      StringsRoundTrip(r.discarded.value);
    }
    DecodeTaskResultFields(EncodeTaskResult(r).fields, r);
  }

  lemma DecodeTaskGroupFields(f: map<string, Json>, g: TaskGroup)
    requires "jobId" in f && f["jobId"] == JStr(g.jobId)
    requires "taskGroupId" in f && f["taskGroupId"] == JStr(g.taskGroupId)
    requires "host" in f && f["host"] == JStr(g.host)
    requires "inputKeys" in f && DecodeStrings(f["inputKeys"]) == Some(g.inputKeys)
    requires "phase" in f <==> g.phase.Some?
    requires g.phase.Some? ==> DecodePhase(f["phase"]) == Some(g.phase.value)
    requires "phaseNum" in f && DecodeInteger(f["phaseNum"]) == Some(g.phaseNum)
    requires "state" in f && f["state"] == JStr(g.state)
    requires "results" in f && DecodeArray(f["results"], DecodeTaskResult) == Some(g.results)
    ensures DecodeTaskGroup(JObj(f)) == Some(g)
  {
  }

  lemma EncodedTaskGroupFields(g: TaskGroup)
    ensures var f := EncodeTaskGroup(g).fields;
      && "jobId" in f && f["jobId"] == JStr(g.jobId)
      && "taskGroupId" in f && f["taskGroupId"] == JStr(g.taskGroupId)
      && "host" in f && f["host"] == JStr(g.host)
      && "inputKeys" in f && f["inputKeys"] == EncodeStrings(g.inputKeys)
      && ("phase" in f <==> g.phase.Some?) && (g.phase.Some? ==> f["phase"] == EncodePhase(g.phase.value))
      && "phaseNum" in f && f["phaseNum"] == JNum(g.phaseNum as real)
      && "state" in f && f["state"] == JStr(g.state)
      && "results" in f && f["results"] == EncodeArray(g.results, EncodeTaskResult)
  {
  }

  lemma TaskGroupRoundTrip(g: TaskGroup)
    ensures DecodeTaskGroup(EncodeTaskGroup(g)) == Some(g)
  {
    EncodedTaskGroupFields(g);
    StringsRoundTrip(g.inputKeys);
    if g.phase.Some? {
      PhaseRoundTrip(g.phase.value);
    }
    forall i | 0 <= i < |g.results| {
      TaskResultRoundTrip(g.results[i]);
    }
    ArrayRoundTrip(g.results, EncodeTaskResult, DecodeTaskResult);
    assert (g.phaseNum as real).Floor == g.phaseNum;
    DecodeTaskGroupFields(EncodeTaskGroup(g).fields, g);
  }

  lemma DecodeJobFields(f: map<string, Json>, j: Job)
    requires "jobId" in f && f["jobId"] == JStr(j.jobId)
    requires "jobName" in f && f["jobName"] == JStr(j.jobName)
    requires "phases" in f && DecodeArray(f["phases"], DecodePhase) == Some(j.phases)
    requires "inputKeys" in f && DecodeStrings(f["inputKeys"]) == Some(j.inputKeys)
    requires "createTime" in f && f["createTime"] == JStr(j.createTime)
    requires "state" in f && f["state"] == JStr(j.state)
    requires "doneKeys" in f && DecodeStrings(f["doneKeys"]) == Some(j.doneKeys)
    requires "outputKeys" in f && DecodeStrings(f["outputKeys"]) == Some(j.outputKeys)
    requires "discardedKeys" in f && DecodeStrings(f["discardedKeys"]) == Some(j.discardedKeys)
    requires "finishTime" in f <==> j.finishTime.Some?
    requires j.finishTime.Some? ==> f["finishTime"] == JStr(j.finishTime.value)
    requires "worker" in f <==> j.worker.Some?
    requires j.worker.Some? ==> f["worker"] == JStr(j.worker.value)
    ensures DecodeJob(JObj(f)) == Some(j)
  {
  }

  lemma EncodedJobFields(j: Job)
    ensures var f := EncodeJob(j).fields;
      && "jobId" in f && f["jobId"] == JStr(j.jobId)
      && "jobName" in f && f["jobName"] == JStr(j.jobName)
      && "phases" in f && f["phases"] == EncodeArray(j.phases, EncodePhase)
      && "inputKeys" in f && f["inputKeys"] == EncodeStrings(j.inputKeys)
      && "createTime" in f && f["createTime"] == JStr(j.createTime)
      && "state" in f && f["state"] == JStr(j.state)
      && "doneKeys" in f && f["doneKeys"] == EncodeStrings(j.doneKeys)
      && "outputKeys" in f && f["outputKeys"] == EncodeStrings(j.outputKeys)
      && "discardedKeys" in f && f["discardedKeys"] == EncodeStrings(j.discardedKeys)
      && ("finishTime" in f <==> j.finishTime.Some?) && (j.finishTime.Some? ==> f["finishTime"] == JStr(j.finishTime.value))
      && ("worker" in f <==> j.worker.Some?) && (j.worker.Some? ==> f["worker"] == JStr(j.worker.value))
  {
  }

  lemma JobRoundTrip(j: Job)
    ensures DecodeJob(EncodeJob(j)) == Some(j)
  {
    EncodedJobFields(j);
    StringsRoundTrip(j.inputKeys);
    StringsRoundTrip(j.doneKeys);
    StringsRoundTrip(j.outputKeys);
    StringsRoundTrip(j.discardedKeys);
    forall i | 0 <= i < |j.phases| {
      PhaseRoundTrip(j.phases[i]);
    }
    ArrayRoundTrip(j.phases, EncodePhase, DecodePhase);
    DecodeJobFields(EncodeJob(j).fields, j);
  }

  /** The schema literal accepts the encoding of a typed Job exactly when the Job is valid. */
  lemma EncodedJobConforms(j: Job, isDateTime: string -> bool)
    ensures Conforms(SMorayJob, EncodeJob(j), isDateTime) <==> ValidJob(j, isDateTime)
  {
    JobRoundTrip(j);
    JobConformance(EncodeJob(j), isDateTime);
  }

  lemma EncodedTaskGroupConforms(g: TaskGroup, isDateTime: string -> bool)
    ensures Conforms(SMorayTaskGroup, EncodeTaskGroup(g), isDateTime) <==> ValidTaskGroup(g, isDateTime)
  {
    TaskGroupRoundTrip(g);
    TaskGroupConformance(EncodeTaskGroup(g), isDateTime);
  }

  /*
   * What a conforming record looks like, property by property.
   */

  predicate IsStringArray(v: Json)
  {
    v.JArr? && forall i | 0 <= i < |v.elems| :: v.elems[i].JStr?
  }

  predicate HasString(f: map<string, Json>, name: string)
  {
    name in f && f[name].JStr?
  }

  /** Phases and input keys are required and non-empty, every phase has a string `exec`. */
  lemma ConformingJobShape(v: Json, isDateTime: string -> bool)
    requires Conforms(SMorayJob, v, isDateTime)
    ensures v.JObj?
    ensures "phases" in v.fields && v.fields["phases"].JArr? && |v.fields["phases"].elems| >= 1
    ensures forall i | 0 <= i < |v.fields["phases"].elems| ::
      v.fields["phases"].elems[i].JObj? && HasString(v.fields["phases"].elems[i].fields, "exec")
    ensures "inputKeys" in v.fields && IsStringArray(v.fields["inputKeys"]) && |v.fields["inputKeys"].elems| >= 1
  {
    var f := v.fields;
    JobProperties(f, isDateTime);
    var phases := f["phases"];
    forall i | 0 <= i < |phases.elems|
      ensures phases.elems[i].JObj? && HasString(phases.elems[i].fields, "exec")
    {
      assert Conforms(SJobPhase, phases.elems[i], isDateTime);
      assert PropertyConforms(SJobPhase.properties[2], phases.elems[i].fields, isDateTime);
    }
  }

  /** The scalar properties of a conforming Job and the three key lists. */
  lemma ConformingJobFields(v: Json, isDateTime: string -> bool)
    requires Conforms(SMorayJob, v, isDateTime)
    ensures v.JObj?
    ensures HasString(v.fields, "jobId") && HasString(v.fields, "jobName")
    ensures HasString(v.fields, "createTime") && isDateTime(v.fields["createTime"].s)
    ensures HasString(v.fields, "state") && v.fields["state"].s in JobStates
    ensures "doneKeys" in v.fields && IsStringArray(v.fields["doneKeys"])
    ensures "outputKeys" in v.fields && IsStringArray(v.fields["outputKeys"])
    ensures "discardedKeys" in v.fields && IsStringArray(v.fields["discardedKeys"])
    ensures "finishTime" in v.fields ==> v.fields["finishTime"].JStr? && isDateTime(v.fields["finishTime"].s)
    ensures "worker" in v.fields ==> v.fields["worker"].JStr?
  {
    JobProperties(v.fields, isDateTime);
  }

  /** The phase `type` enumeration leaves out "reduce". */
  lemma ReducePhaseRejected(v: Json, isDateTime: string -> bool)
    requires v.JObj? && "type" in v.fields && v.fields["type"] == JStr("reduce")
    ensures !Conforms(SJobPhase, v, isDateTime)
  {
    assert !PropertyConforms(SJobPhase.properties[0], v.fields, isDateTime);
  }

  /** Hence no Job with a reduce phase conforms to the Job schema. */
  lemma JobWithReducePhaseRejected(j: Job, k: nat, isDateTime: string -> bool)
    requires k < |j.phases| && j.phases[k].phaseType == Some("reduce")
    ensures !Conforms(SMorayJob, EncodeJob(j), isDateTime)
  {
    EncodedJobConforms(j, isDateTime);
    assert !ValidPhase(j.phases[k]);
  }

  /** A phase without a `type` is accepted: the property is optional. */
  lemma UntypedPhaseAccepted(p: Phase, isDateTime: string -> bool)
    requires p.phaseType.None?
    ensures Conforms(SJobPhase, EncodePhase(p), isDateTime)
  {
    PhaseRoundTrip(p);
    PhaseConformance(EncodePhase(p), isDateTime);
  }

  /** Task group: required strings, non-empty input keys, integer phaseNum >= 0, state, results. */
  lemma ConformingTaskGroupFields(v: Json, isDateTime: string -> bool)
    requires Conforms(SMorayTaskGroup, v, isDateTime)
    ensures v.JObj?
    ensures HasString(v.fields, "jobId") && HasString(v.fields, "taskGroupId") && HasString(v.fields, "host")
    ensures "inputKeys" in v.fields && IsStringArray(v.fields["inputKeys"]) && |v.fields["inputKeys"].elems| >= 1
    ensures "phase" in v.fields ==> Conforms(SJobPhase, v.fields["phase"], isDateTime)
    ensures "phaseNum" in v.fields && v.fields["phaseNum"].JNum?
    ensures IsInteger(v.fields["phaseNum"].n) && v.fields["phaseNum"].n >= 0.0
    ensures HasString(v.fields, "state") && v.fields["state"].s in TaskGroupStates
    ensures "results" in v.fields && v.fields["results"].JArr?
    ensures forall i | 0 <= i < |v.fields["results"].elems| :: Conforms(STaskResult, v.fields["results"].elems[i], isDateTime)
  {
    TaskGroupProperties(v.fields, isDateTime);
  }

  /** Task result: string input, string-array outputs, result in {ok, fail}; error, when present, has string code and message. */
  lemma ConformingTaskResultFields(v: Json, isDateTime: string -> bool)
    requires Conforms(STaskResult, v, isDateTime)
    ensures v.JObj?
    ensures HasString(v.fields, "input")
    ensures "outputs" in v.fields && IsStringArray(v.fields["outputs"])
    ensures HasString(v.fields, "result") && v.fields["result"].s in ResultValues
    ensures "error" in v.fields ==>
      v.fields["error"].JObj? && HasString(v.fields["error"].fields, "code") && HasString(v.fields["error"].fields, "message")
  {
    TaskResultProperties(v.fields, isDateTime);
    if "error" in v.fields {
      ErrorConformance(v.fields["error"], isDateTime);
    }
  }

  /** `results` may be empty: a valid task group with no results conforms. */
  lemma EmptyResultsAccepted(g: TaskGroup, isDateTime: string -> bool)
    requires ValidTaskGroup(g, isDateTime) && g.results == []
    ensures Conforms(SMorayTaskGroup, EncodeTaskGroup(g), isDateTime)
  {
    EncodedTaskGroupConforms(g, isDateTime);
  }

  /** The schema does not tie `error` to `result`: an "ok" result may carry an error, a "fail" result may lack one. */
  lemma ErrorIndependentOfResult(r: TaskResult, e: Error, isDateTime: string -> bool)
    requires ValidTaskResult(r, isDateTime)
    ensures Conforms(STaskResult, EncodeTaskResult(r.(result := "ok", error := Some(e))), isDateTime)
    ensures Conforms(STaskResult, EncodeTaskResult(r.(result := "fail", error := None)), isDateTime)
  {
    var ok := r.(result := "ok", error := Some(e));
    var fail := r.(result := "fail", error := None);
    TaskResultRoundTrip(ok);
    TaskResultConformance(EncodeTaskResult(ok), isDateTime);
    TaskResultRoundTrip(fail);
    TaskResultConformance(EncodeTaskResult(fail), isDateTime);
  }
}
