/** One pipeline run (watchmen/pipeline/core/worker/pipeline_worker.py): the
    enabled check, the guard, the stages in order, the run status, the
    cascade to downstream pipelines and the monitoring record.

    The collaborators whose code is not part of this model (topic lookup,
    guard evaluation, stage execution, the cascade and the monitoring sink)
    are parameters; every call of one is recorded, in order, in a call log.
    Each collaborator may raise, and then the model says what escapes. */
module PipelineWorker {
  import opened Common

  /** Keys and the system kind come from pipeline_constants and the unit
      utilities, which are not part of this model; the model relies only on
      the worker reading these names. */
  const OldKey: string := "old"
  const NewKey: string := "new"
  const PipelineUidKey: string := "pipelineUid"
  const SystemKind: string := "system"

  /** Exceptions the worker raises itself. */
  const KeyErrorPrefix: string := "KeyError: "
  const AttributeErrorText: string := "AttributeError: 'NoneType' object has no attribute 'kind'"

  /** The guard expression (`pipeline.on`); only the guard evaluator reads it. */
  datatype Joint = Joint(expression: Value)

  datatype Stage = Stage(name: string)

  datatype Pipeline = Pipeline(
    pipelineId: string,
    topicId: string,
    name: string,
    stages: seq<Stage>,
    on: Option<Joint>,
    enabled: bool)

  datatype Topic = Topic(topicId: string, kind: Option<string>)

  datatype RunState = Finished | Error

  /** The status a stage contributes to its run (`StageRunStatus(name=...)`). */
  datatype StageRunStatus = StageRunStatus(name: string)

  /** The fields of `PipelineRunStatus` the worker writes. */
  datatype RunRecord = RunRecord(
    pipelineId: string,
    uid: int,
    topicId: string,
    oldValue: Option<Value>,
    newValue: Option<Value>,
    status: Option<RunState>,
    error: Option<string>,
    stages: seq<StageRunStatus>)

  /** What the topic lookup does: return a topic, yield no topic, or raise.
      `Missing` is wider than `get_topic_by_id` itself, whose
      `Topic.parse_obj` raises on a missing document; it stands for a lookup
      that yields no topic, which the worker turns into an `AttributeError`. */
  datatype TopicLookup = Found(topic: Topic) | Missing | LookupRaised(error: string)

  /** What the guard evaluator `parse_parameter_joint` does. */
  datatype Verdict = Verdict(run: bool) | GuardRaised(error: string)

  /** What `run_stage` does. */
  datatype StageOutcome = StageReturned | StageRaised(error: string)

  /** The collaborators of one run. `triggerAllPipeline` is `None` when the
      cascade returns and the exception's text when it raises;
      `syncPipelineMonitorData` likewise for the monitoring sink, given the
      status it is handed. The last two fields are what the `PipelineContext`
      constructor (not part of this model) derives from the trigger data. */
  datatype Collaborators = Collaborators(
    getTopicById: string -> TopicLookup,
    parseParameterJoint: (Joint, Value, map<string, Value>) -> Verdict,
    runStage: (nat, Stage) -> StageOutcome,
    triggerAllPipeline: Option<string>,
    syncPipelineMonitorData: RunRecord -> Option<string>,
    currentOfTriggerData: map<string, Value> -> Value,
    initialVariables: map<string, Value>)

  /** One call of a collaborator, as recorded in the call log. */
  datatype Call =
    | GetTopicById(topicId: string)
    | ParseParameterJoint(on: Joint, current: Value, variables: map<string, Value>)
    | RunStage(index: nat, stage: Stage)
    | TriggerAllPipeline
    | SyncPipelineMonitorData(record: RunRecord)
  {
    function Kind(): CallKind
    {
      match this
      case GetTopicById(_) => TopicLookupCall
      case ParseParameterJoint(_, _, _) => GuardCall
      case RunStage(_, _) => StageCall
      case TriggerAllPipeline => CascadeCall
      case SyncPipelineMonitorData(_) => MonitorCall
    }
  }

  datatype CallKind = TopicLookupCall | GuardCall | StageCall | CascadeCall | MonitorCall

  /** How often a kind of call occurs in a log. */
  function Count(calls: seq<Call>, kind: CallKind): nat
  {
    if calls == [] then 0
    else (if calls[0].Kind() == kind then 1 else 0) + Count(calls[1..], kind)
  }

  /** The outcome of `run_pipeline`: the exception that escaped it, if any; the
      run status as last written; the collaborator calls it made. */
  datatype Run = Run(raised: Option<string>, record: RunRecord, calls: seq<Call>)

  /** What the stage loop from position `i` on did. */
  datatype StageLoop = StageLoop(appended: seq<StageRunStatus>, calls: seq<Call>, raised: Option<string>)

  /** The cascade runs unless the topic is of the system kind (line 63). */
  predicate CascadeEnabled(kind: Option<string>)
  {
    kind.None? || kind.value != SystemKind
  }

  /** Monitoring is skipped exactly for topics of the system kind (line 71). */
  predicate MonitorSuppressed(kind: Option<string>)
  {
    kind.Some? && kind.value == SystemKind
  }

  /** `should_run`: no guard means run; otherwise the evaluator decides. */
  function ShouldRun(
    pipeline: Pipeline,
    currentOfTriggerData: Value,
    variables: map<string, Value>,
    parseParameterJoint: (Joint, Value, map<string, Value>) -> Verdict): (v: Verdict)
    ensures pipeline.on.None? ==> v == Verdict(true)
    ensures pipeline.on.Some? ==> v == parseParameterJoint(pipeline.on.value, currentOfTriggerData, variables)
  {
    if pipeline.on.None? then Verdict(true)
    else parseParameterJoint(pipeline.on.value, currentOfTriggerData, variables)
  }

  /** The `for stage` loop from position `i`: the statuses it appends, the
      `run_stage` calls it makes, and the exception that ended it, if any. */
  function RunStages(stages: seq<Stage>, runStage: (nat, Stage) -> StageOutcome, i: nat): StageLoop
    requires i <= |stages|
    decreases |stages| - i
  {
    if i == |stages| then StageLoop([], [], None)
    else
      match runStage(i, stages[i])
      case StageRaised(e) => StageLoop([], [RunStage(i, stages[i])], Some(e))
      case StageReturned =>
        var rest := RunStages(stages, runStage, i + 1);
        StageLoop([StageRunStatus(stages[i].name)] + rest.appended, [RunStage(i, stages[i])] + rest.calls, rest.raised)
  }

  /** The stages run in declaration order; a stage's status is appended only
      once its `run_stage` returned, so the statuses appended are those of the
      stages that completed; the first stage that raises ends the loop, and
      without one every stage completes. */
  lemma {:induction false} StagesRunInOrder(stages: seq<Stage>, runStage: (nat, Stage) -> StageOutcome, i: nat)
    requires i <= |stages|
    ensures var loop := RunStages(stages, runStage, i);
      && |loop.appended| <= |stages| - i
      && (loop.raised.None? <==> |loop.appended| == |stages| - i)
      && |loop.calls| == |loop.appended| + (if loop.raised.Some? then 1 else 0)
      && (forall j :: 0 <= j < |loop.calls| ==> loop.calls[j] == RunStage(i + j, stages[i + j]))
      && (forall j :: 0 <= j < |loop.appended| ==>
            loop.appended[j] == StageRunStatus(stages[i + j].name) && runStage(i + j, stages[i + j]) == StageReturned)
      && (loop.raised.Some? ==>
            runStage(i + |loop.appended|, stages[i + |loop.appended|]) == StageRaised(loop.raised.value))
    decreases |stages| - i
  {
    if i < |stages| && runStage(i, stages[i]) == StageReturned {
      StagesRunInOrder(stages, runStage, i + 1);
      var rest := RunStages(stages, runStage, i + 1);
      var loop := RunStages(stages, runStage, i);
      assert forall j :: 1 <= j < |loop.appended| ==> loop.appended[j] == rest.appended[j - 1];
      assert forall j :: 1 <= j < |loop.calls| ==> loop.calls[j] == rest.calls[j - 1];
    }
  }

  /** The rest of the `try` block once every stage returned: FINISHED, then
      the cascade; an exception from reading the topic's kind or from the
      cascade turns the status into ERROR with the exception's text. */
  function AfterStages(finished: RunRecord, topic: Option<Topic>, triggerAllPipeline: Option<string>): (RunRecord, seq<Call>)
  {
    match topic
    case None => (finished.(error := Some(AttributeErrorText), status := Some(Error)), [])
    case Some(t) =>
      if !CascadeEnabled(t.kind) then (finished, [])
      else match triggerAllPipeline
        case None => (finished, [TriggerAllPipeline])
        case Some(e) => (finished.(error := Some(e), status := Some(Error)), [TriggerAllPipeline])
  }

  /** The run once the guard has passed: the `try`, `except` and `finally`
      blocks of lines 50-76. The `finally` block raises on its own: reading the
      kind of a missing topic, or through the monitoring sink. */
  function GuardedRun(pipeline: Pipeline, topic: Option<Topic>, record: RunRecord, env: Collaborators): Run
  {
    var loop := RunStages(pipeline.stages, env.runStage, 0);
    var staged := record.(stages := record.stages + loop.appended);
    var tried :=
      if loop.raised.Some? then (staged.(error := loop.raised, status := Some(Error)), [])
      else AfterStages(staged.(status := Some(Finished)), topic, env.triggerAllPipeline);
    match topic
    case None => Run(Some(AttributeErrorText), tried.0, loop.calls + tried.1)
    case Some(t) =>
      if MonitorSuppressed(t.kind) then Run(None, tried.0, loop.calls + tried.1)
      else Run(env.syncPipelineMonitorData(tried.0), tried.0, loop.calls + tried.1 + [SyncPipelineMonitorData(tried.0)])
  }

  /** The run's variables: the context's own, with the run's uid added. */
  function RunVariables(env: Collaborators, uid: int): map<string, Value>
  {
    env.initialVariables[PipelineUidKey := Number(uid)]
  }

  /** `run_pipeline`, as a function of the pipeline, the trigger data, the
      surrogate key drawn for the run and the collaborators. */
  function PipelineRun(pipeline: Pipeline, data: map<string, Value>, uid: int, env: Collaborators): Run
  {
    var created := RunRecord(pipeline.pipelineId, uid, pipeline.pipelineId, None, None, None, None, []);
    if OldKey !in data then Run(Some(KeyErrorPrefix + OldKey), created, [])
    else if NewKey !in data then Run(Some(KeyErrorPrefix + NewKey), created.(oldValue := Some(data[OldKey])), [])
    else
      var record := created.(oldValue := Some(data[OldKey]), newValue := Some(data[NewKey]));
      if !pipeline.enabled then Run(None, record, [])
      else EnabledRun(pipeline, data, uid, record, env)
  }

  /** `run_pipeline` past the enabled check (line 42): the topic lookup, then
      the rest of the run. */
  function EnabledRun(pipeline: Pipeline, data: map<string, Value>, uid: int, record: RunRecord, env: Collaborators): Run
  {
    var lookup := env.getTopicById(pipeline.topicId);
    if lookup.LookupRaised? then Run(Some(lookup.error), record, [GetTopicById(pipeline.topicId)])
    else
      var rest := ResolvedRun(pipeline, data, uid, record, if lookup.Found? then Some(lookup.topic) else None, env);
      Run(rest.raised, rest.record, [GetTopicById(pipeline.topicId)] + rest.calls)
  }

  /** Lines 44-76, once the topic lookup returned `topic`: a fresh context
      holding the run's uid, the guard, then the guarded run. */
  function ResolvedRun(pipeline: Pipeline, data: map<string, Value>, uid: int, record: RunRecord, topic: Option<Topic>, env: Collaborators): Run
  {
    var current := env.currentOfTriggerData(data);
    var variables := RunVariables(env, uid);
    var guardCalls := if pipeline.on.Some? then [ParseParameterJoint(pipeline.on.value, current, variables)] else [];
    match ShouldRun(pipeline, current, variables, env.parseParameterJoint)
    case GuardRaised(e) => Run(Some(e), record, guardCalls)
    case Verdict(run) =>
      if !run then Run(None, record, guardCalls)
      else
        var guarded := GuardedRun(pipeline, topic, record, env);
        Run(guarded.raised, guarded.record, guardCalls + guarded.calls)
  }

  /** `PipelineRunStatus`: the monitoring record of one run, filled in as the
      run proceeds. */
  class PipelineRunStatus {
    var pipelineId: string
    var uid: int
    var topicId: string
    var oldValue: Option<Value>
    var newValue: Option<Value>
    var status: Option<RunState>
    var error: Option<string>
    var stages: seq<StageRunStatus>

    constructor (pipelineId: string, uid: int, topicId: string)
      ensures Record() == RunRecord(pipelineId, uid, topicId, None, None, None, None, [])
    {
      this.pipelineId := pipelineId;
      this.uid := uid;
      this.topicId := topicId;
      oldValue := None;
      newValue := None;
      status := None;
      error := None;
      stages := [];
    }

    function Record(): RunRecord
      reads this
    {
      RunRecord(pipelineId, uid, topicId, oldValue, newValue, status, error, stages)
    }
  }

  /** `PipelineContext`: the state one run shares with its stages. */
  class PipelineContext {
    const pipeline: Pipeline
    const data: map<string, Value>
    const currentOfTriggerData: Value
    var variables: map<string, Value>
    var pipelineTopic: Option<Topic>
    var pipelineStatus: PipelineRunStatus?

    constructor (pipeline: Pipeline, data: map<string, Value>, currentOfTriggerData: Value, variables: map<string, Value>)
      ensures this.pipeline == pipeline && this.data == data
      ensures this.currentOfTriggerData == currentOfTriggerData && this.variables == variables
      ensures pipelineTopic.None? && pipelineStatus == null
    {
      this.pipeline := pipeline;
      this.data := data;
      this.currentOfTriggerData := currentOfTriggerData;
      this.variables := variables;
      pipelineTopic := None;
      pipelineStatus := null;
    }
  }

  /** The calls made to collaborators, in order. */
  class CallLog {
    var calls: seq<Call>

    constructor ()
      ensures calls == []
    {
      calls := [];
    }
  }

  /** `run_pipeline`. `uid` is the surrogate key drawn for the run. The
      caller's context is only read: the run works on a fresh one. */
  method RunPipeline(context: PipelineContext, env: Collaborators, uid: int, log: CallLog)
    returns (raised: Option<string>, status: PipelineRunStatus)
    modifies log
    ensures fresh(status)
    ensures var run := PipelineRun(context.pipeline, context.data, uid, env);
      raised == run.raised && status.Record() == run.record && log.calls == old(log.calls) + run.calls
  {
    var pipeline := context.pipeline;
    var data := context.data;
    status := new PipelineRunStatus(pipeline.pipelineId, uid, pipeline.pipelineId);
    if OldKey !in data {
      raised := Some(KeyErrorPrefix + OldKey);
      return;
    }
    status.oldValue := Some(data[OldKey]);
    if NewKey !in data {
      raised := Some(KeyErrorPrefix + NewKey);
      return;
    }
    status.newValue := Some(data[NewKey]);
    raised := None;
    if pipeline.enabled {
      raised := RunEnabled(pipeline, data, env, status, log);
    }
  }

  /** Lines 42-76 of `run_pipeline`, for an enabled pipeline. */
  method RunEnabled(pipeline: Pipeline, data: map<string, Value>, env: Collaborators, status: PipelineRunStatus, log: CallLog)
    returns (raised: Option<string>)
    modifies status, log
    ensures var run := EnabledRun(pipeline, data, old(status.uid), old(status.Record()), env);
      raised == run.raised && status.Record() == run.record && log.calls == old(log.calls) + run.calls
  {
    var lookup := env.getTopicById(pipeline.topicId);
    log.calls := log.calls + [GetTopicById(pipeline.topicId)];
    if lookup.LookupRaised? {
      raised := Some(lookup.error);
      return;
    }
    var topic := if lookup.Found? then Some(lookup.topic) else None;
    raised := RunResolved(pipeline, data, topic, env, status, log);
    AppendAssoc(old(log.calls), [GetTopicById(pipeline.topicId)], ResolvedRun(pipeline, data, old(status.uid), old(status.Record()), topic, env).calls);
  }

  /** Lines 44-76 of `run_pipeline`, once the topic lookup returned `topic`. */
  method RunResolved(pipeline: Pipeline, data: map<string, Value>, topic: Option<Topic>, env: Collaborators, status: PipelineRunStatus, log: CallLog)
    returns (raised: Option<string>)
    modifies status, log
    ensures var run := ResolvedRun(pipeline, data, old(status.uid), old(status.Record()), topic, env);
      raised == run.raised && status.Record() == run.record && log.calls == old(log.calls) + run.calls
  {
    raised := None;
    var runContext := new PipelineContext(pipeline, data, env.currentOfTriggerData(data), env.initialVariables);
    runContext.variables := runContext.variables[PipelineUidKey := Number(status.uid)];
    runContext.pipelineTopic := topic;
    runContext.pipelineStatus := status;
    if pipeline.on.Some? {
      log.calls := log.calls + [ParseParameterJoint(pipeline.on.value, runContext.currentOfTriggerData, runContext.variables)];
    }
    var verdict := ShouldRun(pipeline, runContext.currentOfTriggerData, runContext.variables, env.parseParameterJoint);
    ghost var guardCalls := log.calls[|old(log.calls)|..];
    assert log.calls == old(log.calls) + guardCalls;
    if verdict.GuardRaised? {
      raised := Some(verdict.error);
    } else if verdict.run {
      raised := RunGuarded(pipeline, topic, env, status, log);
      AppendAssoc(old(log.calls), guardCalls, GuardedRun(pipeline, topic, old(status.Record()), env).calls);
    }
  }

  /** The `for stage` loop (lines 51-55): each stage's status is appended to
      the run status after its `run_stage` returns; the first exception ends
      the loop and is handed to the `except` block. */
  method RunStageLoop(stages: seq<Stage>, runStage: (nat, Stage) -> StageOutcome, status: PipelineRunStatus, log: CallLog)
    returns (failure: Option<string>)
    modifies status`stages, log
    ensures var loop := RunStages(stages, runStage, 0);
      && status.stages == old(status.stages) + loop.appended
      && log.calls == old(log.calls) + loop.calls
      && failure == loop.raised
  {
    ghost var stageCalls: seq<Call> := [];
    ghost var appended: seq<StageRunStatus> := [];
    var i := 0;
    while i < |stages|
      invariant 0 <= i <= |stages|
      invariant status.stages == old(status.stages) + appended
      invariant log.calls == old(log.calls) + stageCalls
      invariant var rest := RunStages(stages, runStage, i);
        RunStages(stages, runStage, 0) == StageLoop(appended + rest.appended, stageCalls + rest.calls, rest.raised)
    {
      var stage := stages[i];
      var stageRunStatus := StageRunStatus(stage.name);
      var call := RunStage(i, stage);
      log.calls := log.calls + [call];
      var outcome := runStage(i, stage);
      if outcome.StageRaised? {
        StageRaisedStep(stages, runStage, i);
        assert appended + [] == appended;
        return Some(outcome.error);
      }
      StageReturnedStep(stages, runStage, i);
      ghost var rest := RunStages(stages, runStage, i + 1);
      AppendAssoc(appended, [stageRunStatus], rest.appended);
      AppendAssoc(stageCalls, [call], rest.calls);
      status.stages := status.stages + [stageRunStatus];
      appended := appended + [stageRunStatus];
      stageCalls := stageCalls + [call];
      i := i + 1;
    }
    assert appended + [] == appended && stageCalls + [] == stageCalls;
    return None;
  }

  /** A stage that raises ends the loop: its call is the last one and its
      status is not appended. */
  lemma StageRaisedStep(stages: seq<Stage>, runStage: (nat, Stage) -> StageOutcome, i: nat)
    requires i < |stages| && runStage(i, stages[i]).StageRaised?
    ensures RunStages(stages, runStage, i) == StageLoop([], [RunStage(i, stages[i])], Some(runStage(i, stages[i]).error))
  {
  }

  /** A stage that returns has its status appended before the rest. */
  lemma StageReturnedStep(stages: seq<Stage>, runStage: (nat, Stage) -> StageOutcome, i: nat)
    requires i < |stages| && runStage(i, stages[i]).StageReturned?
    ensures var rest := RunStages(stages, runStage, i + 1);
      RunStages(stages, runStage, i) == StageLoop([StageRunStatus(stages[i].name)] + rest.appended, [RunStage(i, stages[i])] + rest.calls, rest.raised)
  {
  }

  /** Lines 50-76 of `run_pipeline`: the stages, FINISHED or ERROR, the
      cascade, and the monitoring call in the `finally` block. */
  method RunGuarded(pipeline: Pipeline, topic: Option<Topic>, env: Collaborators, status: PipelineRunStatus, log: CallLog)
    returns (raised: Option<string>)
    modifies status, log
    ensures var guarded := GuardedRun(pipeline, topic, old(status.Record()), env);
      raised == guarded.raised && status.Record() == guarded.record && log.calls == old(log.calls) + guarded.calls
  {
    var failure := RunStageLoop(pipeline.stages, env.runStage, status, log);
    if failure.Some? {
      status.error := failure;
      status.status := Some(Error);
    } else {
      status.status := Some(Finished);
      match topic {
        case None =>
          status.error := Some(AttributeErrorText);
          status.status := Some(Error);
        case Some(t) =>
          if CascadeEnabled(t.kind) {
            log.calls := log.calls + [TriggerAllPipeline];
            if env.triggerAllPipeline.Some? {
              status.error := env.triggerAllPipeline;
              status.status := Some(Error);
            }
          }
      }
    }
    if topic.None? {
      raised := Some(AttributeErrorText);
    } else {
      raised := None;
      if !MonitorSuppressed(topic.value.kind) {
        log.calls := log.calls + [SyncPipelineMonitorData(status.Record())];
        raised := env.syncPipelineMonitorData(status.Record());
      }
    }
  }

  /** The statuses of `stages`, one per stage, in order. */
  function StatusesOf(stages: seq<Stage>): (r: seq<StageRunStatus>)
    ensures |r| == |stages|
    ensures forall j :: 0 <= j < |stages| ==> r[j].name == stages[j].name
  {
    seq(|stages|, j requires 0 <= j < |stages| => StageRunStatus(stages[j].name))
  }

  /** Counting calls distributes over concatenation of logs. */
  lemma {:induction false} CountConcat(a: seq<Call>, b: seq<Call>, kind: CallKind)
    ensures Count(a + b, kind) == Count(a, kind) + Count(b, kind)
  {
    if a != [] {
      assert (a + b)[0] == a[0];
      assert (a + b)[1..] == a[1..] + b;
      CountConcat(a[1..], b, kind);
    } else {
      assert a + b == b;
    }
  }

  /** A log of one call. */
  lemma CountOne(c: Call, kind: CallKind)
    ensures Count([c], kind) == if c.Kind() == kind then 1 else 0
  {
    assert [c][1..] == [];
  }

  /** A log of stage calls only holds stage calls. */
  lemma {:induction false} CountStageCalls(calls: seq<Call>, kind: CallKind)
    requires forall j :: 0 <= j < |calls| ==> calls[j].RunStage?
    ensures Count(calls, kind) == if kind == StageCall then |calls| else 0
  {
    if calls != [] {
      assert calls[0].Kind() == StageCall;
      assert forall j :: 0 <= j < |calls[1..]| ==> calls[1..][j] == calls[j + 1];
      CountStageCalls(calls[1..], kind);
    }
  }

  /** Lines 63 and 71 test opposite conditions: the cascade runs exactly for
      the topics whose run is monitored. */
  lemma CascadeIffMonitored(kind: Option<string>)
    ensures CascadeEnabled(kind) <==> !MonitorSuppressed(kind)
  {
  }

  /** The calls of a guarded run: one `run_stage` per stage reached, the
      cascade once when every stage returned and the topic is not of the
      system kind, the monitoring sink once unless the topic is of the system
      kind or missing; no topic lookup and no guard evaluation. */
  lemma GuardedCalls(pipeline: Pipeline, topic: Option<Topic>, record: RunRecord, env: Collaborators)
    ensures var guarded := GuardedRun(pipeline, topic, record, env);
      var loop := RunStages(pipeline.stages, env.runStage, 0);
      && Count(guarded.calls, StageCall) == |loop.calls|
      && Count(guarded.calls, CascadeCall) == (if loop.raised.None? && topic.Some? && CascadeEnabled(topic.value.kind) then 1 else 0)
      && Count(guarded.calls, MonitorCall) == (if topic.Some? && !MonitorSuppressed(topic.value.kind) then 1 else 0)
      && Count(guarded.calls, TopicLookupCall) == 0
      && Count(guarded.calls, GuardCall) == 0
  {
    var loop := RunStages(pipeline.stages, env.runStage, 0);
    StagesRunInOrder(pipeline.stages, env.runStage, 0);
    var staged := record.(stages := record.stages + loop.appended);
    var tried :=
      if loop.raised.Some? then (staged.(error := loop.raised, status := Some(Error)), [])
      else AfterStages(staged.(status := Some(Finished)), topic, env.triggerAllPipeline);
    var monitor := if topic.Some? && !MonitorSuppressed(topic.value.kind) then [SyncPipelineMonitorData(tried.0)] else [];
    assert GuardedRun(pipeline, topic, record, env).calls == loop.calls + tried.1 + monitor;
    forall kind: CallKind
      ensures Count(loop.calls + tried.1 + monitor, kind) == Count(loop.calls, kind) + Count(tried.1, kind) + Count(monitor, kind)
    {
      CountConcat(loop.calls + tried.1, monitor, kind);
      CountConcat(loop.calls, tried.1, kind);
    }
    forall kind: CallKind
      ensures Count([TriggerAllPipeline], kind) == if kind == CascadeCall then 1 else 0
      ensures Count([SyncPipelineMonitorData(tried.0)], kind) == if kind == MonitorCall then 1 else 0
    {
      CountOne(TriggerAllPipeline, kind);
      CountOne(SyncPipelineMonitorData(tried.0), kind);
    }
    forall kind: CallKind
      ensures Count(loop.calls, kind) == if kind == StageCall then |loop.calls| else 0
    {
      CountStageCalls(loop.calls, kind);
    }
  }

  /** Every stage returns and the topic was found: every stage's status is
      appended in order, the run is FINISHED unless the cascade raised, and the
      cascade runs once exactly when the topic is not of the system kind. Only
      the monitoring sink's own exception escapes, from the `finally` block. */
  lemma AllStagesFinish(pipeline: Pipeline, t: Topic, record: RunRecord, env: Collaborators)
    requires forall j :: 0 <= j < |pipeline.stages| ==> env.runStage(j, pipeline.stages[j]) == StageReturned
    ensures var guarded := GuardedRun(pipeline, Some(t), record, env);
      var cascadeRaised := CascadeEnabled(t.kind) && env.triggerAllPipeline.Some?;
      && guarded.raised == (if MonitorSuppressed(t.kind) then None else env.syncPipelineMonitorData(guarded.record))
      && guarded.record.stages == record.stages + StatusesOf(pipeline.stages)
      && guarded.record.status == Some(if cascadeRaised then Error else Finished)
      && guarded.record.error == (if cascadeRaised then env.triggerAllPipeline else record.error)
      && Count(guarded.calls, StageCall) == |pipeline.stages|
      && Count(guarded.calls, CascadeCall) == (if CascadeEnabled(t.kind) then 1 else 0)
  {
    StagesRunInOrder(pipeline.stages, env.runStage, 0);
    var loop := RunStages(pipeline.stages, env.runStage, 0);
    assert loop.appended == StatusesOf(pipeline.stages);
    GuardedCalls(pipeline, Some(t), record, env);
  }

  /** From position `i` on, the loop stops at stage `k`, the first that raises. */
  lemma {:induction false} FirstRaiseEndsLoop(stages: seq<Stage>, runStage: (nat, Stage) -> StageOutcome, i: nat, k: nat)
    requires i <= k < |stages|
    requires forall j :: i <= j < k ==> runStage(j, stages[j]) == StageReturned
    requires runStage(k, stages[k]).StageRaised?
    ensures var loop := RunStages(stages, runStage, i);
      |loop.appended| == k - i && loop.raised == Some(runStage(k, stages[k]).error)
    decreases k - i
  {
    if i < k {
      FirstRaiseEndsLoop(stages, runStage, i + 1, k);
    }
  }

  /** The first stage that raises (stage `k`) ends the loop: the statuses of
      the stages before it are kept, the run is ERROR with that exception's
      text, and no later stage and no cascade runs. The exception itself is
      swallowed: what escapes comes from the `finally` block alone, the
      missing topic's `AttributeError` or the monitoring sink's exception. */
  lemma StageFailureSwallowed(pipeline: Pipeline, topic: Option<Topic>, record: RunRecord, env: Collaborators, k: nat)
    requires k < |pipeline.stages|
    requires forall j :: 0 <= j < k ==> env.runStage(j, pipeline.stages[j]) == StageReturned
    requires env.runStage(k, pipeline.stages[k]).StageRaised?
    ensures var guarded := GuardedRun(pipeline, topic, record, env);
      && guarded.raised ==
           (if topic.None? then Some(AttributeErrorText)
            else if MonitorSuppressed(topic.value.kind) then None
            else env.syncPipelineMonitorData(guarded.record))
      && guarded.record.status == Some(Error)
      && guarded.record.error == Some(env.runStage(k, pipeline.stages[k]).error)
      && guarded.record.stages == record.stages + StatusesOf(pipeline.stages[..k])
      && Count(guarded.calls, StageCall) == k + 1
      && Count(guarded.calls, CascadeCall) == 0
  {
    StagesRunInOrder(pipeline.stages, env.runStage, 0);
    var loop := RunStages(pipeline.stages, env.runStage, 0);
    FirstRaiseEndsLoop(pipeline.stages, env.runStage, 0, k);
    assert forall j :: 0 <= j < k ==> loop.appended[j] == StatusesOf(pipeline.stages[..k])[j];
    GuardedCalls(pipeline, topic, record, env);
  }

  /** The `finally` block: the monitoring sink receives the run status as
      last written, once, as the run's last call, unless the topic is of the
      system kind; a missing topic makes the `finally` block itself raise. On
      either path nothing escapes exactly when the topic exists and either is
      of the system kind or the sink returned. */
  lemma MonitorSeesFinalStatus(pipeline: Pipeline, topic: Option<Topic>, record: RunRecord, env: Collaborators)
    ensures var guarded := GuardedRun(pipeline, topic, record, env);
      && (topic.None? ==> guarded.raised == Some(AttributeErrorText) && guarded.record.status == Some(Error))
      && (topic.Some? ==> guarded.record.status.Some?)
      && (guarded.raised.None? <==>
            topic.Some? && (MonitorSuppressed(topic.value.kind) || env.syncPipelineMonitorData(guarded.record).None?))
      && (topic.Some? && !MonitorSuppressed(topic.value.kind) ==> guarded.raised == env.syncPipelineMonitorData(guarded.record))
      && (topic.Some? && !MonitorSuppressed(topic.value.kind) ==>
            |guarded.calls| > 0 && guarded.calls[|guarded.calls| - 1] == SyncPipelineMonitorData(guarded.record))
      && Count(guarded.calls, MonitorCall) == (if topic.Some? && !MonitorSuppressed(topic.value.kind) then 1 else 0)
  {
    GuardedCalls(pipeline, topic, record, env);
  }

  /** The run past the enabled check whose guard passed: the lookup, the
      guard, then the guarded run on the status holding the trigger data. */
  predicate GuardPasses(pipeline: Pipeline, data: map<string, Value>, uid: int, env: Collaborators)
  {
    && OldKey in data && NewKey in data && pipeline.enabled
    && !env.getTopicById(pipeline.topicId).LookupRaised?
    && ShouldRun(pipeline, env.currentOfTriggerData(data), RunVariables(env, uid), env.parseParameterJoint) == Verdict(true)
  }

  /** The topic the lookup returned, `None` when it returned nothing. */
  function LookedUp(pipeline: Pipeline, env: Collaborators): Option<Topic>
  {
    var lookup := env.getTopicById(pipeline.topicId);
    if lookup.Found? then Some(lookup.topic) else None
  }

  /** The status as it stands before the stages run. */
  function InitialRecord(pipeline: Pipeline, data: map<string, Value>, uid: int): RunRecord
    requires OldKey in data && NewKey in data
  {
    RunRecord(pipeline.pipelineId, uid, pipeline.pipelineId, Some(data[OldKey]), Some(data[NewKey]), None, None, [])
  }

  /** A run whose guard passed: one topic lookup, at most one guard
      evaluation, then the guarded run on the status carrying the old and new
      values, the run's uid, and the pipeline's id where the topic id
      belongs. */
  lemma GuardPassedRun(pipeline: Pipeline, data: map<string, Value>, uid: int, env: Collaborators)
    requires GuardPasses(pipeline, data, uid, env)
    ensures var run := PipelineRun(pipeline, data, uid, env);
      var guarded := GuardedRun(pipeline, LookedUp(pipeline, env), InitialRecord(pipeline, data, uid), env);
      var guard := if pipeline.on.Some? then [ParseParameterJoint(pipeline.on.value, env.currentOfTriggerData(data), RunVariables(env, uid))] else [];
      run == Run(guarded.raised, guarded.record, [GetTopicById(pipeline.topicId)] + guard + guarded.calls)
  {
  }

  /** A missing `old` or `new` entry in the trigger data raises `KeyError`
      before the enabled check: no collaborator is called, the status and the
      stages stay unset, and only an `old` value read before the failing
      lookup is recorded. */
  lemma MissingTriggerDataRaises(pipeline: Pipeline, data: map<string, Value>, uid: int, env: Collaborators)
    requires OldKey !in data || NewKey !in data
    ensures var run := PipelineRun(pipeline, data, uid, env);
      && run.raised == Some(KeyErrorPrefix + (if OldKey !in data then OldKey else NewKey))
      && run.calls == []
      && run.record.status.None? && run.record.stages == []
      && run.record.oldValue == (if OldKey in data then Some(data[OldKey]) else None)
      && run.record.newValue.None?
  {
  }

  /** A disabled pipeline with complete trigger data does nothing beyond
      creating its status: no call, no exception, no state. */
  lemma DisabledPipelineIsInert(pipeline: Pipeline, data: map<string, Value>, uid: int, env: Collaborators)
    requires OldKey in data && NewKey in data && !pipeline.enabled
    ensures PipelineRun(pipeline, data, uid, env) == Run(None, InitialRecord(pipeline, data, uid), [])
  {
  }

  /** Whatever happens, the status carries the pipeline's id, the run's uid,
      the pipeline's id again in place of a topic id (line 37), and the
      trigger data's old and new values as far as they were read. */
  lemma RecordIdentity(pipeline: Pipeline, data: map<string, Value>, uid: int, env: Collaborators)
    ensures var r := PipelineRun(pipeline, data, uid, env).record;
      && r.pipelineId == pipeline.pipelineId && r.uid == uid && r.topicId == pipeline.pipelineId
      && (OldKey in data ==> r.oldValue == Some(data[OldKey]))
      && (OldKey in data && NewKey in data ==> r.newValue == Some(data[NewKey]))
  {
  }

  /** The guard is evaluated once, on the trigger data's current value and on
      the run's variables, which map the uid key to the run's uid. */
  lemma GuardSeesRunUid(pipeline: Pipeline, data: map<string, Value>, uid: int, env: Collaborators)
    requires OldKey in data && NewKey in data && pipeline.enabled
    requires !env.getTopicById(pipeline.topicId).LookupRaised?
    requires pipeline.on.Some?
    ensures var run := PipelineRun(pipeline, data, uid, env);
      && |run.calls| >= 2
      && run.calls[1] == ParseParameterJoint(pipeline.on.value, env.currentOfTriggerData(data), RunVariables(env, uid))
      && run.calls[1].variables[PipelineUidKey] == Number(uid)
      && Count(run.calls, GuardCall) == 1
  {
    var lookup := env.getTopicById(pipeline.topicId);
    var topic := if lookup.Found? then Some(lookup.topic) else None;
    var record := RunRecord(pipeline.pipelineId, uid, pipeline.pipelineId, None, None, None, None, [])
      .(oldValue := Some(data[OldKey]), newValue := Some(data[NewKey]));
    var guardCall := ParseParameterJoint(pipeline.on.value, env.currentOfTriggerData(data), RunVariables(env, uid));
    var verdict := ShouldRun(pipeline, env.currentOfTriggerData(data), RunVariables(env, uid), env.parseParameterJoint);
    var guarded := GuardedRun(pipeline, topic, record, env);
    var rest := if verdict.Verdict? && verdict.run then guarded.calls else [];
    assert PipelineRun(pipeline, data, uid, env).calls == [GetTopicById(pipeline.topicId)] + ([guardCall] + rest);
    GuardedCalls(pipeline, topic, record, env);
    CountConcat([GetTopicById(pipeline.topicId)], [guardCall] + rest, GuardCall);
    CountConcat([guardCall], rest, GuardCall);
    CountOne(GetTopicById(pipeline.topicId), GuardCall);
    CountOne(guardCall, GuardCall);
  }

  /** A guard that says no, or raises, leaves the status untouched and runs
      no stage; its exception escapes. */
  lemma GuardFalseRunsNothing(pipeline: Pipeline, data: map<string, Value>, uid: int, env: Collaborators)
    requires OldKey in data && NewKey in data && pipeline.enabled
    requires !env.getTopicById(pipeline.topicId).LookupRaised?
    requires pipeline.on.Some?
    requires env.parseParameterJoint(pipeline.on.value, env.currentOfTriggerData(data), RunVariables(env, uid)) != Verdict(true)
    ensures var run := PipelineRun(pipeline, data, uid, env);
      var verdict := env.parseParameterJoint(pipeline.on.value, env.currentOfTriggerData(data), RunVariables(env, uid));
      && run.record == InitialRecord(pipeline, data, uid)
      && run.raised == (if verdict.GuardRaised? then Some(verdict.error) else None)
      && run.calls == [GetTopicById(pipeline.topicId), ParseParameterJoint(pipeline.on.value, env.currentOfTriggerData(data), RunVariables(env, uid))]
  {
  }

  /** A topic lookup that raises ends the run: its exception escapes, the
      status keeps only the trigger data. */
  lemma LookupFailureEscapes(pipeline: Pipeline, data: map<string, Value>, uid: int, env: Collaborators)
    requires OldKey in data && NewKey in data && pipeline.enabled
    requires env.getTopicById(pipeline.topicId).LookupRaised?
    ensures PipelineRun(pipeline, data, uid, env) ==
      Run(Some(env.getTopicById(pipeline.topicId).error), InitialRecord(pipeline, data, uid), [GetTopicById(pipeline.topicId)])
  {
  }
}
