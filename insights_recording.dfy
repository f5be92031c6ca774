/** Recording of insights events when a workflow execution finishes
    (`InsightsService.workflowExecuteAfterHandler`). The database is an
    in-memory store: the owner rows of the shared-workflow table, the
    insights metadata table keyed by workflow id, and the raw events table. */
module InsightsRecording {
  import opened Wrappers
  import opened InsightsShared

  /** `ExecutionStatus` of a finished or unfinished execution. */
  datatype ExecutionStatus = Success | Crashed | Error | Canceled | New | Running | Unknown | Waiting

  /** `WorkflowExecuteMode`: how the execution was started. `ErrorWorkflow` is
      the mode called `error` (an error workflow being run). */
  datatype ExecuteMode =
    | Cli | ErrorWorkflow | Integrated | Retry | Trigger | Webhook | Evaluation
    | Internal | Manual

  type WorkflowId = string

  /** The part of the workflow (`ctx.workflowData`) the handler reads. The
      setting `timeSavedPerExecution` is None when the workflow has no settings
      or the setting is not given. */
  datatype WorkflowData = WorkflowData(id: WorkflowId, name: string, timeSavedPerExecution: Option<int>)

  /** The part of the finished run (`fullRunData`) the handler reads; instants
      are milliseconds since the epoch. */
  datatype Run = Run(status: ExecutionStatus, mode: ExecuteMode, startedAt: int, stoppedAt: Option<int>)

  /** The owner row of a workflow in the shared-workflow table, with the name
      of the project it belongs to. */
  datatype Owner = Owner(projectId: string, projectName: string)

  /** A row of the insights metadata table. */
  datatype Metadata = Metadata(metaId: nat, workflowId: WorkflowId, workflowName: string,
                               projectId: string, projectName: string)

  /** A row of the raw insights events table. */
  datatype RawEvent = RawEvent(metaId: nat, eventType: TypeUnit, value: int)

  /** The `UnexpectedError` thrown when the workflow has no owner. */
  datatype HandlerError = OwnerNotFound(workflowName: string, workflowId: WorkflowId)

  /** The `shouldSkipStatus` table: only executions that finished with an
      outcome are recorded. */
  function ShouldSkipStatus(status: ExecutionStatus): (skip: bool)
    ensures !skip <==> status in {Success, Crashed, Error}
  {
    match status
    case Success => false
    case Crashed => false
    case Error => false
    case Canceled => true
    case New => true
    case Running => true
    case Unknown => true
    case Waiting => true
  }

  /** The `shouldSkipMode` table: internal and manual executions are not recorded. */
  function ShouldSkipMode(mode: ExecuteMode): (skip: bool)
    ensures skip <==> mode in {Internal, Manual}
  {
    match mode
    case Cli => false
    case ErrorWorkflow => false
    case Integrated => false
    case Retry => false
    case Trigger => false
    case Webhook => false
    case Evaluation => false
    case Internal => true
    case Manual => true
  }

  predicate IsSkipped(run: Run) {
    ShouldSkipStatus(run.status) || ShouldSkipMode(run.mode)
  }

  /** The outcome event type of a recorded execution. */
  function OutcomeType(status: ExecutionStatus): (t: TypeUnit)
    ensures t in {TypeSuccess, TypeFailure}
    ensures t == TypeSuccess <==> status == Success
  {
    if status == Success then TypeSuccess else TypeFailure
  }

  /** A time-saved event is written for successful runs whose workflow sets a
      non-zero (truthy) `timeSavedPerExecution`. */
  predicate SavesTime(workflow: WorkflowData, run: Run) {
    && OutcomeType(run.status) == TypeSuccess
    && workflow.timeSavedPerExecution.Some?
    && workflow.timeSavedPerExecution.value != 0
  }

  /** The raw events inserted for a recorded execution, in insertion order. */
  function RecordedEvents(metaId: nat, workflow: WorkflowData, run: Run): (events: seq<RawEvent>)
    // all events belong to the workflow's metadata row
    ensures forall e <- events :: e.metaId == metaId
    // first comes the one outcome event, of value 1; no other event is an outcome
    ensures |events| >= 1 && events[0] == RawEvent(metaId, OutcomeType(run.status), 1)
    ensures forall i :: 1 <= i < |events| ==> events[i].eventType !in {TypeSuccess, TypeFailure}
    // a runtime event exists iff the run has a stop time, and it holds the duration
    ensures (exists e <- events :: e.eventType == TypeRuntimeMs) <==> run.stoppedAt.Some?
    ensures forall e <- events :: e.eventType == TypeRuntimeMs ==> run.stoppedAt == Some(run.startedAt + e.value)
    // a time-saved event exists iff the run saves time, and it holds the setting
    ensures (exists e <- events :: e.eventType == TypeTimeSavedMin) <==> SavesTime(workflow, run)
    ensures forall e <- events :: e.eventType == TypeTimeSavedMin ==> workflow.timeSavedPerExecution == Some(e.value)
    // hence a success with a stop time and a time saving yields 3 events, a failure with a stop time 2
    ensures |events| == 1 + (if run.stoppedAt.Some? then 1 else 0) + (if SavesTime(workflow, run) then 1 else 0)
  {
    [RawEvent(metaId, OutcomeType(run.status), 1)]
    + (if run.stoppedAt.Some? then [RawEvent(metaId, TypeRuntimeMs, run.stoppedAt.value - run.startedAt)] else [])
    + (if SavesTime(workflow, run) then [RawEvent(metaId, TypeTimeSavedMin, workflow.timeSavedPerExecution.value)] else [])
  }

  /** The insights service together with the tables it writes through its
      transaction. */
  class InsightsService {
    /** Owner rows of the shared-workflow table, by workflow id. */
    var owners: map<WorkflowId, Owner>
    /** The insights metadata table; its key is the unique column `workflowId`. */
    var metadata: map<WorkflowId, Metadata>
    /** The raw insights events table, in insertion order. */
    var raw: seq<RawEvent>
    /** The next value of the auto-generated `metaId` column. */
    var nextMetaId: nat

    ghost function MetaIds(): set<nat>
      reads this
    {
      set w | w in metadata :: metadata[w].metaId
    }

    /** Each metadata row is stored under its own workflow id and has a distinct,
        already allocated `metaId`; every raw event refers to a metadata row. */
    ghost predicate Valid()
      reads this
    {
      && (forall w | w in metadata :: metadata[w].workflowId == w && metadata[w].metaId < nextMetaId)
      && (forall w1, w2 | w1 in metadata && w2 in metadata && w1 != w2 ::
            metadata[w1].metaId != metadata[w2].metaId)
      && (forall e | e in raw :: e.metaId in MetaIds())
    }

    constructor (owners: map<WorkflowId, Owner>)
      ensures Valid()
      ensures this.owners == owners && metadata == map[] && raw == [] && nextMetaId == 0
    {
      this.owners := owners;
      metadata := map[];
      raw := [];
      nextMetaId := 0;
    }

    /** `trx.findOne(SharedWorkflow, { workflowId, role: 'workflow:owner' })`. */
    method FindOwner(workflowId: WorkflowId) returns (owner: Option<Owner>)
      ensures owner.Some? <==> workflowId in owners
      ensures owner.Some? ==> owner.value == owners[workflowId]
    {
      owner := if workflowId in owners then Some(owners[workflowId]) else None;
    }

    /** `trx.findOneBy(InsightsMetadata, { workflowId })`. */
    method FindMetadata(workflowId: WorkflowId) returns (row: Option<Metadata>)
      requires Valid()
      ensures row.Some? <==> workflowId in metadata
      ensures row.Some? ==> row.value == metadata[workflowId] && row.value.workflowId == workflowId
    {
      row := if workflowId in metadata then Some(metadata[workflowId]) else None;
    }

    /** `trx.upsert(InsightsMetadata, …, ['workflowId'])`: updates the names of
        the workflow's row and keeps its `metaId`, or inserts a row with a new
        `metaId`. */
    method Upsert(workflowId: WorkflowId, workflowName: string, projectId: string, projectName: string)
      requires Valid()
      modifies this
      ensures Valid()
      ensures owners == old(owners) && raw == old(raw)
      ensures workflowId in old(metadata) ==>
        && metadata == old(metadata)[workflowId := Metadata(old(metadata)[workflowId].metaId, workflowId, workflowName, projectId, projectName)]
        && nextMetaId == old(nextMetaId)
      ensures workflowId !in old(metadata) ==>
        && metadata == old(metadata)[workflowId := Metadata(old(nextMetaId), workflowId, workflowName, projectId, projectName)]
        && old(nextMetaId) !in old(MetaIds())
        && nextMetaId == old(nextMetaId) + 1
    {
      if workflowId in metadata {
        var row := metadata[workflowId];
        metadata := metadata[workflowId := row.(workflowName := workflowName, projectId := projectId, projectName := projectName)];
        assert MetaIds() == old(MetaIds()) by {
          forall w | w in old(metadata) ensures metadata[w].metaId == old(metadata)[w].metaId { }
        }
      } else {
        metadata := metadata[workflowId := Metadata(nextMetaId, workflowId, workflowName, projectId, projectName)];
        nextMetaId := nextMetaId + 1;
        assert old(MetaIds()) <= MetaIds() by {
          forall w | w in old(metadata) ensures metadata[w].metaId == old(metadata)[w].metaId { }
        }
      }
    }

    /** `trx.insert(InsightsRaw, event)`; the event's `metaId` must refer to a
        metadata row (a foreign key). */
    method Insert(event: RawEvent)
      requires Valid() && event.metaId in MetaIds()
      modifies this
      ensures Valid()
      ensures owners == old(owners) && metadata == old(metadata) && nextMetaId == old(nextMetaId)
      ensures raw == old(raw) + [event]
    {
      raw := raw + [event];
    }

    /** The three guarded inserts of the handler: the outcome event, the
        runtime event and the time-saved event, all under `metaId`. */
    method InsertEvents(metaId: nat, workflow: WorkflowData, run: Run)
      requires Valid() && metaId in MetaIds()
      modifies this
      ensures Valid()
      ensures owners == old(owners) && metadata == old(metadata) && nextMetaId == old(nextMetaId)
      ensures raw == old(raw) + RecordedEvents(metaId, workflow, run)
    {
      var status := OutcomeType(run.status);
      Insert(RawEvent(metaId, status, 1));
      if run.stoppedAt.Some? {
        Insert(RawEvent(metaId, TypeRuntimeMs, run.stoppedAt.value - run.startedAt));
      }
      if status == TypeSuccess && workflow.timeSavedPerExecution.Some? && workflow.timeSavedPerExecution.value != 0 {
        Insert(RawEvent(metaId, TypeTimeSavedMin, workflow.timeSavedPerExecution.value));
      }
    }

    /** `workflowExecuteAfterHandler`: records the events of a finished
        execution, or nothing if it is skipped, or fails if the workflow has
        no owner. */
    method WorkflowExecuteAfterHandler(workflow: WorkflowData, run: Run) returns (r: Outcome<HandlerError>)
      requires Valid()
      modifies this
      ensures Valid()
      ensures owners == old(owners)
      // skipped executions write nothing
      ensures IsSkipped(run) ==> r == Pass && unchanged(this)
      // without an owner the handler fails before writing anything
      ensures !IsSkipped(run) && workflow.id !in owners ==>
        r == Fail(OwnerNotFound(workflow.name, workflow.id)) && unchanged(this)
      // otherwise the metadata row is upserted and the events are appended under its metaId
      ensures !IsSkipped(run) && workflow.id in owners ==>
        && r == Pass
        && workflow.id in metadata
        && var row := metadata[workflow.id];
           && row == Metadata(row.metaId, workflow.id, workflow.name,
                              owners[workflow.id].projectId, owners[workflow.id].projectName)
           && metadata == old(metadata)[workflow.id := row]
           && (workflow.id in old(metadata) ==> row.metaId == old(metadata)[workflow.id].metaId)
           && (workflow.id !in old(metadata) ==> row.metaId !in old(MetaIds()))
           && raw == old(raw) + RecordedEvents(row.metaId, workflow, run)
    {
      if ShouldSkipStatus(run.status) || ShouldSkipMode(run.mode) {
        return Pass;
      }
      var owner := FindOwner(workflow.id);
      if owner.None? {
        return Fail(OwnerNotFound(workflow.name, workflow.id));
      }
      Upsert(workflow.id, workflow.name, owner.value.projectId, owner.value.projectName);
      var found := FindMetadata(workflow.id);
      if found.None? {
        // the row was written just above, in the same transaction
        assert false;
      }
      assert found.value.metaId in MetaIds();
      InsertEvents(found.value.metaId, workflow, run);
      r := Pass;
    }
  }

  /** A client of the service: the recorded and skipped executions of one
      owned workflow, and an execution of a workflow without an owner, using
      only the contracts. */
  method HandlerScenarios() {
    var service := new InsightsService(map["wf" := Owner("p1", "Project")]);
    var workflow := WorkflowData("wf", "Workflow", Some(3));

    var r := service.WorkflowExecuteAfterHandler(workflow, Run(Waiting, Webhook, 0, Some(5000)));
    assert r == Pass && service.metadata == map[] && service.raw == [];
    r := service.WorkflowExecuteAfterHandler(workflow, Run(Success, Manual, 0, Some(5000)));
    assert r == Pass && service.metadata == map[] && service.raw == [];

    r := service.WorkflowExecuteAfterHandler(workflow, Run(Success, Webhook, 0, Some(5000)));
    assert r == Pass && "wf" in service.metadata;
    var row := service.metadata["wf"];
    assert row.projectId == "p1" && row.projectName == "Project";
    assert service.raw == [RawEvent(row.metaId, TypeSuccess, 1), RawEvent(row.metaId, TypeRuntimeMs, 5000),
                           RawEvent(row.metaId, TypeTimeSavedMin, 3)];

    r := service.WorkflowExecuteAfterHandler(workflow, Run(Crashed, Webhook, 0, Some(5000)));
    assert service.metadata == map["wf" := row];
    assert |service.raw| == 5 && service.raw[3] == RawEvent(row.metaId, TypeFailure, 1);

    r := service.WorkflowExecuteAfterHandler(WorkflowData("orphan", "Orphan", None), Run(Success, Webhook, 0, None));
    assert r == Fail(OwnerNotFound("Orphan", "orphan")) && |service.raw| == 5;
  }
}
