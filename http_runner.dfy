/**
 * `httpRunner`: POST /runs creates a run from the configured and replayed
 * messages, inserts them, marks the run running, answers with the run and
 * then processes it in the request handler itself; POST /replay re-executes
 * the tool calls of one stored message.
 */
module HttpRunner {
  import opened Js
  import opened Messages
  import opened Store
  import opened LcMappers
  import opened DbMappers
  import opened LegacyMappers
  import opened Tools
  import opened RunProcessor
  import opened FrontEnd

  // ---------------------------------------------------------------- POST /runs

  /** The run's messages; `messagesFromConfig.map` on an absent configuration throws. */
  function HttpMessages(config: Option<seq<LcValue>>, pupa: Template, now: int, body: Json): (r: Result<seq<Json>>)
    ensures config.None? ==> r == Fail(TypeError)
  {
    if config.None? then Fail(TypeError) else Assemble(config.value, pupa, now, body)
  }

  /** The handler answers with the run, or throws before answering (the request is left hanging). */
  datatype PostResponse = Unanswered(error: Error) | Answered(run: Run)

  /** `result.status` when the agent's result is an object whose status is a string. */
  function ResultStatus(out: AgentOutput): (s: Option<string>)
    ensures s.Some? <==> out.RecordOutput? && out.status.Some? && out.status.value.JStr?
    ensures s.Some? ==> out.status == Some(JStr(s.value))
  {
    if out.RecordOutput? && out.status.Some? && out.status.value.JStr? then Some(out.status.value.s) else None
  }

  /** The task status write after `done`, made only for a string status and without a reason. */
  function StatusWrites(runId: string, out: AgentOutput): seq<Write>
  {
    match ResultStatus(out)
    case Some(s) => [SetTaskStatus(runId, s, None)]
    case None => []
  }

  /**
   * Everything after the response: the filter, the tool loop and the agent
   * unless `toolsOnly`, as in `processRun`; then `done` and the result's
   * status, or, after any throw, `failed` and the task status "failed".
   */
  function SettleSpec(dialect: Dialect, tools: seq<Tool>, storage: Option<Json>, runId: string,
                      messages: seq<Json>, toolsOnly: bool, setup: AgentSetup): Trace
  {
    var p := PhasesSpec(dialect, true, tools, storage, runId, Some(messages), toolsOnly, setup);
    match p.0
    case Ok(out) => Trace(Ok(()), p.1 + [SetStatus(runId, Done)] + StatusWrites(runId, out), p.2)
    case Fail(e) => Trace(Fail(e), p.1 + [SetStatus(runId, Failed), SetTaskStatus(runId, "failed", None)], p.2)
  }

  /** The two writes of a completed run: `done`, then the result's status if it has one. */
  method Complete(db: Database, runId: string, out: AgentOutput)
    requires db.Valid()
    requires IndexOfRun(db.runs, runId).Some?
    modifies db
    ensures db.Valid()
    ensures Ended(old(db.runs), db.runs, runId, Done)
    ensures db.log == old(db.log) + [SetStatus(runId, Done)] + StatusWrites(runId, out)
  {
    var done := db.UpdateRunStatus(runId, Done);
    IndexOfRunKeepsIds(old(db.runs), db.runs, runId);
    var status := ResultStatus(out);
    if status.Some? {
      ghost var between := db.runs;
      var task := db.UpdateRunTaskStatus(runId, status.value, None);
      IndexOfRunKeepsIds(between, db.runs, runId);
    }
  }

  /** The processing after the response, on a run that exists; every throw is caught. */
  method Settle(db: Database, kit: Toolkit, runId: string, messages: seq<Json>, toolsOnly: bool, setup: AgentSetup)
    returns (r: Result<()>)
    requires db.Valid()
    requires IndexOfRun(db.runs, runId).Some?
    modifies db, kit.context
    ensures db.Valid()
    ensures var t := SettleSpec(db.dialect, kit.tools, old(kit.context.storage), runId, messages, toolsOnly, setup);
            (r, db.log, kit.context.storage) == (t.result, old(db.log) + t.writes, t.storage)
    ensures Ended(old(db.runs), db.runs, runId, if r.Ok? then Done else Failed)
  {
    var out := Phases(db, kit, runId, Some(messages), toolsOnly, setup, true);
    ghost var afterPhases := db.log;
    if out.Fail? {
      var marked := MarkFailed(db, runId, None);
      assert afterPhases + [SetStatus(runId, Failed), SetTaskStatus(runId, "failed", None)]
             == old(db.log) + (afterPhases[|old(db.log)|..] + [SetStatus(runId, Failed), SetTaskStatus(runId, "failed", None)]);
      return Fail(out.error);
    }
    Complete(db, runId, out.value);
    assert afterPhases + [SetStatus(runId, Done)] + StatusWrites(runId, out.value)
           == old(db.log) + (afterPhases[|old(db.log)|..] + [SetStatus(runId, Done)] + StatusWrites(runId, out.value));
    return Ok(());
  }

  /** What a POST /runs request answers, writes and leaves in the tools' context. */
  datatype PostTrace = PostTrace(response: PostResponse, writes: seq<Write>, storage: Option<Json>)

  /** The run `createRun` adds as the `next`-th. */
  function NewRun(dialect: Dialect, next: nat, now: int): Run
  {
    Run(next, Scheduled, "unknown", if dialect == Postgres then Some("") else None, now)
  }

  /**
   * The writes before the response on a store whose next run id is
   * `next`: create the run, insert all the messages in one transaction,
   * mark the run running; the answer is the run as it then is. A rejected
   * message or row throws after the run is created.
   */
  function OpenSpec(dialect: Dialect, next: nat, messages: seq<Json>, now: int, fault: Option<nat>)
    : (PostResponse, seq<Write>)
  {
    var runId := NatToString(next);
    match Validate(runId, messages, dialect == Sqlite)
    case Fail(e) => (Unanswered(e), [CreatedRun(next)])
    case Ok(_) =>
      if fault.Some? && fault.value < |messages| then (Unanswered(DriverError), [CreatedRun(next)])
      else (Answered(NewRun(dialect, next, now).(status := Running)),
            [CreatedRun(next), InsertedMessages(runId, |messages|), SetStatus(runId, Running)])
  }

  /** POST /runs once its messages are assembled: open the run, answer, then settle the run. */
  function Served(dialect: Dialect, next: nat, tools: seq<Tool>, storage: Option<Json>, messages: seq<Json>,
                  toolsOnly: bool, now: int, fault: Option<nat>, setup: AgentSetup): PostTrace
  {
    var start := OpenSpec(dialect, next, messages, now, fault);
    if start.0.Unanswered? then PostTrace(start.0, start.1, storage)
    else
      var t := SettleSpec(dialect, tools, storage, NatToString(next), messages, toolsOnly, setup);
      PostTrace(start.0, start.1 + t.writes, t.storage)
  }

  /** POST /runs: assemble the messages, then serve them. */
  function PostSpec(dialect: Dialect, next: nat, tools: seq<Tool>, storage: Option<Json>,
                    config: Option<seq<LcValue>>, pupa: Template, body: Json, now: int,
                    fault: Option<nat>, setup: AgentSetup): PostTrace
  {
    match HttpMessages(config, pupa, now, body)
    case Fail(e) => PostTrace(Unanswered(e), [], storage)
    case Ok(messages) => Served(dialect, next, tools, storage, messages, Truthy(Get(body, "toolsOnly")), now, fault, setup)
  }

  /** Everything before the response. */
  method Open(db: Database, messages: seq<Json>, now: int, fault: Option<nat>) returns (response: PostResponse, runId: string)
    requires db.Valid()
    modifies db
    ensures db.Valid()
    ensures runId == NatToString(old(db.nextRunId))
    ensures var o := OpenSpec(db.dialect, old(db.nextRunId), messages, now, fault);
            (response, db.log) == (o.0, old(db.log) + o.1)
    ensures response.Answered? ==> IndexOfRun(db.runs, runId).Some?
  {
    ghost var next := db.nextRunId;
    runId := db.CreateRun(now);
    OpenSpecCases(db.dialect, next, messages, now, fault);
    assert db.Accepts(runId, |messages|, fault) <==> fault.None? || fault.value >= |messages|;
    ghost var created := db.log;
    var inserted := db.InsertMessages(runId, messages, fault);
    if inserted.Fail? {
      assert db.log == created;
      return Unanswered(inserted.error), runId;
    }
    ghost var stored := db.log;
    assert stored == old(db.log) + [CreatedRun(next), InsertedMessages(runId, |messages|)];
    assert db.runs[|db.runs| - 1] == NewRun(db.dialect, next, now);
    var run := MarkRunning(db, runId);
    assert db.log == old(db.log) + [CreatedRun(next), InsertedMessages(runId, |messages|), SetStatus(runId, Running)];
    response := Answered(run);
  }

  /** The three outcomes of opening a run: a rejected message, a failed insert, or the running run. */
  lemma OpenSpecCases(dialect: Dialect, next: nat, messages: seq<Json>, now: int, fault: Option<nat>)
    ensures var runId, o := NatToString(next), OpenSpec(dialect, next, messages, now, fault);
            var valid := Validate(runId, messages, dialect == Sqlite);
            && (valid.Fail? ==> o == (Unanswered(valid.error), [CreatedRun(next)]))
            && (valid.Ok? && fault.Some? && fault.value < |messages| ==> o == (Unanswered(DriverError), [CreatedRun(next)]))
            && (valid.Ok? && !(fault.Some? && fault.value < |messages|) ==>
                  o == (Answered(NewRun(dialect, next, now).(status := Running)),
                        [CreatedRun(next), InsertedMessages(runId, |messages|), SetStatus(runId, Running)]))
  {
  }

  /** `updateRunStatus(runId, "running")` on the run just created, then `getRun(runId)`. */
  method MarkRunning(db: Database, runId: string) returns (run: Run)
    requires db.Valid() && |db.runs| > 0 && IndexOfRun(db.runs, runId) == Some(|db.runs| - 1)
    modifies db
    ensures db.Valid()
    ensures run == old(db.runs[|db.runs| - 1]).(status := Running)
    ensures db.log == old(db.log) + [SetStatus(runId, Running)]
    ensures IndexOfRun(db.runs, runId).Some?
  {
    var running := db.UpdateRunStatus(runId, Running);
    IndexOfRunKeepsIds(old(db.runs), db.runs, runId);
    var fetched := db.GetRun(runId);
    run := fetched.value;
  }

  /** Everything after the messages are assembled: open the run, then settle it once answered. */
  method Serve(db: Database, kit: Toolkit, messages: seq<Json>, toolsOnly: bool, now: int, fault: Option<nat>,
               setup: AgentSetup) returns (response: PostResponse)
    requires db.Valid()
    modifies db, kit.context
    ensures db.Valid()
    ensures var s := Served(db.dialect, old(db.nextRunId), kit.tools, old(kit.context.storage), messages, toolsOnly, now, fault, setup);
            (response, db.log, kit.context.storage) == (s.response, old(db.log) + s.writes, s.storage)
    ensures response.Answered? ==>
              var i := IndexOfRun(db.runs, NatToString(old(db.nextRunId)));
              i.Some? && (db.runs[i.value].status == Done || db.runs[i.value].status == Failed)
  {
    ghost var next, storage := db.nextRunId, kit.context.storage;
    ghost var o := OpenSpec(db.dialect, next, messages, now, fault);
    ghost var t := SettleSpec(db.dialect, kit.tools, storage, NatToString(next), messages, toolsOnly, setup);
    var runId;
    response, runId := Open(db, messages, now, fault);
    if response.Unanswered? {
      return;
    }
    assert kit.context.storage == storage;
    var settled := Settle(db, kit, runId, messages, toolsOnly, setup);
    assert db.log == old(db.log) + (o.1 + t.writes);
  }

  /**
   * The POST /runs handler. `now` is the single `Date.now()` reading of the
   * request, `fault` the first row the driver rejects (if any), and `setup`
   * the runner's `agentInvoke`, `toAgentMessage` and replay callback.
   */
  method PostRuns(db: Database, kit: Toolkit, config: Option<seq<LcValue>>, pupa: Template, body: Json,
                  now: int, fault: Option<nat>, setup: AgentSetup) returns (response: PostResponse)
    requires db.Valid()
    modifies db, kit.context
    ensures db.Valid()
    ensures var s := PostSpec(db.dialect, old(db.nextRunId), kit.tools, old(kit.context.storage),
                              config, pupa, body, now, fault, setup);
            (response, db.log, kit.context.storage) == (s.response, old(db.log) + s.writes, s.storage)
    ensures response.Answered? ==>
              var i := IndexOfRun(db.runs, NatToString(old(db.nextRunId)));
              i.Some? && (db.runs[i.value].status == Done || db.runs[i.value].status == Failed)
  {
    var assembled := HttpMessages(config, pupa, now, body);
    if assembled.Fail? {
      assert db.log + [] == db.log;
      return Unanswered(assembled.error);
    }
    response := Serve(db, kit, assembled.value, Truthy(Get(body, "toolsOnly")), now, fault, setup);
  }

  // ---------------------------------------------------------------- properties of POST /runs

  /**
   * A request that is answered has created the run, inserted all its
   * messages and marked it running before any tool or agent work, and
   * answers with that run, running; every later write is the settling of
   * the run (see `SettleCloses`).
   */
  lemma AnsweredRunIsRunning(dialect: Dialect, next: nat, tools: seq<Tool>, storage: Option<Json>,
                             config: Option<seq<LcValue>>, pupa: Template, body: Json, now: int,
                             fault: Option<nat>, setup: AgentSetup)
    requires PostSpec(dialect, next, tools, storage, config, pupa, body, now, fault, setup).response.Answered?
    ensures HttpMessages(config, pupa, now, body).Ok?
    ensures var s := PostSpec(dialect, next, tools, storage, config, pupa, body, now, fault, setup);
            var runId := NatToString(next);
            var messages := HttpMessages(config, pupa, now, body).value;
            var t := SettleSpec(dialect, tools, storage, runId, messages, Truthy(Get(body, "toolsOnly")), setup);
            s.response.run == NewRun(dialect, next, now).(status := Running)
            && s.writes == [CreatedRun(next), InsertedMessages(runId, |messages|), SetStatus(runId, Running)] + t.writes
            && s.storage == t.storage
  {
    var messages := HttpMessages(config, pupa, now, body).value;
    var o := OpenSpec(dialect, next, messages, now, fault);
    assert o.0.Answered?;
  }

  /** A request whose messages cannot be stored is never answered, and the new run stays scheduled and unprocessed. */
  lemma UnstoredRunIsUnanswered(dialect: Dialect, next: nat, tools: seq<Tool>, storage: Option<Json>,
                                config: Option<seq<LcValue>>, pupa: Template, body: Json, now: int,
                                fault: Option<nat>, setup: AgentSetup)
    requires HttpMessages(config, pupa, now, body).Ok?
    requires var messages := HttpMessages(config, pupa, now, body).value;
             Validate(NatToString(next), messages, dialect == Sqlite).Fail? || (fault.Some? && fault.value < |messages|)
    ensures var s := PostSpec(dialect, next, tools, storage, config, pupa, body, now, fault, setup);
            s.response.Unanswered? && s.writes == [CreatedRun(next)] && s.storage == storage
  {
  }

  /** Messages that cannot be assembled throw before the run is created. */
  lemma UnassembledRequestWritesNothing(dialect: Dialect, next: nat, tools: seq<Tool>, storage: Option<Json>,
                                        config: Option<seq<LcValue>>, pupa: Template, body: Json, now: int,
                                        fault: Option<nat>, setup: AgentSetup)
    requires HttpMessages(config, pupa, now, body).Fail?
    ensures PostSpec(dialect, next, tools, storage, config, pupa, body, now, fault, setup)
            == PostTrace(Unanswered(HttpMessages(config, pupa, now, body).error), [], storage)
  {
  }

  /**
   * After the response the writes are the agent's batches, then either
   * `done` and the result's status when it is a string, or `failed` and
   * "failed" without a reason after any throw.
   */
  lemma SettleCloses(dialect: Dialect, tools: seq<Tool>, storage: Option<Json>, runId: string,
                     messages: seq<Json>, toolsOnly: bool, setup: AgentSetup)
    ensures var t := SettleSpec(dialect, tools, storage, runId, messages, toolsOnly, setup);
            var p := PhasesSpec(dialect, true, tools, storage, runId, Some(messages), toolsOnly, setup);
            var k := |p.1|;
            |t.writes| >= k + 1 && t.writes[..k] == p.1
            && (forall j :: 0 <= j < k ==> t.writes[j].InsertedMessages? && t.writes[j].runId == runId)
            && (t.result.Ok? ==> p.0.Ok? && t.writes[k..] == [SetStatus(runId, Done)] + StatusWrites(runId, p.0.value))
            && (t.result.Fail? ==> p.0.Fail? && t.writes[k..] == [SetStatus(runId, Failed), SetTaskStatus(runId, "failed", None)])
            && (t.result.Ok? ==> t.writes[|t.writes| - 1] == SetStatus(runId, Done)
                                 || (|t.writes| >= 2 && t.writes[|t.writes| - 2] == SetStatus(runId, Done)))
            && (t.result.Fail? ==> |t.writes| >= 2 && t.writes[|t.writes| - 2..] == [SetStatus(runId, Failed), SetTaskStatus(runId, "failed", None)])
  {
    var t := SettleSpec(dialect, tools, storage, runId, messages, toolsOnly, setup);
    var p := PhasesSpec(dialect, true, tools, storage, runId, Some(messages), toolsOnly, setup);
    var k := |p.1|;
    if p.0.Ok? {
      var tail := [SetStatus(runId, Done)] + StatusWrites(runId, p.0.value);
      assert t.writes == p.1 + tail;
      assert t.writes[..k] == p.1 && t.writes[k..] == tail;
      if ResultStatus(p.0.value).Some? {
        assert t.writes[|t.writes| - 2] == tail[0];
      } else {
        assert tail == [SetStatus(runId, Done)];
        assert t.writes[|t.writes| - 1] == tail[0];
      }
    } else {
      var tail := [SetStatus(runId, Failed), SetTaskStatus(runId, "failed", None)];
      assert t.writes == p.1 + tail;
      assert t.writes[..k] == p.1 && t.writes[k..] == tail;
    }
  }

  /**
   * A completed run gets a task status write exactly when the agent's
   * result has a string status, and then it carries that status and no
   * reason; with `toolsOnly` the agent is not consulted and no task status is written.
   */
  lemma TaskStatusFromResult(dialect: Dialect, tools: seq<Tool>, storage: Option<Json>, runId: string,
                             messages: seq<Json>, toolsOnly: bool, setup: AgentSetup)
    requires SettleSpec(dialect, tools, storage, runId, messages, toolsOnly, setup).result.Ok?
    ensures var t := SettleSpec(dialect, tools, storage, runId, messages, toolsOnly, setup);
            var out := PhasesSpec(dialect, true, tools, storage, runId, Some(messages), toolsOnly, setup).0.value;
            ((exists j :: 0 <= j < |t.writes| && t.writes[j].SetTaskStatus?) <==> ResultStatus(out).Some?)
            && (ResultStatus(out).Some? ==> t.writes[|t.writes| - 1] == SetTaskStatus(runId, ResultStatus(out).value, None))
            && (toolsOnly ==> forall j :: 0 <= j < |t.writes| ==> !t.writes[j].SetTaskStatus?)
  {
    SettleCloses(dialect, tools, storage, runId, messages, toolsOnly, setup);
    var t := SettleSpec(dialect, tools, storage, runId, messages, toolsOnly, setup);
    var p := PhasesSpec(dialect, true, tools, storage, runId, Some(messages), toolsOnly, setup);
    var k := |p.1|;
    forall j | 0 <= j < |t.writes| && t.writes[j].SetTaskStatus?
      ensures ResultStatus(p.0.value).Some?
    {
      assert j >= k + 1;
      assert t.writes[j] == t.writes[k..][j - k];
    }
    if ResultStatus(p.0.value).Some? {
      assert t.writes[k..][1] == t.writes[k + 1];
    }
  }

  // ---------------------------------------------------------------- POST /replay

  /**
   * POST /replay: both ids must be truthy; the stored message is read with
   * the ids' text; a message without tool calls is refused; otherwise its
   * calls run in order on the tools' context. Errors become responses
   * through the catch block (a missing message is a 500).
   */
  function ReplaySpec(db: Database, tools: seq<Tool>, storage: Option<Json>, body: Json): (ReplayResponse, Option<Json>)
    reads db
  {
    var runId, messageId := Get(body, "runId"), Get(body, "messageId");
    if !Truthy(runId) then (BadRequest("runId is required"), storage)
    else if !Truthy(messageId) then (BadRequest("messageId is required"), storage)
    else
      match db.GetMessage(JsString(runId), JsString(messageId))
      case Fail(e) => (Caught(e), storage)
      case Ok(m) =>
        if m.toolCalls.None? then (BadRequest("No tools to execute"), storage)
        else
          var run := RunSpec(ReadCallsToJson(m.toolCalls.value), tools, storage);
          (if run.0.Ok? then Replayed(run.0.value) else Caught(run.0.error), run.1)
  }

  /** The POST /replay handler, on the toolkit's shared context. */
  method Replay(db: Database, kit: Toolkit, body: Json) returns (response: ReplayResponse)
    modifies kit.context
    ensures (response, kit.context.storage) == ReplaySpec(db, kit.tools, old(kit.context.storage), body)
  {
    var runId, messageId := Get(body, "runId"), Get(body, "messageId");
    if !Truthy(runId) {
      return BadRequest("runId is required");
    }
    if !Truthy(messageId) {
      return BadRequest("messageId is required");
    }
    var message := db.GetMessage(JsString(runId), JsString(messageId));
    if message.Fail? {
      return Caught(message.error);
    }
    if message.value.toolCalls.None? {
      return BadRequest("No tools to execute");
    }
    var results := ExecuteTools(ReadCallsToJson(message.value.toolCalls.value), kit);
    if results.Fail? {
      return Caught(results.error);
    }
    return Replayed(results.value);
  }

  // ---------------------------------------------------------------- properties of POST /replay

  /** A falsy id is refused with 400 before the store or any tool is touched. */
  lemma ReplayNeedsIds(db: Database, tools: seq<Tool>, storage: Option<Json>, body: Json)
    requires !Truthy(Get(body, "runId")) || !Truthy(Get(body, "messageId"))
    ensures var r := ReplaySpec(db, tools, storage, body);
            StatusCode(r.0) == 400 && r.1 == storage
            && r.0 == BadRequest(if Truthy(Get(body, "runId")) then "messageId is required" else "runId is required")
  {
  }

  /** Ids that name no stored message of that run give 500 and run nothing. */
  lemma ReplayUnknownMessage(db: Database, tools: seq<Tool>, storage: Option<Json>, body: Json)
    requires Truthy(Get(body, "runId")) && Truthy(Get(body, "messageId"))
    requires forall j :: 0 <= j < |db.messages| ==>
               !(db.messages[j].runId == JsString(Get(body, "runId"))
                 && NatToString(db.messages[j].id) == JsString(Get(body, "messageId")))
    ensures ReplaySpec(db, tools, storage, body) == (InternalError, storage)
  {
  }

  /**
   * A 200 answer replays a stored message of that run with tool calls:
   * one result per recorded call, in order, each named after its call.
   */
  lemma ReplayedResults(db: Database, tools: seq<Tool>, storage: Option<Json>, body: Json)
    requires ReplaySpec(db, tools, storage, body).0.Replayed?
    ensures var runId, messageId := JsString(Get(body, "runId")), JsString(Get(body, "messageId"));
            var rs := ReplaySpec(db, tools, storage, body).0.results;
            db.GetMessage(runId, messageId).Ok? && db.GetMessage(runId, messageId).value.toolCalls.Some?
            && (exists j :: 0 <= j < |db.messages| && db.messages[j].runId == runId
                            && NatToString(db.messages[j].id) == messageId)
            && var calls := db.GetMessage(runId, messageId).value.toolCalls.value;
               |rs| == |calls| && forall i :: 0 <= i < |calls| ==> rs[i].toolCallName == calls[i].name
  {
    var runId, messageId := JsString(Get(body, "runId")), JsString(Get(body, "messageId"));
    var m := db.GetMessage(runId, messageId);
    assert m.Ok? && m.value.toolCalls.Some?;
    var calls := m.value.toolCalls.value;
    var json := ReadCallsToJson(calls);
    assert RunSpec(json, tools, storage).0.Ok?
           && ReplaySpec(db, tools, storage, body).0.results == RunSpec(json, tools, storage).0.value;
    forall i | 0 <= i < |calls|
      ensures Get(json[i], "name") == calls[i].name
    {
      ReadCallName(calls[i]);
    }
  }

  /** A recorded call naming no registered tool means there is no 200 answer. */
  lemma ReplayUnknownTool(db: Database, tools: seq<Tool>, storage: Option<Json>, body: Json, k: nat)
    requires Truthy(Get(body, "runId")) && Truthy(Get(body, "messageId"))
    requires var m := db.GetMessage(JsString(Get(body, "runId")), JsString(Get(body, "messageId")));
             m.Ok? && m.value.toolCalls.Some? && k < |m.value.toolCalls.value|
             && forall j :: 0 <= j < |tools| ==> m.value.toolCalls.value[k].name != Some(JStr(tools[j].name))
    ensures StatusCode(ReplaySpec(db, tools, storage, body).0) == 400 || StatusCode(ReplaySpec(db, tools, storage, body).0) == 500
  {
    var calls := db.GetMessage(JsString(Get(body, "runId")), JsString(Get(body, "messageId"))).value.toolCalls.value;
    var json := ReadCallsToJson(calls);
    ReadCallName(calls[k]);
    UnknownToolFailsRun(json, k, tools, storage);
  }
}
