/**
 * `restfulRunner`: POST /runs creates a run from the configured and
 * replayed messages, inserts them, answers with the run as it was created
 * (still scheduled) and then hands the run either to the configured
 * `processor` or to `processRun`. Unlike `httpRunner` it passes the
 * runner's `agentInvoke` under that name, while `processRun` reads
 * `agentInvokeFactory`: the factory it calls is undefined.
 */
module RestfulRunner {
  import opened Js
  import opened Messages
  import opened Store
  import opened LcMappers
  import opened Tools
  import opened RunProcessor
  import opened FrontEnd
  import opened TaskStatus
  import HttpRunner

  /**
   * The `processor` option, left abstract: given the run id, the messages
   * and the body's `toolsOnly` as sent, it settles or throws. It is the
   * caller's code: whatever it writes on its own is not tracked here.
   */
  type Processor = (string, seq<Json>, Option<Json>) -> Result<()>

  /** `messagesFromConfig || []`: an absent configuration contributes no messages. */
  function ConfigOrEmpty(config: Option<seq<LcValue>>): seq<LcValue>
  {
    if config.Some? then config.value else []
  }

  /** What `processRun` receives here: no factory, the runner's message mapper and replay callback. */
  function Setup(toAgent: AgentMapper, callback: ReplayCallback): AgentSetup
  {
    AgentSetup(None, toAgent, callback)
  }

  /** The catch block's writes: status `failed`, then task status "failed" without a reason. */
  function FailedWrites(runId: string): seq<Write>
  {
    [SetStatus(runId, Failed), SetTaskStatus(runId, "failed", None)]
  }

  /** The catch block around `processRun`: a throw is followed by the two failure writes. */
  function Rescued(t: Trace, runId: string): Trace
  {
    if t.result.Ok? then t else Trace(t.result, t.writes + FailedWrites(runId), t.storage)
  }

  /**
   * Everything after the response: the processor when one is configured,
   * `processRun` otherwise; any throw is caught and marks the run failed.
   */
  function SettleSpec(dialect: Dialect, codec: Codec, tools: seq<Tool>, storage: Option<Json>, runId: string,
                      messages: seq<Json>, toolsOnly: Option<Json>, processor: Option<Processor>,
                      toAgent: AgentMapper, callback: ReplayCallback): Trace
  {
    if processor.Some? then
      match processor.value(runId, messages, toolsOnly)
      case Ok(_) => Trace(Ok(()), [], storage)
      case Fail(e) => Trace(Fail(e), FailedWrites(runId), storage)
    else
      Rescued(ProcessSpec(dialect, codec, tools, storage, runId, Some(messages), Truthy(toolsOnly), Setup(toAgent, callback)), runId)
  }

  /** The catch block: after a throw, mark the run failed; after a completion, do nothing. */
  method Rescue(db: Database, runId: string, r: Result<()>)
    requires db.Valid()
    requires IndexOfRun(db.runs, runId).Some?
    modifies db
    ensures db.Valid()
    ensures db.log == old(db.log) + (if r.Ok? then [] else FailedWrites(runId))
    ensures r.Ok? ==> db.runs == old(db.runs)
    ensures r.Fail? ==> Ended(old(db.runs), db.runs, runId, Failed)
  {
    if r.Fail? {
      var marked := MarkFailed(db, runId, None);
    } else {
      assert db.log == old(db.log) + [];
    }
  }

  /** `processRun` inside the try block, on the run just created. */
  method Process(db: Database, kit: Toolkit, runId: string, messages: seq<Json>, toolsOnly: bool, setup: AgentSetup)
    returns (r: Result<()>)
    requires db.Valid()
    requires IndexOfRun(db.runs, runId).Some?
    modifies db, kit.context
    ensures db.Valid()
    ensures var t := Rescued(ProcessSpec(db.dialect, db.codec, kit.tools, old(kit.context.storage), runId,
                                         Some(messages), toolsOnly, setup), runId);
            (r, db.log, kit.context.storage) == (t.result, old(db.log) + t.writes, t.storage)
    ensures Ended(old(db.runs), db.runs, runId, if r.Ok? then Done else Failed)
  {
    ghost var t := RestSpec(db.dialect, db.codec, kit.tools, kit.context.storage, runId, Some(messages), toolsOnly, setup);
    r := ProcessRun(db, kit, runId, Some(messages), toolsOnly, setup);
    assert (r, db.log, kit.context.storage) == (t.result, old(db.log) + [SetStatus(runId, Running)] + t.writes, t.storage);
    ghost var processed := db.log;
    assert processed == old(db.log) + ([SetStatus(runId, Running)] + t.writes);
    Rescue(db, runId, r);
    ghost var p := ProcessSpec(db.dialect, db.codec, kit.tools, old(kit.context.storage), runId, Some(messages), toolsOnly, setup);
    assert p == Trace(t.result, [SetStatus(runId, Running)] + t.writes, t.storage);
    if r.Ok? {
      assert db.log == old(db.log) + p.writes;
    } else {
      assert db.log == old(db.log) + (p.writes + FailedWrites(runId));
    }
  }

  /** The processing after the response, on the run just created. */
  method Settle(db: Database, kit: Toolkit, runId: string, messages: seq<Json>, toolsOnly: Option<Json>,
                processor: Option<Processor>, toAgent: AgentMapper, callback: ReplayCallback)
    returns (r: Result<()>)
    requires db.Valid()
    requires IndexOfRun(db.runs, runId).Some?
    modifies db, kit.context
    ensures db.Valid()
    ensures var t := SettleSpec(db.dialect, db.codec, kit.tools, old(kit.context.storage), runId, messages, toolsOnly,
                                processor, toAgent, callback);
            (r, db.log, kit.context.storage) == (t.result, old(db.log) + t.writes, t.storage)
  {
    if processor.Some? {
      var handed := processor.value(runId, messages, toolsOnly);
      Rescue(db, runId, handed);
      return if handed.Ok? then Ok(()) else Fail(handed.error);
    }
    r := Process(db, kit, runId, messages, Truthy(toolsOnly), Setup(toAgent, callback));
  }

  /**
   * The writes before the response on a store whose next run id is
   * `next`: create the run, insert all the messages in one transaction;
   * the answer is the run as created. A rejected message or row throws
   * after the run is created, outside the try block.
   */
  function OpenSpec(dialect: Dialect, next: nat, messages: seq<Json>, now: int, fault: Option<nat>)
    : (HttpRunner.PostResponse, seq<Write>)
  {
    var runId := NatToString(next);
    match Validate(runId, messages, dialect == Sqlite)
    case Fail(e) => (HttpRunner.Unanswered(e), [CreatedRun(next)])
    case Ok(_) =>
      if fault.Some? && fault.value < |messages| then (HttpRunner.Unanswered(DriverError), [CreatedRun(next)])
      else (HttpRunner.Answered(HttpRunner.NewRun(dialect, next, now)), [CreatedRun(next), InsertedMessages(runId, |messages|)])
  }

  /** POST /runs once its messages are assembled: open the run, answer, then settle it. */
  function Served(dialect: Dialect, codec: Codec, next: nat, tools: seq<Tool>, storage: Option<Json>,
                  messages: seq<Json>, toolsOnly: Option<Json>, now: int, fault: Option<nat>,
                  processor: Option<Processor>, toAgent: AgentMapper, callback: ReplayCallback): HttpRunner.PostTrace
  {
    var start := OpenSpec(dialect, next, messages, now, fault);
    if start.0.Unanswered? then HttpRunner.PostTrace(start.0, start.1, storage)
    else
      var t := SettleSpec(dialect, codec, tools, storage, NatToString(next), messages, toolsOnly, processor, toAgent, callback);
      HttpRunner.PostTrace(start.0, start.1 + t.writes, t.storage)
  }

  /** POST /runs: assemble the messages (an absent configuration counts as none), then serve them. */
  function PostSpec(dialect: Dialect, codec: Codec, next: nat, tools: seq<Tool>, storage: Option<Json>,
                    config: Option<seq<LcValue>>, pupa: Template, body: Json, now: int, fault: Option<nat>,
                    processor: Option<Processor>, toAgent: AgentMapper, callback: ReplayCallback): HttpRunner.PostTrace
  {
    match Assemble(ConfigOrEmpty(config), pupa, now, body)
    case Fail(e) => HttpRunner.PostTrace(HttpRunner.Unanswered(e), [], storage)
    case Ok(messages) =>
      Served(dialect, codec, next, tools, storage, messages, Get(body, "toolsOnly"), now, fault, processor, toAgent, callback)
  }

  /** Everything before the response. */
  method Open(db: Database, messages: seq<Json>, now: int, fault: Option<nat>)
    returns (response: HttpRunner.PostResponse, runId: string)
    requires db.Valid()
    modifies db
    ensures db.Valid()
    ensures runId == NatToString(old(db.nextRunId))
    ensures var o := OpenSpec(db.dialect, old(db.nextRunId), messages, now, fault);
            (response, db.log) == (o.0, old(db.log) + o.1)
    ensures response.Answered? ==> IndexOfRun(db.runs, runId).Some?
  {
    ghost var next := db.nextRunId;
    runId := db.CreateRun(now);
    assert db.Accepts(runId, |messages|, fault) <==> fault.None? || fault.value >= |messages|;
    ghost var created := db.log;
    var inserted := db.InsertMessages(runId, messages, fault);
    if inserted.Fail? {
      assert db.log == created;
      return HttpRunner.Unanswered(inserted.error), runId;
    }
    assert db.log == old(db.log) + [CreatedRun(next), InsertedMessages(runId, |messages|)];
    var run := db.GetRun(runId);
    assert run.value == HttpRunner.NewRun(db.dialect, next, now);
    assert Validate(runId, messages, db.dialect == Sqlite).Ok? && !(fault.Some? && fault.value < |messages|);
    response := HttpRunner.Answered(run.value);
  }

  /** Everything after the messages are assembled: open the run, then settle it once answered. */
  method Serve(db: Database, kit: Toolkit, messages: seq<Json>, toolsOnly: Option<Json>, now: int,
               fault: Option<nat>, processor: Option<Processor>, toAgent: AgentMapper, callback: ReplayCallback)
    returns (response: HttpRunner.PostResponse)
    requires db.Valid()
    modifies db, kit.context
    ensures db.Valid()
    ensures var s := Served(db.dialect, db.codec, old(db.nextRunId), kit.tools, old(kit.context.storage), messages,
                            toolsOnly, now, fault, processor, toAgent, callback);
            (response, db.log, kit.context.storage) == (s.response, old(db.log) + s.writes, s.storage)
  {
    ghost var next, storage := db.nextRunId, kit.context.storage;
    ghost var o := OpenSpec(db.dialect, next, messages, now, fault);
    ghost var t := SettleSpec(db.dialect, db.codec, kit.tools, storage, NatToString(next), messages, toolsOnly,
                              processor, toAgent, callback);
    var runId;
    response, runId := Open(db, messages, now, fault);
    if response.Unanswered? {
      return;
    }
    assert kit.context.storage == storage;
    var settled := Settle(db, kit, runId, messages, toolsOnly, processor, toAgent, callback);
    assert db.log == old(db.log) + (o.1 + t.writes);
  }

  /**
   * The POST /runs handler. `now` is the single `Date.now()` reading of the
   * request, `fault` the first row the driver rejects (if any); `toAgent`
   * and `callback` are the runner's `toAgentMessage` and replay callback.
   */
  method PostRuns(db: Database, kit: Toolkit, config: Option<seq<LcValue>>, pupa: Template, body: Json,
                  now: int, fault: Option<nat>, processor: Option<Processor>, toAgent: AgentMapper,
                  callback: ReplayCallback) returns (response: HttpRunner.PostResponse)
    requires db.Valid()
    modifies db, kit.context
    ensures db.Valid()
    ensures var s := PostSpec(db.dialect, db.codec, old(db.nextRunId), kit.tools, old(kit.context.storage),
                              config, pupa, body, now, fault, processor, toAgent, callback);
            (response, db.log, kit.context.storage) == (s.response, old(db.log) + s.writes, s.storage)
  {
    var assembled := Assemble(ConfigOrEmpty(config), pupa, now, body);
    if assembled.Fail? {
      assert db.log + [] == db.log;
      return HttpRunner.Unanswered(assembled.error);
    }
    response := Serve(db, kit, assembled.value, Get(body, "toolsOnly"), now, fault, processor, toAgent, callback);
  }

  // ---------------------------------------------------------------- properties of POST /runs

  /**
   * An answered request has created the run and inserted all its messages,
   * and answers with the run still scheduled: the `running` write, if any,
   * comes after the response, from `processRun`.
   */
  lemma AnsweredRunIsScheduled(dialect: Dialect, codec: Codec, next: nat, tools: seq<Tool>, storage: Option<Json>,
                               config: Option<seq<LcValue>>, pupa: Template, body: Json, now: int,
                               fault: Option<nat>, processor: Option<Processor>, toAgent: AgentMapper,
                               callback: ReplayCallback)
    requires PostSpec(dialect, codec, next, tools, storage, config, pupa, body, now, fault, processor, toAgent, callback).response.Answered?
    ensures Assemble(ConfigOrEmpty(config), pupa, now, body).Ok?
    ensures var s := PostSpec(dialect, codec, next, tools, storage, config, pupa, body, now, fault, processor, toAgent, callback);
            var runId := NatToString(next);
            var messages := Assemble(ConfigOrEmpty(config), pupa, now, body).value;
            var t := SettleSpec(dialect, codec, tools, storage, runId, messages, Get(body, "toolsOnly"), processor, toAgent, callback);
            s.response.run == HttpRunner.NewRun(dialect, next, now) && s.response.run.status == Scheduled
            && s.writes == [CreatedRun(next), InsertedMessages(runId, |messages|)] + t.writes
            && s.storage == t.storage
  {
    var messages := Assemble(ConfigOrEmpty(config), pupa, now, body).value;
    var o := OpenSpec(dialect, next, messages, now, fault);
    assert o.0.Answered?;
  }

  /** A request whose messages cannot be stored is never answered and nothing processes the new run. */
  lemma UnstoredRunIsUnanswered(dialect: Dialect, codec: Codec, next: nat, tools: seq<Tool>, storage: Option<Json>,
                                config: Option<seq<LcValue>>, pupa: Template, body: Json, now: int,
                                fault: Option<nat>, processor: Option<Processor>, toAgent: AgentMapper,
                                callback: ReplayCallback)
    requires Assemble(ConfigOrEmpty(config), pupa, now, body).Ok?
    requires var messages := Assemble(ConfigOrEmpty(config), pupa, now, body).value;
             Validate(NatToString(next), messages, dialect == Sqlite).Fail? || (fault.Some? && fault.value < |messages|)
    ensures var s := PostSpec(dialect, codec, next, tools, storage, config, pupa, body, now, fault, processor, toAgent, callback);
            s.response.Unanswered? && s.writes == [CreatedRun(next)] && s.storage == storage
  {
  }

  /**
   * Without a processor, a run that is not tools-only always ends failed:
   * either a message or a tool throws, or the undefined factory is called
   * and throws a TypeError. Its writes are `running`, any batches, then
   * `failed` and "failed".
   */
  lemma AgentRunsFail(dialect: Dialect, codec: Codec, tools: seq<Tool>, storage: Option<Json>, runId: string,
                      messages: seq<Json>, toolsOnly: Option<Json>, toAgent: AgentMapper, callback: ReplayCallback)
    requires !Truthy(toolsOnly)
    ensures var t := SettleSpec(dialect, codec, tools, storage, runId, messages, toolsOnly, None, toAgent, callback);
            t.result.Fail? && |t.writes| >= 3 && t.writes[0] == SetStatus(runId, Running)
            && t.writes[|t.writes| - 2..] == FailedWrites(runId)
  {
    var p := PhasesSpec(dialect, true, tools, storage, runId, Some(messages), false, Setup(toAgent, callback));
    assert p.0.Fail?;
  }

  /**
   * With every message mapped and every tool succeeding, a run without a
   * processor reaches the undefined factory: the TypeError is caught, the
   * run is marked failed, and the tools' context is kept.
   */
  lemma MappedRunFailsAtFactory(dialect: Dialect, codec: Codec, tools: seq<Tool>, storage: Option<Json>, runId: string,
                                messages: seq<Json>, toolsOnly: Option<Json>, toAgent: AgentMapper, callback: ReplayCallback)
    requires !Truthy(toolsOnly)
    requires forall i :: 0 <= i < |messages| ==> toAgent(messages[i]).Ok?
    requires CallLists(messages).Ok? && RunSpec(Flatten(CallLists(messages).value), tools, storage).0.Ok?
    ensures SettleSpec(dialect, codec, tools, storage, runId, messages, toolsOnly, None, toAgent, callback)
            == Trace(Fail(TypeError), [SetStatus(runId, Running)] + FailedWrites(runId),
                     RunSpec(Flatten(CallLists(messages).value), tools, storage).1)
  {
    PhaseIsOneRun(KeptToolCalls(messages).value, tools, storage);
  }

  /**
   * Without a processor a tools-only run whose tools all succeed is
   * completed with the default verdict, as `processRun` does.
   */
  lemma ToolsOnlyRunCompletes(dialect: Dialect, codec: Codec, tools: seq<Tool>, storage: Option<Json>, runId: string,
                              messages: seq<Json>, toolsOnly: Option<Json>, toAgent: AgentMapper, callback: ReplayCallback)
    requires Truthy(toolsOnly)
    requires CallLists(messages).Ok?
    requires RunSpec(Flatten(CallLists(messages).value), tools, storage).0.Ok?
    ensures SettleSpec(dialect, codec, tools, storage, runId, messages, toolsOnly, None, toAgent, callback)
            == Trace(Ok(()),
                     [SetStatus(runId, Running), SetStatus(runId, Done),
                      SetTaskStatus(runId, Unknown.taskStatus, Some(Unknown.reason))],
                     RunSpec(Flatten(CallLists(messages).value), tools, storage).1)
  {
    ToolsOnlyIsUnknown(dialect, codec, tools, storage, runId, messages, Setup(toAgent, callback));
  }

  /**
   * With a processor, the runner itself writes nothing after the response
   * unless the processor throws, and then exactly the two failure writes;
   * the runner never touches the tools' context. What the processor writes
   * on its own is outside the model.
   */
  lemma ProcessorOnlyMarksFailure(dialect: Dialect, codec: Codec, tools: seq<Tool>, storage: Option<Json>, runId: string,
                                  messages: seq<Json>, toolsOnly: Option<Json>, processor: Processor,
                                  toAgent: AgentMapper, callback: ReplayCallback)
    ensures var t := SettleSpec(dialect, codec, tools, storage, runId, messages, toolsOnly, Some(processor), toAgent, callback);
            var handed := processor(runId, messages, toolsOnly);
            t.storage == storage && (t.result.Ok? <==> handed.Ok?) && (handed.Fail? ==> t.result == handed)
            && t.writes == (if t.result.Ok? then [] else FailedWrites(runId))
  {
  }

  /** An absent configuration behaves exactly like an empty one. */
  lemma AbsentConfigIsEmpty(dialect: Dialect, codec: Codec, next: nat, tools: seq<Tool>, storage: Option<Json>,
                            pupa: Template, body: Json, now: int, fault: Option<nat>,
                            processor: Option<Processor>, toAgent: AgentMapper, callback: ReplayCallback)
    ensures PostSpec(dialect, codec, next, tools, storage, None, pupa, body, now, fault, processor, toAgent, callback)
            == PostSpec(dialect, codec, next, tools, storage, Some([]), pupa, body, now, fault, processor, toAgent, callback)
    ensures Assemble(ConfigOrEmpty(None), pupa, now, body) == ReplayPart(body)
  {
    assert ConfigMessages([], pupa, Get(body, "parameters"), now) == Ok([]);
    var replay := Get(body, "replayMessages");
    if Truthy(replay) && Iterated(replay.value).Ok? {
      assert [] + Iterated(replay.value).value == Iterated(replay.value).value;
    }
  }
}
