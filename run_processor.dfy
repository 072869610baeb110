/**
 * `processRun`: mark the run running, replay every tool call recorded in
 * the run's messages, hand the messages to the agent unless only tools are
 * asked for (storing what the agent produces through the replay callback),
 * then mark the run done with the task status read from the agent's result.
 */
module RunProcessor {
  import opened Js
  import opened Messages
  import opened LcMappers
  import opened Store
  import opened Tools
  import opened TaskStatus

  // ---------------------------------------------------------------- the agent

  /** What the agent's promise resolves to, as seen by `processRun`. */
  datatype AgentOutput =
    | NoOutput                                                        // undefined, null, false, 0 or ""
    | PrimitiveOutput                                                 // any other non-object
    | RecordOutput(status: Option<Json>, messages: Option<seq<LcValue>>)  // `messages` holds an array, if any

  /** The `outputs` a LangChain chain hands to `handleChainEnd`. */
  datatype ChainOutputs =
    | NoMessages                                  // no "messages" key
    | NonArrayMessages                            // a "messages" value without `.map`
    | MessageList(items: seq<LcValue>, at: int)   // an array of messages, mapped at time `at`

  /** One agent invocation: the chains it ends, in order, and how it settles. */
  datatype AgentRun = AgentRun(chainEnds: seq<ChainOutputs>, outcome: Result<AgentOutput>)

  /** The function `agentInvokeFactory` resolves to, left abstract. */
  datatype Agent = Agent(invoke: seq<LcOut> -> AgentRun)

  /** `result && typeof result === "object" && "messages" in result && Array.isArray(result.messages)`. */
  function ResultMessages(o: AgentOutput): (r: seq<LcValue>)
    ensures !(o.RecordOutput? && o.messages.Some?) ==> r == []
  {
    if o.RecordOutput? && o.messages.Some? then o.messages.value else []
  }

  // ---------------------------------------------------------------- tool phase

  /**
   * The `length` of a truthy `toolCalls` value: a string's or an array's
   * size, an object's own `length` key; a number or boolean has none.
   */
  function LengthOf(v: Json): (r: Option<Json>)
    ensures v.JStr? ==> r == Some(JNum(|v.s|))
    ensures v.JArr? ==> r == Some(JNum(|v.items|))
    ensures v.JObj? ==> r == Get(v, "length")
    ensures v.JNull? || v.JBool? || v.JNum? ==> r.None?
  {
    match v
    case JStr(s) => Some(JNum(|s|))
    case JArr(items) => Some(JNum(|items|))
    case JObj(_) => Get(v, "length")
    case _ => None
  }

  /**
   * The filter `message.toolCalls && message.toolCalls.length > 0`, with
   * JavaScript's `>`: reading `.toolCalls` of null throws; a non-empty
   * array or string passes; an object passes when its `length` compares
   * above 0 (1, "1", true and [1] do); nothing else passes.
   */
  function HasToolCalls(m: Json): (r: Result<bool>)
    ensures r.Fail? <==> m.JNull?
    ensures r.Fail? ==> r.error == TypeError
    ensures r == Ok(true) ==> Truthy(Get(m, "toolCalls"))
    ensures !m.JNull? && !Truthy(Get(m, "toolCalls")) ==> r == Ok(false)
    ensures Get(m, "toolCalls").Some? && Get(m, "toolCalls").value.JArr? ==> r == Ok(|Get(m, "toolCalls").value.items| > 0)
    ensures Get(m, "toolCalls").Some? && Get(m, "toolCalls").value.JStr? ==> r == Ok(|Get(m, "toolCalls").value.s| > 0)
    ensures Get(m, "toolCalls").Some? && (Get(m, "toolCalls").value.JNum? || Get(m, "toolCalls").value.JBool?) ==> r == Ok(false)
    ensures Get(m, "toolCalls").Some? && Get(m, "toolCalls").value.JObj? ==>
              var f := Get(m, "toolCalls").value.fields;
              r == Ok("length" in f && GreaterThanZero(f["length"]))
  {
    if m.JNull? then Fail(TypeError)
    else
      var tc := Get(m, "toolCalls");
      Ok(Truthy(tc) && var l := LengthOf(tc.value); l.Some? && GreaterThanZero(l.value))
  }

  /**
   * `messages.filter(...)`: the `toolCalls` of every message it keeps, in
   * message order. A null message throws before any tool runs.
   */
  function KeptToolCalls(messages: seq<Json>): (r: Result<seq<Json>>)
    ensures r.Fail? <==> exists i :: 0 <= i < |messages| && messages[i].JNull?
    ensures r.Fail? ==> r.error == TypeError
    ensures r.Ok? ==> |r.value| <= |messages|
    ensures r.Ok? ==> forall i :: 0 <= i < |messages| && HasToolCalls(messages[i]) == Ok(true) ==> Get(messages[i], "toolCalls").value in r.value
    ensures r.Ok? ==> forall v :: v in r.value ==> exists i :: 0 <= i < |messages| && HasToolCalls(messages[i]) == Ok(true)
                                                              && Get(messages[i], "toolCalls") == Some(v)
    decreases |messages|
  {
    if messages == [] then Ok([])
    else
      var n := |messages| - 1;
      match KeptToolCalls(messages[..n])
      case Fail(e) => Fail(e)
      case Ok(init) =>
        match HasToolCalls(messages[n])
        case Fail(e) => Fail(e)
        case Ok(keep) => Ok(if keep then init + [Get(messages[n], "toolCalls").value] else init)
  }

  /** The call list each kept `toolCalls` value iterates to, when all of them are iterable. */
  function CallLists(messages: seq<Json>): (r: Result<seq<seq<Json>>>)
    ensures r.Ok? ==> KeptToolCalls(messages).Ok? && |r.value| == |KeptToolCalls(messages).value|
    ensures r.Ok? ==> forall i :: 0 <= i < |r.value| ==> Iterated(KeptToolCalls(messages).value[i]) == Ok(r.value[i])
    ensures KeptToolCalls(messages).Ok? ==>
              (r.Ok? <==> forall i :: 0 <= i < |KeptToolCalls(messages).value| ==> Iterated(KeptToolCalls(messages).value[i]).Ok?)
  {
    match KeptToolCalls(messages)
    case Fail(e) => Fail(e)
    case Ok(kept) => MapAll(kept, Iterated)
  }

  function Flatten(lists: seq<seq<Json>>): (r: seq<Json>)
    decreases |lists|
  {
    if lists == [] then [] else Flatten(lists[..|lists| - 1]) + lists[|lists| - 1]
  }

  /**
   * The tool loop of `processRun`: `executeTools` once per kept message, in
   * message order, on the shared context; iterating a `toolCalls` value
   * that is not iterable throws only when its turn comes. The first throw
   * ends the phase; the pair is the error, if any, and the context
   * afterwards.
   */
  function PhaseSpec(kept: seq<Json>, tools: seq<Tool>, storage: Option<Json>): (r: (Option<Error>, Option<Json>))
    ensures kept == [] ==> r == (None, storage)
    decreases |kept|
  {
    if kept == [] then (None, storage)
    else
      var n := |kept| - 1;
      var before := PhaseSpec(kept[..n], tools, storage);
      if before.0.Some? then before
      else
        match Iterated(kept[n])
        case Fail(e) => (Some(e), before.1)
        case Ok(calls) =>
          var run := RunSpec(calls, tools, before.1);
          (if run.0.Fail? then Some(run.0.error) else None, run.1)
  }

  /**
   * When every kept value is iterable, replaying message by message is
   * replaying all their calls as one list: the same first error and the
   * same final context.
   */
  lemma {:induction false} PhaseIsOneRun(kept: seq<Json>, tools: seq<Tool>, storage: Option<Json>)
    requires MapAll(kept, Iterated).Ok?
    ensures var phase := PhaseSpec(kept, tools, storage);
            var run := RunSpec(Flatten(MapAll(kept, Iterated).value), tools, storage);
            phase.1 == run.1
            && (phase.0.None? <==> run.0.Ok?)
            && (run.0.Fail? ==> phase.0 == Some(run.0.error))
    decreases |kept|
  {
    if kept != [] {
      var n := |kept| - 1;
      var lists := MapAll(kept, Iterated).value;
      IteratedPrefix(kept, n);
      var init := Flatten(lists[..n]);
      assert Flatten(lists) == init + lists[n];
      PhaseIsOneRun(kept[..n], tools, storage);
      RunSpecAppend(init, lists[n], tools, storage);
    }
  }

  /** The call lists of a prefix of the kept values are a prefix of their call lists. */
  lemma IteratedPrefix(kept: seq<Json>, n: nat)
    requires n <= |kept| && MapAll(kept, Iterated).Ok?
    ensures MapAll(kept[..n], Iterated).Ok?
    ensures MapAll(kept[..n], Iterated).value == MapAll(kept, Iterated).value[..n]
  {
    assert forall i :: 0 <= i < n ==> kept[..n][i] == kept[i];
  }

  /**
   * A kept `toolCalls` value that is not iterable (an object whose
   * `length` compares above 0) throws a TypeError at its own turn: every
   * earlier message's tools have run, and the context they left stays.
   */
  lemma LateTypeError(kept: seq<Json>, j: nat, tools: seq<Tool>, storage: Option<Json>)
    requires j < |kept| && MapAll(kept[..j], Iterated).Ok?
    requires RunSpec(Flatten(MapAll(kept[..j], Iterated).value), tools, storage).0.Ok?
    requires !kept[j].JArr? && !kept[j].JStr?
    ensures PhaseSpec(kept, tools, storage) == (Some(TypeError), RunSpec(Flatten(MapAll(kept[..j], Iterated).value), tools, storage).1)
  {
    PhaseIsOneRun(kept[..j], tools, storage);
    assert kept[..j + 1][..j] == kept[..j];
    PhaseAborts(kept, j + 1, tools, storage);
  }

  /** The tool loop, on the toolkit's context. */
  method RunToolPhase(kept: seq<Json>, kit: Toolkit) returns (err: Option<Error>)
    modifies kit.context
    ensures (err, kit.context.storage) == PhaseSpec(kept, kit.tools, old(kit.context.storage))
  {
    var i := 0;
    while i < |kept|
      invariant 0 <= i <= |kept|
      invariant PhaseSpec(kept[..i], kit.tools, old(kit.context.storage)) == (None, kit.context.storage)
    {
      assert kept[..i + 1][..i] == kept[..i];
      var calls := Iterated(kept[i]);
      if calls.Fail? {
        PhaseAborts(kept, i + 1, kit.tools, old(kit.context.storage));
        return Some(calls.error);
      }
      var results := ExecuteTools(calls.value, kit);
      if results.Fail? {
        PhaseAborts(kept, i + 1, kit.tools, old(kit.context.storage));
        return Some(results.error);
      }
      i := i + 1;
    }
    assert kept[..i] == kept;
    return None;
  }

  /** A failing prefix fixes the outcome of the whole phase. */
  lemma {:induction false} PhaseAborts(kept: seq<Json>, k: nat, tools: seq<Tool>, storage: Option<Json>)
    requires k <= |kept|
    requires PhaseSpec(kept[..k], tools, storage).0.Some?
    ensures PhaseSpec(kept, tools, storage) == PhaseSpec(kept[..k], tools, storage)
    decreases |kept| - k
  {
    if k < |kept| {
      var n := |kept| - 1;
      assert kept[..n][..k] == kept[..k];
      PhaseAborts(kept[..n], k, tools, storage);
    } else {
      assert kept[..k] == kept;
    }
  }

  // ---------------------------------------------------------------- replay callback

  /** A batch a replay callback inserts for the run, with the time its rows were mapped. */
  datatype Batch = Batch(rows: seq<Json>, at: int)

  /**
   * A replay callback (what `replayCallbackFactory` builds), seen through
   * its effect: on each chain end, the batch it inserts into the run's
   * messages, or none when it returns early or throws before inserting.
   */
  type ReplayCallback = ChainOutputs -> Option<Batch>

  /**
   * `lcReplayCallbackFactory`: `outputs.messages.map(lcToDbMessage)` when
   * there are messages. A batch comes exactly for a message list whose
   * every message maps, one row per message in order, each as
   * `lcToDbMessage` makes it; outputs without a message array write nothing.
   */
  function LcCallback(end: ChainOutputs): (r: Option<Batch>)
    ensures r.Some? <==> end.MessageList? && forall i :: 0 <= i < |end.items| ==> LcToDbMessage(end.items[i], end.at).Ok?
    ensures r.Some? ==> r.value.at == end.at && |r.value.rows| == |end.items|
                        && forall i :: 0 <= i < |end.items| ==> LcToDbMessage(end.items[i], end.at) == Ok(r.value.rows[i])
  {
    match end
    case MessageList(items, at) =>
      (match MapAll(items, (v: LcValue) => LcToDbMessage(v, at))
       case Ok(rows) => Some(Batch(rows, at))
       case Fail(_) => None)
    case _ => None
  }

  /** Every row of a batch, merged with the run id, passes the message schema. */
  predicate Admissible(runId: string, rows: seq<Json>, withTimestamp: bool)
  {
    forall i :: 0 <= i < |rows| ==> ParseMessage(Merged(runId, rows[i]), withTimestamp).Some?
  }

  /**
   * Whether the store keeps a batch: every row validates, and PostgreSQL
   * also needs the run to exist (`linked`) for a non-empty batch.
   */
  predicate Stored(dialect: Dialect, linked: bool, runId: string, b: Option<Batch>)
  {
    b.Some? && Admissible(runId, b.value.rows, dialect == Sqlite)
    && (dialect == Postgres && |b.value.rows| > 0 ==> linked)
  }

  /** What one chain end writes: the batch, if the store keeps it. Its errors never reach the agent. */
  function ChainWrites(dialect: Dialect, linked: bool, runId: string, b: Option<Batch>): (w: seq<Write>)
  {
    if Stored(dialect, linked, runId, b) then [InsertedMessages(runId, |b.value.rows|)] else []
  }

  /** The writes of several chain ends, in order. */
  function EndsWrites(dialect: Dialect, linked: bool, runId: string, callback: ReplayCallback, ends: seq<ChainOutputs>)
    : (w: seq<Write>)
    ensures forall k :: 0 <= k < |w| ==> w[k].InsertedMessages? && w[k].runId == runId
    decreases |ends|
  {
    if ends == [] then []
    else
      var n := |ends| - 1;
      EndsWrites(dialect, linked, runId, callback, ends[..n]) + ChainWrites(dialect, linked, runId, callback(ends[n]))
  }

  /** `handleChainEnd`: insert the callback's batch; a throw inside it is swallowed. */
  method HandleChainEnd(db: Database, runId: string, callback: ReplayCallback, end: ChainOutputs, ghost linked: bool)
    requires db.Valid()
    requires linked == IndexOfRun(db.runs, runId).Some?
    modifies db
    ensures db.Valid()
    ensures db.runs == old(db.runs)
    ensures db.log == old(db.log) + ChainWrites(db.dialect, linked, runId, callback(end))
  {
    var b := callback(end);
    if b.Some? {
      ValidateAcceptsIff(runId, b.value.rows, db.dialect == Sqlite);
      var _ := db.InsertMessages(runId, b.value.rows, None);
    }
  }

  /** The callback on each chain end, in the order the agent ends them. */
  method ReplayChainEnds(db: Database, runId: string, callback: ReplayCallback, ends: seq<ChainOutputs>, ghost linked: bool)
    requires db.Valid()
    requires linked == IndexOfRun(db.runs, runId).Some?
    modifies db
    ensures db.Valid()
    ensures db.runs == old(db.runs)
    ensures db.log == old(db.log) + EndsWrites(db.dialect, linked, runId, callback, ends)
    decreases |ends|
  {
    if ends != [] {
      var n := |ends| - 1;
      ReplayChainEnds(db, runId, callback, ends[..n], linked);
      HandleChainEnd(db, runId, callback, ends[n], linked);
    }
  }

  // ---------------------------------------------------------------- agent phase

  /** `toAgentMessage`: how a stored message becomes one the agent reads; the runners pass `toLcMessage`. */
  type AgentMapper = Json -> Result<LcOut>

  /**
   * What `processRun` is given for the agent: the function the factory
   * resolves to (None: not a function, so calling it throws), the message
   * mapper, and the replay callback.
   */
  datatype AgentSetup = AgentSetup(factory: Option<Agent>, toAgent: AgentMapper, callback: ReplayCallback)

  /**
   * How the agent phase settles: the first message the mapper throws on
   * ends it with that error; otherwise a missing factory throws, and an
   * agent settles as it does.
   */
  function AgentOutcome(messages: seq<Json>, toAgent: AgentMapper, agent: Option<Agent>): (r: Result<AgentOutput>)
    ensures (exists i :: 0 <= i < |messages| && toAgent(messages[i]).Fail?) ==>
              r.Fail? && exists i :: 0 <= i < |messages| && toAgent(messages[i]) == Fail(r.error)
    ensures (forall i :: 0 <= i < |messages| ==> toAgent(messages[i]).Ok?) && agent.None? ==> r == Fail(TypeError)
  {
    match MapAll(messages, toAgent)
    case Fail(e) => Fail(e)
    case Ok(lc) => if agent.None? then Fail(TypeError) else agent.value.invoke(lc).outcome
  }

  /** The chains the agent ends before it settles (none when it is never invoked). */
  function AgentEnds(messages: seq<Json>, toAgent: AgentMapper, agent: Option<Agent>): (r: seq<ChainOutputs>)
    ensures agent.None? ==> r == []
    ensures (exists i :: 0 <= i < |messages| && toAgent(messages[i]).Fail?) ==> r == []
  {
    match MapAll(messages, toAgent)
    case Fail(_) => []
    case Ok(lc) => if agent.None? then [] else agent.value.invoke(lc).chainEnds
  }

  /**
   * The agent phase: map the messages with `toLcMessage`, build the replay
   * callback, call the factory, invoke the agent; every chain end the agent
   * reports runs the callback before the agent settles.
   */
  method AgentPhase(db: Database, runId: string, messages: seq<Json>, setup: AgentSetup, ghost linked: bool)
    returns (r: Result<AgentOutput>)
    requires db.Valid()
    requires linked == IndexOfRun(db.runs, runId).Some?
    modifies db
    ensures db.Valid()
    ensures db.runs == old(db.runs)
    ensures r == AgentOutcome(messages, setup.toAgent, setup.factory)
    ensures db.log == old(db.log) + EndsWrites(db.dialect, linked, runId, setup.callback, AgentEnds(messages, setup.toAgent, setup.factory))
  {
    var lc := MapAll(messages, setup.toAgent);
    if lc.Fail? {
      return Fail(lc.error);
    }
    if setup.factory.None? {
      return Fail(TypeError);
    }
    var run := setup.factory.value.invoke(lc.value);
    ReplayChainEnds(db, runId, setup.callback, run.chainEnds, linked);
    return run.outcome;
  }

  // ---------------------------------------------------------------- processRun

  /** What one processing of an existing run returns, writes and leaves in the context. */
  datatype Trace = Trace(result: Result<()>, writes: seq<Write>, storage: Option<Json>)

  /** The verdict of a finished run: from the agent's messages, or the default when only tools ran. */
  function RunVerdict(codec: Codec, toolsOnly: bool, output: AgentOutput): Verdict
  {
    ExtractTaskStatus(codec, if toolsOnly then [] else ResultMessages(output))
  }

  /**
   * Everything between the `running` write and the `done` write: the
   * filter, the tool loop, then the agent unless `toolsOnly`. The triple is
   * the agent's output (NoOutput when it is not consulted) or the first
   * throw, the writes made, and the context afterwards.
   */
  function PhasesSpec(dialect: Dialect, linked: bool, tools: seq<Tool>, storage: Option<Json>,
                      runId: string, messages: Option<seq<Json>>, toolsOnly: bool, setup: AgentSetup)
    : (r: (Result<AgentOutput>, seq<Write>, Option<Json>))
    ensures forall k :: 0 <= k < |r.1| ==> r.1[k].InsertedMessages? && r.1[k].runId == runId
  {
    if messages.None? then (Fail(TypeError), [], storage)
    else
      match KeptToolCalls(messages.value)
      case Fail(e) => (Fail(e), [], storage)
      case Ok(kept) =>
        var phase := PhaseSpec(kept, tools, storage);
        if phase.0.Some? then (Fail(phase.0.value), [], phase.1)
        else if toolsOnly then (Ok(NoOutput), [], phase.1)
        else (AgentOutcome(messages.value, setup.toAgent, setup.factory),
              EndsWrites(dialect, linked, runId, setup.callback, AgentEnds(messages.value, setup.toAgent, setup.factory)),
              phase.1)
  }

  /** The phases of `processRun`, on the database and the toolkit's context. */
  method Phases(db: Database, kit: Toolkit, runId: string, messages: Option<seq<Json>>,
                toolsOnly: bool, setup: AgentSetup, ghost linked: bool) returns (r: Result<AgentOutput>)
    requires db.Valid()
    requires linked == IndexOfRun(db.runs, runId).Some?
    modifies db, kit.context
    ensures db.Valid()
    ensures db.runs == old(db.runs)
    ensures var p := PhasesSpec(db.dialect, linked, kit.tools, old(kit.context.storage), runId, messages, toolsOnly, setup);
            r == p.0 && db.log == old(db.log) + p.1 && kit.context.storage == p.2
  {
    if messages.None? {
      return Fail(TypeError);
    }
    var kept := KeptToolCalls(messages.value);
    if kept.Fail? {
      return Fail(kept.error);
    }
    var err := RunToolPhase(kept.value, kit);
    if err.Some? {
      return Fail(err.value);
    }
    if toolsOnly {
      return Ok(NoOutput);
    }
    r := AgentPhase(db, runId, messages.value, setup, linked);
  }

  /**
   * `processRun` on a run that exists, after its `running` write. A throw
   * leaves the run `running`; only a run that reaches the end gets `done`
   * and a task status.
   */
  function RestSpec(dialect: Dialect, codec: Codec, tools: seq<Tool>, storage: Option<Json>,
                    runId: string, messages: Option<seq<Json>>, toolsOnly: bool, setup: AgentSetup): Trace
  {
    var p := PhasesSpec(dialect, true, tools, storage, runId, messages, toolsOnly, setup);
    match p.0
    case Fail(e) => Trace(Fail(e), p.1, p.2)
    case Ok(out) =>
      var v := RunVerdict(codec, toolsOnly, out);
      Trace(Ok(()), p.1 + [SetStatus(runId, Done), SetTaskStatus(runId, v.taskStatus, Some(v.reason))], p.2)
  }

  /**
   * `processRun` on a run that exists: the `running` write, then the rest.
   * A run that completes ends with `done` and then its task status with a
   * reason; a run that throws is never marked done and gets no task status.
   * In between there are only the agent's message batches for this run.
   */
  function ProcessSpec(dialect: Dialect, codec: Codec, tools: seq<Tool>, storage: Option<Json>,
                       runId: string, messages: Option<seq<Json>>, toolsOnly: bool, setup: AgentSetup): (r: Trace)
    ensures r.writes != [] && r.writes[0] == SetStatus(runId, Running)
    ensures r.result.Fail? ==> forall k :: 1 <= k < |r.writes| ==> r.writes[k].InsertedMessages? && r.writes[k].runId == runId
    ensures r.result.Ok? ==>
              var w := r.writes;
              |w| >= 3
              && w[|w| - 2] == SetStatus(runId, Done)
              && w[|w| - 1].SetTaskStatus? && w[|w| - 1].runId == runId && w[|w| - 1].reason.Some?
              && forall k :: 1 <= k < |w| - 2 ==> w[k].InsertedMessages? && w[k].runId == runId
  {
    var t := RestSpec(dialect, codec, tools, storage, runId, messages, toolsOnly, setup);
    Trace(t.result, [SetStatus(runId, Running)] + t.writes, t.storage)
  }

  /** The processing of the run `runId`: an unknown run throws "Run not found" before anything else. */
  method ProcessRun(db: Database, kit: Toolkit, runId: string, messages: Option<seq<Json>>,
                    toolsOnly: bool, setup: AgentSetup) returns (r: Result<()>)
    requires db.Valid()
    modifies db, kit.context
    ensures db.Valid()
    ensures if old(IndexOfRun(db.runs, runId)).None? then
              (r, db.runs, db.log, kit.context.storage) == (Fail(RunNotFound), old(db.runs), old(db.log), old(kit.context.storage))
            else
              var t := RestSpec(db.dialect, db.codec, kit.tools, old(kit.context.storage), runId, messages, toolsOnly, setup);
              (r, db.log, kit.context.storage) == (t.result, old(db.log) + [SetStatus(runId, Running)] + t.writes, t.storage)
    ensures old(IndexOfRun(db.runs, runId)).Some? ==> Settled(old(db.runs), db.runs, runId, r)
  {
    var started := db.UpdateRunStatus(runId, Running);
    if started.Fail? {
      return Fail(started.error);
    }
    IndexOfRunKeepsIds(old(db.runs), db.runs, runId);
    assert kit.context.storage == old(kit.context.storage);
    r := ProcessRest(db, kit, runId, messages, toolsOnly, setup);
  }

  /**
   * The run `runId` keeps its place and its id, no run is added or
   * removed, and the run is left `running`
   * after a throw and `done` after a completed processing.
   */
  ghost predicate Settled(before: seq<Run>, after: seq<Run>, runId: string, r: Result<()>)
  {
    IndexOfRun(before, runId).Some? && IndexOfRun(after, runId) == IndexOfRun(before, runId)
    && |after| == |before|
    && var i := IndexOfRun(before, runId).value;
       i < |after| && after[i].id == before[i].id
       && after[i].status == (if r.Ok? then Done else Running)
  }

  /** Everything after the `running` write, on a run that exists. */
  method ProcessRest(db: Database, kit: Toolkit, runId: string, messages: Option<seq<Json>>,
                     toolsOnly: bool, setup: AgentSetup) returns (r: Result<()>)
    requires db.Valid()
    requires IndexOfRun(db.runs, runId).Some? && db.runs[IndexOfRun(db.runs, runId).value].status == Running
    modifies db, kit.context
    ensures db.Valid()
    ensures var t := RestSpec(db.dialect, db.codec, kit.tools, old(kit.context.storage), runId, messages, toolsOnly, setup);
            (r, db.log, kit.context.storage) == (t.result, old(db.log) + t.writes, t.storage)
    ensures Settled(old(db.runs), db.runs, runId, r)
  {
    var output := Phases(db, kit, runId, messages, toolsOnly, setup, true);
    if output.Fail? {
      return Fail(output.error);
    }
    ghost var afterPhases := db.log;
    var v := RunVerdict(db.codec, toolsOnly, output.value);
    Finish(db, runId, v);
    ghost var closing := [SetStatus(runId, Done), SetTaskStatus(runId, v.taskStatus, Some(v.reason))];
    assert afterPhases + closing == old(db.log) + (afterPhases[|old(db.log)|..] + closing);
    return Ok(());
  }

  /** The two closing writes: `done`, then the task status with its reason. */
  method Finish(db: Database, runId: string, v: Verdict)
    requires db.Valid()
    requires IndexOfRun(db.runs, runId).Some?
    modifies db
    ensures db.Valid()
    ensures |db.runs| == |old(db.runs)|
    ensures IndexOfRun(db.runs, runId) == old(IndexOfRun(db.runs, runId))
    ensures var i := IndexOfRun(db.runs, runId).value;
            db.runs[i].id == old(db.runs)[i].id && db.runs[i].status == Done
    ensures db.log == old(db.log) + [SetStatus(runId, Done), SetTaskStatus(runId, v.taskStatus, Some(v.reason))]
  {
    var done := db.UpdateRunStatus(runId, Done);
    IndexOfRunKeepsIds(old(db.runs), db.runs, runId);
    ghost var beforeTask := db.runs;
    var task := db.UpdateRunTaskStatus(runId, v.taskStatus, Some(v.reason));
    IndexOfRunKeepsIds(beforeTask, db.runs, runId);
  }

  /** Changing fields other than the id of the runs leaves every lookup by id as it was. */
  lemma {:induction false} IndexOfRunKeepsIds(a: seq<Run>, b: seq<Run>, runId: string)
    requires |a| == |b|
    requires forall j :: 0 <= j < |a| ==> a[j].id == b[j].id
    ensures IndexOfRun(a, runId) == IndexOfRun(b, runId)
  {
    var ia := IndexOfRun(a, runId);
    var ib := IndexOfRun(b, runId);
    if ia.Some? && ib.Some? {
      assert !(ia.value < ib.value) && !(ib.value < ia.value);
    }
  }

  // ---------------------------------------------------------------- properties

  /**
   * A failing tool stops the run before the agent: the only write is
   * `running`, and the error is the tool's.
   */
  lemma ToolFailureStopsBeforeAgent(dialect: Dialect, codec: Codec, tools: seq<Tool>, storage: Option<Json>,
                                    runId: string, messages: seq<Json>, toolsOnly: bool, setup: AgentSetup)
    requires CallLists(messages).Ok?
    requires RunSpec(Flatten(CallLists(messages).value), tools, storage).0.Fail?
    ensures var t := ProcessSpec(dialect, codec, tools, storage, runId, Some(messages), toolsOnly, setup);
            t.writes == [SetStatus(runId, Running)]
            && t.result == Fail(RunSpec(Flatten(CallLists(messages).value), tools, storage).0.error)
  {
    PhaseIsOneRun(KeptToolCalls(messages).value, tools, storage);
  }

  /**
   * With `toolsOnly` and tools that all succeed, the run is done with the
   * default verdict and the agent is never consulted.
   */
  lemma ToolsOnlyIsUnknown(dialect: Dialect, codec: Codec, tools: seq<Tool>, storage: Option<Json>,
                           runId: string, messages: seq<Json>, setup: AgentSetup)
    requires CallLists(messages).Ok?
    requires RunSpec(Flatten(CallLists(messages).value), tools, storage).0.Ok?
    ensures ProcessSpec(dialect, codec, tools, storage, runId, Some(messages), true, setup)
            == Trace(Ok(()),
                     [SetStatus(runId, Running), SetStatus(runId, Done),
                      SetTaskStatus(runId, Unknown.taskStatus, Some(Unknown.reason))],
                     RunSpec(Flatten(CallLists(messages).value), tools, storage).1)
  {
    PhaseIsOneRun(KeptToolCalls(messages).value, tools, storage);
    ExtractDefault(codec, []);
  }

  /**
   * Without an agent factory a run that needs the agent throws after its
   * tools ran, and stores nothing (with the runners' `toLcMessage`, which
   * maps every message the filter let through).
   */
  lemma MissingFactoryFails(dialect: Dialect, codec: Codec, tools: seq<Tool>, storage: Option<Json>,
                            runId: string, messages: seq<Json>, callback: ReplayCallback)
    requires CallLists(messages).Ok?
    requires RunSpec(Flatten(CallLists(messages).value), tools, storage).0.Ok?
    ensures ProcessSpec(dialect, codec, tools, storage, runId, Some(messages), false, AgentSetup(None, ToLcMessage, callback))
            == Trace(Fail(TypeError), [SetStatus(runId, Running)], RunSpec(Flatten(CallLists(messages).value), tools, storage).1)
  {
    assert forall i :: 0 <= i < |messages| ==> !messages[i].JNull? && ToLcMessage(messages[i]).Ok?;
    PhaseIsOneRun(KeptToolCalls(messages).value, tools, storage);
  }
}
