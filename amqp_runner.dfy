/**
 * `amqpRunner`: each delivery on the queue names a run that already exists,
 * with its messages and `toolsOnly`; the consumer processes it with
 * `processRun`, marks it failed (with the reason "Processing failed") when
 * processing throws, and acknowledges the delivery afterwards.
 */
module AmqpRunner {
  import opened Js
  import opened Messages
  import opened Store
  import opened Tools
  import opened RunProcessor
  import opened FrontEnd

  /** A delivery from the queue: its tag and its content as text. */
  datatype Delivery = Delivery(tag: nat, content: string)

  /** The acknowledgements sent on the channel, in order. */
  class Channel {
    var acked: seq<Delivery>

    constructor()
      ensures acked == []
    {
      acked := [];
    }

    /** `channel.ack(msg)`. */
    method Ack(d: Delivery)
      modifies this
      ensures acked == old(acked) + [d]
    {
      acked := acked + [d];
    }
  }

  /** `runId` of the body, as the drivers bind it: its text (an absent one reads "undefined"). */
  function RunIdOf(body: Json): string
  {
    JsString(Get(body, "runId"))
  }

  /** `messages` of the body: its items when it is an array; anything else has no `filter` and throws. */
  function MessagesOf(body: Json): (r: Option<seq<Json>>)
    ensures r.Some? <==> Get(body, "messages").Some? && Get(body, "messages").value.JArr?
    ensures r.Some? ==> Get(body, "messages") == Some(JArr(r.value))
  {
    var m := Get(body, "messages");
    if m.Some? && m.value.JArr? then Some(m.value.items) else None
  }

  /** The handler's outcome: its own settling, the writes, the tools' context, and whether it acknowledged. */
  datatype Handled = Handled(result: Result<()>, writes: seq<Write>, storage: Option<Json>, acked: bool)

  /** The catch block's writes: status `failed`, then task status "failed" with the reason "Processing failed". */
  function FailedWrites(runId: string): seq<Write>
  {
    [SetStatus(runId, Failed), SetTaskStatus(runId, "failed", Some("Processing failed"))]
  }

  /**
   * The try block and what follows it, for a body that destructures. On an
   * unknown run both `processRun` and the catch block throw "Run not
   * found", so the handler rejects before the acknowledgement; otherwise
   * the run is processed, marked failed after a throw, and acknowledged.
   */
  function ProcessedSpec(dialect: Dialect, codec: Codec, runs: seq<Run>, tools: seq<Tool>, storage: Option<Json>,
                         runId: string, messages: Option<seq<Json>>, toolsOnly: bool, setup: AgentSetup): Handled
  {
    if IndexOfRun(runs, runId).None? then Handled(Fail(RunNotFound), [], storage, false)
    else
      var t := ProcessSpec(dialect, codec, tools, storage, runId, messages, toolsOnly, setup);
      Handled(Ok(()), if t.result.Ok? then t.writes else t.writes + FailedWrites(runId), t.storage, true)
  }

  /**
   * The consume callback: a null delivery is ignored; a body that is not
   * JSON throws a SyntaxError and a null body a TypeError, before anything
   * is written or acknowledged; otherwise the body is processed.
   */
  function ConsumeSpec(dialect: Dialect, codec: Codec, runs: seq<Run>, tools: seq<Tool>, storage: Option<Json>,
                       msg: Option<Delivery>, setup: AgentSetup): Handled
  {
    if msg.None? then Handled(Ok(()), [], storage, false)
    else
      match Parse(codec, msg.value.content)
      case Fail(e) => Handled(Fail(e), [], storage, false)
      case Ok(body) =>
        if body.JNull? then Handled(Fail(TypeError), [], storage, false)
        else ProcessedSpec(dialect, codec, runs, tools, storage, RunIdOf(body), MessagesOf(body),
                           Truthy(Get(body, "toolsOnly")), setup)
  }

  /** The catch block: after a throw, mark the run failed for "Processing failed". */
  method Rescue(db: Database, runId: string, r: Result<()>)
    requires db.Valid()
    requires IndexOfRun(db.runs, runId).Some?
    modifies db
    ensures db.Valid()
    ensures db.log == old(db.log) + (if r.Ok? then [] else FailedWrites(runId))
  {
    if r.Fail? {
      var marked := MarkFailed(db, runId, Some("Processing failed"));
    } else {
      assert db.log == old(db.log) + [];
    }
  }

  /** The try block, the catch block and the acknowledgement, for a stored run. */
  method ProcessKnown(db: Database, kit: Toolkit, channel: Channel, d: Delivery, runId: string,
                      messages: Option<seq<Json>>, toolsOnly: bool, setup: AgentSetup)
    requires db.Valid()
    requires IndexOfRun(db.runs, runId).Some?
    modifies db, kit.context, channel
    ensures db.Valid()
    ensures var t := ProcessSpec(db.dialect, db.codec, kit.tools, old(kit.context.storage), runId, messages, toolsOnly, setup);
            (db.log, kit.context.storage, channel.acked)
            == (old(db.log) + (if t.result.Ok? then t.writes else t.writes + FailedWrites(runId)), t.storage, old(channel.acked) + [d])
  {
    ghost var t := RestSpec(db.dialect, db.codec, kit.tools, kit.context.storage, runId, messages, toolsOnly, setup);
    var processed := ProcessRun(db, kit, runId, messages, toolsOnly, setup);
    ghost var after := db.log;
    assert after == old(db.log) + ([SetStatus(runId, Running)] + t.writes);
    Rescue(db, runId, processed);
    channel.Ack(d);
    ghost var p := ProcessSpec(db.dialect, db.codec, kit.tools, old(kit.context.storage), runId, messages, toolsOnly, setup);
    assert p == Trace(t.result, [SetStatus(runId, Running)] + t.writes, t.storage);
    if processed.Ok? {
      assert db.log == old(db.log) + p.writes;
    } else {
      assert db.log == old(db.log) + (p.writes + FailedWrites(runId));
    }
  }

  /** The try block, the catch block and the acknowledgement. */
  method Process(db: Database, kit: Toolkit, channel: Channel, d: Delivery, runId: string,
                 messages: Option<seq<Json>>, toolsOnly: bool, setup: AgentSetup) returns (r: Result<()>)
    requires db.Valid()
    modifies db, kit.context, channel
    ensures db.Valid()
    ensures var h := ProcessedSpec(db.dialect, db.codec, old(db.runs), kit.tools, old(kit.context.storage),
                                   runId, messages, toolsOnly, setup);
            (r, db.log, kit.context.storage, channel.acked)
            == (h.result, old(db.log) + h.writes, h.storage, old(channel.acked) + if h.acked then [d] else [])
  {
    if IndexOfRun(db.runs, runId).None? {
      var processed := ProcessRun(db, kit, runId, messages, toolsOnly, setup);
      var marked := MarkFailed(db, runId, Some("Processing failed"));
      assert db.log == old(db.log) + [] && channel.acked == old(channel.acked) + [];
      return Fail(marked.error);
    }
    ProcessKnown(db, kit, channel, d, runId, messages, toolsOnly, setup);
    return Ok(());
  }

  /** The consume callback for one delivery (`None` when the consumer is cancelled). */
  method Consume(db: Database, kit: Toolkit, channel: Channel, msg: Option<Delivery>, setup: AgentSetup)
    returns (r: Result<()>)
    requires db.Valid()
    modifies db, kit.context, channel
    ensures db.Valid()
    ensures var h := ConsumeSpec(db.dialect, db.codec, old(db.runs), kit.tools, old(kit.context.storage), msg, setup);
            (r, db.log, kit.context.storage, channel.acked)
            == (h.result, old(db.log) + h.writes, h.storage, old(channel.acked) + if h.acked then [msg.value] else [])
  {
    if msg.None? {
      assert db.log == old(db.log) + [] && channel.acked == old(channel.acked) + [];
      return Ok(());
    }
    var body := Parse(db.codec, msg.value.content);
    if body.Fail? {
      assert db.log == old(db.log) + [] && channel.acked == old(channel.acked) + [];
      return Fail(body.error);
    }
    if body.value.JNull? {
      assert db.log == old(db.log) + [] && channel.acked == old(channel.acked) + [];
      return Fail(TypeError);
    }
    r := Process(db, kit, channel, msg.value, RunIdOf(body.value), MessagesOf(body.value),
                 Truthy(Get(body.value, "toolsOnly")), setup);
  }

  // ---------------------------------------------------------------- properties

  /** A delivery that is not JSON, or is JSON null, is never acknowledged and writes nothing. */
  lemma MalformedDeliveryIsDropped(dialect: Dialect, codec: Codec, runs: seq<Run>, tools: seq<Tool>,
                                   storage: Option<Json>, d: Delivery, setup: AgentSetup)
    requires codec.decode(d.content).None? || codec.decode(d.content) == Some(JNull)
    ensures var h := ConsumeSpec(dialect, codec, runs, tools, storage, Some(d), setup);
            h.result == Fail(if codec.decode(d.content).None? then SyntaxError else TypeError)
            && h.writes == [] && h.storage == storage && !h.acked
  {
  }

  /** A delivery for a run the store does not hold is never acknowledged and writes nothing. */
  lemma UnknownRunIsNeverAcked(dialect: Dialect, codec: Codec, runs: seq<Run>, tools: seq<Tool>,
                               storage: Option<Json>, d: Delivery, setup: AgentSetup)
    requires codec.decode(d.content).Some? && !codec.decode(d.content).value.JNull?
    requires forall j :: 0 <= j < |runs| ==> NatToString(runs[j].id) != RunIdOf(codec.decode(d.content).value)
    ensures ConsumeSpec(dialect, codec, runs, tools, storage, Some(d), setup) == Handled(Fail(RunNotFound), [], storage, false)
  {
  }

  /**
   * A delivery naming a stored run is acknowledged exactly once, after its
   * processing: the writes start with `running` and end either with the
   * completion (`done` and the verdict) or with `failed` and "failed"
   * for "Processing failed".
   */
  lemma KnownRunIsAcked(dialect: Dialect, codec: Codec, runs: seq<Run>, tools: seq<Tool>,
                        storage: Option<Json>, d: Delivery, setup: AgentSetup)
    requires codec.decode(d.content).Some? && !codec.decode(d.content).value.JNull?
    requires exists j :: 0 <= j < |runs| && NatToString(runs[j].id) == RunIdOf(codec.decode(d.content).value)
    ensures var body := codec.decode(d.content).value;
            var runId := RunIdOf(body);
            var t := ProcessSpec(dialect, codec, tools, storage, runId, MessagesOf(body), Truthy(Get(body, "toolsOnly")), setup);
            var h := ConsumeSpec(dialect, codec, runs, tools, storage, Some(d), setup);
            h.acked && h.result.Ok? && h.storage == t.storage
            && |h.writes| >= 3 && h.writes[0] == SetStatus(runId, Running)
            && (t.result.Ok? ==> h.writes == t.writes && h.writes[|h.writes| - 2] == SetStatus(runId, Done))
            && (t.result.Fail? ==> h.writes[|h.writes| - 2..] == FailedWrites(runId))
  {
    var body := codec.decode(d.content).value;
    var runId := RunIdOf(body);
    var t := ProcessSpec(dialect, codec, tools, storage, runId, MessagesOf(body), Truthy(Get(body, "toolsOnly")), setup);
    assert IndexOfRun(runs, runId).Some?;
    assert ConsumeSpec(dialect, codec, runs, tools, storage, Some(d), setup)
           == Handled(Ok(()), if t.result.Ok? then t.writes else t.writes + FailedWrites(runId), t.storage, true);
  }

  /**
   * A body whose `messages` is not an array fails right after the run is
   * marked running: nothing else is written before the failure writes and
   * the delivery is still acknowledged.
   */
  lemma NonArrayMessagesFail(dialect: Dialect, codec: Codec, runs: seq<Run>, tools: seq<Tool>,
                             storage: Option<Json>, d: Delivery, setup: AgentSetup)
    requires codec.decode(d.content).Some? && !codec.decode(d.content).value.JNull?
    requires IndexOfRun(runs, RunIdOf(codec.decode(d.content).value)).Some?
    requires MessagesOf(codec.decode(d.content).value).None?
    ensures var runId := RunIdOf(codec.decode(d.content).value);
            ConsumeSpec(dialect, codec, runs, tools, storage, Some(d), setup)
            == Handled(Ok(()), [SetStatus(runId, Running)] + FailedWrites(runId), storage, true)
  {
  }
}
