/**
 * `localSpawner`: a read-only store and its own tools behind POST /, which
 * re-executes the tool calls of one stored message. It passes the message
 * `getMessage` returns through the message package's `toMessage`, a mapper
 * written for raw rows.
 */
module LocalSpawner {
  import opened Js
  import opened Store
  import opened DbMappers
  import opened LegacyMappers
  import opened Tools
  import opened FrontEnd

  /**
   * POST /: both ids must be truthy; the message is read with the ids'
   * text and mapped again by the package's `toMessage`; a message without
   * a truthy `tool_calls` is refused; otherwise the calls are iterated and
   * run in order on the tools' context. Errors become responses through
   * the catch block.
   */
  function LocalReplaySpec(db: Database, tools: seq<Tool>, storage: Option<Json>, body: Json): (ReplayResponse, Option<Json>)
    reads db
  {
    var runId, messageId := Get(body, "runId"), Get(body, "messageId");
    if !Truthy(runId) then (BadRequest("runId is required"), storage)
    else if !Truthy(messageId) then (BadRequest("messageId is required"), storage)
    else
      match db.GetMessage(JsString(runId), JsString(messageId))
      case Fail(e) => (Caught(e), storage)
      case Ok(stored) =>
        match PackageToMessage(db.codec, ReadMessageToJson(stored))
        case Fail(e) => (Caught(e), storage)
        case Ok(message) =>
          var calls := Get(message, "tool_calls");
          if !Truthy(calls) then (BadRequest("No tools to execute"), storage)
          else
            match Iterated(calls.value)
            case Fail(e) => (Caught(e), storage)
            case Ok(items) =>
              var run := RunSpec(items, tools, storage);
              (if run.0.Ok? then Replayed(run.0.value) else Caught(run.0.error), run.1)
  }

  /** The POST / handler, on the spawner's own tools and their shared context. */
  method LocalReplay(db: Database, kit: Toolkit, body: Json) returns (response: ReplayResponse)
    modifies kit.context
    ensures (response, kit.context.storage) == LocalReplaySpec(db, kit.tools, old(kit.context.storage), body)
  {
    var runId, messageId := Get(body, "runId"), Get(body, "messageId");
    if !Truthy(runId) {
      return BadRequest("runId is required");
    }
    if !Truthy(messageId) {
      return BadRequest("messageId is required");
    }
    var stored := db.GetMessage(JsString(runId), JsString(messageId));
    if stored.Fail? {
      return Caught(stored.error);
    }
    var message := PackageToMessage(db.codec, ReadMessageToJson(stored.value));
    if message.Fail? {
      return Caught(message.error);
    }
    var calls := Get(message.value, "tool_calls");
    if !Truthy(calls) {
      return BadRequest("No tools to execute");
    }
    var items := Iterated(calls.value);
    if items.Fail? {
      return Caught(items.error);
    }
    var results := ExecuteTools(items.value, kit);
    if results.Fail? {
      return Caught(results.error);
    }
    return Replayed(results.value);
  }

  /** `getMessage` throws "Message not found", or what `toMessage` throws on the matching row. */
  lemma GetMessageThrows(db: Database, runId: string, messageId: string)
    ensures var r := db.GetMessage(runId, messageId);
            r.Fail? ==> r.error == MessageNotFound || r.error == SyntaxError || r.error == TypeError
  {
    var i := IndexOfMessage(db.messages, runId, messageId);
    if i.Some? {
      ToMessageThrows(db.codec, db.messages[i.value]);
    }
  }

  /** A falsy id is refused with 400 before the store or any tool is touched. */
  lemma LocalReplayNeedsIds(db: Database, tools: seq<Tool>, storage: Option<Json>, body: Json)
    requires !Truthy(Get(body, "runId")) || !Truthy(Get(body, "messageId"))
    ensures var r := LocalReplaySpec(db, tools, storage, body);
            StatusCode(r.0) == 400 && r.1 == storage
            && r.0 == BadRequest(if Truthy(Get(body, "runId")) then "messageId is required" else "runId is required")
  {
  }

  /**
   * With both ids truthy every request is a 500 that runs no tool: a
   * missing message throws "Message not found", and a stored one, already
   * mapped by the store, has no `run_id` for the package mapper to read.
   */
  lemma LocalReplayNeverReplays(db: Database, tools: seq<Tool>, storage: Option<Json>, body: Json)
    requires Truthy(Get(body, "runId")) && Truthy(Get(body, "messageId"))
    ensures LocalReplaySpec(db, tools, storage, body) == (InternalError, storage)
  {
    var m := db.GetMessage(JsString(Get(body, "runId")), JsString(Get(body, "messageId")));
    if m.Ok? {
      PackageToMessageOfStoredMessage(db.codec, m.value);
    } else {
      GetMessageThrows(db, JsString(Get(body, "runId")), JsString(Get(body, "messageId")));
    }
  }
}
