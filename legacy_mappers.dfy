/**
 * The older message package: its row-to-message mappers (the runner's copy,
 * reading `tool_calls`, and the message package's own, reading the singular
 * `tool_call` column), the class-based `toType`, and its message schema.
 */
module LegacyMappers {
  import opened Js
  import opened Messages
  import opened DbMappers

  /** A LangChain message object as `instanceof` sees it. */
  datatype BaseMessage = BaseMessage(isToolMessage: bool, isHumanMessage: bool)

  /** message/src `toType`: ToolMessage is tested before HumanMessage; anything else is AiMessage. */
  function ClassToType(m: BaseMessage): (t: MessageType)
    ensures t == ToolMessage <==> m.isToolMessage
    ensures t == HumanMessage <==> !m.isToolMessage && m.isHumanMessage
    ensures t == AiMessage <==> !m.isToolMessage && !m.isHumanMessage
  {
    if m.isToolMessage then ToolMessage
    else if m.isHumanMessage then HumanMessage
    else AiMessage
  }

  /** A decoded call as the legacy mappers put it in the message: `{name, args?: {input}}`. */
  function ReadCallToJson(rc: ReadCall): Json
  {
    JObj(Put(Put(map[], "name", rc.name), "args",
             if rc.input.Some? then Some(JObj(map["input" := rc.input.value])) else None))
  }

  /** A call written back as JSON carries its name under "name". */
  lemma ReadCallName(rc: ReadCall)
    ensures Get(ReadCallToJson(rc), "name") == rc.name
  {
    var named := Put(map[], "name", rc.name);
    assert rc.name.Some? ==> "name" in named && named["name"] == rc.name.value;
    assert rc.name.None? ==> "name" !in named;
  }

  function ReadCallsToJson(calls: seq<ReadCall>): (r: seq<Json>)
    ensures |r| == |calls|
    ensures forall i :: 0 <= i < |calls| ==> r[i] == ReadCallToJson(calls[i])
  {
    seq(|calls|, i requires 0 <= i < |calls| => ReadCallToJson(calls[i]))
  }

  /**
   * The content expression: a string is kept; anything else goes through
   * JSON.parse (of its string form). A parsed object with a `type` key
   * becomes one text block (tag "text") or one image block (any other tag);
   * without a `type` key the raw content is kept. `in` on a parsed primitive,
   * and `.url` of a missing `image_url`, throw a TypeError.
   */
  function LegacyContent(c: Codec, content: Option<Json>): (r: Result<Option<Json>>)
    ensures content.Some? && content.value.JStr? ==> r == Ok(content)
  {
    if content.Some? && content.value.JStr? then Ok(content)
    else
      match Parse(c, JsString(content))
      case Fail(e) => Fail(e)
      case Ok(p) =>
        if !(p.JObj? || p.JArr?) then Fail(TypeError)
        else if Get(p, "type").None? then Ok(content)
        else if Get(p, "type") == Some(JStr("text")) then
          Ok(Some(JObj(Put(map["type" := JStr("text")], "text", Get(p, "text")))))
        else
          match Access(Get(p, "image_url"), "url")
          case Fail(e) => Fail(e)
          case Ok(url) => Ok(Some(JObj(map["type" := JStr("image_url"), "image_url" := JObj(Put(map[], "url", url))])))
  }

  /** The spread `...(calls truthy and a non-empty JSON array ? {tool_calls: decoded} : {})`. */
  function LegacyToolCalls(c: Codec, column: Option<Json>): (r: Result<Option<Json>>)
    ensures !Truthy(column) ==> r == Ok(None)
  {
    if !Truthy(column) then Ok(None)
    else
      match Parse(c, JsString(column))
      case Fail(e) => Fail(e)
      case Ok(p) =>
        if p.JArr? && |p.items| > 0 then
          match DecodeCalls(p.items)
          case Fail(e) => Fail(e)
          case Ok(calls) => Ok(Some(JArr(ReadCallsToJson(calls))))
        else Ok(None)
  }

  /** The object literal `{runId, type, content, ...tool_calls, timestamp?}`: undefined entries leave no key. */
  function MessageFields(runId: Json, msgType: Option<Json>, content: Option<Json>, calls: Option<Json>, timestamp: Option<Json>)
    : (m: map<string, Json>)
    ensures Get(JObj(m), "runId") == Some(runId)
    ensures Get(JObj(m), "type") == msgType
    ensures Get(JObj(m), "content") == content
    ensures Get(JObj(m), "tool_calls") == calls
    ensures Get(JObj(m), "timestamp") == timestamp
    ensures forall k :: k in m ==> k in {"runId", "type", "content", "tool_calls", "timestamp"}
  {
    Put(Put(Put(Put(map["runId" := runId], "type", msgType), "content", content), "tool_calls", calls), "timestamp", timestamp)
  }

  /** `row.run_id.toString()` does not throw: the row is an object whose run_id is neither undefined nor null. */
  predicate HasRunId(row: Json)
  {
    Get(row, "run_id").Some? && Get(row, "run_id") != Some(JNull)
  }

  /**
   * The legacy `toMessage` on a row-shaped value, reading tool calls from the
   * column `callsKey` and copying the timestamp when `withTimestamp`. Fields
   * are evaluated in order: runId, type, content, tool calls, timestamp.
   */
  function LegacyToMessage(c: Codec, row: Json, callsKey: string, withTimestamp: bool): (r: Result<Json>)
    ensures !HasRunId(row) ==> r == Fail(TypeError)
    ensures HasRunId(row) && LegacyContent(c, Get(row, "content")).Fail? ==> r == Fail(LegacyContent(c, Get(row, "content")).error)
    ensures HasRunId(row) && LegacyContent(c, Get(row, "content")).Ok? && LegacyToolCalls(c, Get(row, callsKey)).Fail?
            ==> r == Fail(LegacyToolCalls(c, Get(row, callsKey)).error)
    ensures r.Ok? <==> HasRunId(row) && LegacyContent(c, Get(row, "content")).Ok? && LegacyToolCalls(c, Get(row, callsKey)).Ok?
    ensures r.Ok? ==>
              r.value.JObj?
              && Get(r.value, "runId") == Some(JStr(JsonString(Get(row, "run_id").value)))
              && Get(r.value, "type") == Get(row, "type")
              && Get(r.value, "content") == LegacyContent(c, Get(row, "content")).value
              && Get(r.value, "tool_calls") == LegacyToolCalls(c, Get(row, callsKey)).value
              && Get(r.value, "timestamp") == (if withTimestamp then Get(row, "timestamp") else None)
              && forall k :: k in r.value.fields ==> k in {"runId", "type", "content", "tool_calls", "timestamp"}
  {
    match Access(Some(row), "run_id")
    case Fail(e) => Fail(e)
    case Ok(runId) =>
      if runId.None? || runId == Some(JNull) then Fail(TypeError)   // `.toString()` of undefined or null
      else
        match LegacyContent(c, Get(row, "content"))
        case Fail(e) => Fail(e)
        case Ok(content) =>
          match LegacyToolCalls(c, Get(row, callsKey))
          case Fail(e) => Fail(e)
          case Ok(calls) =>
            Ok(JObj(MessageFields(JStr(JsonString(runId.value)), Get(row, "type"), content, calls,
                                  if withTimestamp then Get(row, "timestamp") else None)))
  }

  /** runner/mappers/toMessage.ts: tool calls from `tool_calls`, timestamp copied. */
  function RunnerToMessage(c: Codec, row: Json): (r: Result<Json>)
    ensures r.Ok? <==> HasRunId(row) && LegacyContent(c, Get(row, "content")).Ok? && LegacyToolCalls(c, Get(row, "tool_calls")).Ok?
    ensures r.Ok? ==> Get(r.value, "tool_calls") == LegacyToolCalls(c, Get(row, "tool_calls")).value
                      && Get(r.value, "timestamp") == Get(row, "timestamp")
  {
    LegacyToMessage(c, row, "tool_calls", true)
  }

  /** message/src/index.ts: tool calls from the singular `tool_call` column, no timestamp. */
  function PackageToMessage(c: Codec, row: Json): (r: Result<Json>)
    ensures r.Ok? <==> HasRunId(row) && LegacyContent(c, Get(row, "content")).Ok? && LegacyToolCalls(c, Get(row, "tool_call")).Ok?
    ensures r.Ok? ==> Get(r.value, "tool_calls") == LegacyToolCalls(c, Get(row, "tool_call")).value
                      && Get(r.value, "timestamp").None?
  {
    LegacyToMessage(c, row, "tool_call", false)
  }

  /** A stored row as the drivers hand it to these mappers. */
  function RowToJson(row: DbMessage): Json
  {
    JObj(map[
      "id" := JNum(row.id),
      "run_id" := JStr(row.runId),
      "type" := JStr(row.msgType),
      "content" := if row.content.Some? then JStr(row.content.value) else JNull,
      "tool_calls" := if row.toolCalls.Some? then JStr(row.toolCalls.value) else JNull,
      "timestamp" := JNum(row.timestamp)])
  }

  /** What a row-mapping call yields for one row with string content. */
  lemma RunnerToMessageFields(c: Codec, row: DbMessage)
    requires row.content.Some?
    ensures var r := RunnerToMessage(c, RowToJson(row));
            r.Ok? <==> LegacyToolCalls(c, Get(RowToJson(row), "tool_calls")).Ok?
    ensures var r := RunnerToMessage(c, RowToJson(row));
            r.Ok? ==>
              Get(r.value, "runId") == Some(JStr(row.runId))
              && Get(r.value, "type") == Some(JStr(row.msgType))
              && Get(r.value, "content") == Some(JStr(row.content.value))
              && Get(r.value, "timestamp") == Some(JNum(row.timestamp))
  {
  }

  /**
   * The tool_calls key is present exactly when the column decodes to a
   * non-empty array, and then holds each call's name and, when its input was
   * defined, `args.input` (a falsy input becoming "").
   */
  lemma LegacyToolCallsPresent(c: Codec, column: Option<Json>)
    requires LegacyToolCalls(c, column).Ok?
    ensures var r := LegacyToolCalls(c, column).value;
            r.Some? <==>
              Truthy(column) && c.decode(JsString(column)).Some?
              && c.decode(JsString(column)).value.JArr? && |c.decode(JsString(column)).value.items| > 0
    ensures var r := LegacyToolCalls(c, column).value;
            r.Some? ==>
              var items := c.decode(JsString(column)).value.items;
              r.value.JArr? && |r.value.items| == |items|
              && forall i :: 0 <= i < |items| ==>
                   Get(r.value.items[i], "name") == Get(items[i], "name")
                   && (Get(r.value.items[i], "args").Some? <==> Get(Get(items[i], "args").value, "input").Some?)
                   && (Get(r.value.items[i], "args").Some? ==>
                         Get(Get(r.value.items[i], "args").value, "input")
                         == Some(Or(Get(Get(items[i], "args").value, "input"), JStr(""))))
  {
    if LegacyToolCalls(c, column).value.Some? {
      var items := c.decode(JsString(column)).value.items;
      var calls := DecodeCalls(items).value;
      var json := ReadCallsToJson(calls);
      forall i | 0 <= i < |items|
        ensures Get(json[i], "name") == Get(items[i], "name")
                && (Get(json[i], "args").Some? <==> Get(Get(items[i], "args").value, "input").Some?)
                && (Get(json[i], "args").Some? ==>
                      Get(Get(json[i], "args").value, "input") == Some(Or(Get(Get(items[i], "args").value, "input"), JStr(""))))
      {
        DecodedCallToJson(items[i], calls[i]);
      }
    }
  }

  /** A decoded call written back keeps the call's name and, under args, its input (a falsy one as ""). */
  lemma DecodedCallToJson(call: Json, rc: ReadCall)
    requires DecodeCall(call) == Ok(rc)
    ensures var j := ReadCallToJson(rc);
            var input := Get(Get(call, "args").value, "input");
            Get(j, "name") == Get(call, "name")
            && (Get(j, "args").Some? <==> input.Some?)
            && (Get(j, "args").Some? ==> Get(Get(j, "args").value, "input") == Some(Or(input, JStr(""))))
  {
    ReadCallName(rc);
    var named := Put(map[], "name", rc.name);
    assert "args" !in named;
  }

  /** The single-block decoding of non-string content, by the parsed value's `type` tag. */
  lemma LegacyContentDecodes(c: Codec, content: Option<Json>)
    requires !(content.Some? && content.value.JStr?)
    requires c.decode(JsString(content)).Some? && c.decode(JsString(content)).value.JObj?
    ensures var p := c.decode(JsString(content)).value;
            var r := LegacyContent(c, content);
            (Get(p, "type").None? ==> r == Ok(content))
            && (Get(p, "type") == Some(JStr("text")) ==>
                  r.Ok? && r.value.Some? && Get(r.value.value, "type") == Some(JStr("text"))
                  && Get(r.value.value, "text") == Get(p, "text"))
            && (Get(p, "type").Some? && Get(p, "type") != Some(JStr("text")) ==>
                  (r.Ok? <==> Get(p, "image_url").Some? && Get(p, "image_url") != Some(JNull))
                  && (r.Ok? ==> (Get(r.value.value, "type") == Some(JStr("image_url"))
                                 && Get(Get(r.value.value, "image_url").value, "url")
                                    == Get(Get(p, "image_url").value, "url"))))
  {
  }

  /** Null content (what a null column holds) never yields a block: JSON.parse("null") is no object. */
  lemma LegacyNullContentThrows(c: Codec)
    requires Lawful(c) && c.encode(JNull) == "null"
    ensures LegacyContent(c, Some(JNull)) == Fail(TypeError)
  {
    assert c.decode(c.encode(JNull)) == Some(JNull);
  }

  /**
   * A message as the store's `toMessage` returns it, seen as a JavaScript
   * object: the keys are runId, type, content, toolCalls and timestamp.
   */
  function ReadMessageToJson(m: ReadMessage): Json
  {
    JObj(map[
      "runId" := JStr(m.runId),
      "type" := JStr(m.msgType),
      "content" := if m.content.Some? then JStr(m.content.value) else JNull,
      "toolCalls" := if m.toolCalls.Some? then JArr(ReadCallsToJson(m.toolCalls.value)) else JNull,
      "timestamp" := JNum(m.timestamp)])
  }

  /**
   * Fed a message from `getMessage` rather than a raw row, the package mapper
   * finds no `run_id` and always throws a TypeError.
   */
  lemma PackageToMessageOfStoredMessage(c: Codec, m: ReadMessage)
    ensures PackageToMessage(c, ReadMessageToJson(m)) == Fail(TypeError)
  {
  }

  // ------------------------------------------------------------------ schema

  datatype LegacyContentValue = LegacyText(s: string) | LegacyBlock(b: Block)

  /** A message the legacy schema accepts; tool_calls is optional rather than nullable. */
  datatype LegacyMessage = LegacyMessage(
    runId: string,
    msgType: MessageType,
    content: LegacyContentValue,
    toolCalls: Option<seq<ToolCall>>,
    timestamp: int)

  function ParseLegacyContent(j: Option<Json>): Option<LegacyContentValue>
  {
    match j
    case Some(JStr(s)) => Some(LegacyText(s))
    case Some(v) =>
      (match ParseBlock(v)
       case Some(b) => Some(LegacyBlock(b))
       case None => None)
    case None => None
  }

  /** The legacy `messageSchema`: `None` is a failed parse. */
  function ParseLegacyMessage(j: Json): Option<LegacyMessage>
  {
    if !j.JObj? then None
    else
      match (Get(j, "runId"), Get(j, "type"), ParseLegacyContent(Get(j, "content")), Get(j, "tool_calls"), Get(j, "timestamp"))
      case (Some(JStr(r)), Some(JStr(t)), Some(c), tc, Some(JNum(ts))) =>
        if TypeFromName(t).None? then None
        else if tc.None? then Some(LegacyMessage(r, TypeFromName(t).value, c, None, ts))
        else if !tc.value.JArr? then None
        else
          (match ParseEach(tc.value.items, ParseCall)
           case Some(calls) => Some(LegacyMessage(r, TypeFromName(t).value, c, Some(calls), ts))
           case None => None)
      case _ => None
  }

  /** `MessagesArraySchema`: an array is accepted iff each element is. */
  function ParseLegacyMessages(items: seq<Json>): (r: Option<seq<LegacyMessage>>)
    ensures r.Some? <==> forall i :: 0 <= i < |items| ==> ParseLegacyMessage(items[i]).Some?
    ensures r.Some? ==> |r.value| == |items|
                        && forall i :: 0 <= i < |items| ==> ParseLegacyMessage(items[i]) == Some(r.value[i])
  {
    ParseEach(items, ParseLegacyMessage)
  }

  function LegacyMessageToJson(m: LegacyMessage): Json
  {
    var base := map[
      "runId" := JStr(m.runId),
      "type" := JStr(TypeName(m.msgType)),
      "content" := match m.content
                   case LegacyText(s) => JStr(s)
                   case LegacyBlock(b) => BlockToJson(b),
      "timestamp" := JNum(m.timestamp)];
    JObj(if m.toolCalls.Some? then base["tool_calls" := CallsToJson(m.toolCalls.value)] else base)
  }

  /** The legacy schema accepts every well-formed legacy message and reproduces it. */
  lemma ParseLegacyMessageToJson(m: LegacyMessage)
    ensures ParseLegacyMessage(LegacyMessageToJson(m)) == Some(m)
  {
    var j := LegacyMessageToJson(m);
    TypeNameRoundTrip(m.msgType);
    assert Get(j, "runId") == Some(JStr(m.runId));
    assert Get(j, "type") == Some(JStr(TypeName(m.msgType)));
    assert Get(j, "timestamp") == Some(JNum(m.timestamp));
    if m.content.LegacyBlock? {
      ParseBlockToJson(m.content.b);
    }
    assert ParseLegacyContent(Get(j, "content")) == Some(m.content);
    if m.toolCalls.Some? {
      ParseCallsToJson(m.toolCalls.value);
      assert Get(j, "tool_calls") == Some(CallsToJson(m.toolCalls.value));
      assert ParseEach(CallsToJson(m.toolCalls.value).items, ParseCall) == Some(m.toolCalls.value);
    } else {
      assert Get(j, "tool_calls").None?;
    }
  }

  /** Content must be a string or one block: null and arrays are refused. */
  lemma LegacyContentNeverNullOrArray(j: Option<Json>)
    requires j == Some(JNull) || (j.Some? && j.value.JArr?)
    ensures ParseLegacyContent(j).None?
  {
  }

  /** An explicit null tool_calls is refused (the key may only be absent or an array). */
  lemma LegacyNullToolCallsRefused(f: map<string, Json>)
    requires "tool_calls" in f && f["tool_calls"] == JNull
    ensures ParseLegacyMessage(JObj(f)).None?
  {
  }
}
