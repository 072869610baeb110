/**
 * The mappers between LangChain message objects and the engine's messages:
 * `lcToMessage`, `lcToDbMessage`, `langChainToDbMessage` (LangChain to
 * message or row) and `toLcMessage` (message to LangChain), with the shared
 * `_getType()` tag mapping.
 */
module LcMappers {
  import opened Js
  import opened Messages

  /** A value handed to a mapper that expects a LangChain message. */
  datatype LcValue =
    | LcMessage(kind: string, fields: map<string, Json>)  // an object whose `_getType()` returns `kind`
    | LcCallable(kind: string)                            // a function object that carries a `_getType` method
    | LcPlain(v: Option<Json>)                            // any value without a callable `_getType`

  /** `toType`: the tag `_getType()` returns, mapped to a message type (default AiMessage). */
  function ToType(kind: string): (t: MessageType)
    ensures t == HumanMessage <==> kind == "human"
    ensures t == ToolMessage <==> kind == "tool"
    ensures t == AiMessage <==> kind != "human" && kind != "tool"
  {
    if kind == "human" then HumanMessage
    else if kind == "ai" then AiMessage
    else if kind == "tool" then ToolMessage
    else AiMessage
  }

  /** `toType` never yields a falsy value, so the mappers' "Message is required" throw cannot fire. */
  lemma ToTypeNeverFalsy(kind: string)
    ensures Truthy(Some(JStr(TypeName(ToType(kind)))))
  {
  }

  /** `{id, name, args, type: "tool_call"}` for one LangChain tool call; `.id` of null throws. */
  function LcCall(call: Json, withIdAndType: bool): (r: Result<Json>)
    ensures r.Fail? <==> call.JNull?
    ensures r.Ok? ==> r.value.JObj?
    ensures r.Ok? ==> Get(r.value, "name") == Get(call, "name") && Get(r.value, "args") == Get(call, "args")
    ensures r.Ok? && withIdAndType ==>
      Get(r.value, "id") == Get(call, "id") && Get(r.value, "type") == Some(JStr("tool_call"))
    ensures r.Ok? && !withIdAndType ==> r.value.fields.Keys <= {"name", "args"}
  {
    if call.JNull? then Fail(TypeError)
    else
      var base := Put(Put(map[], "name", Get(call, "name")), "args", Get(call, "args"));
      Ok(JObj(if withIdAndType then Put(base, "id", Get(call, "id"))["type" := JStr("tool_call")] else base))
  }

  function LcCalls(calls: seq<Json>, withIdAndType: bool): (r: Result<seq<Json>>)
    ensures r.Ok? <==> forall i :: 0 <= i < |calls| ==> !calls[i].JNull?
    ensures r.Fail? ==> r.error == TypeError
    ensures r.Ok? ==> |r.value| == |calls|
    ensures r.Ok? ==> forall i :: 0 <= i < |calls| ==> LcCall(calls[i], withIdAndType) == Ok(r.value[i])
    decreases |calls|
  {
    if calls == [] then Ok([])
    else
      match (LcCall(calls[0], withIdAndType), LcCalls(calls[1..], withIdAndType))
      case (Ok(x), Ok(xs)) =>
        assert forall i :: 1 <= i < |calls| ==> calls[i] == calls[1..][i - 1];
        Ok([x] + xs)
      case (Fail(e), _) => Fail(e)
      case (_, Fail(e)) =>
        assert forall i :: 0 <= i < |calls| - 1 ==> calls[1..][i] == calls[i + 1];
        Fail(e)
  }

  /**
   * The fields shared by `lcToMessage` and `lcToDbMessage`: `_getType()` is
   * called first (a TypeError when there is no such method), then a function
   * object is refused with "Message must be an object".
   */
  function LcFields(v: LcValue, now: int, full: bool): (r: Result<map<string, Json>>)
  {
    match v
    case LcPlain(_) => Fail(TypeError)
    case LcCallable(_) => Fail(MessageMustBeObject)
    case LcMessage(kind, f) =>
      var calls :=
        if "tool_calls" in f && f["tool_calls"].JArr? then
          (match LcCalls(f["tool_calls"].items, full)
           case Ok(cs) => Ok(JArr(cs))
           case Fail(e) => Fail(e))
        else Ok(JNull);
      match calls
      case Fail(e) => Fail(e)
      case Ok(tc) =>
        var base := map[
          "type" := JStr(TypeName(ToType(kind))),
          "content" := if "content" in f then f["content"] else JNull,
          "toolCalls" := tc,
          "timestamp" := JNum(now)];
        Ok(if full then base["toolCallId" := if "tool_call_id" in f then f["tool_call_id"] else JStr("")] else base)
  }

  /** An array `tool_calls` holding a null call, whose `.id` or `.name` then throws. */
  predicate HasNullCall(f: map<string, Json>)
  {
    "tool_calls" in f && f["tool_calls"].JArr?
    && exists i :: 0 <= i < |f["tool_calls"].items| && f["tool_calls"].items[i].JNull?
  }

  /** `lcToMessage`: a LangChain message as an engine message with toolCallId and the current time. */
  function LcToMessage(v: LcValue, now: int): (r: Result<Json>)
    ensures v.LcPlain? ==> r == Fail(TypeError)
    ensures v.LcCallable? ==> r == Fail(MessageMustBeObject)
    ensures r.Ok? <==> v.LcMessage? && !HasNullCall(v.fields)
    ensures r.Fail? && v.LcMessage? ==> r.error == TypeError
    ensures r.Ok? ==> r.value.JObj?
                      && r.value.fields.Keys == {"type", "content", "toolCalls", "toolCallId", "timestamp"}
  {
    match LcFields(v, now, true)
    case Ok(f) => Ok(JObj(f))
    case Fail(e) => Fail(e)
  }

  /** `lcToDbMessage`: the same record, with calls cut down to `{name, args}` and no toolCallId. */
  function LcToDbMessage(v: LcValue, now: int): (r: Result<Json>)
    ensures v.LcPlain? ==> r == Fail(TypeError)
    ensures v.LcCallable? ==> r == Fail(MessageMustBeObject)
    ensures r.Ok? <==> v.LcMessage? && !HasNullCall(v.fields)
    ensures r.Fail? && v.LcMessage? ==> r.error == TypeError
    ensures r.Ok? ==> r.value.JObj?
                      && r.value.fields.Keys == {"type", "content", "toolCalls", "timestamp"}
  {
    match LcFields(v, now, false)
    case Ok(f) => Ok(JObj(f))
    case Fail(e) => Fail(e)
  }

  /** The parts of `lcToMessage` and `lcToDbMessage` that read the LangChain object. */
  lemma LcToMessageFields(v: LcValue, now: int)
    requires v.LcMessage?
    ensures var r := LcToMessage(v, now);
            var d := LcToDbMessage(v, now);
            var f := v.fields;
            (r.Ok? <==> d.Ok?)
            && (r.Ok? ==>
                  r.value.fields["type"] == JStr(TypeName(ToType(v.kind)))
                  && r.value.fields["content"] == (if "content" in f then f["content"] else JNull)
                  && r.value.fields["toolCallId"] == (if "tool_call_id" in f then f["tool_call_id"] else JStr(""))
                  && r.value.fields["timestamp"] == JNum(now)
                  && d.value.fields["type"] == r.value.fields["type"]
                  && d.value.fields["content"] == r.value.fields["content"]
                  && d.value.fields["timestamp"] == JNum(now)
                  && ((!("tool_calls" in f) || !f["tool_calls"].JArr?) ==>
                        r.value.fields["toolCalls"] == JNull && d.value.fields["toolCalls"] == JNull))
  {
  }

  /**
   * An array of tool calls maps one to one and in order: the full record
   * keeps id, name and args and adds `type: "tool_call"`; the store record
   * keeps name and args only.
   */
  lemma LcToMessageCalls(v: LcValue, now: int)
    requires v.LcMessage? && "tool_calls" in v.fields && v.fields["tool_calls"].JArr?
    requires LcToMessage(v, now).Ok?
    ensures var calls := v.fields["tool_calls"].items;
            var r := LcToMessage(v, now).value.fields["toolCalls"];
            var d := LcToDbMessage(v, now).value.fields["toolCalls"];
            r.JArr? && d.JArr? && |r.items| == |calls| && |d.items| == |calls|
            && forall i :: 0 <= i < |calls| ==>
                 Get(r.items[i], "id") == Get(calls[i], "id")
                 && Get(r.items[i], "name") == Get(calls[i], "name")
                 && Get(r.items[i], "args") == Get(calls[i], "args")
                 && Get(r.items[i], "type") == Some(JStr("tool_call"))
                 && Get(d.items[i], "name") == Get(calls[i], "name")
                 && Get(d.items[i], "args") == Get(calls[i], "args")
                 && d.items[i].fields.Keys <= {"name", "args"}
  {
    var calls := v.fields["tool_calls"].items;
    assert LcCalls(calls, true).Ok?;
    assert LcCalls(calls, false).Ok?;
  }

  /** A row as `langChainToDbMessage` builds it: no id and no run_id. */
  datatype LangChainRow = LangChainRow(msgType: MessageType, content: Option<string>, toolCalls: string, timestamp: int)

  /**
   * `langChainToDbMessage`: content is always JSON-encoded (undefined content
   * stays undefined), tool_calls is encoded when present and truthy, else "".
   */
  function LangChainToDbMessage(c: Codec, v: LcValue, now: int): (r: Result<LangChainRow>)
    ensures v.LcPlain? <==> r.Fail?
    ensures r.Fail? ==> r.error == TypeError
    ensures v.LcMessage? ==> r.value.msgType == ToType(v.kind) && r.value.timestamp == now
    ensures v.LcMessage? && "content" in v.fields ==> r.value.content == Some(c.encode(v.fields["content"]))
    ensures v.LcMessage? && Truthy(Get(JObj(v.fields), "tool_calls")) ==>
      r.value.toolCalls == c.encode(v.fields["tool_calls"])
    ensures r.Ok? && !(v.LcMessage? && Truthy(Get(JObj(v.fields), "tool_calls"))) ==> r.value.toolCalls == ""
  {
    match v
    case LcPlain(_) => Fail(TypeError)
    case LcCallable(kind) => Ok(LangChainRow(ToType(kind), None, "", now))
    case LcMessage(kind, f) =>
      Ok(LangChainRow(
        ToType(kind),
        if "content" in f then Some(c.encode(f["content"])) else None,
        if Truthy(Get(JObj(f), "tool_calls")) then c.encode(f["tool_calls"]) else "",
        now))
  }

  /** Even string content is encoded, so it is stored quoted rather than as itself. */
  lemma LangChainContentAlwaysEncoded(c: Codec, kind: string, f: map<string, Json>, s: string, now: int)
    requires Lawful(c)
    requires "content" in f && f["content"] == JStr(s)
    ensures var r := LangChainToDbMessage(c, LcMessage(kind, f), now);
            r.Ok? && r.value.content.Some? && c.decode(r.value.content.value) == Some(JStr(s))
  {
    assert c.decode(c.encode(JStr(s))) == Some(JStr(s));
  }

  // ---------------------------------------------------------------- to LangChain

  /** The three LangChain message classes `toLcMessage` constructs. */
  datatype LcOut =
    | HumanLc(content: Json)
    | AiLc(content: Json, toolCalls: Json)
    | ToolLc(content: Json, toolCallId: Json)

  /** The tag each constructed class reports through `_getType()`. */
  function LcKind(o: LcOut): string
  {
    match o
    case HumanLc(_) => "human"
    case AiLc(_, _) => "ai"
    case ToolLc(_, _) => "tool"
  }

  /** `toLcMessage`: dispatch on the message type with `||` defaults; reading `.type` of null throws. */
  function ToLcMessage(m: Json): (r: Result<LcOut>)
    ensures r.Fail? <==> m.JNull?
    ensures r.Ok? && Get(m, "type") == Some(JStr("HumanMessage")) ==>
      r.value == HumanLc(Or(Get(m, "content"), JStr("")))
    ensures r.Ok? && Get(m, "type") == Some(JStr("AiMessage")) ==>
      r.value == AiLc(Or(Get(m, "content"), JStr("")), Or(Get(m, "toolCalls"), JArr([])))
    ensures r.Ok? && Get(m, "type") != Some(JStr("HumanMessage")) && Get(m, "type") != Some(JStr("AiMessage")) ==>
      r.value == ToolLc(Or(Get(m, "content"), JStr("")), Or(Get(m, "toolCallId"), JStr("")))
  {
    match Access(Some(m), "type")
    case Fail(e) => Fail(e)
    case Ok(t) =>
      var content := Or(Get(m, "content"), JStr(""));
      if t == Some(JStr(TypeName(HumanMessage))) then Ok(HumanLc(content))
      else if t == Some(JStr(TypeName(AiMessage))) then Ok(AiLc(content, Or(Get(m, "toolCalls"), JArr([]))))
      else Ok(ToolLc(content, Or(Get(m, "toolCallId"), JStr(""))))
  }

  /**
   * A message type survives the trip to LangChain and back: the class
   * `toLcMessage` picks reports a tag that `toType` maps to the same type.
   */
  lemma TypeSurvivesLangChain(m: Json, t: MessageType)
    requires Get(m, "type") == Some(JStr(TypeName(t)))
    ensures ToLcMessage(m).Ok? && ToType(LcKind(ToLcMessage(m).value)) == t
  {
  }

  /** Any type other than the three known names becomes a ToolMessage on the LangChain side. */
  lemma UnknownTypeBecomesTool(m: Json)
    requires !m.JNull?
    requires forall t: MessageType :: Get(m, "type") != Some(JStr(TypeName(t)))
    ensures ToLcMessage(m).Ok? && ToLcMessage(m).value.ToolLc?
  {
    assert Get(m, "type") != Some(JStr(TypeName(HumanMessage)));
    assert Get(m, "type") != Some(JStr(TypeName(AiMessage)));
  }
}
