/**
 * The two mappers between validated messages and rows of the messages table:
 * `toDbMessage` (message to row fields) and `toMessage` (stored row back to a
 * message).
 */
module DbMappers {
  import opened Js
  import opened Messages

  /** A row of the messages table as the drivers return it. */
  datatype DbMessage = DbMessage(
    id: nat,
    runId: string,
    msgType: string,
    content: Option<string>,
    toolCalls: Option<string>,
    timestamp: int)

  /** What `toDbMessage` produces: a row without id and timestamp. */
  datatype DbFields = DbFields(
    runId: string,
    msgType: string,
    content: Option<string>,
    toolCalls: Option<string>,
    toolCallId: Option<string>)

  /** `isMessageType`: membership in the values of the `messageType` constant. */
  function IsMessageType(s: string): (b: bool)
    ensures b <==> TypeFromName(s).Some?
  {
    s == TypeName(HumanMessage) || s == TypeName(ToolMessage) || s == TypeName(AiMessage)
  }

  /** The type column written for a type name: itself when valid, else "AiMessage". */
  function StoredTypeName(s: string): (r: string)
    ensures TypeFromName(r).Some?
    ensures r == s <==> IsMessageType(s)
    ensures !IsMessageType(s) ==> r == "AiMessage"
  {
    if IsMessageType(s) then s else "AiMessage"
  }

  /**
   * `toDbMessage` on a validated message. A validated message carries no
   * `toolCallId` key, so `message.toolCallId || null` is always null.
   */
  function ToDbMessage(c: Codec, m: Message): (r: DbFields)
    ensures r.runId == m.runId
    ensures r.msgType == TypeName(m.msgType)
    ensures r.toolCallId == None
    ensures m.content.Text? ==> r.content == Some(m.content.s)
    ensures r.content.None? <==> m.content.NoContent?
    ensures Lawful(c) && m.content.Blocks? ==> c.decode(r.content.value) == Some(ContentToJson(m.content))
    ensures r.toolCalls.Some? <==> m.toolCalls.Some?
    ensures Lawful(c) && m.toolCalls.Some? ==> c.decode(r.toolCalls.value) == Some(CallsToJson(m.toolCalls.value))
  {
    DbFields(
      m.runId,
      StoredTypeName(TypeName(m.msgType)),
      match m.content
      case Text(s) => Some(s)
      case Blocks(_) => Some(c.encode(ContentToJson(m.content)))
      case NoContent => None,
      if m.toolCalls.Some? then Some(c.encode(CallsToJson(m.toolCalls.value))) else None,
      None)
  }

  /** A tool call as `toMessage` rebuilds it: `args` is present only when `input` was defined. */
  datatype ReadCall = ReadCall(name: Option<Json>, input: Option<Json>)

  /** A message as `toMessage` returns it: no id, no toolCallId. */
  datatype ReadMessage = ReadMessage(
    runId: string,
    msgType: string,
    content: Option<string>,
    toolCalls: Option<seq<ReadCall>>,
    timestamp: int)

  /**
   * The per-call step of the decoding `map`: `{name, ...(input !== undefined ?
   * {args: {input: input || ""}} : {})}`. Reading `.name` of null, or `.input`
   * of a missing or null `args`, throws a TypeError.
   */
  function DecodeCall(call: Json): (r: Result<ReadCall>)
    ensures r.Fail? <==> call.JNull? || Get(call, "args").None? || Get(call, "args") == Some(JNull)
    ensures r.Ok? ==> r.value.name == Get(call, "name")
    ensures r.Ok? ==> (r.value.input.None? <==> Get(Get(call, "args").value, "input").None?)
    ensures r.Ok? && r.value.input.Some? ==>
      r.value.input == (var i := Get(call, "args").value; if Truthy(Get(i, "input")) then Get(i, "input") else Some(JStr("")))
  {
    if call.JNull? then Fail(TypeError)
    else
      match Access(Get(call, "args"), "input")
      case Fail(e) => Fail(e)
      case Ok(input) =>
        Ok(ReadCall(Get(call, "name"),
                    if input.None? then None
                    else if Truthy(input) then input
                    else Some(JStr(""))))
  }

  /** `Array.prototype.map` with a step that may throw: the first throw propagates. */
  function DecodeCalls(calls: seq<Json>): (r: Result<seq<ReadCall>>)
    ensures r.Ok? <==> forall i :: 0 <= i < |calls| ==> DecodeCall(calls[i]).Ok?
    ensures r.Ok? ==> |r.value| == |calls|
    ensures r.Ok? ==> forall i :: 0 <= i < |calls| ==> DecodeCall(calls[i]) == Ok(r.value[i])
    decreases |calls|
  {
    if calls == [] then Ok([])
    else
      match DecodeCall(calls[0])
      case Fail(e) => Fail(e)
      case Ok(x) =>
        match DecodeCalls(calls[1..])
        case Fail(e) =>
          assert forall i :: 0 <= i < |calls| - 1 ==> calls[1..][i] == calls[i + 1];
          Fail(e)
        case Ok(xs) =>
          assert forall i :: 1 <= i < |calls| ==> calls[i] == calls[1..][i - 1];
          Ok([x] + xs)
  }

  /**
   * The toolCalls field of `toMessage`: null unless the column is non-empty
   * and holds a non-empty JSON array, whose calls are then decoded.
   */
  function DecodeToolCalls(c: Codec, column: Option<string>): (r: Result<Option<seq<ReadCall>>>)
    ensures (column.None? || column == Some("")) ==> r == Ok(None)
    ensures column.Some? && column.value != "" && c.decode(column.value).None? ==> r == Fail(SyntaxError)
    ensures column.Some? && column.value != "" && c.decode(column.value).Some?
            && !(c.decode(column.value).value.JArr? && |c.decode(column.value).value.items| > 0)
            ==> r == Ok(None)
    ensures r.Ok? && r.value.Some? ==>
      column.Some? && c.decode(column.value).Some? && c.decode(column.value).value.JArr?
      && DecodeCalls(c.decode(column.value).value.items) == Ok(r.value.value)
      && |r.value.value| > 0
  {
    if column.None? || column.value == "" then Ok(None)
    else
      match Parse(c, column.value)
      case Fail(e) => Fail(e)
      case Ok(v) =>
        if v.JArr? && |v.items| > 0 then
          match DecodeCalls(v.items)
          case Ok(calls) => Ok(Some(calls))
          case Fail(e) => Fail(e)
        else Ok(None)
  }

  /**
   * `toMessage` (row to message). The content column is a string or null, so
   * it is returned as stored: structured content comes back as its JSON text.
   */
  function ToMessage(c: Codec, row: DbMessage): (r: Result<ReadMessage>)
    ensures r.Ok? <==> DecodeToolCalls(c, row.toolCalls).Ok?
    ensures r.Ok? ==> r.value == ReadMessage(row.runId, row.msgType, row.content,
                                             DecodeToolCalls(c, row.toolCalls).value, row.timestamp)
  {
    match DecodeToolCalls(c, row.toolCalls)
    case Fail(e) => Fail(e)
    case Ok(calls) => Ok(ReadMessage(row.runId, row.msgType, row.content, calls, row.timestamp))
  }

  /** Decoding the calls throws only the TypeError of a null call or of a call without usable `args`. */
  lemma {:induction false} DecodeCallsThrowsTypeError(calls: seq<Json>)
    ensures DecodeCalls(calls).Fail? ==> DecodeCalls(calls).error == TypeError
    decreases |calls|
  {
    if calls != [] && DecodeCall(calls[0]).Ok? {
      DecodeCallsThrowsTypeError(calls[1..]);
    }
  }

  /** `toMessage` throws only a SyntaxError from the tool calls column or a TypeError from one of its calls. */
  lemma ToMessageThrows(c: Codec, row: DbMessage)
    ensures ToMessage(c, row).Fail? ==> ToMessage(c, row).error == SyntaxError || ToMessage(c, row).error == TypeError
  {
    if row.toolCalls.Some? && row.toolCalls.value != "" {
      var v := c.decode(row.toolCalls.value);
      if v.Some? && v.value.JArr? {
        DecodeCallsThrowsTypeError(v.value.items);
      }
    }
  }

  /** How a validated call reads back: its name, and its input (non-empty or not) under args. */
  function ExpectedCall(t: ToolCall): ReadCall
  {
    ReadCall(Some(JStr(t.name)), Some(InputToJson(t.input)))
  }

  function ExpectedCalls(calls: seq<ToolCall>): (r: seq<ReadCall>)
    ensures |r| == |calls|
    ensures forall i :: 0 <= i < |calls| ==> r[i] == ExpectedCall(calls[i])
  {
    seq(|calls|, i requires 0 <= i < |calls| => ExpectedCall(calls[i]))
  }

  /** One encoded call decodes to its name and input. */
  lemma DecodeEncodedCall(t: ToolCall)
    ensures DecodeCall(CallToJson(t)) == Ok(ExpectedCall(t))
  {
    var args := JObj(map["input" := InputToJson(t.input)]);
    assert Get(CallToJson(t), "args") == Some(args);
    assert Get(args, "input") == Some(InputToJson(t.input));
  }

  lemma DecodeEncodedCalls(calls: seq<ToolCall>)
    ensures DecodeCalls(CallsToJson(calls).items) == Ok(ExpectedCalls(calls))
  {
    var items := CallsToJson(calls).items;
    forall i | 0 <= i < |items|
      ensures DecodeCall(items[i]) == Ok(ExpectedCall(calls[i]))
    {
      DecodeEncodedCall(calls[i]);
    }
    var r := DecodeCalls(items);
    assert r.value == ExpectedCalls(calls);
  }

  /**
   * The tool_calls column written for some fields, as both stores write it:
   * the encoded list when truthy, otherwise "".
   */
  function StoredToolCalls(f: DbFields): string
  {
    if f.toolCalls.Some? && f.toolCalls.value != "" then f.toolCalls.value else ""
  }

  /**
   * Store-and-read round trip: the fields `toDbMessage` builds for a
   * validated message, filed by a store under the run `runId` (the stores
   * write the call's runId, not the message's), read back as that runId and
   * the message's type, string content and, when it has at least one tool
   * call, every call's name and input in order.
   */
  lemma RoundTrip(c: Codec, m: Message, id: nat, runId: string, now: int)
    requires Lawful(c)
    ensures var f := ToDbMessage(c, m);
            var back := ToMessage(c, DbMessage(id, runId, f.msgType, f.content, Some(StoredToolCalls(f)), now));
            back.Ok?
            && back.value.runId == runId
            && back.value.msgType == TypeName(m.msgType)
            && back.value.timestamp == now
            && (m.content.Text? ==> back.value.content == Some(m.content.s))
            && (m.content.NoContent? ==> back.value.content == None)
            && (m.content.Blocks? ==> back.value.content == Some(c.encode(ContentToJson(m.content))))
            && (m.toolCalls.Some? && |m.toolCalls.value| > 0 ==>
                  back.value.toolCalls == Some(ExpectedCalls(m.toolCalls.value)))
            && (m.toolCalls.None? || m.toolCalls == Some([]) ==> back.value.toolCalls == None)
  {
    var f := ToDbMessage(c, m);
    if m.toolCalls.Some? {
      var j := CallsToJson(m.toolCalls.value);
      assert c.decode(c.encode(j)) == Some(j) && c.encode(j) != "";
      assert StoredToolCalls(f) == c.encode(j);
      DecodeEncodedCalls(m.toolCalls.value);
      var calls := m.toolCalls.value;
      assert |j.items| == |calls|;
      if |calls| > 0 {
        var expected := ExpectedCalls(calls);
        assert DecodeToolCalls(c, Some(c.encode(j))) == Ok(Some(expected));
        var row := DbMessage(id, runId, f.msgType, f.content, Some(StoredToolCalls(f)), now);
        assert ToMessage(c, row).value.toolCalls == Some(expected);
      }
    }
  }
}
