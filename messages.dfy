/**
 * The message and run vocabulary of the store: the closed message-type enum,
 * the run statuses, message content and tool calls, and the zod schema that
 * validates an incoming message (keeping only the keys it declares).
 */
module Messages {
  import opened Js

  // ------------------------------------------------------------ message types

  datatype MessageType = HumanMessage | ToolMessage | AiMessage

  function TypeName(t: MessageType): string
  {
    match t
    case HumanMessage => "HumanMessage"
    case ToolMessage => "ToolMessage"
    case AiMessage => "AiMessage"
  }

  /** `z.enum(Object.values(messageType))`: the type a name denotes, if any. */
  function TypeFromName(s: string): (r: Option<MessageType>)
    ensures r.Some? <==> (s == "HumanMessage" || s == "ToolMessage" || s == "AiMessage")
    ensures r.Some? ==> TypeName(r.value) == s
  {
    if s == "HumanMessage" then Some(HumanMessage)
    else if s == "ToolMessage" then Some(ToolMessage)
    else if s == "AiMessage" then Some(AiMessage)
    else None
  }

  lemma TypeNameRoundTrip(t: MessageType)
    ensures TypeFromName(TypeName(t)) == Some(t)
  {
  }

  // ------------------------------------------------------------- run status

  datatype RunStatus = Scheduled | Running | Done | Failed

  function StatusName(s: RunStatus): string
  {
    match s
    case Scheduled => "scheduled"
    case Running => "running"
    case Done => "done"
    case Failed => "failed"
  }

  /** The four statuses have four distinct column values. */
  lemma StatusNameInjective(a: RunStatus, b: RunStatus)
    ensures StatusName(a) == StatusName(b) <==> a == b
  {
  }

  /** A row of the runs table; `reason` exists only in the PostgreSQL schema. */
  datatype Run = Run(id: nat, status: RunStatus, taskStatus: string, reason: Option<string>, timestamp: int)

  // --------------------------------------------------- content and tool calls

  datatype Block = TextBlock(text: string) | ImageBlock(url: string)

  datatype Content = Text(s: string) | Blocks(blocks: seq<Block>) | NoContent

  /** `args.input`: a string or a record of arbitrary values. */
  datatype CallInput = InputText(s: string) | InputRecord(fields: map<string, Json>)

  datatype ToolCall = ToolCall(name: string, input: CallInput)

  /**
   * A message as validation hands it on: exactly the declared keys. The
   * timestamp is `None` where the schema omits it.
   */
  datatype Message = Message(
    runId: string,
    msgType: MessageType,
    content: Content,
    toolCalls: Option<seq<ToolCall>>,
    timestamp: Option<int>)

  // ----------------------------------------------------------- JSON encoding

  function BlockToJson(b: Block): Json
  {
    match b
    case TextBlock(t) => JObj(map["type" := JStr("text"), "text" := JStr(t)])
    case ImageBlock(u) => JObj(map["type" := JStr("image_url"), "image_url" := JObj(map["url" := JStr(u)])])
  }

  function ContentToJson(c: Content): Json
  {
    match c
    case Text(s) => JStr(s)
    case Blocks(bs) => JArr(seq(|bs|, i requires 0 <= i < |bs| => BlockToJson(bs[i])))
    case NoContent => JNull
  }

  function InputToJson(i: CallInput): Json
  {
    match i
    case InputText(s) => JStr(s)
    case InputRecord(f) => JObj(f)
  }

  function CallToJson(c: ToolCall): Json
  {
    JObj(map["name" := JStr(c.name), "args" := JObj(map["input" := InputToJson(c.input)])])
  }

  function CallsToJson(calls: seq<ToolCall>): Json
  {
    JArr(seq(|calls|, i requires 0 <= i < |calls| => CallToJson(calls[i])))
  }

  function MessageToJson(m: Message): Json
  {
    var base := map[
      "runId" := JStr(m.runId),
      "type" := JStr(TypeName(m.msgType)),
      "content" := ContentToJson(m.content),
      "toolCalls" := if m.toolCalls.Some? then CallsToJson(m.toolCalls.value) else JNull];
    JObj(if m.timestamp.Some? then base["timestamp" := JNum(m.timestamp.value)] else base)
  }

  // -------------------------------------------------------------- validation

  /** `z.array(item)`: every element must validate; the results keep their order. */
  function ParseEach<T>(items: seq<Json>, f: Json -> Option<T>): (r: Option<seq<T>>)
    ensures r.Some? <==> forall i :: 0 <= i < |items| ==> f(items[i]).Some?
    ensures r.Some? ==> |r.value| == |items|
    ensures r.Some? ==> forall i :: 0 <= i < |items| ==> f(items[i]) == Some(r.value[i])
    decreases |items|
  {
    if items == [] then Some([])
    else
      match (f(items[0]), ParseEach(items[1..], f))
      case (Some(x), Some(xs)) =>
        assert forall i :: 1 <= i < |items| ==> items[i] == items[1..][i - 1];
        Some([x] + xs)
      case (None, _) => None
      case (_, None) =>
        assert forall i :: 0 <= i < |items| - 1 ==> items[1..][i] == items[i + 1];
        None
  }

  /** `{type: "text", text}` or `{type: "image_url", image_url: {url}}`, other keys dropped. */
  function ParseBlock(j: Json): Option<Block>
  {
    match (Get(j, "type"), Get(j, "text"), Get(j, "image_url"))
    case (Some(JStr("text")), Some(JStr(t)), _) => Some(TextBlock(t))
    case (Some(JStr("image_url")), _, Some(img)) =>
      (match Get(img, "url")
       case Some(JStr(u)) => Some(ImageBlock(u))
       case _ => None)
    case _ => None
  }

  /** The content union: a string, an array of blocks, or null (undefined is rejected). */
  function ParseContent(j: Option<Json>): Option<Content>
  {
    match j
    case Some(JStr(s)) => Some(Text(s))
    case Some(JNull) => Some(NoContent)
    case Some(JArr(items)) =>
      (match ParseEach(items, ParseBlock)
       case Some(bs) => Some(Blocks(bs))
       case None => None)
    case _ => None
  }

  function ParseInput(j: Option<Json>): Option<CallInput>
  {
    match j
    case Some(JStr(s)) => Some(InputText(s))
    case Some(JObj(f)) => Some(InputRecord(f))
    case _ => None
  }

  /** `{name: string, args: {input}}`, other keys dropped at both levels. */
  function ParseCall(j: Json): Option<ToolCall>
  {
    match (Get(j, "name"), Get(j, "args"))
    case (Some(JStr(n)), Some(args)) =>
      if args.JObj? then
        match ParseInput(Get(args, "input"))
        case Some(i) => Some(ToolCall(n, i))
        case None => None
      else None
    case _ => None
  }

  /** The toolCalls union: an array of calls or null. Outer `None` means invalid. */
  function ParseToolCalls(j: Option<Json>): Option<Option<seq<ToolCall>>>
  {
    match j
    case Some(JNull) => Some(None)
    case Some(JArr(items)) =>
      (match ParseEach(items, ParseCall)
       case Some(cs) => Some(Some(cs))
       case None => None)
    case _ => None
  }

  /** The keys the message schema declares (without `id`, which the store always omits). */
  const DeclaredKeys: set<string> := {"runId", "type", "content", "toolCalls", "timestamp"}

  /**
   * `messageSchema.omit({id: true})` (and also `timestamp` when `withTimestamp`
   * is false) applied with `safeParse`: `None` is a failed parse.
   */
  function ParseMessage(j: Json, withTimestamp: bool): (r: Option<Message>)
    ensures r.Some? <==>
      j.JObj?
      && Get(j, "runId").Some? && Get(j, "runId").value.JStr?
      && Get(j, "type").Some? && Get(j, "type").value.JStr?
      && TypeFromName(Get(j, "type").value.s).Some?
      && ParseContent(Get(j, "content")).Some?
      && ParseToolCalls(Get(j, "toolCalls")).Some?
      && (withTimestamp ==> Get(j, "timestamp").Some? && Get(j, "timestamp").value.JNum?)
    ensures r.Some? ==>
      Get(j, "runId") == Some(JStr(r.value.runId))
      && TypeFromName(Get(j, "type").value.s) == Some(r.value.msgType)
      && ParseContent(Get(j, "content")) == Some(r.value.content)
      && ParseToolCalls(Get(j, "toolCalls")) == Some(r.value.toolCalls)
      && r.value.timestamp == (if withTimestamp then Some(Get(j, "timestamp").value.n) else None)
  {
    if !j.JObj? then None
    else
      match (Get(j, "runId"), Get(j, "type"), ParseContent(Get(j, "content")),
             ParseToolCalls(Get(j, "toolCalls")), Get(j, "timestamp"))
      case (Some(JStr(r)), Some(JStr(t)), Some(c), Some(tc), ts) =>
        if TypeFromName(t).None? then None
        else if !withTimestamp then Some(Message(r, TypeFromName(t).value, c, tc, None))
        else if ts.Some? && ts.value.JNum? then Some(Message(r, TypeFromName(t).value, c, tc, Some(ts.value.n)))
        else None
      case _ => None
  }

  /** The schema in the other direction: a validated message is accepted and reproduced. */
  lemma ParseMessageToJson(m: Message)
    ensures ParseMessage(MessageToJson(m), m.timestamp.Some?) == Some(m)
  {
    var j := MessageToJson(m);
    ParseContentToJson(m.content);
    if m.toolCalls.Some? {
      ParseCallsToJson(m.toolCalls.value);
    }
    TypeNameRoundTrip(m.msgType);
  }

  lemma ParseBlockToJson(b: Block)
    ensures ParseBlock(BlockToJson(b)) == Some(b)
  {
  }

  lemma ParseContentToJson(c: Content)
    ensures ParseContent(Some(ContentToJson(c))) == Some(c)
  {
    if c.Blocks? {
      var items := seq(|c.blocks|, i requires 0 <= i < |c.blocks| => BlockToJson(c.blocks[i]));
      assert ContentToJson(c) == JArr(items);
      forall i | 0 <= i < |items|
        ensures ParseBlock(items[i]) == Some(c.blocks[i])
      {
        ParseBlockToJson(c.blocks[i]);
      }
      var r := ParseEach(items, ParseBlock);
      assert r.value == c.blocks;
    }
  }

  lemma ParseCallsToJson(calls: seq<ToolCall>)
    ensures ParseToolCalls(Some(CallsToJson(calls))) == Some(Some(calls))
  {
    var items := seq(|calls|, i requires 0 <= i < |calls| => CallToJson(calls[i]));
    assert forall i :: 0 <= i < |items| ==> ParseCall(items[i]) == Some(calls[i]);
    assert ParseEach(items, ParseCall).value == calls;
  }

  /** Keys the schema does not declare play no part in validation: zod strips them. */
  lemma ParseMessageStripsUnknownKeys(f: map<string, Json>, withTimestamp: bool)
    ensures ParseMessage(JObj(f), withTimestamp)
         == ParseMessage(JObj(map k | k in f && k in DeclaredKeys :: f[k]), withTimestamp)
  {
  }

  /** Without the timestamp key demanded, its presence or value is irrelevant. */
  lemma ParseMessageIgnoresTimestamp(f: map<string, Json>, ts: Json)
    ensures ParseMessage(JObj(f), false) == ParseMessage(JObj(f["timestamp" := ts]), false)
  {
  }

  /** Content is valid iff it is a string, null, or an array of text/image blocks. */
  lemma ParseContentAccepts(j: Option<Json>)
    ensures ParseContent(j).Some? <==>
      j.Some? && (j.value.JStr? || j.value.JNull?
                  || (j.value.JArr? && forall i :: 0 <= i < |j.value.items| ==> ParseBlock(j.value.items[i]).Some?))
  {
  }

  /** toolCalls is valid iff it is null or an array of `{name: string, args: {input}}`. */
  lemma ParseToolCallsAccepts(j: Option<Json>)
    ensures ParseToolCalls(j).Some? <==>
      j.Some? && (j.value.JNull?
                  || (j.value.JArr? && forall i :: 0 <= i < |j.value.items| ==> ParseCall(j.value.items[i]).Some?))
  {
  }
}
