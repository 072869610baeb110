/**
 * Tools with a shared context cell (`createContext`, `toolsWithContext`),
 * the `ToolNotFoundError` message, and the tool execution loop
 * (`executeTools`/`executeSingleTool`) that the run processor and both
 * replay handlers use.
 */
module Tools {
  import opened Js

  /**
   * The own enumerable properties `{...v}` copies: an object's fields, an
   * array's items or a string's characters under their index keys "0",
   * "1", …; undefined, null, a boolean or a number adds nothing.
   */
  function OwnEntries(v: Option<Json>): (r: map<string, Json>)
    ensures v.Some? && v.value.JObj? ==> r == v.value.fields
    ensures v.Some? && v.value.JArr? ==>
              forall i :: 0 <= i < |v.value.items| ==> NatToString(i) in r && r[NatToString(i)] == v.value.items[i]
    ensures v.Some? && v.value.JStr? ==>
              forall i :: 0 <= i < |v.value.s| ==> NatToString(i) in r && r[NatToString(i)] == JStr([v.value.s[i]])
    ensures v.Some? && (v.value.JArr? || v.value.JStr?) ==>
              forall k :: k in r ==> exists i: nat :: k == NatToString(i) && i < (if v.value.JArr? then |v.value.items| else |v.value.s|)
    ensures v.None? || v.value.JNull? || v.value.JBool? || v.value.JNum? ==> r == map[]
  {
    match v
    case None => map[]
    case Some(JObj(fields)) => fields
    case Some(JArr(items)) => Indexed(items)
    case Some(JStr(s)) => Indexed(Characters(s))
    case Some(_) => map[]
  }

  /**
   * `{...storage, ...update}`: the update's keys take their new values,
   * every other key of the spread storage keeps its value, and no other key
   * appears.
   */
  function Updated(storage: Option<Json>, update: map<string, Json>): (r: map<string, Json>)
    ensures forall k :: k in update ==> k in r && r[k] == update[k]
    ensures forall k :: k !in update && k in OwnEntries(storage) ==> k in r && r[k] == OwnEntries(storage)[k]
    ensures forall k :: k in r ==> k in update || k in OwnEntries(storage)
  {
    OwnEntries(storage) + update
  }

  /** Two items spread under the keys "0" and "1". */
  lemma IndexedPair(a: Json, b: Json)
    ensures Indexed([a, b]) == map["0" := a, "1" := b]
  {
    var m := Indexed([a, b]);
    assert NatToString(0) == "0" && NatToString(1) == "1";
    forall k | k in m
      ensures k == "0" || k == "1"
    {
      var i :| 0 <= i < 2 && k == NatToString(i);
    }
  }

  /** Spreading a string stored as the context copies its characters under their indices. */
  lemma UpdatedString()
    ensures Updated(Some(JStr("ab")), map["x" := JNum(1)]) == map["0" := JStr("a"), "1" := JStr("b"), "x" := JNum(1)]
  {
    assert Characters("ab") == [JStr("a"), JStr("b")];
    IndexedPair(JStr("a"), JStr("b"));
  }

  /** An update before any set yields exactly the update. */
  lemma UpdatedFromUndefined(update: map<string, Json>)
    ensures Updated(None, update) == update
  {
  }

  /** Successive updates merge as one update whose later keys win. */
  lemma UpdatedTwice(storage: Option<Json>, u1: map<string, Json>, u2: map<string, Json>)
    ensures Updated(Some(JObj(Updated(storage, u1))), u2) == Updated(storage, u1 + u2)
  {
  }

  /**
   * The context cell of `createContext`: one `storage` variable, undefined
   * until the first `setContext` or `updateContext`.
   */
  class ToolContext {
    var storage: Option<Json>

    constructor()
      ensures storage == None
    {
      storage := None;
    }

    /** `getContext`: the value left by the latest set or update. */
    function GetContext(): Option<Json>
      reads this
    {
      storage
    }

    /** `setContext`: replaces the whole storage. */
    method SetContext(newStorage: Json)
      modifies this
      ensures storage == Some(newStorage)
      ensures GetContext() == Some(newStorage)
    {
      storage := Some(newStorage);
    }

    /**
     * `updateContext`: a new object holding the spread of the stored value
     * overwritten by the update's keys. Stored object keys survive, and so
     * do the index keys of a stored string or array.
     */
    method UpdateContext(update: map<string, Json>)
      modifies this
      ensures storage == Some(JObj(Updated(old(storage), update)))
      ensures forall k :: k in update ==> k in storage.value.fields && storage.value.fields[k] == update[k]
      ensures forall k :: k !in update && k in OwnEntries(old(storage)) ==>
                k in storage.value.fields && storage.value.fields[k] == OwnEntries(old(storage))[k]
      ensures forall k :: k in storage.value.fields ==> k in update || k in OwnEntries(old(storage))
    {
      storage := Some(JObj(Updated(storage, update)));
    }
  }

  /** What a tool implementation does to the shared context while it runs. */
  datatype ContextWrite = NoWrite | WriteSet(value: Json) | WriteUpdate(update: map<string, Json>)

  /** One invocation of a tool: its outcome and its write to the context, made even when it throws. */
  datatype ToolStep = ToolStep(outcome: Result<Json>, write: ContextWrite)

  /**
   * A tool implementation, left abstract: given the stored context and the
   * call's input, what it returns and what it writes.
   */
  type ToolFunc = (Option<Json>, Option<Json>) -> ToolStep

  /** A `ToolDefinition`: the tool's declared name and its function, if any. */
  datatype ToolDefinition = ToolDefinition(name: string, func: Option<ToolFunc>)

  /** A registered tool: name and function, bound to the tools' shared context. */
  datatype Tool = Tool(name: string, func: Option<ToolFunc>)

  datatype Toolkit = Toolkit(tools: seq<Tool>, context: ToolContext)

  /** The context after a write. */
  function Written(storage: Option<Json>, w: ContextWrite): Option<Json>
  {
    match w
    case NoWrite => storage
    case WriteSet(v) => Some(v)
    case WriteUpdate(u) => Some(JObj(Updated(storage, u)))
  }

  method ApplyWrite(context: ToolContext, w: ContextWrite)
    modifies context
    ensures context.storage == Written(old(context.storage), w)
  {
    match w
    case NoWrite =>
    case WriteSet(v) => context.SetContext(v);
    case WriteUpdate(u) => context.UpdateContext(u);
  }

  /**
   * `toolsWithContext`: one fresh context, and one tool per definition in
   * order, all bound to it. Binding a definition without a function throws.
   */
  method ToolsWithContext(defs: seq<ToolDefinition>) returns (r: Result<Toolkit>)
    ensures r.Fail? <==> exists i :: 0 <= i < |defs| && defs[i].func.None?
    ensures r.Fail? ==> r.error == TypeError
    ensures r.Ok? ==> fresh(r.value.context) && r.value.context.storage == None
    ensures r.Ok? ==> |r.value.tools| == |defs|
                      && forall i :: 0 <= i < |defs| ==> r.value.tools[i] == Tool(defs[i].name, defs[i].func)
  {
    var context := new ToolContext();
    var tools: seq<Tool> := [];
    var i := 0;
    while i < |defs|
      invariant 0 <= i <= |defs|
      invariant |tools| == i
      invariant forall j :: 0 <= j < i ==> defs[j].func.Some? && tools[j] == Tool(defs[j].name, defs[j].func)
    {
      if defs[i].func.None? {
        return Fail(TypeError);
      }
      tools := tools + [Tool(defs[i].name, defs[i].func)];
      i := i + 1;
    }
    return Ok(Toolkit(tools, context));
  }

  function Names(tools: seq<Tool>): (r: seq<string>)
    ensures |r| == |tools|
    ensures forall i :: 0 <= i < |tools| ==> r[i] == tools[i].name
  {
    seq(|tools|, i requires 0 <= i < |tools| => tools[i].name)
  }

  /** The text of `ToolNotFoundError`: the missing name, then the registry's names in order. */
  function NotFoundMessage(name: string, tools: seq<Tool>): string
  {
    "Tool " + name + " does not exist in the list of tools: " + Join(Names(tools), ", ")
  }

  /** With an empty registry the message ends in ": ". */
  lemma NotFoundMessageEmpty(name: string)
    ensures var m := NotFoundMessage(name, []);
            |m| >= 2 && m[|m| - 2..] == ": "
  {
    var m := NotFoundMessage(name, []);
    assert m == "Tool " + name + " does not exist in the list of tools: ";
  }

  /** A one-tool registry names that tool after the colon. */
  lemma NotFoundMessageSingle(name: string, t: Tool)
    ensures NotFoundMessage(name, [t]) == "Tool " + name + " does not exist in the list of tools: " + t.name
  {
  }

  /** A longer registry lists one more name after ", ". */
  lemma NotFoundMessageGrows(name: string, tools: seq<Tool>, t: Tool)
    requires tools != []
    ensures NotFoundMessage(name, tools + [t]) == NotFoundMessage(name, tools) + ", " + t.name
  {
    assert Names(tools + [t]) == Names(tools) + [t.name];
    JoinAppend(Names(tools), t.name, ", ");
  }

  /** `tools.find(t => t.name === name)`: the first tool of exactly that name. */
  function Lookup(tools: seq<Tool>, name: Option<Json>): (r: Option<nat>)
    ensures r.Some? ==> r.value < |tools| && name == Some(JStr(tools[r.value].name))
    ensures r.Some? ==> forall j :: 0 <= j < r.value ==> name != Some(JStr(tools[j].name))
    ensures r.None? ==> forall j :: 0 <= j < |tools| ==> name != Some(JStr(tools[j].name))
    decreases |tools|
  {
    if tools == [] then None
    else if name == Some(JStr(tools[0].name)) then Some(0)
    else
      match Lookup(tools[1..], name)
      case None => None
      case Some(k) => Some(k + 1)
  }

  /** What `executeSingleTool` returns for one call. */
  datatype ToolResult = ToolResult(toolCallName: Option<Json>, result: Json)

  /**
   * One call: reading `.name` of a null call throws; a missing tool, or one
   * without a function, throws `ToolNotFoundError`; reading `args.input`
   * of a call without args throws; otherwise the tool runs on that input.
   * The pair is the outcome and the context afterwards.
   */
  function StepSpec(call: Json, tools: seq<Tool>, storage: Option<Json>): (r: (Result<ToolResult>, Option<Json>))
  {
    if call.JNull? then (Fail(TypeError), storage)
    else
      var name := Get(call, "name");
      match Lookup(tools, name)
      case None => (Fail(ToolNotFound(NotFoundMessage(JsString(name), tools))), storage)
      case Some(i) =>
        if tools[i].func.None? then (Fail(ToolNotFound(NotFoundMessage(JsString(name), tools))), storage)
        else
          match Access(Get(call, "args"), "input")
          case Fail(e) => (Fail(e), storage)
          case Ok(input) =>
            var step := tools[i].func.value(storage, input);
            var after := Written(storage, step.write);
            match step.outcome
            case Fail(e) => (Fail(e), after)
            case Ok(v) => (Ok(ToolResult(name, v)), after)
  }

  /**
   * `executeTools`: the calls one after the other, each seeing the context
   * the previous left; the first throw ends the loop and propagates. On
   * success there is one result per call, in call order, each named after
   * its call.
   */
  function RunSpec(calls: seq<Json>, tools: seq<Tool>, storage: Option<Json>): (r: (Result<seq<ToolResult>>, Option<Json>))
    ensures r.0.Ok? ==> |r.0.value| == |calls| && forall i :: 0 <= i < |calls| ==> r.0.value[i].toolCallName == Get(calls[i], "name")
    decreases |calls|
  {
    if calls == [] then (Ok([]), storage)
    else
      var n := |calls| - 1;
      var before := RunSpec(calls[..n], tools, storage);
      if before.0.Fail? then before
      else
        var step := StepSpec(calls[n], tools, before.1);
        match step.0
        case Fail(e) => (Fail(e), step.1)
        case Ok(x) =>
          StepSucceeds(calls[n], tools, before.1);
          assert forall i :: 0 <= i < n ==> calls[..n][i] == calls[i];
          (Ok(before.0.value + [x]), step.1)
  }

  /** A call whose name no tool carries throws `ToolNotFoundError` and leaves the context alone. */
  lemma StepUnknownTool(call: Json, tools: seq<Tool>, storage: Option<Json>)
    requires !call.JNull?
    requires forall j :: 0 <= j < |tools| ==> Get(call, "name") != Some(JStr(tools[j].name))
    ensures StepSpec(call, tools, storage)
            == (Fail(ToolNotFound(NotFoundMessage(JsString(Get(call, "name")), tools))), storage)
  {
  }

  /** A successful call reports the call's own name and the first matching tool's result. */
  lemma StepSucceeds(call: Json, tools: seq<Tool>, storage: Option<Json>)
    requires StepSpec(call, tools, storage).0.Ok?
    ensures Lookup(tools, Get(call, "name")).Some?
    ensures var i := Lookup(tools, Get(call, "name")).value;
            tools[i].func.Some?
            && StepSpec(call, tools, storage).0.value.toolCallName == Get(call, "name")
            && Access(Get(call, "args"), "input").Ok?
            && tools[i].func.value(storage, Access(Get(call, "args"), "input").value).outcome
               == Ok(StepSpec(call, tools, storage).0.value.result)
  {
  }

  /** One more call on a prefix that ran: the call's outcome decides, on the prefix's context. */
  lemma RunSpecSnoc(calls: seq<Json>, i: nat, tools: seq<Tool>, storage: Option<Json>)
    requires i < |calls| && RunSpec(calls[..i], tools, storage).0.Ok?
    ensures var before := RunSpec(calls[..i], tools, storage);
            var step := StepSpec(calls[i], tools, before.1);
            RunSpec(calls[..i + 1], tools, storage)
            == if step.0.Fail? then (Fail(step.0.error), step.1) else (Ok(before.0.value + [step.0.value]), step.1)
  {
    assert calls[..i + 1][..i] == calls[..i];
  }

  /** A throw ends the loop: calls after a failing prefix change neither the outcome nor the context. */
  lemma {:induction false} RunSpecAborts(calls: seq<Json>, k: nat, tools: seq<Tool>, storage: Option<Json>)
    requires k <= |calls|
    requires RunSpec(calls[..k], tools, storage).0.Fail?
    ensures RunSpec(calls, tools, storage) == RunSpec(calls[..k], tools, storage)
    decreases |calls| - k
  {
    if k < |calls| {
      var n := |calls| - 1;
      assert calls[..n][..k] == calls[..k];
      RunSpecAborts(calls[..n], k, tools, storage);
    } else {
      assert calls[..k] == calls;
    }
  }

  /** A run succeeds on a prefix as soon as it succeeds on the whole list. */
  lemma {:induction false} RunSpecPrefix(calls: seq<Json>, k: nat, tools: seq<Tool>, storage: Option<Json>)
    requires k <= |calls|
    requires RunSpec(calls, tools, storage).0.Ok?
    ensures RunSpec(calls[..k], tools, storage).0.Ok?
  {
    if RunSpec(calls[..k], tools, storage).0.Fail? {
      RunSpecAborts(calls, k, tools, storage);
    }
  }

  /** An unknown tool anywhere in the list makes the whole run throw. */
  lemma UnknownToolFailsRun(calls: seq<Json>, k: nat, tools: seq<Tool>, storage: Option<Json>)
    requires k < |calls| && !calls[k].JNull?
    requires forall j :: 0 <= j < |tools| ==> Get(calls[k], "name") != Some(JStr(tools[j].name))
    ensures RunSpec(calls, tools, storage).0.Fail?
  {
    if RunSpec(calls, tools, storage).0.Ok? {
      RunSpecPrefix(calls, k + 1, tools, storage);
      var init := calls[..k + 1];
      assert init[..k] == calls[..k];
      assert init[k] == calls[k];
      var before := RunSpec(calls[..k], tools, storage);
      StepUnknownTool(calls[k], tools, before.1);
    }
  }

  /** The run of `b` after an earlier run ended in `ra`: nothing when that one threw. */
  function Continue(ra: (Result<seq<ToolResult>>, Option<Json>), b: seq<Json>, tools: seq<Tool>): (Result<seq<ToolResult>>, Option<Json>)
  {
    if ra.0.Fail? then ra
    else
      var rb := RunSpec(b, tools, ra.1);
      match rb.0
      case Fail(e) => (Fail(e), rb.1)
      case Ok(xs) => (Ok(ra.0.value + xs), rb.1)
  }

  /** Running two lists back to back is running their concatenation. */
  lemma {:induction false} RunSpecAppend(a: seq<Json>, b: seq<Json>, tools: seq<Tool>, storage: Option<Json>)
    ensures RunSpec(a + b, tools, storage) == Continue(RunSpec(a, tools, storage), b, tools)
    decreases |b|
  {
    if b == [] {
      assert a + b == a;
      var ra := RunSpec(a, tools, storage);
      if ra.0.Ok? {
        assert ra.0.value + [] == ra.0.value;
      }
    } else {
      var n := |b| - 1;
      assert (a + b)[..|a + b| - 1] == a + b[..n];
      assert (a + b)[|a + b| - 1] == b[n];
      RunSpecAppend(a, b[..n], tools, storage);
      var ra := RunSpec(a, tools, storage);
      if ra.0.Ok? {
        var rb := RunSpec(b[..n], tools, ra.1);
        if rb.0.Ok? {
          var step := StepSpec(b[n], tools, rb.1);
          if step.0.Ok? {
            assert ra.0.value + rb.0.value + [step.0.value] == ra.0.value + (rb.0.value + [step.0.value]);
          }
        }
      }
    }
  }

  /** `executeSingleTool`, on the toolkit's shared context. */
  method ExecuteSingleTool(call: Json, kit: Toolkit) returns (r: Result<ToolResult>)
    modifies kit.context
    ensures (r, kit.context.storage) == StepSpec(call, kit.tools, old(kit.context.storage))
  {
    if call.JNull? {
      return Fail(TypeError);
    }
    var name := Get(call, "name");
    var found := Lookup(kit.tools, name);
    if found.None? || kit.tools[found.value].func.None? {
      return Fail(ToolNotFound(NotFoundMessage(JsString(name), kit.tools)));
    }
    var input := Access(Get(call, "args"), "input");
    if input.Fail? {
      return Fail(input.error);
    }
    var step := kit.tools[found.value].func.value(kit.context.storage, input.value);
    ApplyWrite(kit.context, step.write);
    if step.outcome.Fail? {
      return Fail(step.outcome.error);
    }
    return Ok(ToolResult(name, step.outcome.value));
  }

  /** `executeTools`: results pushed in call order; the first throw propagates. */
  method ExecuteTools(calls: seq<Json>, kit: Toolkit) returns (r: Result<seq<ToolResult>>)
    modifies kit.context
    ensures (r, kit.context.storage) == RunSpec(calls, kit.tools, old(kit.context.storage))
  {
    var results: seq<ToolResult> := [];
    var i := 0;
    while i < |calls|
      invariant 0 <= i <= |calls|
      invariant RunSpec(calls[..i], kit.tools, old(kit.context.storage)) == (Ok(results), kit.context.storage)
    {
      RunSpecSnoc(calls, i, kit.tools, old(kit.context.storage));
      var result := ExecuteSingleTool(calls[i], kit);
      if result.Fail? {
        RunSpecAborts(calls, i + 1, kit.tools, old(kit.context.storage));
        return Fail(result.error);
      }
      results := results + [result.value];
      i := i + 1;
    }
    assert calls[..i] == calls;
    return Ok(results);
  }
}
