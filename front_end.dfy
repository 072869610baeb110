/**
 * What the front ends share: how a POST /runs body becomes the run's
 * messages, how GET /runs reads its query into a page of runs, the two
 * writes that mark a run failed, and the responses of a replay request.
 */
module FrontEnd {
  import opened Js
  import opened Messages
  import opened Store
  import opened DbMappers
  import opened LcMappers
  import opened Prompts
  import opened Tools
  import opened RunProcessor
  import opened Ordering

  // ---------------------------------------------------------- POST /runs body

  /** `pupa(template, data)`, left abstract: the filled template, or the error it throws. */
  type Template = (string, Option<Json>) -> Result<string>

  /** The substitution `toParameterized(parameters)` applies to a message's text. */
  function Filler(pupa: Template, parameters: Option<Json>): string -> Result<string>
  {
    s => pupa(s, parameters)
  }

  function Parameterizer(fill: string -> Result<string>): LcValue -> Result<LcValue>
  {
    m => Parameterize(fill, m)
  }

  function Mapper(now: int): LcValue -> Result<Json>
  {
    v => LcToMessage(v, now)
  }

  /**
   * `messagesFromConfig.map(toParameterized(parameters)).map(toMessage)`:
   * every message is parameterized before any is mapped.
   */
  function ConfigMessages(config: seq<LcValue>, pupa: Template, parameters: Option<Json>, now: int): Result<seq<Json>>
  {
    match MapAll(config, Parameterizer(Filler(pupa, parameters)))
    case Fail(e) => Fail(e)
    case Ok(ps) => MapAll(ps, Mapper(now))
  }

  /** One configured message, parameterized then mapped. */
  function ConfigMessage(m: LcValue, pupa: Template, parameters: Option<Json>, now: int): Result<Json>
  {
    match Parameterize(Filler(pupa, parameters), m)
    case Fail(e) => Fail(e)
    case Ok(p) => LcToMessage(p, now)
  }

  /**
   * The configured messages come out one per configured message, in order,
   * each as if parameterized and mapped on its own; and a template that
   * throws wins over a mapping that throws, wherever the two messages are.
   */
  lemma ConfigMessagesInOrder(config: seq<LcValue>, pupa: Template, parameters: Option<Json>, now: int)
    ensures var r := ConfigMessages(config, pupa, parameters, now);
            (r.Ok? <==> forall i :: 0 <= i < |config| ==> ConfigMessage(config[i], pupa, parameters, now).Ok?)
            && (r.Ok? ==> |r.value| == |config|
                          && forall i :: 0 <= i < |config| ==> ConfigMessage(config[i], pupa, parameters, now) == Ok(r.value[i]))
            && ((exists i :: 0 <= i < |config| && Parameterize(Filler(pupa, parameters), config[i]).Fail?) ==>
                  r.Fail? && exists i :: 0 <= i < |config| && Parameterize(Filler(pupa, parameters), config[i]) == Fail(r.error))
  {
    var fill := Filler(pupa, parameters);
    var ps := MapAll(config, Parameterizer(fill));
    assert forall i :: 0 <= i < |config| ==> Parameterizer(fill)(config[i]) == Parameterize(fill, config[i]);
    if ps.Ok? {
      var r := MapAll(ps.value, Mapper(now));
      assert forall i :: 0 <= i < |config| ==> ConfigMessage(config[i], pupa, parameters, now) == Mapper(now)(ps.value[i]);
    } else {
      var i :| 0 <= i < |config| && Parameterize(fill, config[i]).Fail?;
      assert ConfigMessage(config[i], pupa, parameters, now).Fail?;
    }
  }

  /** The replayed part of a body: the spread of a truthy `replayMessages`, else nothing. */
  function ReplayPart(body: Json): (r: Result<seq<Json>>)
    ensures r.Fail? ==> r.error == TypeError
    ensures !Truthy(Get(body, "replayMessages")) ==> r == Ok([])
  {
    var replay := Get(body, "replayMessages");
    if Truthy(replay) then Iterated(replay.value) else Ok([])
  }

  /**
   * The messages of a new run: the configured ones when
   * `includeConfigMessages` is truthy, then the spread of `replayMessages`
   * when that is truthy. The configured messages are mapped, and may throw,
   * whether or not they are included: the assembly fails exactly when some
   * configured message throws or the replayed messages are not iterable,
   * and a throwing template wins over everything else. (The JSON body
   * parser yields an object or an array, never null, so destructuring
   * never throws.)
   */
  function Assemble(config: seq<LcValue>, pupa: Template, now: int, body: Json): (r: Result<seq<Json>>)
    ensures r.Ok? <==> (forall i :: 0 <= i < |config| ==> ConfigMessage(config[i], pupa, Get(body, "parameters"), now).Ok?)
                       && ReplayPart(body).Ok?
    ensures r.Ok? && !Truthy(Get(body, "includeConfigMessages")) ==> r.value == ReplayPart(body).value
    ensures r.Ok? && Truthy(Get(body, "includeConfigMessages")) ==>
              |r.value| == |config| + |ReplayPart(body).value|
              && (forall i :: 0 <= i < |config| ==> ConfigMessage(config[i], pupa, Get(body, "parameters"), now) == Ok(r.value[i]))
              && r.value[|config|..] == ReplayPart(body).value
    ensures (exists i :: 0 <= i < |config| && Parameterize(Filler(pupa, Get(body, "parameters")), config[i]).Fail?) ==>
              r.Fail? && exists i :: 0 <= i < |config| && Parameterize(Filler(pupa, Get(body, "parameters")), config[i]) == Fail(r.error)
    ensures r.Fail? && (forall i :: 0 <= i < |config| ==> ConfigMessage(config[i], pupa, Get(body, "parameters"), now).Ok?)
            ==> r.error == TypeError
  {
    ConfigMessagesInOrder(config, pupa, Get(body, "parameters"), now);
    match ConfigMessages(config, pupa, Get(body, "parameters"), now)
    case Fail(e) => Fail(e)
    case Ok(mapped) =>
      var head := if Truthy(Get(body, "includeConfigMessages")) then mapped else [];
      var replay := Get(body, "replayMessages");
      if !Truthy(replay) then
        assert head + [] == head;
        Ok(head)
      else
        match Iterated(replay.value)
        case Fail(e) => Fail(e)
        case Ok(items) => Ok(head + items)
  }

  /** The values of a successful mapping of the configured messages, one per configured message. */
  lemma ConfigMessagesValues(config: seq<LcValue>, pupa: Template, parameters: Option<Json>, now: int)
    requires ConfigMessages(config, pupa, parameters, now).Ok?
    ensures var r := ConfigMessages(config, pupa, parameters, now).value;
            |r| == |config| && forall i :: 0 <= i < |config| ==> ConfigMessage(config[i], pupa, parameters, now) == Ok(r[i])
  {
    ConfigMessagesInOrder(config, pupa, parameters, now);
  }

  // ---------------------------------------------------------------- GET /runs

  /** The query string of GET /runs; each parameter as its text, `None` when absent. */
  datatype RunsQuery = RunsQuery(page: Option<string>, limit: Option<string>, order: Option<string>,
                                 status: Option<string>, taskStatus: Option<string>)

  /**
   * `parseInt(text) || default`, `parseInt` without a radix (so "0x10" is
   * 16): an absent, non-numeric or zero parameter takes the default.
   */
  function QueryNumber(q: Option<string>, default: int): (n: int)
    ensures default != 0 ==> n != 0
    ensures q.Some? && ParseIntAuto(q.value).Some? && ParseIntAuto(q.value).value != 0 ==> n == ParseIntAuto(q.value).value
    ensures !(q.Some? && ParseIntAuto(q.value).Some? && ParseIntAuto(q.value).value != 0) ==> n == default
  {
    if q.None? then default
    else
      match ParseIntAuto(q.value)
      case None => default
      case Some(v) => if v == 0 then default else v
  }

  /** A decimal parameter is read as its number; a hexadecimal one too, which a decimal-only reading would not. */
  lemma QueryNumberExamples()
    ensures QueryNumber(Some("3"), 1) == 3
    ensures QueryNumber(Some("0x10"), 10) == 16
    ensures QueryNumber(Some("0"), 10) == 10
    ensures QueryNumber(Some("ten"), 10) == 10
  {
    ParseIntAutoNatToString(3);
    ParseIntAutoHex();
    ParseIntAutoNatToString(0);
    ParseIntAutoWord();
  }

  /** `Math.ceil(count / limit)`, exactly: the least integer at or above the quotient. */
  function Ceil(count: nat, limit: int): (r: int)
    requires limit != 0
    ensures limit > 0 ==> (r - 1) * limit < count <= r * limit
    ensures limit < 0 ==> r * limit <= count < (r - 1) * limit
  {
    if limit > 0 then
      var q, m := count / limit, count % limit;
      assert count == q * limit + m;
      if m == 0 then q else q + 1
    else
      var d := -limit;
      var q, m := count / d, count % d;
      assert count == q * d + m;
      assert -q * limit == q * d;
      assert (-q - 1) * limit == q * d + d;
      -q
  }

  /** The filters object: a key for each truthy status parameter. */
  function QueryFilters(q: RunsQuery): Filters
  {
    Filters(if q.status.Some? && q.status.value != "" then q.status else None,
            if q.taskStatus.Some? && q.taskStatus.value != "" then q.taskStatus else None)
  }

  datatype Pagination = Pagination(currentPage: int, totalPages: int, totalCount: nat, limit: int)

  /** The 200 response `{runs, pagination}`, or the 500 "Failed to fetch runs" with the driver's error. */
  datatype RunsResponse = Listed(runs: seq<Run>, pagination: Pagination) | ListFailed(error: Error)

  function PageNumber(q: RunsQuery): int
  {
    QueryNumber(q.page, 1)
  }

  function PageLimit(q: RunsQuery): int
  {
    QueryNumber(q.limit, 10)
  }

  function PageOffset(q: RunsQuery): int
  {
    (PageNumber(q) - 1) * PageLimit(q)
  }

  /** Ascending exactly for `order=asc`, descending otherwise. */
  function QueryOrder(q: RunsQuery): Order
  {
    if q.order == Some("asc") then Asc else Desc
  }

  /**
   * GET /runs: the page of runs and its pagination, both queries on the same
   * filters. It fails only on PostgreSQL, and only for a negative limit or
   * offset, with the driver's error.
   */
  function ListRuns(db: Database, q: RunsQuery): (r: RunsResponse)
    reads db
    ensures r.ListFailed? <==> db.dialect == Postgres && (PageLimit(q) < 0 || PageOffset(q) < 0)
    ensures r.ListFailed? ==> r.error == DriverError
  {
    var limit := PageLimit(q);
    var order := QueryOrder(q);
    var filters := Some(QueryFilters(q));
    match db.GetRuns(limit, PageOffset(q), order, filters)
    case Fail(e) => ListFailed(e)
    case Ok(runs) =>
      var count := db.GetRunsCount(filters);
      Listed(runs, Pagination(PageNumber(q), Ceil(count, limit), count, limit))
  }

  /**
   * A listed page is the window at `(page - 1) * limit` of every run matching
   * the truthy filters, sorted by timestamp ascending exactly when `order`
   * is "asc" and descending otherwise: at most `limit` runs (when the limit
   * is not negative), each a stored matching run. The count is that of all
   * matching runs, and the page number and limit are the parsed parameters
   * with their defaults 1 and 10.
   */
  lemma ListRunsPage(db: Database, q: RunsQuery)
    ensures var r := ListRuns(db, q);
            var limit := PageLimit(q);
            (r.Listed? ==>
                  r.runs == Window(db.Listing(QueryOrder(q), Some(QueryFilters(q))), PageOffset(q), limit) &&
                  var active := ActiveFilters(Some(QueryFilters(q)));
                  r.pagination.currentPage == PageNumber(q) && r.pagination.limit == limit && limit != 0
                  && r.pagination.totalCount == |FilterRuns(db.runs, active)|
                  && r.pagination.totalPages == Ceil(r.pagination.totalCount, limit)
                  && (limit >= 0 ==> |r.runs| <= limit)
                  && (forall x :: x in r.runs ==> x in db.runs && MatchesAll(x, active))
                  && (q.order == Some("asc") ==>
                        forall i, j :: 0 <= i < j < |r.runs| ==> r.runs[i].timestamp <= r.runs[j].timestamp)
                  && (q.order != Some("asc") ==>
                        forall i, j :: 0 <= i < j < |r.runs| ==> r.runs[i].timestamp >= r.runs[j].timestamp))
  {
  }

  /** Without page and limit parameters the first ten matching runs of the listing are listed, or all of them when fewer. */
  lemma DefaultPage(db: Database, q: RunsQuery)
    requires q.page.None? && q.limit.None?
    ensures ListRuns(db, q).Listed?
    ensures var r := ListRuns(db, q);
            var listing := db.Listing(QueryOrder(q), Some(QueryFilters(q)));
            r.pagination.currentPage == 1 && r.pagination.limit == 10
            && |r.runs| == (if |listing| < 10 then |listing| else 10)
            && r.runs == listing[..|r.runs|]
  {
    ListRunsPage(db, q);
  }

  // ---------------------------------------------------------- GET /runs/:runId and its messages

  /** A read route's answer: the value, 404 "Message not found", or 500 with the error that was thrown. */
  datatype Fetched<T> = Found(value: T) | Missing | FetchFailed(error: Error)

  /** GET /runs/:runId: the stored run, or a 500 "Failed to fetch run" for an unknown one. */
  function FetchRun(db: Database, runId: string): (r: Fetched<Run>)
    reads db
    ensures r.Found? <==> exists j :: 0 <= j < |db.runs| && NatToString(db.runs[j].id) == runId
    ensures r.Found? ==> r.value in db.runs && NatToString(r.value.id) == runId
    ensures r.FetchFailed? ==> r.error == RunNotFound
  {
    match db.GetRun(runId)
    case Fail(e) => FetchFailed(e)
    case Ok(run) => Found(run)
  }

  /**
   * GET /runs/:runId/messages: the run's messages, one per stored row in
   * timestamp order; a run without rows, known or not, answers an empty
   * list. It fails exactly when one of the run's rows does not decode, with
   * the error of the first such row in that order.
   */
  function FetchMessages(db: Database, runId: string): (r: Fetched<seq<ReadMessage>>)
    reads db
    ensures !r.Missing?
    ensures r.Found? ==> |r.value| == |RowsOfRun(db.messages, runId)| == |db.RunRows(runId)|
    ensures r.Found? ==> forall i :: 0 <= i < |r.value| ==> ToMessage(db.codec, db.RunRows(runId)[i]) == Ok(r.value[i])
    ensures r.FetchFailed? <==> exists x :: x in db.messages && x.runId == runId && ToMessage(db.codec, x).Fail?
    ensures r.FetchFailed? ==> exists i :: 0 <= i < |db.RunRows(runId)| && ToMessage(db.codec, db.RunRows(runId)[i]) == Fail(r.error)
                                          && forall j :: 0 <= j < i ==> ToMessage(db.codec, db.RunRows(runId)[j]).Ok?
    ensures RowsOfRun(db.messages, runId) == [] ==> r == Found([])
  {
    match db.GetAllMessages(runId)
    case Fail(e) => FetchFailed(e)
    case Ok(ms) => Found(ms)
  }

  /**
   * GET /runs/:runId/messages/:messageId. `getMessage` throws "Message not
   * found" instead of returning nothing, and a message is an object, so
   * the 404 branch is never taken: a missing message is a 500.
   */
  function FetchMessage(db: Database, runId: string, messageId: string): (r: Fetched<ReadMessage>)
    reads db
    ensures !r.Missing?
    ensures r.Found? ==> exists j :: 0 <= j < |db.messages| && db.messages[j].runId == runId
                                   && NatToString(db.messages[j].id) == messageId
                                   && ToMessage(db.codec, db.messages[j]) == Ok(r.value)
    ensures (forall j :: 0 <= j < |db.messages| ==> !(db.messages[j].runId == runId && NatToString(db.messages[j].id) == messageId))
            ==> r == FetchFailed(MessageNotFound)
    ensures forall j :: 0 <= j < |db.messages| && db.messages[j].runId == runId && NatToString(db.messages[j].id) == messageId
                        && (forall k :: 0 <= k < j ==> !(db.messages[k].runId == runId && NatToString(db.messages[k].id) == messageId))
                        ==> r == (match ToMessage(db.codec, db.messages[j])
                                  case Ok(m) => Found(m)
                                  case Fail(e) => FetchFailed(e))
  {
    match db.GetMessage(runId, messageId)
    case Fail(e) => FetchFailed(e)
    case Ok(m) => Found(m)
  }

  /** Message ids are unique, so a stored message that decodes is answered with itself, whatever row it is. */
  lemma FetchMessageFindsStored(db: Database, j: nat, runId: string, messageId: string)
    requires db.Valid()
    requires j < |db.messages| && db.messages[j].runId == runId && NatToString(db.messages[j].id) == messageId
    ensures ToMessage(db.codec, db.messages[j]).Ok? ==> FetchMessage(db, runId, messageId) == Found(ToMessage(db.codec, db.messages[j]).value)
    ensures ToMessage(db.codec, db.messages[j]).Fail? ==> FetchMessage(db, runId, messageId) == FetchFailed(ToMessage(db.codec, db.messages[j]).error)
  {
    db.GetMessageFindsStored(j, runId, messageId);
  }

  // ---------------------------------------------------------- marking failure

  /** The run `runId` keeps its place and its id, no run is added or removed, and the run has `status`. */
  ghost predicate Ended(before: seq<Run>, after: seq<Run>, runId: string, status: RunStatus)
  {
    IndexOfRun(before, runId).Some? && IndexOfRun(after, runId) == IndexOfRun(before, runId)
    && |after| == |before|
    && var i := IndexOfRun(before, runId).value;
       i < |after| && after[i].id == before[i].id && after[i].status == status
  }

  /**
   * The two writes of a catch block: status `failed`, then task status
   * "failed" with the given reason. An unknown run makes the first throw
   * "Run not found" and nothing is written.
   */
  method MarkFailed(db: Database, runId: string, reason: Option<string>) returns (r: Result<()>)
    requires db.Valid()
    modifies db
    ensures db.Valid()
    ensures db.messages == old(db.messages)
    ensures if old(IndexOfRun(db.runs, runId)).None? then
              (r, db.runs, db.log) == (Fail(RunNotFound), old(db.runs), old(db.log))
            else
              r == Ok(()) && Ended(old(db.runs), db.runs, runId, Failed)
              && db.runs[old(IndexOfRun(db.runs, runId)).value].taskStatus == "failed"
              && db.log == old(db.log) + [SetStatus(runId, Failed), SetTaskStatus(runId, "failed", reason)]
  {
    var marked := db.UpdateRunStatus(runId, Failed);
    if marked.Fail? {
      return Fail(marked.error);
    }
    IndexOfRunKeepsIds(old(db.runs), db.runs, runId);
    ghost var between := db.runs;
    var task := db.UpdateRunTaskStatus(runId, "failed", reason);
    IndexOfRunKeepsIds(between, db.runs, runId);
    return Ok(());
  }

  // ---------------------------------------------------------- replay responses

  /**
   * The responses of a replay request: 200 `{results}`; 400 with "runId is
   * required", "messageId is required", "No tools to execute" or "Invalid
   * message format"; 400 "Tool Not found" with the error's message; 500
   * "Internal server error".
   */
  datatype ReplayResponse =
    | Replayed(results: seq<ToolResult>)
    | BadRequest(error: string)
    | ToolMissing(details: string)
    | InternalError

  function StatusCode(r: ReplayResponse): nat
  {
    match r
    case Replayed(_) => 200
    case BadRequest(_) => 400
    case ToolMissing(_) => 400
    case InternalError => 500
  }

  /** The catch block: a missing tool and a zod rejection are the client's fault, anything else the server's. */
  function Caught(e: Error): (r: ReplayResponse)
    ensures StatusCode(r) == 400 <==> e.ToolNotFound? || e == ZodError
    ensures e.ToolNotFound? ==> r == ToolMissing(e.message)
    ensures !r.Replayed?
  {
    match e
    case ToolNotFound(message) => ToolMissing(message)
    case ZodError => BadRequest("Invalid message format")
    case _ => InternalError
  }
}
