/**
 * The run and message store: one class for the two implementations of the
 * `Database` interface (SQLite and PostgreSQL), holding the runs table, the
 * messages table and the two id counters. The read-only half of the
 * interface (`ReadonlyDatabase`) is the functions; the four mutators are the
 * methods.
 */
module Store {
  import opened Js
  import opened Messages
  import opened DbMappers
  import opened Ordering

  datatype Dialect = Sqlite | Postgres

  datatype Order = Asc | Desc

  /** The optional `filters` argument; an absent key is `None`. */
  datatype Filters = Filters(status: Option<string>, taskStatus: Option<string>)

  datatype Column = StatusColumn | TaskStatusColumn

  function ColumnName(c: Column): string
  {
    match c
    case StatusColumn => "status"
    case TaskStatusColumn => "task_status"
  }

  /** A filter value counts only when truthy, i.e. present and non-empty. */
  predicate Present(v: Option<string>)
  {
    v.Some? && v.value != ""
  }

  /** The filters a query applies, status first: one entry per truthy filter value. */
  function ActiveFilters(filters: Option<Filters>): (r: seq<(Column, string)>)
    ensures |r| <= 2
    ensures forall i :: 0 <= i < |r| ==> r[i].1 != ""
  {
    if filters.None? then []
    else
      (if Present(filters.value.status) then [(StatusColumn, filters.value.status.value)] else [])
      + (if Present(filters.value.taskStatus) then [(TaskStatusColumn, filters.value.taskStatus.value)] else [])
  }

  function ColumnValue(r: Run, c: Column): string
  {
    match c
    case StatusColumn => StatusName(r.status)
    case TaskStatusColumn => r.taskStatus
  }

  /** The AND of the WHERE conditions. */
  predicate MatchesAll(r: Run, active: seq<(Column, string)>)
  {
    forall i :: 0 <= i < |active| ==> ColumnValue(r, active[i].0) == active[i].1
  }

  /** The WHERE clause, read on the filter object: each truthy filter must equal its column. */
  lemma MatchesAllIff(r: Run, filters: Option<Filters>)
    ensures MatchesAll(r, ActiveFilters(filters)) <==>
      (filters.Some? && Present(filters.value.status) ==> StatusName(r.status) == filters.value.status.value)
      && (filters.Some? && Present(filters.value.taskStatus) ==> r.taskStatus == filters.value.taskStatus.value)
  {
    var active := ActiveFilters(filters);
    if filters.Some? && Present(filters.value.status) {
      assert active[0] == (StatusColumn, filters.value.status.value);
    }
    if filters.Some? && Present(filters.value.taskStatus) {
      assert active[|active| - 1] == (TaskStatusColumn, filters.value.taskStatus.value);
    }
  }

  /** The runs a filter selects, in table order. */
  function FilterRuns(runs: seq<Run>, active: seq<(Column, string)>): (r: seq<Run>)
    ensures |r| <= |runs|
    ensures forall x :: x in r ==> x in runs && MatchesAll(x, active)
    ensures forall x :: x in runs && MatchesAll(x, active) ==> x in r
    decreases |runs|
  {
    if runs == [] then []
    else
      var rest := FilterRuns(runs[1..], active);
      assert forall x :: x in runs[1..] ==> x in runs;
      assert forall x :: x in runs ==> x == runs[0] || x in runs[1..];
      if MatchesAll(runs[0], active) then [runs[0]] + rest else rest
  }

  // ------------------------------------------------------------ query text

  datatype Param = PText(s: string) | PNumber(n: int)

  /** The n-th placeholder: `?` for SQLite, `$n` for PostgreSQL. */
  function Placeholder(d: Dialect, n: nat): string
  {
    if d == Sqlite then "?" else "$" + NatToString(n)
  }

  /** The conditions of a WHERE clause, numbered from 1 in filter order. */
  function Conditions(d: Dialect, active: seq<(Column, string)>): (r: seq<string>)
    ensures |r| == |active|
    ensures forall i :: 0 <= i < |active| ==> r[i] == ColumnName(active[i].0) + " = " + Placeholder(d, i + 1)
  {
    seq(|active|, i requires 0 <= i < |active| => ColumnName(active[i].0) + " = " + Placeholder(d, i + 1))
  }

  function WhereClause(d: Dialect, active: seq<(Column, string)>): string
  {
    if active == [] then "" else " WHERE " + Join(Conditions(d, active), " AND ")
  }

  function FilterParams(active: seq<(Column, string)>): (r: seq<Param>)
    ensures |r| == |active|
    ensures forall i :: 0 <= i < |active| ==> r[i] == PText(active[i].1)
  {
    seq(|active|, i requires 0 <= i < |active| => PText(active[i].1))
  }

  /**
   * The shared filter-building step of `getRuns` and `getRunsCount`: one
   * condition and one parameter pushed per truthy filter, with `paramIndex`
   * counting the placeholders used.
   */
  method BuildWhere(d: Dialect, filters: Option<Filters>) returns (where: string, params: seq<Param>, paramIndex: nat)
    ensures where == WhereClause(d, ActiveFilters(filters))
    ensures params == FilterParams(ActiveFilters(filters))
    ensures paramIndex == |ActiveFilters(filters)| + 1
  {
    where := "";
    params := [];
    paramIndex := 1;
    if filters.Some? {
      var conditions: seq<string> := [];
      if Present(filters.value.status) {
        conditions := conditions + [ColumnName(StatusColumn) + " = " + Placeholder(d, paramIndex)];
        params := params + [PText(filters.value.status.value)];
        paramIndex := paramIndex + 1;
      }
      if Present(filters.value.taskStatus) {
        conditions := conditions + [ColumnName(TaskStatusColumn) + " = " + Placeholder(d, paramIndex)];
        params := params + [PText(filters.value.taskStatus.value)];
        paramIndex := paramIndex + 1;
      }
      assert conditions == Conditions(d, ActiveFilters(filters));
      if |conditions| > 0 {
        where := " WHERE " + Join(conditions, " AND ");
      }
    }
  }

  /** The ORDER BY, LIMIT and OFFSET tail of `getRuns`'s query, its placeholders numbered from `first`. */
  function PageClause(d: Dialect, order: Order, first: nat): string
  {
    " ORDER BY timestamp " + (if order == Asc then "ASC" else "DESC")
    + " LIMIT " + Placeholder(d, first) + " OFFSET " + Placeholder(d, first + 1)
  }

  /**
   * `getRuns`'s query: the filter conditions, then ORDER BY, then LIMIT and
   * OFFSET as the last two placeholders, with one parameter per placeholder.
   */
  method BuildRunsQuery(d: Dialect, limit: int, offset: int, order: Order, filters: Option<Filters>)
    returns (query: string, params: seq<Param>)
    ensures var active := ActiveFilters(filters);
            query == "SELECT * FROM runs" + WhereClause(d, active) + PageClause(d, order, |active| + 1)
    ensures var k := |ActiveFilters(filters)|;
            |params| == k + 2 && params[..k] == FilterParams(ActiveFilters(filters))
            && params[k] == PNumber(limit) && params[k + 1] == PNumber(offset)
    ensures Count(query, Marker(d)) == |params|
  {
    var where, paramIndex;
    where, params, paramIndex := BuildWhere(d, filters);
    query := "SELECT * FROM runs" + where + PageClause(d, order, paramIndex);
    params := params + [PNumber(limit), PNumber(offset)];
    RunsQueryPlaceholders(d, order, ActiveFilters(filters));
  }

  /** `getRunsCount`'s query: the same conditions and exactly one parameter per condition. */
  method BuildCountQuery(d: Dialect, filters: Option<Filters>) returns (query: string, params: seq<Param>)
    ensures query == "SELECT COUNT(*) as count FROM runs" + WhereClause(d, ActiveFilters(filters))
    ensures params == FilterParams(ActiveFilters(filters))
    ensures Count(query, Marker(d)) == |params|
  {
    var where, paramIndex;
    where, params, paramIndex := BuildWhere(d, filters);
    query := "SELECT COUNT(*) as count FROM runs" + where;
    CountQueryPlaceholders(d, ActiveFilters(filters));
  }

  /** Occurrences of one character. */
  function Count(s: string, ch: char): nat
  {
    if s == [] then 0 else (if s[0] == ch then 1 else 0) + Count(s[1..], ch)
  }

  lemma {:induction false} CountAppend(a: string, b: string, ch: char)
    ensures Count(a + b, ch) == Count(a, ch) + Count(b, ch)
    decreases |a|
  {
    if a != [] {
      assert (a + b)[0] == a[0];
      assert (a + b)[1..] == a[1..] + b;
      CountAppend(a[1..], b, ch);
    } else {
      assert a + b == b;
    }
  }

  lemma {:induction false} CountNone(s: string, ch: char)
    requires forall i :: 0 <= i < |s| ==> s[i] != ch
    ensures Count(s, ch) == 0
    decreases |s|
  {
    if s != [] {
      CountNone(s[1..], ch);
    }
  }

  /** The character that opens a placeholder in each dialect. */
  function Marker(d: Dialect): char
  {
    if d == Sqlite then '?' else '$'
  }

  lemma PlaceholderMarks(d: Dialect, n: nat)
    ensures Count(Placeholder(d, n), Marker(d)) == 1
  {
    if d == Postgres {
      CountNone(NatToString(n), '$');
      assert Placeholder(d, n) == "$" + NatToString(n);
      CountAppend("$", NatToString(n), '$');
    }
  }

  /** A join of parts that each hold one marker, with a separator holding none, holds one per part. */
  lemma {:induction false} JoinMarks(parts: seq<string>, sep: string, ch: char)
    requires Count(sep, ch) == 0
    requires forall i :: 0 <= i < |parts| ==> Count(parts[i], ch) == 1
    ensures Count(Join(parts, sep), ch) == |parts|
    decreases |parts|
  {
    if |parts| > 1 {
      JoinMarks(parts[1..], sep, ch);
      CountAppend(parts[0], sep, ch);
      CountAppend(parts[0] + sep, Join(parts[1..], sep), ch);
    }
  }

  /** One condition `column = placeholder` holds one marker. */
  lemma ConditionMarks(d: Dialect, c: Column, n: nat)
    ensures Count(ColumnName(c) + " = " + Placeholder(d, n), Marker(d)) == 1
  {
    var name := ColumnName(c) + " = ";
    CountNone(name, Marker(d));
    PlaceholderMarks(d, n);
    CountAppend(name, Placeholder(d, n), Marker(d));
  }

  lemma ConditionsMarks(d: Dialect, active: seq<(Column, string)>)
    ensures forall i :: 0 <= i < |active| ==> Count(Conditions(d, active)[i], Marker(d)) == 1
  {
    forall i | 0 <= i < |active|
      ensures Count(Conditions(d, active)[i], Marker(d)) == 1
    {
      ConditionMarks(d, active[i].0, i + 1);
    }
  }

  lemma WhereClauseMarks(d: Dialect, active: seq<(Column, string)>)
    ensures Count(WhereClause(d, active), Marker(d)) == |active|
  {
    if active != [] {
      ConditionsMarks(d, active);
      CountNone(" AND ", Marker(d));
      JoinMarks(Conditions(d, active), " AND ", Marker(d));
      CountNone(" WHERE ", Marker(d));
      CountAppend(" WHERE ", Join(Conditions(d, active), " AND "), Marker(d));
    }
  }

  lemma PageClauseMarks(d: Dialect, order: Order, first: nat)
    ensures Count(PageClause(d, order, first), Marker(d)) == 2
  {
    var ch := Marker(d);
    var p1 := " ORDER BY timestamp ";
    var p2 := if order == Asc then "ASC" else "DESC";
    var p3 := " LIMIT ";
    var p4 := Placeholder(d, first);
    var p5 := " OFFSET ";
    var p6 := Placeholder(d, first + 1);
    CountNone(p1, ch);
    CountNone(p2, ch);
    CountNone(p3, ch);
    PlaceholderMarks(d, first);
    CountNone(p5, ch);
    PlaceholderMarks(d, first + 1);
    CountAppend(p1, p2, ch);
    CountAppend(p1 + p2, p3, ch);
    CountAppend(p1 + p2 + p3, p4, ch);
    CountAppend(p1 + p2 + p3 + p4, p5, ch);
    CountAppend(p1 + p2 + p3 + p4 + p5, p6, ch);
  }

  /**
   * The listing query has exactly as many placeholders as parameters: one
   * per truthy filter, then LIMIT and OFFSET.
   */
  lemma RunsQueryPlaceholders(d: Dialect, order: Order, active: seq<(Column, string)>)
    ensures Count("SELECT * FROM runs" + WhereClause(d, active) + PageClause(d, order, |active| + 1), Marker(d))
            == |active| + 2
  {
    var ch := Marker(d);
    CountNone("SELECT * FROM runs", ch);
    WhereClauseMarks(d, active);
    PageClauseMarks(d, order, |active| + 1);
    CountAppend("SELECT * FROM runs", WhereClause(d, active), ch);
    CountAppend("SELECT * FROM runs" + WhereClause(d, active), PageClause(d, order, |active| + 1), ch);
  }

  /** The count query has exactly one placeholder per parameter. */
  lemma CountQueryPlaceholders(d: Dialect, active: seq<(Column, string)>)
    ensures Count("SELECT COUNT(*) as count FROM runs" + WhereClause(d, active), Marker(d)) == |active|
  {
    CountNone("SELECT COUNT(*) as count FROM runs", Marker(d));
    WhereClauseMarks(d, active);
    CountAppend("SELECT COUNT(*) as count FROM runs", WhereClause(d, active), Marker(d));
  }

  // ------------------------------------------------------------- the tables

  /** A successful write, in the order the store performed it. */
  datatype Write =
    | CreatedRun(id: nat)
    | SetStatus(runId: string, status: RunStatus)
    | SetTaskStatus(runId: string, taskStatus: string, reason: Option<string>)
    | InsertedMessages(runId: string, count: nat)

  /** The first run whose id prints as `runId`. */
  function IndexOfRun(runs: seq<Run>, runId: string): (r: Option<nat>)
    ensures r.Some? ==> r.value < |runs| && NatToString(runs[r.value].id) == runId
    ensures r.Some? ==> forall j :: 0 <= j < r.value ==> NatToString(runs[j].id) != runId
    ensures r.None? ==> forall j :: 0 <= j < |runs| ==> NatToString(runs[j].id) != runId
    decreases |runs|
  {
    if runs == [] then None
    else if NatToString(runs[0].id) == runId then Some(0)
    else
      match IndexOfRun(runs[1..], runId)
      case None => None
      case Some(k) => Some(k + 1)
  }

  /** The first message row of that run with that id. */
  function IndexOfMessage(rows: seq<DbMessage>, runId: string, messageId: string): (r: Option<nat>)
    ensures r.Some? ==> r.value < |rows| && rows[r.value].runId == runId && NatToString(rows[r.value].id) == messageId
    ensures r.Some? ==> forall j :: 0 <= j < r.value ==> !(rows[j].runId == runId && NatToString(rows[j].id) == messageId)
    ensures r.None? ==> forall j :: 0 <= j < |rows| ==> !(rows[j].runId == runId && NatToString(rows[j].id) == messageId)
    decreases |rows|
  {
    if rows == [] then None
    else if rows[0].runId == runId && NatToString(rows[0].id) == messageId then Some(0)
    else
      match IndexOfMessage(rows[1..], runId, messageId)
      case None => None
      case Some(k) => Some(k + 1)
  }

  /** The rows of one run, in table order. */
  function RowsOfRun(rows: seq<DbMessage>, runId: string): (r: seq<DbMessage>)
    ensures forall x :: x in r <==> x in rows && x.runId == runId
    decreases |rows|
  {
    if rows == [] then []
    else
      var rest := RowsOfRun(rows[1..], runId);
      assert forall x :: x in rows <==> x == rows[0] || x in rows[1..];
      if rows[0].runId == runId then [rows[0]] + rest else rest
  }

  /** `messages.map(toMessage)`: the first row that fails to decode makes the read throw. */
  function ToMessages(c: Codec, rows: seq<DbMessage>): (r: Result<seq<ReadMessage>>)
    ensures r.Ok? ==> |r.value| == |rows|
    ensures r.Ok? ==> forall i :: 0 <= i < |rows| ==> ToMessage(c, rows[i]) == Ok(r.value[i])
    ensures r.Fail? <==> exists i :: 0 <= i < |rows| && ToMessage(c, rows[i]).Fail?
    ensures r.Fail? ==> exists i :: 0 <= i < |rows| && ToMessage(c, rows[i]) == Fail(r.error)
                                    && forall j :: 0 <= j < i ==> ToMessage(c, rows[j]).Ok?
    decreases |rows|
  {
    if rows == [] then Ok([])
    else
      match ToMessage(c, rows[0])
      case Fail(e) => Fail(e)
      case Ok(m) =>
        assert forall i :: 1 <= i < |rows| ==> rows[i] == rows[1..][i - 1];
        match ToMessages(c, rows[1..])
        case Fail(e) =>
          var k :| 0 <= k < |rows[1..]| && ToMessage(c, rows[1..][k]) == Fail(e)
                   && forall j :: 0 <= j < k ==> ToMessage(c, rows[1..][j]).Ok?;
          assert ToMessage(c, rows[k + 1]) == Fail(e);
          Fail(e)
        case Ok(ms) =>
          Ok([m] + ms)
  }

  function RunTimestamp(r: Run): int { r.timestamp }

  function NegRunTimestamp(r: Run): int { -r.timestamp }

  function RowTimestamp(m: DbMessage): int { m.timestamp }

  /** `{runId, ...message}`: the message's own keys win, so its own runId replaces the argument. */
  function Merged(runId: string, message: Json): (r: Json)
    ensures r.JObj? && "runId" in r.fields
    ensures message.JObj? && "runId" in message.fields ==> r.fields["runId"] == message.fields["runId"]
    ensures !(message.JObj? && "runId" in message.fields) ==> r.fields["runId"] == JStr(runId)
  {
    JObj(map["runId" := JStr(runId)] + (if message.JObj? then message.fields else map[]))
  }

  /**
   * The validation `map` of `insertMessages`: every message is parsed before
   * any write, and the first that fails makes the whole call throw.
   */
  function Validate(runId: string, messages: seq<Json>, withTimestamp: bool): (r: Result<seq<Message>>)
    ensures r.Ok? ==> |r.value| == |messages|
    ensures r.Fail? ==> r.error.InvalidMessage? && r.error.index < |messages|
    decreases |messages|
  {
    if messages == [] then Ok([])
    else
      var n := |messages| - 1;
      match Validate(runId, messages[..n], withTimestamp)
      case Fail(e) => Fail(e)
      case Ok(ms) =>
        match ParseMessage(Merged(runId, messages[n]), withTimestamp)
        case None => Fail(InvalidMessage(n))
        case Some(m) => Ok(ms + [m])
  }

  /** An accepted batch holds, position by position, what the schema made of each merged message. */
  lemma {:induction false} ValidateAccepted(runId: string, messages: seq<Json>, withTimestamp: bool)
    requires Validate(runId, messages, withTimestamp).Ok?
    ensures forall i :: 0 <= i < |messages| ==>
      ParseMessage(Merged(runId, messages[i]), withTimestamp) == Some(Validate(runId, messages, withTimestamp).value[i])
    decreases |messages|
  {
    if messages != [] {
      var n := |messages| - 1;
      var init := messages[..n];
      ValidateAccepted(runId, init, withTimestamp);
      var ms := Validate(runId, init, withTimestamp).value;
      var m := ParseMessage(Merged(runId, messages[n]), withTimestamp).value;
      assert Validate(runId, messages, withTimestamp).value == ms + [m];
      forall i | 0 <= i < n
        ensures ParseMessage(Merged(runId, messages[i]), withTimestamp) == Some((ms + [m])[i])
      {
        assert init[i] == messages[i];
      }
    }
  }

  /** A rejected batch names its first message that the schema refuses. */
  lemma {:induction false} ValidateRejected(runId: string, messages: seq<Json>, withTimestamp: bool)
    requires Validate(runId, messages, withTimestamp).Fail?
    ensures var k := Validate(runId, messages, withTimestamp).error.index;
            ParseMessage(Merged(runId, messages[k]), withTimestamp).None?
            && forall j :: 0 <= j < k ==> ParseMessage(Merged(runId, messages[j]), withTimestamp).Some?
    decreases |messages|
  {
    var n := |messages| - 1;
    var init := messages[..n];
    assert forall j :: 0 <= j < n ==> init[j] == messages[j];
    if Validate(runId, init, withTimestamp).Fail? {
      ValidateRejected(runId, init, withTimestamp);
    } else {
      ValidateAccepted(runId, init, withTimestamp);
    }
  }

  /** The batch is accepted exactly when every merged message passes the schema. */
  lemma ValidateAcceptsIff(runId: string, messages: seq<Json>, withTimestamp: bool)
    ensures Validate(runId, messages, withTimestamp).Ok?
            <==> forall i :: 0 <= i < |messages| ==> ParseMessage(Merged(runId, messages[i]), withTimestamp).Some?
  {
    if Validate(runId, messages, withTimestamp).Ok? {
      ValidateAccepted(runId, messages, withTimestamp);
    } else {
      ValidateRejected(runId, messages, withTimestamp);
    }
  }

  /** `.map(toDbMessage)` over the validated messages. */
  function ToFields(c: Codec, ms: seq<Message>): (r: seq<DbFields>)
    ensures |r| == |ms|
    ensures forall i :: 0 <= i < |ms| ==> r[i] == ToDbMessage(c, ms[i])
  {
    seq(|ms|, i requires 0 <= i < |ms| => ToDbMessage(c, ms[i]))
  }

  /**
   * The rows one committed batch appends: consecutive ids from `start`, the
   * call's runId, and for each row a clock reading of its own, the `tick`-th
   * reading onwards.
   */
  function NewRows(start: nat, runId: string, fields: seq<DbFields>, clock: nat -> int, tick: nat): (r: seq<DbMessage>)
    ensures |r| == |fields|
    ensures forall i :: 0 <= i < |fields| ==>
      r[i] == DbMessage(start + i, runId, fields[i].msgType, fields[i].content, Some(StoredToolCalls(fields[i])), clock(tick + i))
  {
    seq(|fields|, i requires 0 <= i < |fields| =>
      DbMessage(start + i, runId, fields[i].msgType, fields[i].content, Some(StoredToolCalls(fields[i])), clock(tick + i)))
  }

  /** With a clock that never goes back, a batch's rows are stamped in insertion order. */
  lemma NewRowsInClockOrder(start: nat, runId: string, fields: seq<DbFields>, clock: nat -> int, tick: nat)
    requires forall a: nat, b: nat :: a <= b ==> clock(a) <= clock(b)
    ensures var r := NewRows(start, runId, fields, clock, tick);
            forall i, j :: 0 <= i < j < |r| ==> r[i].timestamp <= r[j].timestamp && r[i].id < r[j].id
  {
  }

  /**
   * A committed batch read back: each row decodes to a message filed under
   * the call's runId (whatever runId the message itself carried), with the
   * message's type, its content as stored, and its tool calls' names and
   * inputs in order, stamped with the row's own clock reading.
   */
  lemma StoredRowsReadBack(c: Codec, start: nat, runId: string, ms: seq<Message>, clock: nat -> int, tick: nat, i: nat)
    requires Lawful(c) && i < |ms|
    ensures var back := ToMessage(c, NewRows(start, runId, ToFields(c, ms), clock, tick)[i]);
            var m := ms[i];
            back.Ok?
            && back.value.runId == runId
            && back.value.msgType == TypeName(m.msgType)
            && back.value.timestamp == clock(tick + i)
            && (m.content.Text? ==> back.value.content == Some(m.content.s))
            && (m.content.NoContent? ==> back.value.content == None)
            && (m.toolCalls.Some? && |m.toolCalls.value| > 0 ==> back.value.toolCalls == Some(ExpectedCalls(m.toolCalls.value)))
            && (m.toolCalls.None? || m.toolCalls == Some([]) ==> back.value.toolCalls == None)
  {
    RoundTrip(c, ms[i], start + i, runId, clock(tick + i));
  }

  /** A batch one row longer appends that row's own id and clock reading. */
  lemma NewRowsSnoc(start: nat, runId: string, fields: seq<DbFields>, clock: nat -> int, tick: nat, i: nat)
    requires i < |fields|
    ensures NewRows(start, runId, fields[..i + 1], clock, tick)
            == NewRows(start, runId, fields[..i], clock, tick)
               + [DbMessage(start + i, runId, fields[i].msgType, fields[i].content, Some(StoredToolCalls(fields[i])), clock(tick + i))]
  {
    var a := NewRows(start, runId, fields[..i + 1], clock, tick);
    var b := NewRows(start, runId, fields[..i], clock, tick);
    assert forall k :: 0 <= k < i ==> a[k] == b[k];
  }

  function IdStrings(start: nat, n: nat): (r: seq<string>)
    ensures |r| == n
    ensures forall i :: 0 <= i < n ==> r[i] == NatToString(start + i)
  {
    seq(n, i requires 0 <= i < n => NatToString(start + i))
  }

  /** Message ids are positive, strictly increasing in table order, and below the counter. */
  ghost predicate RowIdsValid(rows: seq<DbMessage>, next: nat)
  {
    (forall i :: 0 <= i < |rows| ==> 1 <= rows[i].id < next)
    && (forall i, j :: 0 <= i < j < |rows| ==> rows[i].id < rows[j].id)
  }

  lemma AppendRowValid(rows: seq<DbMessage>, next: nat, row: DbMessage)
    requires RowIdsValid(rows, next) && row.id == next && 1 <= next
    ensures RowIdsValid(rows + [row], next + 1)
  {
  }

  lemma RowIdsValidRaise(rows: seq<DbMessage>, next: nat, next': nat)
    requires RowIdsValid(rows, next) && next <= next'
    ensures RowIdsValid(rows, next')
  {
  }

  class Database {
    const dialect: Dialect
    const codec: Codec
    /** `Date.now()` as `insertMessages` reads it: the n-th reading, counting from 0. */
    const clock: nat -> int
    /** How many readings `insertMessages` has taken so far. */
    var ticks: nat
    var runs: seq<Run>
    var messages: seq<DbMessage>
    var nextRunId: nat
    var nextMessageId: nat
    ghost var log: seq<Write>

    ghost predicate Valid()
      reads this
    {
      1 <= nextRunId && 1 <= nextMessageId
      && (forall i :: 0 <= i < |runs| ==> 1 <= runs[i].id < nextRunId)
      && (forall i, j :: 0 <= i < j < |runs| ==> runs[i].id < runs[j].id)
      && RowIdsValid(messages, nextMessageId)
      && (dialect == Sqlite ==> forall i :: 0 <= i < |runs| ==> runs[i].reason.None?)
    }

    /** Both tables empty, both counters at 1 (SQLite AUTOINCREMENT, PostgreSQL SERIAL). */
    constructor(dialect: Dialect, codec: Codec, clock: nat -> int)
      ensures Valid()
      ensures this.dialect == dialect && this.codec == codec && this.clock == clock && ticks == 0
      ensures runs == [] && messages == [] && log == []
    {
      this.dialect := dialect;
      this.codec := codec;
      this.clock := clock;
      ticks := 0;
      runs := [];
      messages := [];
      nextRunId := 1;
      nextMessageId := 1;
      log := [];
    }

    // ----------------------------------------------------------- reads

    /** `getRun`: the run with that id, else "Run not found". */
    function GetRun(runId: string): (r: Result<Run>)
      reads this
      ensures r.Fail? <==> forall j :: 0 <= j < |runs| ==> NatToString(runs[j].id) != runId
      ensures r.Fail? ==> r.error == RunNotFound
      ensures r.Ok? ==> r.value in runs && NatToString(r.value.id) == runId
    {
      match IndexOfRun(runs, runId)
      case None => Fail(RunNotFound)
      case Some(i) => Ok(runs[i])
    }

    /** `getMessage`: matches on both run_id and id, else "Message not found"; then `toMessage`. */
    function GetMessage(runId: string, messageId: string): (r: Result<ReadMessage>)
      reads this
      ensures (forall j :: 0 <= j < |messages| ==> !(messages[j].runId == runId && NatToString(messages[j].id) == messageId))
              ==> r == Fail(MessageNotFound)
      ensures r.Ok? ==> exists j :: 0 <= j < |messages| && messages[j].runId == runId
                                    && NatToString(messages[j].id) == messageId
                                    && ToMessage(codec, messages[j]) == r
      ensures forall j :: 0 <= j < |messages| && messages[j].runId == runId && NatToString(messages[j].id) == messageId
                          && (forall k :: 0 <= k < j ==> !(messages[k].runId == runId && NatToString(messages[k].id) == messageId))
                          ==> r == ToMessage(codec, messages[j])
    {
      match IndexOfMessage(messages, runId, messageId)
      case None => Fail(MessageNotFound)
      case Some(i) => ToMessage(codec, messages[i])
    }

    /** Message ids are unique, so any stored row of that run with that id is the one `getMessage` decodes. */
    lemma GetMessageFindsStored(j: nat, runId: string, messageId: string)
      requires Valid()
      requires j < |messages| && messages[j].runId == runId && NatToString(messages[j].id) == messageId
      ensures GetMessage(runId, messageId) == ToMessage(codec, messages[j])
    {
      var i := IndexOfMessage(messages, runId, messageId).value;
      NatToStringInjective(messages[i].id, messages[j].id);
      assert !(i < j) && !(j < i);
    }

    /** The run's rows as `ORDER BY timestamp ASC` returns them. */
    function RunRows(runId: string): (rows: seq<DbMessage>)
      reads this
      ensures forall i, j :: 0 <= i < j < |rows| ==> rows[i].timestamp <= rows[j].timestamp
      ensures multiset(rows) == multiset(RowsOfRun(messages, runId))
      ensures forall x :: x in rows <==> x in messages && x.runId == runId
    {
      var rows := SortBy(RowsOfRun(messages, runId), RowTimestamp);
      assert forall x :: x in rows <==> x in multiset(rows);
      rows
    }

    /** `getAllMessages`: the run's rows ordered by ascending timestamp, each through `toMessage`. */
    function GetAllMessages(runId: string): (r: Result<seq<ReadMessage>>)
      reads this
      ensures r.Ok? ==> |r.value| == |RunRows(runId)| == |RowsOfRun(messages, runId)|
      ensures r.Ok? ==> forall i :: 0 <= i < |RunRows(runId)| ==> ToMessage(codec, RunRows(runId)[i]) == Ok(r.value[i])
      ensures r.Fail? <==> exists x :: x in messages && x.runId == runId && ToMessage(codec, x).Fail?
      ensures r.Fail? ==> exists i :: 0 <= i < |RunRows(runId)| && ToMessage(codec, RunRows(runId)[i]) == Fail(r.error)
                                      && forall j :: 0 <= j < i ==> ToMessage(codec, RunRows(runId)[j]).Ok?
    {
      var rows := RunRows(runId);
      var r := ToMessages(codec, rows);
      assert r.Fail? ==> exists x :: x in messages && x.runId == runId && ToMessage(codec, x).Fail? by {
        if r.Fail? {
          var i :| 0 <= i < |rows| && ToMessage(codec, rows[i]).Fail?;
          assert rows[i] in rows;
        }
      }
      assert (exists x :: x in messages && x.runId == runId && ToMessage(codec, x).Fail?) ==> r.Fail? by {
        if x :| x in messages && x.runId == runId && ToMessage(codec, x).Fail? {
          assert x in rows;
          var i :| 0 <= i < |rows| && rows[i] == x;
        }
      }
      r
    }

    /**
     * `getRuns`: the runs matching every truthy filter, ordered by timestamp,
     * then OFFSET and LIMIT. PostgreSQL refuses a negative LIMIT or OFFSET;
     * SQLite reads them as no limit and no offset.
     */
    function GetRuns(limit: int, offset: int, order: Order, filters: Option<Filters>): (r: Result<seq<Run>>)
      reads this
      ensures r.Fail? <==> dialect == Postgres && (limit < 0 || offset < 0)
      ensures r.Fail? ==> r.error == DriverError
      ensures r.Ok? ==> r.value == Window(Listing(order, filters), offset, limit)
      ensures r.Ok? && limit >= 0 ==> |r.value| <= limit
      ensures r.Ok? ==> forall x :: x in r.value ==> x in runs && MatchesAll(x, ActiveFilters(filters))
      ensures r.Ok? && order == Asc ==> forall i, j :: 0 <= i < j < |r.value| ==> r.value[i].timestamp <= r.value[j].timestamp
      ensures r.Ok? && order == Desc ==> forall i, j :: 0 <= i < j < |r.value| ==> r.value[i].timestamp >= r.value[j].timestamp
    {
      if dialect == Postgres && (limit < 0 || offset < 0) then Fail(DriverError)
      else
        var sorted := Listing(order, filters);
        var key := if order == Asc then RunTimestamp else NegRunTimestamp;
        assert forall x :: x in sorted ==> x in multiset(FilterRuns(runs, ActiveFilters(filters)));
        WindowKeepsOrder(sorted, offset, limit, key);
        Ok(Window(sorted, offset, limit))
    }

    /** Every run the filters select, ordered by timestamp in the requested direction. */
    function Listing(order: Order, filters: Option<Filters>): (r: seq<Run>)
      reads this
      ensures multiset(r) == multiset(FilterRuns(runs, ActiveFilters(filters)))
      ensures SortedBy(r, if order == Asc then RunTimestamp else NegRunTimestamp)
    {
      SortBy(FilterRuns(runs, ActiveFilters(filters)), if order == Asc then RunTimestamp else NegRunTimestamp)
    }

    /** Page after page, the listing is cut without gaps or overlaps: two pages of `limit` are one of `2 * limit`. */
    lemma PagesTile(limit: nat, offset: nat, order: Order, filters: Option<Filters>)
      ensures GetRuns(limit, offset, order, filters).Ok? && GetRuns(limit, offset + limit, order, filters).Ok?
      ensures GetRuns(limit, offset, order, filters).value + GetRuns(limit, offset + limit, order, filters).value
              == GetRuns(2 * limit, offset, order, filters).value
    {
      WindowsTile(Listing(order, filters), offset, limit);
    }

    /** `getRunsCount`: the number of runs matching the same filter (PostgreSQL parses its text count). */
    function GetRunsCount(filters: Option<Filters>): (n: int)
      reads this
      ensures n == |FilterRuns(runs, ActiveFilters(filters))|
    {
      var count := |FilterRuns(runs, ActiveFilters(filters))|;
      if dialect == Sqlite then count
      else
        ParseIntNatToString(count);
        ParseInt(NatToString(count)).value
    }

    /** A page of the listing never holds more runs than the count reports. */
    lemma ListingWithinCount(limit: int, offset: int, order: Order, filters: Option<Filters>)
      ensures GetRuns(limit, offset, order, filters).Ok? ==>
                |GetRuns(limit, offset, order, filters).value| <= GetRunsCount(filters)
    {
    }

    /** A first page at least as large as the count holds exactly the counted runs. */
    lemma FullPageIsCount(limit: int, order: Order, filters: Option<Filters>)
      requires limit >= GetRunsCount(filters)
      ensures GetRuns(limit, 0, order, filters).Ok?
      ensures |GetRuns(limit, 0, order, filters).value| == GetRunsCount(filters)
      ensures multiset(GetRuns(limit, 0, order, filters).value) == multiset(FilterRuns(runs, ActiveFilters(filters)))
    {
    }

    // ---------------------------------------------------------- writes

    /** `createRun`: a new `scheduled`/`unknown` run stamped `now`, its id returned as text. */
    method CreateRun(now: int) returns (runId: string)
      requires Valid()
      modifies this
      ensures Valid()
      ensures runs == old(runs) + [Run(old(nextRunId), Scheduled, "unknown",
                                       if dialect == Postgres then Some("") else None, now)]
      ensures runId == NatToString(old(nextRunId))
      ensures GetRun(runId) == Ok(runs[|runs| - 1])
      ensures IndexOfRun(runs, runId) == Some(|runs| - 1)
      ensures messages == old(messages) && nextMessageId == old(nextMessageId) && ticks == old(ticks)
      ensures log == old(log) + [CreatedRun(old(nextRunId))]
    {
      var run := Run(nextRunId, Scheduled, "unknown", if dialect == Postgres then Some("") else None, now);
      runs := runs + [run];
      runId := NatToString(nextRunId);
      forall j | 0 <= j < |runs| - 1
        ensures NatToString(runs[j].id) != runId
      {
        NatToStringInjective(runs[j].id, nextRunId);
      }
      nextRunId := nextRunId + 1;
      log := log + [CreatedRun(run.id)];
    }

    /** `updateRunStatus`: "Run not found" and no change, or only that run's status changes. */
    method UpdateRunStatus(runId: string, status: RunStatus) returns (r: Result<Run>)
      requires Valid()
      modifies this
      ensures Valid()
      ensures messages == old(messages) && nextRunId == old(nextRunId) && nextMessageId == old(nextMessageId)
      ensures ticks == old(ticks)
      ensures old(IndexOfRun(runs, runId)).None? ==> r == Fail(RunNotFound) && runs == old(runs) && log == old(log)
      ensures old(IndexOfRun(runs, runId)).Some? ==>
                var i := old(IndexOfRun(runs, runId)).value;
                runs == old(runs)[i := old(runs)[i].(status := status)]
                && r == Ok(runs[i])
                && log == old(log) + [SetStatus(runId, status)]
    {
      match IndexOfRun(runs, runId)
      case None =>
        r := Fail(RunNotFound);
      case Some(i) =>
        runs := runs[i := runs[i].(status := status)];
        r := Ok(runs[i]);
        log := log + [SetStatus(runId, status)];
    }

    /**
     * `updateRunTaskStatus`: "Run not found" and no change, or only that
     * run's task status changes; PostgreSQL also stores the reason (null when
     * none is passed), SQLite has no column for it.
     */
    method UpdateRunTaskStatus(runId: string, taskStatus: string, reason: Option<string>) returns (r: Result<Run>)
      requires Valid()
      modifies this
      ensures Valid()
      ensures messages == old(messages) && nextRunId == old(nextRunId) && nextMessageId == old(nextMessageId)
      ensures ticks == old(ticks)
      ensures old(IndexOfRun(runs, runId)).None? ==> r == Fail(RunNotFound) && runs == old(runs) && log == old(log)
      ensures old(IndexOfRun(runs, runId)).Some? ==>
                var i := old(IndexOfRun(runs, runId)).value;
                runs == old(runs)[i := old(runs)[i].(taskStatus := taskStatus,
                                                       reason := if dialect == Postgres then reason else None)]
                && r == Ok(runs[i])
                && log == old(log) + [SetTaskStatus(runId, taskStatus, reason)]
    {
      match IndexOfRun(runs, runId)
      case None =>
        r := Fail(RunNotFound);
      case Some(i) =>
        runs := runs[i := runs[i].(taskStatus := taskStatus, reason := if dialect == Postgres then reason else None)];
        r := Ok(runs[i]);
        log := log + [SetTaskStatus(runId, taskStatus, reason)];
    }

    /**
     * Whether the driver accepts every row of a batch of `n`: `fault` is the
     * index of the first row it rejects, if any; PostgreSQL also enforces the
     * foreign key from run_id to an existing run.
     */
    predicate Accepts(runId: string, n: nat, fault: Option<nat>)
      reads this
    {
      (fault.None? || fault.value >= n)
      && (dialect == Postgres && n > 0 ==> IndexOfRun(runs, runId).Some?)
    }

    /**
     * In a batch the driver does not accept, the row it rejects: the first
     * when the run_id foreign key fails, else the `fault` row.
     */
    function RejectedAt(runId: string, fault: Option<nat>): (k: nat)
      reads this
      ensures dialect == Postgres && IndexOfRun(runs, runId).None? ==> k == 0
      ensures !(dialect == Postgres && IndexOfRun(runs, runId).None?) ==> k == (if fault.Some? then fault.value else 0)
    {
      if dialect == Postgres && IndexOfRun(runs, runId).None? then 0
      else if fault.Some? then fault.value else 0
    }

    /**
     * `insertMessages`: validate every message (SQLite demands a timestamp,
     * PostgreSQL omits it), then insert all rows in one transaction under the
     * call's runId, each stamped with a clock reading of its own. Either every
     * row is appended in input order and the new ids come back in that order,
     * or the messages table is left exactly as it was.
     */
    method InsertMessages(runId: string, input: seq<Json>, fault: Option<nat>) returns (r: Result<seq<string>>)
      requires Valid()
      modifies this
      ensures Valid()
      ensures runs == old(runs) && nextRunId == old(nextRunId)
      ensures Validate(runId, input, dialect == Sqlite).Fail? ==>
                r == Fail(Validate(runId, input, dialect == Sqlite).error)
                && messages == old(messages) && nextMessageId == old(nextMessageId) && log == old(log)
                && ticks == old(ticks)
      ensures Validate(runId, input, dialect == Sqlite).Ok? && old(Accepts(runId, |input|, fault)) ==>
                var fields := ToFields(codec, Validate(runId, input, dialect == Sqlite).value);
                messages == old(messages) + NewRows(old(nextMessageId), runId, fields, clock, old(ticks))
                && nextMessageId == old(nextMessageId) + |input| && ticks == old(ticks) + |input|
                && r == Ok(IdStrings(old(nextMessageId), |input|))
                && log == old(log) + [InsertedMessages(runId, |input|)]
      ensures Validate(runId, input, dialect == Sqlite).Ok? && !old(Accepts(runId, |input|, fault)) ==>
                r == Fail(DriverError) && messages == old(messages) && log == old(log)
                && (dialect == Sqlite ==> nextMessageId == old(nextMessageId))
                && ticks == old(ticks) + old(RejectedAt(runId, fault)) + 1
    {
      var validated := Validate(runId, input, dialect == Sqlite);
      if validated.Fail? {
        return Fail(validated.error);
      }
      var fields := ToFields(codec, validated.value);
      var ids := WriteRows(runId, fields, fault);
      if ids.None? {
        return Fail(DriverError);
      }
      log := log + [InsertedMessages(runId, |input|)];
      return Ok(ids.value);
    }

    /** ROLLBACK to the table `saved`; a PostgreSQL sequence keeps the values it handed out. */
    method Rollback(saved: seq<DbMessage>, savedNext: nat)
      requires 1 <= savedNext <= nextMessageId && RowIdsValid(saved, savedNext)
      modifies this
      ensures messages == saved && 1 <= nextMessageId && RowIdsValid(messages, nextMessageId)
      ensures nextMessageId == if dialect == Sqlite then savedNext else old(nextMessageId)
      ensures runs == old(runs) && nextRunId == old(nextRunId) && log == old(log) && ticks == old(ticks)
    {
      messages := saved;
      if dialect == Sqlite {
        nextMessageId := savedNext;
      }
      RowIdsValidRaise(saved, savedNext, nextMessageId);
    }

    /** One INSERT: the row takes the next id, which comes back as text. */
    method InsertRow(runId: string, f: DbFields, stamp: int) returns (id: string)
      requires 1 <= nextMessageId && RowIdsValid(messages, nextMessageId)
      modifies this
      ensures messages == old(messages) + [DbMessage(old(nextMessageId), runId, f.msgType, f.content, Some(StoredToolCalls(f)), stamp)]
      ensures nextMessageId == old(nextMessageId) + 1 && RowIdsValid(messages, nextMessageId)
      ensures id == NatToString(old(nextMessageId))
      ensures runs == old(runs) && nextRunId == old(nextRunId) && log == old(log) && ticks == old(ticks)
    {
      var row := DbMessage(nextMessageId, runId, f.msgType, f.content, Some(StoredToolCalls(f)), stamp);
      AppendRowValid(messages, nextMessageId, row);
      messages := messages + [row];
      id := NatToString(nextMessageId);
      nextMessageId := nextMessageId + 1;
    }

    /**
     * The transaction of `insertMessages`: one INSERT per row in order, each
     * taking a fresh clock reading as its argument, then COMMIT, or ROLLBACK
     * at the first row the driver rejects.
     */
    method WriteRows(runId: string, fields: seq<DbFields>, fault: Option<nat>) returns (ids: Option<seq<string>>)
      requires Valid()
      modifies this
      ensures Valid()
      ensures runs == old(runs) && nextRunId == old(nextRunId) && log == old(log)
      ensures ids.Some? <==> old(Accepts(runId, |fields|, fault))
      ensures ids.Some? ==> messages == old(messages) + NewRows(old(nextMessageId), runId, fields, clock, old(ticks))
      ensures ids.Some? ==> nextMessageId == old(nextMessageId) + |fields| && ticks == old(ticks) + |fields|
      ensures ids.Some? ==> ids.value == IdStrings(old(nextMessageId), |fields|)
      ensures ids.None? ==> messages == old(messages) && ticks == old(ticks) + old(RejectedAt(runId, fault)) + 1
      ensures ids.None? && dialect == Sqlite ==> nextMessageId == old(nextMessageId)
    {
      // BEGIN
      var saved := messages;
      var savedNext := nextMessageId;
      var written: seq<string> := [];
      var linked := dialect == Sqlite || IndexOfRun(runs, runId).Some?;
      ghost var found := IndexOfRun(runs, runId).Some?;
      var i := 0;
      while i < |fields|
        invariant 0 <= i <= |fields|
        invariant runs == old(runs) && nextRunId == old(nextRunId) && log == old(log)
        invariant saved == old(messages) && savedNext == old(nextMessageId)
        invariant nextMessageId == savedNext + i && ticks == old(ticks) + i
        invariant messages == saved + NewRows(savedNext, runId, fields[..i], clock, old(ticks))
        invariant written == IdStrings(savedNext, i)
        invariant 1 <= nextMessageId && RowIdsValid(messages, nextMessageId)
        invariant fault.None? || fault.value >= i
        invariant i > 0 ==> linked
        invariant linked == (dialect == Sqlite || found)
      {
        var stamp := clock(ticks);
        ticks := ticks + 1;
        if fault == Some(i) || !linked {
          Rollback(saved, savedNext);
          return None;
        }
        NewRowsSnoc(savedNext, runId, fields, clock, old(ticks), i);
        var id := InsertRow(runId, fields[i], stamp);
        written := written + [id];
        i := i + 1;
      }
      // COMMIT
      assert fields[..i] == fields;
      return Some(written);
    }
  }
}
