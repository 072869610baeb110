/**
 * The prompt helpers: `evaluateTask`, which asks the agent for a fenced
 * `{taskStatus, reason}` block, and `lcHumanMessageToParameterizedMessage`,
 * which fills the template of a human message's text content.
 */
module Prompts {
  import opened Js
  import opened LcMappers

  // ------------------------------------------------------------- lines

  /** `s.split("\n")`: the lines of `s`; a trailing break leaves an empty last line. */
  function Lines(s: string): (r: seq<string>)
    ensures |r| >= 1
    decreases |s|
  {
    if s == [] then [""]
    else
      var r := Lines(s[1..]);
      if s[0] == '\n' then [""] + r else [[s[0]] + r[0]] + r[1..]
  }

  /** A line without a break, followed by a break, is the first line and the rest are the lines after it. */
  lemma {:induction false} LinesAfterLine(a: string, b: string)
    requires '\n' !in a
    ensures Lines(a + "\n" + b) == [a] + Lines(b)
    decreases |a|
  {
    if a == [] {
      assert a + "\n" + b == ['\n'] + b;
    } else {
      var s := a + "\n" + b;
      assert s[1..] == a[1..] + "\n" + b;
      assert a[0] != '\n';
      LinesAfterLine(a[1..], b);
      assert [a[0]] + a[1..] == a;
    }
  }

  /** Each of `lines` followed by a break, then `rest`: the shape of a multi-line template literal. */
  function Layout(lines: seq<string>, rest: string): string
    decreases |lines|
  {
    if lines == [] then rest else lines[0] + "\n" + Layout(lines[1..], rest)
  }

  /** Laid-out lines without breaks of their own come back out as the first lines. */
  lemma {:induction false} LinesOfLayout(lines: seq<string>, rest: string)
    requires forall i :: 0 <= i < |lines| ==> '\n' !in lines[i]
    ensures Lines(Layout(lines, rest)) == lines + Lines(rest)
    decreases |lines|
  {
    if lines != [] {
      var tail := lines[1..];
      forall i | 0 <= i < |tail|
        ensures '\n' !in tail[i]
      {
        assert tail[i] == lines[i + 1];
      }
      LinesOfLayout(tail, rest);
      var after := Layout(tail, rest);
      LinesAfterLine(lines[0], after);
      assert lines == [lines[0]] + tail;
    }
  }

  /** The layout's first lines are the laid-out ones, and at least one line follows them. */
  lemma LayoutHead(lines: seq<string>, rest: string)
    requires forall i :: 0 <= i < |lines| ==> '\n' !in lines[i]
    ensures |Lines(Layout(lines, rest))| > |lines| && Lines(Layout(lines, rest))[..|lines|] == lines
  {
    LinesOfLayout(lines, rest);
  }

  /** Two layouts of equally many one-line texts over the same text have the same lines after them. */
  lemma LayoutSameTail(lines: seq<string>, others: seq<string>, rest: string)
    requires |lines| == |others|
    requires forall i :: 0 <= i < |lines| ==> '\n' !in lines[i]
    requires forall i :: 0 <= i < |others| ==> '\n' !in others[i]
    ensures var a, b := Lines(Layout(lines, rest)), Lines(Layout(others, rest));
            |a| > |lines| && |b| > |others| && a[|lines|..] == b[|others|..]
  {
    LinesOfLayout(lines, rest);
    LinesOfLayout(others, rest);
    assert (lines + Lines(rest))[|lines|..] == Lines(rest);
    assert (others + Lines(rest))[|others|..] == Lines(rest);
  }

  /** A layout over `a + b` ends with `b`. */
  lemma {:induction false} LayoutEndsWith(lines: seq<string>, a: string, b: string)
    ensures var s := Layout(lines, a + b); |s| >= |b| && s[|s| - |b|..] == b
    decreases |lines|
  {
    var s := Layout(lines, a + b);
    if lines == [] {
      assert s[|s| - |b|..] == b;
    } else {
      LayoutEndsWith(lines[1..], a, b);
      var t := Layout(lines[1..], a + b);
      assert s == (lines[0] + "\n") + t;
      assert s[|s| - |b|..] == t[|t| - |b|..];
    }
  }

  // ------------------------------------------------------------- evaluateTask

  /** One criterion line: `lead`, the criterion and a full stop when the criterion is given and non-empty, else nothing. */
  function Criterion(lead: string, c: Option<string>): (line: string)
  {
    if c.Some? && c.value != "" then lead + c.value + "." else ""
  }

  const SuccessLead := "- The success criteria is "
  const FailureLead := "- The failure criteria is "
  const NeedHelpLead := "- The need human help criteria is "

  /** What follows the criteria and precedes the fence. The line continuation after "done." joins the two sentences without a space. */
  const Request: string :=
    "if any of these criteria are met, the task is considered done.you should output a message in the following format:\n\n"

  /** The block the agent is asked to answer with. */
  const Fence: string :=
    "```json\n{\n\"taskStatus\": \"success\" | \"failure\" | \"needHumanHelp\",\n\"reason\": \"The issue you're facing\"\n}\n```"

  /** What follows the fence. */
  const Closing: string :=
    "\n\nif the task is not successful, clearly explain the reason you're facing and what you've tried so far.\n"

  /** The heading and the three criterion lines, some of which may be empty. */
  function Heading(success: Option<string>, failure: Option<string>, needHumanHelp: Option<string>): seq<string>
  {
    ["Important:", Criterion(SuccessLead, success), Criterion(FailureLead, failure), Criterion(NeedHelpLead, needHumanHelp)]
  }

  /**
   * `evaluateTask`: the heading, the three criterion lines, then the
   * instructions; whatever the criteria, the prompt opens with the heading
   * line and closes with the answer block and the closing request.
   */
  function EvaluateTask(success: Option<string>, failure: Option<string>, needHumanHelp: Option<string>): (r: string)
    ensures |r| >= 11 && r[..11] == "Important:\n"
    ensures |r| >= |Fence + Closing| && r[|r| - |Fence + Closing|..] == Fence + Closing
  {
    var h := Heading(success, failure, needHumanHelp);
    LayoutEndsWith(h, Request, Fence + Closing);
    assert Layout(h, Request + (Fence + Closing)) == ("Important:" + "\n") + Layout(h[1..], Request + (Fence + Closing));
    Layout(h, Request + (Fence + Closing))
  }

  /** A criterion written on one line. */
  predicate OneLine(c: Option<string>)
  {
    c.None? || '\n' !in c.value
  }

  /** A criterion line built from a one-line lead and a one-line criterion is one line. */
  lemma CriterionOneLine(lead: string, c: Option<string>)
    requires '\n' !in lead && OneLine(c)
    ensures '\n' !in Criterion(lead, c)
  {
    if c.Some? && c.value != "" {
      assert Criterion(lead, c) == lead + c.value + ".";
    }
  }

  lemma HeadingOneLine(success: Option<string>, failure: Option<string>, needHumanHelp: Option<string>)
    requires OneLine(success) && OneLine(failure) && OneLine(needHumanHelp)
    ensures var h := Heading(success, failure, needHumanHelp); forall i :: 0 <= i < |h| ==> '\n' !in h[i]
  {
    assert '\n' !in SuccessLead && '\n' !in FailureLead && '\n' !in NeedHelpLead && '\n' !in "Important:";
    CriterionOneLine(SuccessLead, success);
    CriterionOneLine(FailureLead, failure);
    CriterionOneLine(NeedHelpLead, needHumanHelp);
  }

  /**
   * With criteria written on one line, the prompt's first lines are the
   * heading and one line per criterion, in the order success, failure,
   * need human help. Each criterion line holds its sentence exactly when
   * that criterion is given and non-empty; an absent or empty criterion
   * leaves an empty line.
   */
  lemma CriterionLines(success: Option<string>, failure: Option<string>, needHumanHelp: Option<string>)
    requires OneLine(success) && OneLine(failure) && OneLine(needHumanHelp)
    ensures var lines := Lines(EvaluateTask(success, failure, needHumanHelp));
            |lines| > 4 && lines[0] == "Important:"
            && (lines[1] != "" <==> success.Some? && success.value != "")
            && (lines[2] != "" <==> failure.Some? && failure.value != "")
            && (lines[3] != "" <==> needHumanHelp.Some? && needHumanHelp.value != "")
            && (success.Some? && success.value != "" ==> lines[1] == SuccessLead + success.value + ".")
            && (failure.Some? && failure.value != "" ==> lines[2] == FailureLead + failure.value + ".")
            && (needHumanHelp.Some? && needHumanHelp.value != "" ==>
                  lines[3] == NeedHelpLead + needHumanHelp.value + ".")
  {
    var h := Heading(success, failure, needHumanHelp);
    HeadingOneLine(success, failure, needHumanHelp);
    LayoutHead(h, Request + (Fence + Closing));
    var lines := Lines(EvaluateTask(success, failure, needHumanHelp));
    assert lines[1] == lines[..4][1] == h[1];
    assert lines[2] == lines[..4][2] == h[2];
    assert lines[3] == lines[..4][3] == h[3];
  }

  /** The lines after the criteria are the same whatever the one-line criteria are. */
  lemma InstructionsFixed(success: Option<string>, failure: Option<string>, needHumanHelp: Option<string>,
                          success': Option<string>, failure': Option<string>, needHumanHelp': Option<string>)
    requires OneLine(success) && OneLine(failure) && OneLine(needHumanHelp)
    requires OneLine(success') && OneLine(failure') && OneLine(needHumanHelp')
    ensures var a, b := Lines(EvaluateTask(success, failure, needHumanHelp)), Lines(EvaluateTask(success', failure', needHumanHelp'));
            |a| > 4 && |b| > 4 && a[4..] == b[4..]
  {
    HeadingOneLine(success, failure, needHumanHelp);
    HeadingOneLine(success', failure', needHumanHelp');
    LayoutSameTail(Heading(success, failure, needHumanHelp), Heading(success', failure', needHumanHelp'), Request + (Fence + Closing));
  }

  /** Every prompt ends with the fenced JSON block naming `taskStatus` and `reason`, then the closing text. */
  lemma PromptEndsWithFence(success: Option<string>, failure: Option<string>, needHumanHelp: Option<string>)
    ensures var p := EvaluateTask(success, failure, needHumanHelp);
            |p| >= |Fence| + |Closing| && p[|p| - |Fence| - |Closing|..] == Fence + Closing
  {
    LayoutEndsWith(Heading(success, failure, needHumanHelp), Request, Fence + Closing);
  }

  // ---------------------------------------- lcHumanMessageToParameterizedMessage

  /**
   * The message a parameterization rewrites: a LangChain message whose
   * `_getType()` is "human" and whose content is a non-empty string.
   */
  predicate Templated(m: LcValue)
  {
    m.LcMessage? && m.kind == "human"
    && "content" in m.fields && m.fields["content"].JStr? && m.fields["content"].s != ""
  }

  /**
   * `lcHumanMessageToParameterizedMessage(parameters)(message)`, with the
   * template substitution `fill` left abstract. Falsy values, non-objects,
   * objects without a callable `_getType`, non-human messages and messages
   * without a non-empty string content come back as they are; otherwise the
   * result is a message of the same kind whose content is the filled
   * template and whose other fields are the original's.
   */
  function Parameterize(fill: string -> Result<string>, m: LcValue): (r: Result<LcValue>)
    ensures !Templated(m) ==> r == Ok(m)
    ensures Templated(m) ==> (r.Ok? <==> fill(m.fields["content"].s).Ok?)
    ensures Templated(m) && r.Ok? ==>
              r.value.LcMessage? && r.value.kind == m.kind
              && r.value.fields.Keys == m.fields.Keys
              && r.value.fields["content"] == JStr(fill(m.fields["content"].s).value)
              && forall k :: k in m.fields && k != "content" ==> r.value.fields[k] == m.fields[k]
  {
    match m
    case LcMessage(kind, fields) =>
      if kind != "human" then Ok(m)
      else if !("content" in fields) || !fields["content"].JStr? || fields["content"].s == "" then Ok(m)
      else
        (match fill(fields["content"].s)
         case Ok(text) => Ok(LcMessage(kind, fields["content" := JStr(text)]))
         case Fail(e) => Fail(e))
    case _ => Ok(m)
  }

  /** A substitution that leaves every text as it is leaves every message as it is. */
  lemma ParameterizeIdentity(fill: string -> Result<string>, m: LcValue)
    requires forall s :: fill(s) == Ok(s)
    ensures Parameterize(fill, m) == Ok(m)
  {
    if Templated(m) {
      var r := Parameterize(fill, m).value;
      assert r.fields == m.fields;
    }
  }

  /** Parameterizing twice with a substitution that is idempotent is parameterizing once. */
  lemma ParameterizeTwice(fill: string -> Result<string>, m: LcValue)
    requires forall s :: fill(s).Ok? && fill(fill(s).value) == fill(s)
    ensures Parameterize(fill, m).Ok?
    ensures Parameterize(fill, Parameterize(fill, m).value) == Parameterize(fill, m)
  {
    var once := Parameterize(fill, m).value;
    if Templated(m) {
      if Templated(once) {
        var twice := Parameterize(fill, once).value;
        assert twice.fields == once.fields;
      }
    }
  }
}
