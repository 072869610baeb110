/**
 * `extractTaskStatus`: the verdict a run ends with, read from the agent's
 * messages. Each message whose string content holds a fenced JSON block
 * (the first match of the pattern ```json\s*({[\s\S]*?})\s*```) with a
 * string `taskStatus` and a string `reason` replaces the verdict so far.
 */
module TaskStatus {
  import opened Js
  import opened LcMappers

  datatype Verdict = Verdict(taskStatus: string, reason: string)

  /** The verdict when no message expresses one. */
  const Unknown := Verdict("unknown", "Ai didn't express a reason")

  /** The index of the first non-whitespace character at or after `i`. */
  function SkipSpaces(s: string, i: nat): (j: nat)
    requires i <= |s|
    ensures i <= j <= |s|
    ensures forall k :: i <= k < j ==> IsSpace(s[k])
    ensures j < |s| ==> !IsSpace(s[j])
  {
    var n := SpaceRun(s[i..]);
    assert forall k :: i <= k < i + n ==> s[k] == s[i..][k - i];
    i + n
  }

  predicate HasAt(s: string, i: nat, lit: string)
  {
    i + |lit| <= |s| && s[i..i + |lit|] == lit
  }

  /** `}` at `e`, then optional whitespace, then the closing fence. */
  predicate ClosesAt(s: string, e: nat)
  {
    e < |s| && s[e] == '}' && HasAt(s, SkipSpaces(s, e + 1), "```")
  }

  /** The lazy `[\s\S]*?}`: the first `}` from `j` on that the closing fence follows. */
  function FirstClose(s: string, j: nat): (r: Option<nat>)
    requires j <= |s|
    ensures r.Some? ==> j <= r.value < |s| && ClosesAt(s, r.value)
    ensures r.Some? ==> forall e :: j <= e < r.value ==> !ClosesAt(s, e)
    ensures r.None? ==> forall e :: j <= e < |s| ==> !ClosesAt(s, e)
    decreases |s| - j
  {
    if j == |s| then None
    else if ClosesAt(s, j) then Some(j)
    else FirstClose(s, j + 1)
  }

  /**
   * The match starting at `p`, if any, as the text of its capture group:
   * ```json, whitespace, then `{` through the first `}` that closes.
   */
  function MatchAt(s: string, p: nat): (r: Option<string>)
    ensures r.Some? ==> HasAt(s, p, "```json")
    ensures r.Some? ==> |r.value| >= 2 && r.value[0] == '{' && r.value[|r.value| - 1] == '}'
  {
    if !HasAt(s, p, "```json") then None
    else
      var b := SkipSpaces(s, p + 7);
      if b == |s| || s[b] != '{' then None
      else
        match FirstClose(s, b + 1)
        case None => None
        case Some(e) => Some(s[b..e + 1])
  }

  /** The first position in [p, n) at which `at` finds something, and what it finds there. */
  function Leftmost(at: nat -> Option<string>, p: nat, n: nat): Option<string>
    decreases n - p
  {
    if p >= n then None
    else if at(p).Some? then at(p)
    else Leftmost(at, p + 1, n)
  }

  lemma {:induction false} LeftmostFirst(at: nat -> Option<string>, p: nat, n: nat)
    ensures var r := Leftmost(at, p, n);
            r.Some? ==> exists q :: p <= q < n && at(q) == r && forall k :: p <= k < q ==> at(k).None?
    ensures Leftmost(at, p, n).None? ==> forall q :: p <= q < n ==> at(q).None?
    decreases n - p
  {
    if p < n && at(p).None? {
      LeftmostFirst(at, p + 1, n);
      var r := Leftmost(at, p, n);
      if r.Some? {
        var q :| p + 1 <= q < n && at(q) == r && forall k :: p + 1 <= k < q ==> at(k).None?;
        assert forall k :: p <= k < q ==> at(k).None?;
      }
    }
  }

  function Matcher(s: string): nat -> Option<string>
  {
    (q: nat) => MatchAt(s, q)
  }

  /** `content.match(...)`: the match at the leftmost starting position. */
  function FindBlock(s: string): Option<string>
  {
    Leftmost(Matcher(s), 0, |s|)
  }

  /**
   * The block found is the one matched at the first position that matches
   * at all; no position matching means no block.
   */
  lemma FindBlockLeftmost(s: string)
    ensures FindBlock(s).Some? ==>
              exists q :: 0 <= q < |s| && Matcher(s)(q) == FindBlock(s) && forall k :: 0 <= k < q ==> Matcher(s)(k).None?
    ensures FindBlock(s).None? <==> forall q :: 0 <= q < |s| ==> Matcher(s)(q).None?
  {
    LeftmostFirst(Matcher(s), 0, |s|);
  }

  /** Text with no opening fence has no block. */
  lemma NoFenceNoBlock(s: string)
    requires forall q :: 0 <= q < |s| ==> !HasAt(s, q, "```json")
    ensures FindBlock(s).None?
  {
    FindBlockLeftmost(s);
    forall q | 0 <= q < |s|
      ensures Matcher(s)(q).None?
    {
      assert Matcher(s)(q) == MatchAt(s, q);
    }
  }

  /** `taskStatusSchema.safeParse`: an object with string `taskStatus` and `reason`; other keys are dropped. */
  function ParseVerdict(j: Json): (r: Option<Verdict>)
    ensures r.Some? <==> j.JObj? && Get(j, "taskStatus").Some? && Get(j, "taskStatus").value.JStr?
                         && Get(j, "reason").Some? && Get(j, "reason").value.JStr?
    ensures r.Some? ==> r.value == Verdict(Get(j, "taskStatus").value.s, Get(j, "reason").value.s)
  {
    match (Get(j, "taskStatus"), Get(j, "reason"))
    case (Some(JStr(t)), Some(JStr(why))) => Some(Verdict(t, why))
    case _ => None
  }

  /** `typeof message === "object" && message !== null && "content" in message`, then a string content. */
  function StringContent(m: LcValue): Option<string>
  {
    match m
    case LcMessage(_, fields) =>
      if "content" in fields && fields["content"].JStr? then Some(fields["content"].s) else None
    case LcPlain(Some(JObj(fields))) =>
      if "content" in fields && fields["content"].JStr? then Some(fields["content"].s) else None
    case _ => None
  }

  /**
   * What one message contributes: the verdict in its leftmost block, or
   * nothing when it has none, or when that block fails to parse or validate.
   */
  function Yield(c: Codec, m: LcValue): Option<Verdict>
  {
    match StringContent(m)
    case None => None
    case Some(s) =>
      match FindBlock(s)
      case None => None
      case Some(block) =>
        match c.decode(block)
        case None => None
        case Some(j) => ParseVerdict(j)
  }

  /**
   * `extractTaskStatus`: the reduce over the messages from the `unknown`
   * default, under codec `c`. The verdict is that of the last message with a
   * usable block, or `unknown` when there is none.
   */
  function ExtractTaskStatus(c: Codec, messages: seq<LcValue>): (r: Verdict)
    ensures (forall i :: 0 <= i < |messages| ==> Yield(c, messages[i]).None?) ==> r == Unknown
    ensures forall k :: 0 <= k < |messages| && Yield(c, messages[k]).Some?
                        && (forall i :: k < i < |messages| ==> Yield(c, messages[i]).None?)
                        ==> r == Yield(c, messages[k]).value
    ensures r == Unknown || exists i :: 0 <= i < |messages| && Yield(c, messages[i]) == Some(r)
  {
    assert (forall i :: 0 <= i < |messages| ==> Yield(c, messages[i]).None?) ==> Extract(c, messages) == Unknown by {
      if forall i :: 0 <= i < |messages| ==> Yield(c, messages[i]).None? {
        ExtractDefault(c, messages);
      }
    }
    assert forall k :: 0 <= k < |messages| && Yield(c, messages[k]).Some?
                       && (forall i :: k < i < |messages| ==> Yield(c, messages[i]).None?)
                       ==> Extract(c, messages) == Yield(c, messages[k]).value by {
      forall k | 0 <= k < |messages| && Yield(c, messages[k]).Some?
                 && (forall i :: k < i < |messages| ==> Yield(c, messages[i]).None?)
        ensures Extract(c, messages) == Yield(c, messages[k]).value
      {
        ExtractLastValid(c, messages, k);
      }
    }
    ExtractSource(c, messages);
    Extract(c, messages)
  }

  /** The reduce: a message that yields a verdict replaces the running one. */
  function Extract(c: Codec, messages: seq<LcValue>): Verdict
    decreases |messages|
  {
    if messages == [] then Unknown
    else
      var n := |messages| - 1;
      match Yield(c, messages[n])
      case Some(v) => v
      case None => Extract(c, messages[..n])
  }

  /** No message with a valid block (the empty list included) gives the default verdict. */
  lemma {:induction false} ExtractDefault(c: Codec, messages: seq<LcValue>)
    requires forall i :: 0 <= i < |messages| ==> Yield(c, messages[i]).None?
    ensures Extract(c, messages) == Unknown
    decreases |messages|
  {
    if messages != [] {
      var n := |messages| - 1;
      assert forall i :: 0 <= i < n ==> messages[..n][i] == messages[i];
      ExtractDefault(c, messages[..n]);
    }
  }

  /** The last message with a valid block wins; messages after it do not reset the verdict. */
  lemma {:induction false} ExtractLastValid(c: Codec, messages: seq<LcValue>, k: nat)
    requires k < |messages| && Yield(c, messages[k]).Some?
    requires forall i :: k < i < |messages| ==> Yield(c, messages[i]).None?
    ensures Extract(c, messages) == Yield(c, messages[k]).value
    decreases |messages|
  {
    var n := |messages| - 1;
    if k < n {
      assert forall i :: 0 <= i < n ==> messages[..n][i] == messages[i];
      ExtractLastValid(c, messages[..n], k);
    }
  }

  /** The verdict is always the default or one that some message expressed. */
  lemma {:induction false} ExtractSource(c: Codec, messages: seq<LcValue>)
    ensures Extract(c, messages) == Unknown
            || exists i :: 0 <= i < |messages| && Yield(c, messages[i]) == Some(Extract(c, messages))
    decreases |messages|
  {
    if messages != [] {
      var n := |messages| - 1;
      if Yield(c, messages[n]).None? {
        ExtractSource(c, messages[..n]);
        if Extract(c, messages) != Unknown {
          var i :| 0 <= i < n && Yield(c, messages[..n][i]) == Some(Extract(c, messages[..n]));
          assert messages[..n][i] == messages[i];
        }
      }
    }
  }

  /** A message without string content, a non-object or null leaves the verdict as it was. */
  lemma NoContentIgnored(c: Codec, messages: seq<LcValue>, m: LcValue)
    requires StringContent(m).None?
    ensures ExtractTaskStatus(c, messages + [m]) == ExtractTaskStatus(c, messages)
  {
    assert (messages + [m])[..|messages|] == messages;
  }

  /** Only the leftmost block counts: when it is unusable, the message contributes nothing. */
  lemma LeftmostOnly(c: Codec, messages: seq<LcValue>, m: LcValue, s: string, block: string)
    requires StringContent(m) == Some(s) && FindBlock(s) == Some(block)
    requires c.decode(block).None? || ParseVerdict(c.decode(block).value).None?
    ensures ExtractTaskStatus(c, messages + [m]) == ExtractTaskStatus(c, messages)
  {
    assert (messages + [m])[..|messages|] == messages;
  }
}
