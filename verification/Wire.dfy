/** Client-facing events of the three protocols, and the small shared translation kernels. */
module Wire {

  datatype Option<+T> = None | Some(value: T)

  datatype Result<+T, +X> = Ok(value: T) | Err(error: X)

  /** Error classes the converters report. */
  datatype Failure = Translation | Unsupported | Upstream(status: int)

  datatype BlockKind = TextKind | ToolKind(id: string, name: string)

  datatype Delta = TextPart(text: string) | JsonPart(json: string)

  /** One Responses output item; an announced item starts with empty text or arguments. */
  datatype Item = MessageItem(id: string, text: string) | CallItem(callId: string, name: string, args: string)

  datatype ClaudeTokens = ClaudeTokens(input: int, output: int, cacheRead: Option<int>, cacheWrite: Option<int>)

  datatype ResponsesTokens = ResponsesTokens(
    input: int, output: int, total: int, cached: Option<int>, cacheWrite: Option<int>, reasoning: Option<int>)

  datatype Event =
    // verbatim passthrough of upstream bytes
    | Raw(bytes: string)
    // Anthropic Messages
    | MessageStart(id: string, model: string, inputTokens: int)
    | BlockStart(index: int, kind: BlockKind)
    | BlockDelta(index: int, delta: Delta)
    | BlockStop(index: int)
    | MessageDelta(stopReason: string, claudeTokens: ClaudeTokens)
    | MessageStop
    // OpenAI Responses
    | Created(id: string)
    | ItemAdded(index: int, item: Item)
    | TextDelta(itemId: string, index: int, text: string)
    | ArgsDelta(itemId: string, index: int, text: string)
    | Completed(id: string, model: string, status: string, tokens: ResponsesTokens, output: seq<Item>)
    // Chat Completions
    | RoleChunk
    | ContentChunk(text: string)
    | CallOpening(index: int, id: string, name: string, text: string)
    | CallArgs(index: int, text: string)
    | FinishChunk(reason: string, tokens: ResponsesTokens)

  // ---- text kernels ----

  predicate IsSpace(c: char) {
    c in " \t\n\r" || c == '\U{0B}' || c == '\U{0C}'
  }

  function TrimLeft(s: string): (r: string)
    ensures |r| <= |s|
    decreases |s|
  {
    if s != "" && IsSpace(s[0]) then TrimLeft(s[1..]) else s
  }

  function TrimRight(s: string): (r: string)
    ensures |r| <= |s|
    decreases |s|
  {
    if s != "" && IsSpace(s[|s| - 1]) then TrimRight(s[..|s| - 1]) else s
  }

  function TrimSpace(s: string): string {
    TrimRight(TrimLeft(s))
  }

  predicate HasPrefix(s: string, prefix: string) {
    |prefix| <= |s| && s[..|prefix|] == prefix
  }

  /** Absent, blank and JSON-null tool arguments become the empty object. */
  function DefaultArgs(args: string): string {
    var s := TrimSpace(args);
    if s == "" || s == "null" then "{}" else args
  }

  lemma DefaultArgsIdempotent(args: string)
    ensures DefaultArgs(DefaultArgs(args)) == DefaultArgs(args)
  {
    assert TrimLeft("{}") == "{}" && TrimRight("{}") == "{}";
    assert "{}"[0] == '{' && "null"[0] == 'n';
  }

  predicate AllSpace(s: string) {
    forall i :: 0 <= i < |s| ==> IsSpace(s[i])
  }

  /** No white space at either end. */
  predicate Trimmed(s: string) {
    s != "" ==> !IsSpace(s[0]) && !IsSpace(s[|s| - 1])
  }

  /** `s` is `core` with white space around it. */
  ghost predicate Padded(s: string, core: string) {
    Trimmed(core) && exists a, b :: AllSpace(a) && AllSpace(b) && s == a + core + b
  }

  lemma {:induction false} TrimLeftIs(s: string) returns (a: string)
    ensures AllSpace(a) && s == a + TrimLeft(s) && (TrimLeft(s) != "" ==> !IsSpace(TrimLeft(s)[0]))
    decreases |s|
  {
    a := "";
    if s != "" && IsSpace(s[0]) {
      var rest := TrimLeftIs(s[1..]);
      a := [s[0]] + rest;
      assert s == [s[0]] + s[1..];
    }
  }

  lemma {:induction false} TrimRightIs(s: string) returns (b: string)
    ensures AllSpace(b) && s == TrimRight(s) + b && (TrimRight(s) != "" ==> !IsSpace(TrimRight(s)[|TrimRight(s)| - 1]))
    ensures TrimRight(s) <= s
    decreases |s|
  {
    b := "";
    if s != "" && IsSpace(s[|s| - 1]) {
      var n := |s| - 1;
      var rest := TrimRightIs(s[..n]);
      b := rest + [s[n]];
      assert s == s[..n] + [s[n]];
    }
  }

  lemma OnlySpace(a: string, core: string, b: string)
    requires AllSpace(a + core + b) && Trimmed(core)
    ensures core == ""
  {
    var s := a + core + b;
    forall i | 0 <= i < |core| ensures IsSpace(core[i]) {
      assert s[|a| + i] == core[i];
    }
  }

  /** Two ways of seeing the padding leave the same core. */
  lemma {:induction false} OneCore(a: string, core: string, b: string, a': string, core': string, b': string)
    requires AllSpace(a) && AllSpace(b) && AllSpace(a') && AllSpace(b') && Trimmed(core) && Trimmed(core')
    requires a + core + b == a' + core' + b'
    ensures core == core'
  {
    var s := a + core + b;
    if core == "" {
      assert s == a + b;
      OnlySpace(a', core', b');
    } else if core' == "" {
      assert s == a' + b';
      OnlySpace(a, core, b);
    } else {
      assert s[|a|] == core[0] && s[|a'|] == core'[0];
      assert |a| == |a'|;
      var e, e' := |a| + |core|, |a'| + |core'|;
      assert s[e - 1] == core[|core| - 1] && s[e' - 1] == core'[|core'| - 1];
      assert forall i :: e <= i < |s| ==> s[i] == b[i - e];
      assert forall i :: e' <= i < |s| ==> s[i] == b'[i - e'];
      assert e == e';
      assert core == s[|a|..e] && core' == s[|a'|..e'];
    }
  }

  /** Trimming takes away exactly the white space around a text. */
  lemma TrimSpaceIff(s: string, core: string)
    ensures TrimSpace(s) == core <==> Padded(s, core)
  {
    var a := TrimLeftIs(s);
    var b := TrimRightIs(TrimLeft(s));
    var t := TrimSpace(s);
    assert s == a + t + b;
    assert Trimmed(t) by {
      if t != "" {
        assert t[0] == TrimLeft(s)[0];
      }
    }
    if Padded(s, core) {
      var c, d :| AllSpace(c) && AllSpace(d) && s == c + core + d;
      OneCore(a, t, b, c, core, d);
    }
  }

  /** Arguments count as absent exactly when nothing, or a null, stands between white space; others are kept as they are. */
  lemma DefaultArgsIff(args: string)
    ensures DefaultArgs(args) == if Padded(args, "") || Padded(args, "null") then "{}" else args
  {
    TrimSpaceIff(args, "");
    TrimSpaceIff(args, "null");
  }

  // ---- usage kernels, on 64-bit two's-complement counters ----

  predicate IsInt64(x: int) {
    -0x8000_0000_0000_0000 <= x < 0x8000_0000_0000_0000
  }

  function Wrap64(x: int): (r: int)
    ensures IsInt64(r)
    ensures IsInt64(x) ==> r == x
  {
    if IsInt64(x) then x
    else (x + 0x8000_0000_0000_0000) % 0x1_0000_0000_0000_0000 - 0x8000_0000_0000_0000
  }

  function OrZero(v: Option<int>): int {
    if v.Some? then v.value else 0
  }

  function SubtractAll(value: int, parts: seq<Option<int>>): int
    decreases |parts|
  {
    if parts == [] then value
    else SubtractAll(if parts[0].Some? then Wrap64(value - parts[0].value) else value, parts[1..])
  }

  function ClampSubtract(value: int, parts: seq<Option<int>>): int {
    var v := SubtractAll(value, parts);
    if v < 0 then 0 else v
  }

  function ResponsesTokensFrom(
    input: int, output: int, cached: Option<int>, cacheWrite: Option<int>, reasoning: Option<int>): ResponsesTokens
  {
    ResponsesTokens(input, output, Wrap64(input + output), cached, cacheWrite, reasoning)
  }

  // ---- stop-reason and status tables ----

  function FinishToClaudeStop(finish: string): string {
    if finish == "tool_calls" then "tool_use"
    else if finish == "length" then "max_tokens"
    else if finish == "content_filter" then "refusal"
    else "end_turn"
  }

  function ClaudeStopToFinish(stop: string): string {
    if stop == "tool_use" then "tool_calls"
    else if stop == "max_tokens" then "length"
    else if stop == "refusal" then "content_filter"
    else "stop"
  }

  function TerminalReason(toolCallsSeen: bool, toolReason: string, statusReason: string): string {
    if toolCallsSeen then toolReason else statusReason
  }

  function StatusFromFinish(finish: string): string {
    if finish == "length" then "incomplete" else "completed"
  }

  function StatusFromClaudeStop(stop: string): string {
    if stop == "max_tokens" then "incomplete" else "completed"
  }

  function FinishFromStatus(status: string): string {
    if status == "incomplete" then "length" else "stop"
  }

  function ClaudeStopFromStatus(status: string): string {
    if status == "incomplete" then "max_tokens" else "end_turn"
  }

  /**
   * The tables agree with each other: a stop reason survives the way to Chat Completions and back, and
   * both ways of telling how a response ended give the same status, from which the plain stop reason
   * and finish reason come back.
   */
  lemma TablesAgree(stop: string, finish: string)
    ensures stop in {"end_turn", "tool_use", "max_tokens", "refusal"} ==> FinishToClaudeStop(ClaudeStopToFinish(stop)) == stop
    ensures finish in {"stop", "tool_calls", "length", "content_filter"} ==> ClaudeStopToFinish(FinishToClaudeStop(finish)) == finish
    ensures StatusFromClaudeStop(FinishToClaudeStop(finish)) == StatusFromFinish(finish)
    ensures StatusFromFinish(ClaudeStopToFinish(stop)) == StatusFromClaudeStop(stop)
    ensures stop in {"end_turn", "max_tokens"} ==> ClaudeStopFromStatus(StatusFromClaudeStop(stop)) == stop
    ensures finish in {"stop", "length"} ==> FinishFromStatus(StatusFromFinish(finish)) == finish
    ensures StatusFromFinish(finish) in {"completed", "incomplete"}
  {
    var s1, s2, s3, s4 := "end_turn", "tool_use", "max_tokens", "refusal";
    assert s1[0] == 'e' && s2[0] == 't' && s3[0] == 'm' && s4[0] == 'r';
    var f1, f2, f3, f4 := "stop", "tool_calls", "length", "content_filter";
    assert f1[0] == 's' && f2[0] == 't' && f3[0] == 'l' && f4[0] == 'c';
    assert "completed"[0] != "incomplete"[0];
  }
}
